/**
 The proleptic Gregorian calendar of Python's `date`, and the two cadence rules.

 A `Date` is its ordinal: day 1 is 0001-01-01 and the last representable day is 9999-12-31.
 */
module Calendar {
  import opened Common

  const MAX_YEAR := 9999
  const MAX_ORDINAL := 3652059

  type Date = n: int | 1 <= n <= MAX_ORDINAL witness 1

  datatype Civil = Civil(year: int, month: int, day: int)

  predicate IsLeap(y: int) {
    y % 4 == 0 && (y % 100 != 0 || y % 400 == 0)
  }

  function DaysInMonth(y: int, m: int): (n: int)
    requires 1 <= m <= 12
    ensures 28 <= n <= 31
  {
    if m == 2 then (if IsLeap(y) then 29 else 28)
    else if m in {4, 6, 9, 11} then 30
    else 31
  }

  function DaysBeforeYear(y: int): (n: int)
    ensures n >= 0 && (y <= 1 ==> n == 0)
    decreases y
  {
    if y <= 1 then 0 else DaysBeforeYear(y - 1) + if IsLeap(y - 1) then 366 else 365
  }

  lemma Quotient(y: int, d: int)
    requires y >= 1 && d in {4, 100, 400}
    ensures y / d == (y - 1) / d + if y % d == 0 then 1 else 0
  {
  }

  lemma LeapCount(y: int)
    requires y >= 1
    ensures y / 4 - y / 100 + y / 400
         == (y - 1) / 4 - (y - 1) / 100 + (y - 1) / 400 + if IsLeap(y) then 1 else 0
  {
    Quotient(y, 4);
    Quotient(y, 100);
    Quotient(y, 400);
    assert y % 400 == 0 ==> y % 100 == 0;
    assert y % 100 == 0 ==> y % 4 == 0;
  }

  /** The closed form the calendar's year count has. */
  lemma {:induction false} DaysBeforeYearClosed(y: int)
    requires y >= 1
    ensures DaysBeforeYear(y) == 365 * (y - 1) + (y - 1) / 4 - (y - 1) / 100 + (y - 1) / 400
    decreases y
  {
    if y > 1 {
      DaysBeforeYearClosed(y - 1);
      LeapCount(y - 1);
    }
  }

  function DaysBeforeMonth(y: int, m: int): (n: int)
    requires 1 <= m <= 13
    ensures 0 <= n && 28 * (m - 1) <= n <= 31 * (m - 1)
    decreases m
  {
    if m == 1 then 0 else DaysBeforeMonth(y, m - 1) + DaysInMonth(y, m - 1)
  }

  predicate ValidCivil(c: Civil) {
    1 <= c.year <= MAX_YEAR && 1 <= c.month <= 12 && 1 <= c.day <= DaysInMonth(c.year, c.month)
  }

  function OrdinalNumber(c: Civil): int
    requires 1 <= c.month <= 12
  {
    DaysBeforeYear(c.year) + DaysBeforeMonth(c.year, c.month) + c.day
  }

  function ToOrdinal(c: Civil): (n: Date)
    requires ValidCivil(c)
  {
    InRange(c);
    OrdinalNumber(c)
  }

  lemma LastYear()
    ensures DaysBeforeYear(MAX_YEAR + 1) == MAX_ORDINAL
  {
    DaysBeforeYearClosed(MAX_YEAR + 1);
  }

  function YearOf(n: int, y: int): (r: int)
    requires 1 <= n <= MAX_ORDINAL && 1 <= y <= MAX_YEAR && DaysBeforeYear(y) < n
    ensures 1 <= r <= MAX_YEAR
    ensures DaysBeforeYear(r) < n <= DaysBeforeYear(r + 1)
    decreases MAX_YEAR - y
  {
    if n <= DaysBeforeYear(y + 1) then y else
      LastYear();
      YearOf(n, y + 1)
  }

  function MonthOf(y: int, rest: int, m: int): (r: int)
    requires 1 <= m <= 12 && DaysBeforeMonth(y, m) < rest <= DaysBeforeMonth(y, 13)
    ensures 1 <= r <= 12
    ensures DaysBeforeMonth(y, r) < rest <= DaysBeforeMonth(y, r + 1)
    decreases 12 - m
  {
    if rest <= DaysBeforeMonth(y, m + 1) then m else MonthOf(y, rest, m + 1)
  }

  /** The year, month and day of a date. */
  function FromOrdinal(n: Date): (c: Civil)
    ensures ValidCivil(c)
  {
    var y := YearOf(n, 1);
    var rest := n - DaysBeforeYear(y);
    YearLength(y);
    var m := MonthOf(y, rest, 1);
    Civil(y, m, rest - DaysBeforeMonth(y, m))
  }

  lemma YearLength(y: int)
    requires y >= 1
    ensures DaysBeforeYear(y + 1) == DaysBeforeYear(y) + DaysBeforeMonth(y, 13)
    ensures DaysBeforeMonth(y, 13) == if IsLeap(y) then 366 else 365
  {
    var before := DaysBeforeMonth(y, 2);
    assert before == 31;
    assert DaysBeforeMonth(y, 3) == 31 + DaysInMonth(y, 2);
    assert DaysBeforeMonth(y, 5) == DaysBeforeMonth(y, 3) + 61;
    assert DaysBeforeMonth(y, 7) == DaysBeforeMonth(y, 5) + 61;
    assert DaysBeforeMonth(y, 9) == DaysBeforeMonth(y, 7) + 62;
    assert DaysBeforeMonth(y, 11) == DaysBeforeMonth(y, 9) + 61;
    assert DaysBeforeMonth(y, 13) == DaysBeforeMonth(y, 11) + 61;
  }

  lemma {:induction false} DaysBeforeYearGrows(a: int, b: int)
    requires 1 <= a <= b
    ensures DaysBeforeYear(a) + 365 * (b - a) <= DaysBeforeYear(b)
    decreases b - a
  {
    if a < b {
      DaysBeforeYearGrows(a, b - 1);
      YearLength(b - 1);
    }
  }

  lemma {:induction false} DaysBeforeMonthGrows(y: int, a: int, b: int)
    requires 1 <= a <= b <= 13
    ensures DaysBeforeMonth(y, a) + 28 * (b - a) <= DaysBeforeMonth(y, b)
    decreases b - a
  {
    if a < b {
      DaysBeforeMonthGrows(y, a, b - 1);
    }
  }

  lemma InRange(c: Civil)
    requires ValidCivil(c)
    ensures 1 <= OrdinalNumber(c) <= MAX_ORDINAL
    ensures DaysBeforeYear(c.year) < OrdinalNumber(c) <= DaysBeforeYear(c.year + 1)
  {
    DaysBeforeYearGrows(1, c.year);
    DaysBeforeYearGrows(c.year + 1, MAX_YEAR + 1);
    LastYear();
    YearLength(c.year);
    DaysBeforeMonthGrows(c.year, c.month + 1, 13);
    assert DaysBeforeMonth(c.year, c.month + 1) == DaysBeforeMonth(c.year, c.month) + DaysInMonth(c.year, c.month);
  }

  /** Reading a date's fields and writing them back gives the same date. */
  lemma OrdinalRoundTrip(n: Date)
    ensures ToOrdinal(FromOrdinal(n)) == n
  {
  }

  /** Writing a civil date and reading it back gives the same fields. */
  lemma CivilRoundTrip(c: Civil)
    requires ValidCivil(c)
    ensures FromOrdinal(ToOrdinal(c)) == c
  {
    hide DaysBeforeYear, DaysBeforeMonth, IsLeap, DaysInMonth, YearOf, MonthOf;
    var n := ToOrdinal(c);
    InRange(c);
    YearUnique(n, c.year);
    var rest := n - DaysBeforeYear(c.year);
    YearLength(c.year);
    MonthEnd(c.year, c.month);
    MonthUnique(c.year, rest, c.month);
  }

  lemma MonthEnd(y: int, m: int)
    requires 1 <= m <= 12
    ensures DaysBeforeMonth(y, m + 1) == DaysBeforeMonth(y, m) + DaysInMonth(y, m)
  {
  }

  lemma YearUnique(n: int, y: int)
    requires 1 <= n <= MAX_ORDINAL && 1 <= y <= MAX_YEAR && DaysBeforeYear(y) < n <= DaysBeforeYear(y + 1)
    requires DaysBeforeYear(1) < n
    ensures YearOf(n, 1) == y
  {
    hide IsLeap, DaysInMonth, DaysBeforeYear;
    var r := YearOf(n, 1);
    if r < y { DaysBeforeYearGrows(r + 1, y); }
    if y < r { DaysBeforeYearGrows(y + 1, r); }
  }

  lemma MonthUnique(y: int, rest: int, m: int)
    requires 1 <= m <= 12 && DaysBeforeMonth(y, m) < rest <= DaysBeforeMonth(y, m + 1)
    requires DaysBeforeMonth(y, 1) < rest <= DaysBeforeMonth(y, 13)
    ensures MonthOf(y, rest, 1) == m
  {
    hide IsLeap, DaysInMonth, DaysBeforeMonth;
    var r := MonthOf(y, rest, 1);
    if r < m { DaysBeforeMonthGrows(y, r + 1, m); }
    if m < r { DaysBeforeMonthGrows(y, m + 1, r); }
  }

  /** Later in the civil order is later in the ordinal order. */
  lemma CivilOrder(a: Civil, b: Civil)
    requires ValidCivil(a) && ValidCivil(b)
    requires a.year < b.year || (a.year == b.year && (a.month < b.month || (a.month == b.month && a.day < b.day)))
    ensures ToOrdinal(a) < ToOrdinal(b)
  {
    hide IsLeap, DaysInMonth, DaysBeforeYear, DaysBeforeMonth;
    InRange(a);
    InRange(b);
    if a.year < b.year {
      DaysBeforeYearGrows(a.year + 1, b.year);
    } else if a.month < b.month {
      MonthEnd(a.year, a.month);
      DaysBeforeMonthGrows(a.year, a.month + 1, b.month);
    }
  }

  /** Monday is 0. */
  function Weekday(n: int): (w: int)
    ensures 0 <= w < 7
  {
    (n + 6) % 7
  }

  // ---- recurrence intervals --------------------------------------------------

  datatype Unit = Day | Week | Month

  /** `{"unit": ..., "every": ...}`; the schema admits 1 to 12. */
  datatype Interval = Interval(unit: Unit, every: int)

  predicate ValidInterval(iv: Interval) {
    1 <= iv.every <= 12
  }

  /** Months since year 1, so that month arithmetic is plain addition. */
  function MonthIndex(c: Civil): int {
    12 * c.year + (c.month - 1)
  }

  function Min(a: int, b: int): int {
    if a <= b then a else b
  }

  /** `every` months after `c`, on the same day or that month's last. */
  function MonthsOn(c: Civil, every: int): (r: Civil)
    requires ValidCivil(c) && 1 <= every <= 12
    ensures MonthIndex(r) == MonthIndex(c) + every && 1 <= r.month <= 12
    ensures r.day == Min(c.day, DaysInMonth(r.year, r.month)) && 1 <= r.day
  {
    var monthIndex := (c.month - 1) + every;
    var year := c.year + monthIndex / 12;
    var month := monthIndex % 12 + 1;
    Civil(year, month, Min(c.day, DaysInMonth(year, month)))
  }

  /** The day a series' next occurrence is due, or `None` past the last date. */
  function NextDue(due: Date, iv: Interval): (r: Option<Date>)
    requires ValidInterval(iv)
  {
    match iv.unit
    case Month =>
      var c := MonthsOn(FromOrdinal(due), iv.every);
      if c.year > MAX_YEAR then None else Some(ToOrdinal(c))
    case Day =>
      if due + iv.every > MAX_ORDINAL then None else Some(due + iv.every)
    case Week =>
      if due + 7 * iv.every > MAX_ORDINAL then None else Some(due + 7 * iv.every)
  }

  /** The next due date is always later, so rolling a series forward must end. */
  lemma NextDueIsLater(due: Date, iv: Interval)
    requires ValidInterval(iv)
    ensures NextDue(due, iv).Some? ==> due < NextDue(due, iv).value
  {
    hide FromOrdinal, ToOrdinal, MonthsOn;
    if iv.unit == Month && NextDue(due, iv).Some? {
      var c := FromOrdinal(due);
      CivilOrder(c, MonthsOn(c, iv.every));
      OrdinalRoundTrip(due);
    }
  }

  /** A month step lands `every` months on, on the same day or that month's last. */
  lemma MonthStep(due: Date, iv: Interval)
    requires ValidInterval(iv) && iv.unit == Month
    ensures NextDue(due, iv).Some? <==> MonthIndex(FromOrdinal(due)) + iv.every < 12 * (MAX_YEAR + 1)
    ensures NextDue(due, iv).Some? ==>
              var before, after := FromOrdinal(due), FromOrdinal(NextDue(due, iv).value);
              && MonthIndex(after) == MonthIndex(before) + iv.every
              && after.day == Min(before.day, DaysInMonth(after.year, after.month))
  {
    hide FromOrdinal, ToOrdinal, MonthsOn, DaysInMonth;
    var c := MonthsOn(FromOrdinal(due), iv.every);
    if c.year <= MAX_YEAR {
      CivilRoundTrip(c);
    }
  }

  // ---- commitment series -----------------------------------------------------

  /** A commitment series' cadence; `days` is its weekday set, if it has one. */
  datatype Series = Series(anchor: Date, iv: Interval, days: set<int>, stop: Option<Date>)

  /** Whether the series has an occurrence on `day`. */
  predicate OccursOn(s: Series, day: Date)
    requires ValidInterval(s.iv)
  {
    && s.anchor <= day
    && (s.stop.Some? ==> day < s.stop.value)
    && match s.iv.unit
       case Day => (day - s.anchor) % s.iv.every == 0
       case Week =>
         if s.days != {} then
           var anchorMonday := s.anchor - Weekday(s.anchor);
           var dayMonday := day - Weekday(day);
           var weeks := (dayMonday - anchorMonday) / 7;
           weeks % s.iv.every == 0 && Weekday(day) in s.days
         else
           (day - s.anchor) % (7 * s.iv.every) == 0
       case Month =>
         var a, d := FromOrdinal(s.anchor), FromOrdinal(day);
         var months := (d.year - a.year) * 12 + (d.month - a.month);
         months % s.iv.every == 0 && d.day == Min(a.day, DaysInMonth(d.year, d.month))
  }

  lemma DivModUnique(x: int, d: int, q: int)
    requires d > 0 && x == d * q
    ensures x / d == q && x % d == 0
  {
    var p, r := x / d, x % d;
    assert x == d * p + r && 0 <= r < d;
    assert d * (q - p) == r;
    if q - p >= 1 {
      TimesAtLeast(d, q - p);
    } else if p - q >= 1 {
      TimesAtLeast(d, p - q);
    }
  }

  lemma TimesAtLeast(d: int, t: int)
    requires d > 0 && t >= 1
    ensures d * t >= d
  {
  }

  lemma MultipleOfBoth(x: int, every: int)
    requires every > 0
    ensures x % (7 * every) == 0 <==> x % 7 == 0 && (x / 7) % every == 0
  {
    if x % (7 * every) == 0 {
      var q := x / (7 * every);
      assert x == 7 * (every * q);
      DivModUnique(x, 7, every * q);
      DivModUnique(every * q, every, q);
    }
    if x % 7 == 0 && (x / 7) % every == 0 {
      var q := x / 7;
      var p := q / every;
      assert q == every * p;
      assert x == (7 * every) * p;
      DivModUnique(x, 7 * every, p);
    }
  }

  /** A weekday set holding just the anchor's weekday is the plain weekly rule. */
  lemma WeeklyFormulasAgree(anchor: Date, every: int, stop: Option<Date>, day: Date)
    requires 1 <= every <= 12
    ensures OccursOn(Series(anchor, Interval(Week, every), {Weekday(anchor)}, stop), day)
       <==> OccursOn(Series(anchor, Interval(Week, every), {}, stop), day)
  {
    MultipleOfBoth(day - anchor, every);
    var anchorMonday, dayMonday := anchor - Weekday(anchor), day - Weekday(day);
    if Weekday(day) == Weekday(anchor) {
      assert dayMonday - anchorMonday == day - anchor;
    }
    assert (day - anchor) % 7 == 0 <==> Weekday(day) == Weekday(anchor);
  }

  /** The Monday on the day or before it. */
  function MondayOf(day: int): (monday: int)
    ensures monday <= day < monday + 7 && Weekday(monday) == 0
  {
    day - Weekday(day)
  }

  /** The `w`-th day, counting from 0, of the week `every * k` weeks after the one that starts on `monday`. */
  function WeekdayAfter(monday: int, every: int, k: nat, w: int): (day: int)
    ensures day == monday + 7 * (every * k) + w
  {
    monday + 7 * (every * k) + w
  }

  /**
   A series on a set of weekdays: from its anchor on, exactly those weekdays of every `every`-th
   week, Monday to Sunday, counted from the week the anchor falls in.
   */
  lemma WeekdaySetDays(anchor: Date, every: int, days: set<int>, day: Date)
    requires 1 <= every <= 12 && days != {} && forall w :: w in days ==> 0 <= w < 7
    ensures OccursOn(Series(anchor, Interval(Week, every), days, None), day)
       <==> anchor <= day && exists k: nat, w :: w in days && day == WeekdayAfter(MondayOf(anchor), every, k, w)
  {
    var monday, dayMonday := MondayOf(anchor), MondayOf(day);
    MondayApart(anchor, day);
    var weeks := (dayMonday - monday) / 7;
    if anchor <= day && weeks % every == 0 && Weekday(day) in days {
      var k := weeks / every;
      QuotientOf(weeks, every);
      assert day == WeekdayAfter(monday, every, k, Weekday(day));
    }
    if k: nat, w :| anchor <= day && w in days && day == WeekdayAfter(monday, every, k, w) {
      OnWeekday(monday, every * k, w);
      assert dayMonday - monday == 7 * (every * k);
      DivModUnique(dayMonday - monday, 7, every * k);
      DivModUnique(every * k, every, k);
    }
  }

  lemma MondayApart(anchor: Date, day: Date)
    ensures var apart := (day - Weekday(day)) - (anchor - Weekday(anchor));
            apart % 7 == 0 && apart == 7 * (apart / 7) && (anchor <= day ==> apart >= 0)
  {
  }

  lemma OnWeekday(monday: int, weeks: int, w: int)
    requires (monday + 6) % 7 == 0 && 0 <= w < 7
    ensures Weekday(monday + 7 * weeks + w) == w
  {
  }

  /** Two days everyone knows: the first of the calendar, and 1 January 2024; both are Mondays. */
  lemma KnownMondays(c: Civil)
    requires ValidCivil(c) && c.month == 1 && c.day == 1
    ensures c.year == 1 ==> ToOrdinal(c) == 1 && Weekday(ToOrdinal(c)) == 0
    ensures c.year == 2024 ==> ToOrdinal(c) == 738886 && Weekday(ToOrdinal(c)) == 0
  {
    hide DaysBeforeYear, DaysInMonth, IsLeap, ToOrdinal;
    NewYear(c);
    DaysBeforeYearClosed(c.year);
  }

  lemma NewYear(c: Civil)
    requires ValidCivil(c) && c.month == 1 && c.day == 1
    ensures ToOrdinal(c) == DaysBeforeYear(c.year) + 1
  {
    hide DaysBeforeYear, DaysInMonth, IsLeap;
    assert DaysBeforeMonth(c.year, 1) == 0;
  }

  /** The lengths of the months, February's by the Gregorian rule. */
  lemma MonthLengths(y: int)
    ensures forall m :: m in {1, 3, 5, 7, 8, 10, 12} ==> DaysInMonth(y, m) == 31
    ensures forall m :: m in {4, 6, 9, 11} ==> DaysInMonth(y, m) == 30
    ensures y % 400 == 0 || (y % 4 == 0 && y % 100 != 0) ==> DaysInMonth(y, 2) == 29
    ensures y % 400 != 0 && (y % 4 != 0 || y % 100 == 0) ==> DaysInMonth(y, 2) == 28
  {
  }

  /** A stop takes away exactly the days from its date on, whatever the cadence. */
  lemma StopCutsOff(s: Series, stop: Date, day: Date)
    requires ValidInterval(s.iv) && s.stop.None?
    ensures OccursOn(s.(stop := Some(stop)), day) <==> OccursOn(s, day) && day < stop
  {
    hide FromOrdinal, DaysInMonth, Weekday;
  }

  /** A day step and a week step, as numbers of days. */
  lemma DayAndWeekStep(due: Date, every: int)
    requires 1 <= every <= 12
    ensures NextDue(due, Interval(Day, every)) == if due + every <= MAX_ORDINAL then Some(due + every) else None
    ensures NextDue(due, Interval(Week, every)) == if due + 7 * every <= MAX_ORDINAL then Some(due + 7 * every) else None
  {
  }

  /** `k` chained steps of `NextDue`, or `None` once a step falls off the calendar. */
  function Chained(start: Date, iv: Interval, k: nat): Option<Date>
    requires ValidInterval(iv)
  {
    if k == 0 then Some(start) else
      var prev := Chained(start, iv, k - 1);
      if prev.None? then None else NextDue(prev.value, iv)
  }

  function StepDays(iv: Interval): int {
    if iv.unit == Week then 7 * iv.every else iv.every
  }

  lemma {:induction false} ChainedDays(start: Date, iv: Interval, k: nat)
    requires ValidInterval(iv) && iv.unit != Month
    ensures Chained(start, iv, k) ==
            if start + StepDays(iv) * k <= MAX_ORDINAL then Some(start + StepDays(iv) * k) else None
  {
    if k > 0 {
      ChainedDays(start, iv, k - 1);
      assert StepDays(iv) * k == StepDays(iv) * (k - 1) + StepDays(iv);
    }
  }

  lemma QuotientOf(x: int, d: int)
    requires d > 0 && x >= 0 && x % d == 0
    ensures x == d * (x / d) && x / d >= 0
  {
  }

  lemma InSteps(anchor: Date, iv: Interval, day: Date)
    requires ValidInterval(iv) && iv.unit != Month
    ensures OccursOn(Series(anchor, iv, {}, None), day)
       <==> anchor <= day && (day - anchor) % StepDays(iv) == 0
  {
    hide FromOrdinal, DaysInMonth;
  }

  /** For day and plain-week units the two rules name the same days. */
  lemma OccurrencesAreTheChain(anchor: Date, iv: Interval, day: Date)
    requires ValidInterval(iv) && iv.unit != Month
    ensures OccursOn(Series(anchor, iv, {}, None), day)
       <==> exists k: nat :: Chained(anchor, iv, k) == Some(day)
  {
    InSteps(anchor, iv, day);
    hide OccursOn, Chained;
    var step := StepDays(iv);
    if anchor <= day && (day - anchor) % step == 0 {
      var k := (day - anchor) / step;
      QuotientOf(day - anchor, step);
      ChainedDays(anchor, iv, k);
      assert Chained(anchor, iv, k) == Some(day);
    }
    if k: nat :| Chained(anchor, iv, k) == Some(day) {
      ChainedDays(anchor, iv, k);
      DivModUnique(day - anchor, step, k);
      TimesNonNegative(step, k);
    }
  }

  lemma TimesNonNegative(d: int, k: nat)
    requires d > 0
    ensures d * k >= 0
  {
  }

  /** The only day of a calendar month a monthly series can fall on. */
  function MonthlyDay(anchor: Date, year: int, month: int): (d: Date)
    requires 1 <= year <= MAX_YEAR && 1 <= month <= 12
  {
    ToOrdinal(Civil(year, month, Min(FromOrdinal(anchor).day, DaysInMonth(year, month))))
  }

  /**
   A monthly series has exactly one occurrence in every `every`-th month from its own on,
   and none in any other month.
   */
  lemma OneOccurrencePerMonth(anchor: Date, every: int, day: Date)
    requires 1 <= every <= 12
    ensures var months := MonthIndex(FromOrdinal(day)) - MonthIndex(FromOrdinal(anchor));
            OccursOn(Series(anchor, Interval(Month, every), {}, None), day)
            <==> months >= 0 && months % every == 0
                 && day == MonthlyDay(anchor, FromOrdinal(day).year, FromOrdinal(day).month)
  {
    hide FromOrdinal, ToOrdinal, DaysInMonth;
    var a, d := FromOrdinal(anchor), FromOrdinal(day);
    OrdinalRoundTrip(anchor);
    OrdinalRoundTrip(day);
    var only := Civil(d.year, d.month, Min(a.day, DaysInMonth(d.year, d.month)));
    CivilRoundTrip(only);
    if MonthIndex(d) < MonthIndex(a) {
      CivilOrder(d, a);
    } else if MonthIndex(d) > MonthIndex(a) {
      CivilOrder(a, d);
    } else if d.day < a.day {
      CivilOrder(d, a);
    } else if a.day < d.day {
      CivilOrder(a, d);
    }
  }

  /** The month a monthly chain stands in after `k` steps. */
  function YearAt(index: int): int { index / 12 }
  function MonthAt(index: int): (m: int) ensures 1 <= m <= 12 { index % 12 + 1 }

  /** The shortest of a start day and the lengths of the months a chain visits. */
  function ShortestVisited(day: int, index: int, every: int, k: nat): int
    decreases k
  {
    if k == 0 then day else
      var here := index + every * k;
      Min(ShortestVisited(day, index, every, k - 1), DaysInMonth(YearAt(here), MonthAt(here)))
  }

  /** A chained monthly series keeps the shortest month it has passed through. */
  lemma {:induction false} ChainedMonthDay(start: Date, every: int, k: nat)
    requires 1 <= every <= 12
    ensures var c := FromOrdinal(start);
            var iv := Interval(Month, every);
            && (Chained(start, iv, k).Some? <==> MonthIndex(c) + every * k < 12 * (MAX_YEAR + 1))
            && (Chained(start, iv, k).Some? ==>
                  var at := FromOrdinal(Chained(start, iv, k).value);
                  && MonthIndex(at) == MonthIndex(c) + every * k
                  && at.day == ShortestVisited(c.day, MonthIndex(c), every, k))
  {
    hide FromOrdinal, ToOrdinal, DaysInMonth, NextDue;
    var iv := Interval(Month, every);
    if k > 0 {
      ChainedMonthDay(start, every, k - 1);
      assert every * k == every * (k - 1) + every;
      var prev := Chained(start, iv, k - 1);
      if prev.Some? {
        MonthStep(prev.value, iv);
      }
    }
  }

  lemma {:induction false} ShortestVisitedBound(day: int, index: int, every: int, k: nat, least: int)
    ensures ShortestVisited(day, index, every, k) >= least
       <==> day >= least && forall j :: 1 <= j <= k ==>
              DaysInMonth(YearAt(index + every * j), MonthAt(index + every * j)) >= least
  {
    if k > 0 {
      ShortestVisitedBound(day, index, every, k - 1, least);
    }
  }

  /**
   The chained rule and the anchored rule part ways on months. The k-th chained date is an
   occurrence of the anchored series exactly when no month passed on the way was shorter than
   the day the anchored rule asks for.
   */
  lemma ChainedMonthAgreesIff(start: Date, every: int, k: nat)
    requires 1 <= every <= 12 && Chained(start, Interval(Month, every), k).Some?
    ensures var c := FromOrdinal(start);
            var here := MonthIndex(c) + every * k;
            OccursOn(Series(start, Interval(Month, every), {}, None), Chained(start, Interval(Month, every), k).value)
            <==> forall j :: 1 <= j < k ==>
                   DaysInMonth(YearAt(MonthIndex(c) + every * j), MonthAt(MonthIndex(c) + every * j))
                   >= Min(c.day, DaysInMonth(YearAt(here), MonthAt(here)))
  {
    hide FromOrdinal, ToOrdinal, DaysInMonth, NextDue, Chained, OccursOn, ShortestVisited;
    var c := FromOrdinal(start);
    var iv := Interval(Month, every);
    ChainedMonthDay(start, every, k);
    var date := Chained(start, iv, k).value;
    var at := FromOrdinal(date);
    var here := MonthIndex(c) + every * k;
    assert at.year == YearAt(here) && at.month == MonthAt(here);
    DivModUnique(every * k, every, k);
    OneOccurrencePerMonth(start, every, date);
    OrdinalRoundTrip(date);
    CivilRoundTrip(Civil(at.year, at.month, Min(c.day, DaysInMonth(at.year, at.month))));
    var want := Min(c.day, DaysInMonth(at.year, at.month));
    ShortestVisitedBound(c.day, MonthIndex(c), every, k, want);
    ShortestVisitedAtMost(c.day, MonthIndex(c), every, k);
  }

  lemma {:induction false} ShortestVisitedAtMost(day: int, index: int, every: int, k: nat)
    ensures ShortestVisited(day, index, every, k) <= day
    ensures k > 0 ==> ShortestVisited(day, index, every, k) <= DaysInMonth(YearAt(index + every * k), MonthAt(index + every * k))
  {
    if k > 0 {
      ShortestVisitedAtMost(day, index, every, k - 1);
    }
  }

  /** The drift is real: 31 January chained twice is 28 March, which is no occurrence. */
  lemma ChainedMonthDrifts()
    ensures var jan31 := ToOrdinal(Civil(2023, 1, 31));
            var iv := Interval(Month, 1);
            && Chained(jan31, iv, 2) == Some(ToOrdinal(Civil(2023, 3, 28)))
            && !OccursOn(Series(jan31, iv, {}, None), ToOrdinal(Civil(2023, 3, 28)))
  {
    hide FromOrdinal, ToOrdinal, DaysBeforeMonth;
    var jan31, iv := ToOrdinal(Civil(2023, 1, 31)), Interval(Month, 1);
    CivilRoundTrip(Civil(2023, 1, 31));
    CivilRoundTrip(Civil(2023, 2, 28));
    CivilRoundTrip(Civil(2023, 3, 28));
    assert Chained(jan31, iv, 0) == Some(jan31);
    assert Chained(jan31, iv, 1) == Some(ToOrdinal(Civil(2023, 2, 28)));
    assert Chained(jan31, iv, 2) == NextDue(ToOrdinal(Civil(2023, 2, 28)), iv);
  }
}
