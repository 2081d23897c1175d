/**
 The Focus day plan: ranking, packing and the split of the source tasks
 (backend/app/services/focus.py).
 */
module Focus {
  import opened Common
  import opened Calendar
  import opened FocusLine
  import opened FocusPacker

  // ---- clock times ----------------------------------------------------------------------------

  const DAY_MINUTES := 1440

  function Digit(d: int): (c: char)
    requires 0 <= d <= 9
  {
    "0123456789"[d]
  }

  function DigitValue(c: char): int {
    if '0' <= c <= '9' then c as int - '0' as int else -1
  }

  function TwoDigits(n: int): (s: string)
    requires 0 <= n <= 99
    ensures |s| == 2
  {
    [Digit(n / 10), Digit(n % 10)]
  }

  /** A local clock time and its day offset from the plan date. */
  datatype ClockTime = ClockTime(clock: string, dayOffset: int)

  /** `_format_time`: `divmod` floors, as `/` and `%` do here. */
  function FormatTime(minutes: int): ClockTime {
    var clock := minutes % DAY_MINUTES;
    ClockTime(TwoDigits(clock / 60) + ":" + TwoDigits(clock % 60), minutes / DAY_MINUTES)
  }

  /** `_parse_time` on the two-digit form its callers validate. */
  function ParseTime(value: string): Option<int> {
    if |value| != 5 || value[2] != ':' || exists i :: i in {0, 1, 3, 4} && DigitValue(value[i]) < 0 then None
    else Some((DigitValue(value[0]) * 10 + DigitValue(value[1])) * 60 + DigitValue(value[3]) * 10 + DigitValue(value[4]))
  }

  /** `_absolute_minute`. */
  function AbsoluteMinute(t: ClockTime): Option<int> {
    var clock := ParseTime(t.clock);
    if clock.None? then None else Some(t.dayOffset * DAY_MINUTES + clock.value)
  }

  lemma DigitRoundTrip(d: int)
    requires 0 <= d <= 9
    ensures DigitValue(Digit(d)) == d
  {
  }

  /** A minute survives being written as a clock time and read back, on any day. */
  lemma TimeRoundTrip(minutes: int)
    ensures AbsoluteMinute(FormatTime(minutes)) == Some(minutes)
  {
    var clock := minutes % DAY_MINUTES;
    var hours, rest := clock / 60, clock % 60;
    DigitRoundTrip(hours / 10);
    DigitRoundTrip(hours % 10);
    DigitRoundTrip(rest / 10);
    DigitRoundTrip(rest % 10);
    var s := TwoDigits(hours) + ":" + TwoDigits(rest);
    assert s[0] == Digit(hours / 10) && s[1] == Digit(hours % 10) && s[2] == ':';
    assert s[3] == Digit(rest / 10) && s[4] == Digit(rest % 10);
    hide Digit, DigitValue;
  }

  // ---- ranking -----------------------------------------------------------------------------------

  datatype Workflow = InProgress | NotStarted

  datatype Priority = Urgent | High | Medium | Low

  datatype DueSignal = Overdue | DueToday | DueSoon | NoSignal

  const DUE_SOON_DAYS := 3

  function Signal(due: Option<Date>, target: Date): DueSignal {
    if due.None? then NoSignal
    else if due.value < target then Overdue
    else if due.value == target then DueToday
    else if due.value - target <= DUE_SOON_DAYS then DueSoon
    else NoSignal
  }

  const DEFAULT_ESTIMATE_MINUTES := 30

  /** A not-done, not-deferred top-level task, with its rolled-up status and estimate. */
  datatype Source = Source(id: int, blocked: bool, workflow: Workflow, due: Option<Date>, priority: Priority, estimate: Option<int>,
                           standIns: seq<Work>)

  function Minutes(t: Source): int {
    if t.estimate.Some? then t.estimate.value else DEFAULT_ESTIMATE_MINUTES
  }

  function WorkflowRank(w: Workflow): int {
    if w.InProgress? then 0 else 1
  }

  function DueRank(d: DueSignal): int {
    match d case Overdue => 0 case DueToday => 1 case DueSoon => 2 case NoSignal => 3
  }

  function PriorityRank(p: Priority): int {
    match p case Urgent => 0 case High => 1 case Medium => 2 case Low => 3
  }

  /** `_rank_key`, smaller first. */
  function RankKey(t: Source, target: Date): (int, int, int, int, int) {
    (WorkflowRank(t.workflow), DueRank(Signal(t.due, target)), PriorityRank(t.priority), Minutes(t), t.id)
  }

  predicate Before(a: (int, int, int, int, int), b: (int, int, int, int, int)) {
    a.0 < b.0 || (a.0 == b.0 && (a.1 < b.1 || (a.1 == b.1 && (a.2 < b.2 || (a.2 == b.2 && (a.3 < b.3 || (a.3 == b.3 && a.4 < b.4)))))))
  }

  function InsertRanked(t: Source, sorted: seq<Source>, target: Date): seq<Source> {
    if sorted == [] then [t]
    else if Before(RankKey(sorted[0], target), RankKey(t, target)) then [sorted[0]] + InsertRanked(t, sorted[1..], target)
    else [t] + sorted
  }

  /** `sorted(..., key=_rank_key)`. */
  function RankSort(ts: seq<Source>, target: Date): seq<Source> {
    if ts == [] then [] else InsertRanked(ts[0], RankSort(ts[1..], target), target)
  }

  predicate InRankOrder(ts: seq<Source>, target: Date) {
    forall i, j :: 0 <= i < j < |ts| ==> Before(RankKey(ts[i], target), RankKey(ts[j], target))
  }

  predicate DistinctIds(ts: seq<Source>) {
    forall i, j :: 0 <= i < j < |ts| ==> ts[i].id != ts[j].id
  }

  lemma {:induction false} InsertRanks(t: Source, sorted: seq<Source>, target: Date)
    requires InRankOrder(sorted, target) && forall i :: 0 <= i < |sorted| ==> sorted[i].id != t.id
    ensures InRankOrder(InsertRanked(t, sorted, target), target)
    ensures multiset(InsertRanked(t, sorted, target)) == multiset(sorted) + multiset{t}
  {
    if sorted == [] {
    } else if Before(RankKey(sorted[0], target), RankKey(t, target)) {
      var rest := InsertRanked(t, sorted[1..], target);
      InsertRanks(t, sorted[1..], target);
      assert sorted == [sorted[0]] + sorted[1..];
      var all := [sorted[0]] + rest;
      forall i, j | 0 <= i < j < |all| ensures Before(RankKey(all[i], target), RankKey(all[j], target)) {
        assert all[j] == rest[j - 1];
        if i > 0 { assert all[i] == rest[i - 1]; } else {
          assert rest[j - 1] in multiset(rest);
          if rest[j - 1] != t {
            assert rest[j - 1] in multiset(sorted[1..]);
            var k :| 0 <= k < |sorted[1..]| && sorted[1..][k] == rest[j - 1];
            assert sorted[k + 1] == rest[j - 1];
          }
        }
      }
    } else {
      var all := [t] + sorted;
      forall i, j | 0 <= i < j < |all| ensures Before(RankKey(all[i], target), RankKey(all[j], target)) {
        assert all[j] == sorted[j - 1];
        if i == 0 {
          Total(RankKey(sorted[0], target), RankKey(t, target));
          if j > 1 { assert Before(RankKey(sorted[0], target), RankKey(sorted[j - 1], target)); }
        } else {
          assert all[i] == sorted[i - 1];
        }
      }
    }
  }

  lemma Total(a: (int, int, int, int, int), b: (int, int, int, int, int))
    requires a.4 != b.4
    ensures Before(a, b) || Before(b, a)
  {
  }

  /** The ranking is a rearrangement in strictly ascending key order, so ties never decide. */
  lemma {:induction false} RankSortRanks(ts: seq<Source>, target: Date)
    requires DistinctIds(ts)
    ensures InRankOrder(RankSort(ts, target), target)
    ensures multiset(RankSort(ts, target)) == multiset(ts)
  {
    if ts != [] {
      var rest := RankSort(ts[1..], target);
      RankSortRanks(ts[1..], target);
      forall i | 0 <= i < |rest| ensures rest[i].id != ts[0].id {
        assert rest[i] in multiset(rest);
        assert rest[i] in multiset(ts[1..]);
        var k :| 0 <= k < |ts[1..]| && ts[1..][k] == rest[i];
        assert ts[k + 1] == rest[i];
      }
      InsertRanks(ts[0], rest, target);
      assert ts == [ts[0]] + ts[1..];
    }
  }

  // ---- what the ranking means ---------------------------------------------------------------------

  /** Overdue on the day, due that day, due within three days after it, or none of these. */
  predicate IsOverdue(t: Source, target: Date) { t.due.Some? && t.due.value < target }
  predicate IsToday(t: Source, target: Date) { t.due == Some(target) }
  predicate IsSoon(t: Source, target: Date) { t.due.Some? && target < t.due.value <= target + 3 }

  /** An earlier due group: overdue before today's, today's before the next three days', those before the rest. */
  predicate EarlierDue(a: Source, b: Source, target: Date) {
    || (IsOverdue(a, target) && !IsOverdue(b, target))
    || (IsToday(a, target) && !IsOverdue(b, target) && !IsToday(b, target))
    || (IsSoon(a, target) && !IsOverdue(b, target) && !IsToday(b, target) && !IsSoon(b, target))
  }

  predicate SameDue(a: Source, b: Source, target: Date) {
    IsOverdue(a, target) == IsOverdue(b, target) && IsToday(a, target) == IsToday(b, target) && IsSoon(a, target) == IsSoon(b, target)
  }

  predicate MoreUrgent(a: Priority, b: Priority) {
    || (a == Urgent && b != Urgent)
    || (a == High && (b == Medium || b == Low))
    || (a == Medium && b == Low)
  }

  /** The estimate, or half an hour when there is none. */
  predicate Takes(t: Source, minutes: int) {
    (t.estimate.Some? ==> t.estimate.value == minutes) && (t.estimate.None? ==> minutes == 30)
  }

  /**
   Of any two tasks the earlier in the ranking is in progress while the other is not; or, at equal
   workflow, in an earlier due group; or, there too equal, more urgent; or shorter; or has the lower id.
   */
  lemma RankSortMeans(ts: seq<Source>, target: Date, i: nat, j: nat, x: int, y: int)
    requires DistinctIds(ts) && i < j < |RankSort(ts, target)|
    requires Takes(RankSort(ts, target)[i], x) && Takes(RankSort(ts, target)[j], y)
    ensures var a, b := RankSort(ts, target)[i], RankSort(ts, target)[j];
            || (a.workflow == InProgress && b.workflow == NotStarted)
            || (a.workflow == b.workflow
                && (|| EarlierDue(a, b, target)
                    || (SameDue(a, b, target)
                        && (|| MoreUrgent(a.priority, b.priority)
                            || (a.priority == b.priority && (x < y || (x == y && a.id < b.id)))))))
  {
    RankSortRanks(ts, target);
    hide RankSort;
    var a, b := RankSort(ts, target)[i], RankSort(ts, target)[j];
    assert Before(RankKey(a, target), RankKey(b, target));
  }

  // ---- packing ----------------------------------------------------------------------------------------

  /** The packer's own variables hold the day. */
  ghost predicate Holds(day: Day, gaps: seq<Gap>, blocks: seq<Block>, overflow: seq<Overflow>, used: int, late: int) {
    day == FocusLine.Day.Day(GapMinutes(gaps), blocks, overflow, used, late) && Separated(gaps)
  }

  /** `_schedule`. */
  method AddTo(blocks: seq<Block>, used: int, windowStart: int, block: Block, ghost day: Day) returns (more: seq<Block>, total: int)
    requires day.blocks == blocks && day.used == used
    ensures AddBlock(day, windowStart, block) == day.(blocks := more, used := total)
  {
    var from := if block.start < windowStart then windowStart else block.start;
    total := used + (if block.start + block.minutes - from > 0 then block.start + block.minutes - from else 0);
    more := blocks + [block];
  }

  lemma PinsStep(day: Day, start: int, pins: seq<Work>, i: nat)
    requires i < |pins|
    ensures PlacePins(day, start, pins[i..], i) == PlacePins(PinOne(day, start, pins[i], i), start, pins[i + 1..], i + 1)
  {
    assert pins[i..][0] == pins[i] && pins[i..][1..] == pins[i + 1..];
  }

  lemma PinsDone(day: Day, start: int, pins: seq<Work>)
    ensures PlacePins(day, start, pins[|pins|..], |pins|) == day && pins[0..] == pins
  {
  }

  /** The floating pins, in their stored order. */
  method PlaceFloating(start: int, floating: seq<Work>, gaps0: seq<Gap>, blocks0: seq<Block>, used0: int, late0: int, ghost day: Day)
    returns (gaps: seq<Gap>, blocks: seq<Block>, used: int, late: int)
    requires Positive(floating) && Holds(day, gaps0, blocks0, day.overflow, used0, late0)
    ensures Holds(PlacePins(day, start, floating, 0), gaps, blocks, PlacePins(day, start, floating, 0).overflow, used, late)
  {
    hide PlacePins, Earliest, GapMinutes, Separated;
    gaps, blocks, used, late := gaps0, blocks0, used0, late0;
    ghost var now := day;
    PinsDone(day, start, floating);
    for i := 0 to |floating|
      invariant Holds(now, gaps, blocks, now.overflow, used, late)
      invariant PlacePins(now, start, floating[i..], i) == PlacePins(day, start, floating, 0)
    {
      var w := floating[i];
      PinsStep(now, start, floating, i);
      var at: Option<int>;
      at, gaps := Place(w.minutes, gaps);
      var from := if at.Some? then at.value else late;
      blocks, used := AddTo(blocks, used, start, Block(w.task, from, w.minutes, Pinned(i)), now);
      now := PinOne(now, start, w, i);
      if at.None? { late := late + w.minutes; }
    }
    PinsDone(now, start, floating);
  }

  lemma StandInsStep(day: Day, start: int, parent: int, subs: seq<Work>, i: nat)
    requires i < |subs|
    ensures var at := Earliest(day.free, subs[i].minutes);
            PlaceStandIns(day, start, parent, subs[i..])
            == PlaceStandIns(if at.Some? then Occupy(day, start, subs[i], at.value, StandIn(parent)) else day, start, parent,
                             subs[i + 1..])
  {
    assert subs[i..][0] == subs[i] && subs[i..][1..] == subs[i + 1..];
    hide Occupy, Earliest;
  }

  lemma StandInsDone(day: Day, start: int, parent: int, subs: seq<Work>)
    ensures PlaceStandIns(day, start, parent, subs[|subs|..]) == day && subs[0..] == subs
  {
  }

  /** The subtasks tried in the rank slot of a parent that fits nowhere. */
  method TryStandIns(start: int, parent: int, subs: seq<Work>, gaps0: seq<Gap>, blocks0: seq<Block>, used0: int, ghost day: Day)
    returns (gaps: seq<Gap>, blocks: seq<Block>, used: int, scheduled: nat)
    requires Positive(subs) && Holds(day, gaps0, blocks0, day.overflow, used0, day.late)
    ensures var t := PlaceStandIns(day, start, parent, subs);
            Holds(t, gaps, blocks, t.overflow, used, t.late) && scheduled == |t.blocks| - |day.blocks|
    ensures PlaceStandIns(day, start, parent, subs).overflow == day.overflow && PlaceStandIns(day, start, parent, subs).late == day.late
  {
    hide PlaceStandIns, Earliest, GapMinutes, Separated;
    StandInsLater(day, start, parent, subs);
    gaps, blocks, used, scheduled := gaps0, blocks0, used0, 0;
    ghost var now := day;
    StandInsDone(day, start, parent, subs);
    for i := 0 to |subs|
      invariant Holds(now, gaps, blocks, now.overflow, used, now.late) && scheduled == |now.blocks| - |day.blocks|
      invariant PlaceStandIns(now, start, parent, subs[i..]) == PlaceStandIns(day, start, parent, subs)
    {
      var w := subs[i];
      StandInsStep(now, start, parent, subs, i);
      var at: Option<int>;
      at, gaps := Place(w.minutes, gaps);
      if at.Some? {
        blocks, used := AddTo(blocks, used, start, Block(w.task, at.value, w.minutes, StandIn(parent)), now);
        now := Occupy(now, start, w, at.value, StandIn(parent));
        scheduled := scheduled + 1;
      }
    }
    StandInsDone(now, start, parent, subs);
  }

  lemma RankedStep(day: Day, start: int, ranked: seq<RankedWork>, i: nat)
    requires i < |ranked|
    ensures PlaceRanked(day, start, ranked[i..]) == PlaceRanked(PlaceOne(day, start, ranked[i]), start, ranked[i + 1..])
  {
    assert ranked[i..][0] == ranked[i] && ranked[i..][1..] == ranked[i + 1..];
    hide PlaceOne;
  }

  lemma RankedDone(day: Day, start: int, ranked: seq<RankedWork>)
    ensures PlaceRanked(day, start, ranked[|ranked|..]) == day && ranked[0..] == ranked
  {
  }

  /** The ranked tasks, first fit in rank order. */
  method PlaceRankedTasks(start: int, ranked: seq<RankedWork>, gaps0: seq<Gap>, blocks0: seq<Block>, used0: int, ghost day: Day)
    returns (blocks: seq<Block>, overflow: seq<Overflow>, used: int)
    requires AllPositive(ranked) && Holds(day, gaps0, blocks0, [], used0, day.late)
    ensures var t := PlaceRanked(day, start, ranked);
            t.blocks == blocks && t.overflow == overflow && t.used == used
  {
    hide PlaceRanked, PlaceStandIns, Earliest, GapMinutes, Separated;
    var gaps := gaps0;
    blocks, overflow, used := blocks0, [], used0;
    ghost var now := day;
    RankedDone(day, start, ranked);
    for i := 0 to |ranked|
      invariant Holds(now, gaps, blocks, overflow, used, now.late)
      invariant PlaceRanked(now, start, ranked[i..]) == PlaceRanked(day, start, ranked)
    {
      var r := ranked[i];
      RankedStep(now, start, ranked, i);
      var at: Option<int>;
      at, gaps := Place(r.work.minutes, gaps);
      if at.Some? {
        blocks, used := AddTo(blocks, used, start, Block(r.work.task, at.value, r.work.minutes, Ranked), now);
        now := PlaceOne(now, start, r);
        continue;
      }
      var scheduled: nat;
      gaps, blocks, used, scheduled := TryStandIns(start, r.work.task, r.standIns, gaps, blocks, used, now);
      overflow := overflow + [Overflow(r.work.task, r.work.minutes, scheduled)];
      now := PlaceOne(now, start, r);
    }
    RankedDone(now, start, ranked);
  }
}
