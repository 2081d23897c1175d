/**
 The Focus day packer as it runs, over a list of gaps that shrink in place
 (backend/app/services/focus.py). Each step is held against the plain line of minutes.
 */
module FocusPacker {
  import opened Common
  import opened FocusLine

  /** `[start, end)`; a gap shrinks from the front. */
  datatype Gap = Gap(start: int, end: int)

  function GapMinutes(gaps: seq<Gap>): set<int> {
    if gaps == [] then {} else
      var g := gaps[|gaps| - 1];
      GapMinutes(gaps[..|gaps| - 1]) + Run(g.start, g.end - g.start)
  }

  /** In time order, with at least one minute that is not free between two gaps. */
  predicate Separated(gaps: seq<Gap>) {
    && (forall i :: 0 <= i < |gaps| ==> gaps[i].start <= gaps[i].end)
    && (forall i, j :: 0 <= i < j < |gaps| ==> gaps[i].end < gaps[j].start)
  }

  lemma {:induction false} GapMinutesHas(gaps: seq<Gap>, m: int)
    ensures m in GapMinutes(gaps) <==> exists i :: 0 <= i < |gaps| && gaps[i].start <= m < gaps[i].end
  {
    if gaps != [] {
      var init, g := gaps[..|gaps| - 1], gaps[|gaps| - 1];
      GapMinutesHas(init, m);
      if m in GapMinutes(init) {
        var i :| 0 <= i < |init| && init[i].start <= m < init[i].end;
        assert gaps[i] == init[i];
      }
      if i :| 0 <= i < |gaps| && gaps[i].start <= m < gaps[i].end {
        if i < |init| { assert init[i] == gaps[i]; }
      }
    }
  }

  // ---- the gaps around the fixed blocks ------------------------------------------------------

  /** `sorted(busy)`: by start, then by end. */
  function Insert(b: Busy, sorted: seq<Busy>): seq<Busy> {
    if sorted == [] then [b]
    else if b.start < sorted[0].start || (b.start == sorted[0].start && b.end <= sorted[0].end) then [b] + sorted
    else [sorted[0]] + Insert(b, sorted[1..])
  }

  function SortBusy(busy: seq<Busy>): seq<Busy> {
    if busy == [] then [] else Insert(busy[0], SortBusy(busy[1..]))
  }

  predicate ByStart(busy: seq<Busy>) {
    forall i, j :: 0 <= i < j < |busy| ==> busy[i].start <= busy[j].start
  }

  lemma {:induction false} InsertSorts(b: Busy, sorted: seq<Busy>)
    requires ByStart(sorted)
    ensures ByStart(Insert(b, sorted)) && forall x :: x in Insert(b, sorted) <==> x == b || x in sorted
  {
    if sorted == [] {
    } else if b.start < sorted[0].start || (b.start == sorted[0].start && b.end <= sorted[0].end) {
      assert ([b] + sorted)[1..] == sorted;
    } else {
      var rest := Insert(b, sorted[1..]);
      InsertSorts(b, sorted[1..]);
      assert sorted == [sorted[0]] + sorted[1..];
      forall i, j | 0 <= i < j < |rest| + 1 ensures ([sorted[0]] + rest)[i].start <= ([sorted[0]] + rest)[j].start {
        assert ([sorted[0]] + rest)[j] == rest[j - 1];
        if i == 0 {
          assert rest[j - 1] in rest;
          if rest[j - 1] != b {
            var k :| 0 <= k < |sorted[1..]| && sorted[1..][k] == rest[j - 1];
            assert sorted[k + 1] == rest[j - 1];
          }
        }
      }
    }
  }

  lemma {:induction false} SortSorts(busy: seq<Busy>)
    ensures ByStart(SortBusy(busy)) && forall x :: x in SortBusy(busy) <==> x in busy
  {
    if busy != [] {
      SortSorts(busy[1..]);
      InsertSorts(busy[0], SortBusy(busy[1..]));
      assert busy == [busy[0]] + busy[1..];
    }
  }

  predicate Lasting(busy: seq<Busy>) {
    forall i :: 0 <= i < |busy| ==> busy[i].start < busy[i].end
  }

  function Drop0(gaps: seq<Gap>): seq<Gap> {
    if gaps == [] then [] else (if gaps[0].end > gaps[0].start then [gaps[0]] else []) + Drop0(gaps[1..])
  }

  lemma {:induction false} NothingDropped(gaps: seq<Gap>)
    requires forall i :: 0 <= i < |gaps| ==> gaps[i].start < gaps[i].end
    ensures Drop0(gaps) == gaps
  {
    if gaps != [] { NothingDropped(gaps[1..]); }
  }

  /** The gaps before `cursor`: everything before it is free in them, or covered. */
  ghost predicate Cut(from: int, to: int, sorted: seq<Busy>, n: nat, gaps: seq<Gap>, cursor: int)
    requires n <= |sorted|
  {
    && from <= cursor && Separated(gaps)
    && (forall i :: 0 <= i < |gaps| ==> from <= gaps[i].start < gaps[i].end <= to && gaps[i].end < cursor)
    && (forall i :: 0 <= i < n ==> sorted[i].end <= cursor)
    && (forall m :: m in GapMinutes(gaps) ==> !Covered(sorted, m))
    && (forall m :: from <= m < cursor && m < to && m !in GapMinutes(gaps) ==> Covered(sorted, m))
  }

  lemma CutBegins(from: int, to: int, sorted: seq<Busy>)
    ensures Cut(from, to, sorted, 0, [], from)
  {
  }

  lemma CutSkips(from: int, to: int, sorted: seq<Busy>, n: nat, gaps: seq<Gap>, cursor: int)
    requires n < |sorted| && Lasting(sorted) && ByStart(sorted) && Cut(from, to, sorted, n, gaps, cursor)
    requires sorted[n].start <= cursor
    ensures Cut(from, to, sorted, n + 1, gaps, Max(cursor, sorted[n].end))
  {
    forall m | cursor <= m < Max(cursor, sorted[n].end) ensures Covered(sorted, m) {
      assert Covers(sorted[n], m);
    }
    hide Covered;
  }

  lemma CutGrows(from: int, to: int, sorted: seq<Busy>, n: nat, gaps: seq<Gap>, cursor: int)
    requires n < |sorted| && Lasting(sorted) && ByStart(sorted) && Cut(from, to, sorted, n, gaps, cursor)
    requires cursor < sorted[n].start && cursor < to
    ensures Cut(from, to, sorted, n + 1, gaps + [Gap(cursor, Min(sorted[n].start, to))], Max(cursor, sorted[n].end))
  {
    var g := Gap(cursor, Min(sorted[n].start, to));
    var more := gaps + [g];
    assert more[..|more| - 1] == gaps;
    forall m | g.start <= m < g.end ensures !Covered(sorted, m) {
      forall i | 0 <= i < |sorted| ensures !Covers(sorted[i], m) {
      }
    }
    forall m | sorted[n].start <= m < sorted[n].end ensures Covered(sorted, m) {
      assert Covers(sorted[n], m);
    }
    hide Covered;
    forall m ensures m in GapMinutes(more) <==> m in GapMinutes(gaps) || g.start <= m < g.end {
    }
    hide GapMinutes;
  }

  function Min(a: int, b: int): int {
    if a < b then a else b
  }

  /** What the gaps are in the end: the free minutes of the window, as maximal runs. */
  ghost predicate ExactGaps(from: int, to: int, busy: seq<Busy>, gaps: seq<Gap>) {
    && Separated(gaps) && (forall i :: 0 <= i < |gaps| ==> gaps[i].start < gaps[i].end)
    && GapMinutes(gaps) == FreeMinutes(from, to, busy)
  }

  /** `_free_gaps`; a day may have no minutes at all. */
  method FreeGaps(windowStart: int, windowEnd: int, busy: seq<Busy>) returns (gaps: seq<Gap>)
    requires Lasting(busy) && windowStart <= windowEnd
    ensures ExactGaps(windowStart, windowEnd, busy, gaps)
  {
    hide Cut, ExactGaps, SortBusy, Lasting, ByStart, Drop0;
    var sorted := SortBusy(busy);
    SortedAlike(busy);
    gaps := [];
    var cursor := windowStart;
    CutBegins(windowStart, windowEnd, sorted);
    NoWindow(windowStart, busy);
    for i := 0 to |sorted|
      invariant cursor < windowEnd || (cursor == windowStart == windowEnd && gaps == [])
      invariant cursor < windowEnd ==> Cut(windowStart, windowEnd, sorted, i, gaps, cursor)
    {
      var b := sorted[i];
      ghost var open := cursor < windowEnd;
      if open {
        if b.start > cursor { CutGrows(windowStart, windowEnd, sorted, i, gaps, cursor); } else {
          CutSkips(windowStart, windowEnd, sorted, i, gaps, cursor);
        }
      }
      if b.start > cursor { gaps := gaps + [Gap(cursor, Min(b.start, windowEnd))]; }
      cursor := Max(cursor, b.end);
      if cursor >= windowEnd {
        if open { CutDone(windowStart, windowEnd, busy, sorted, i + 1, gaps, cursor); }
        gaps := Drop0(gaps);
        return;
      }
    }
    if cursor < windowEnd {
      CutLast(windowStart, windowEnd, busy, sorted, gaps, cursor);
      gaps := gaps + [Gap(cursor, windowEnd)];
    }
    gaps := Drop0(gaps);
  }

  lemma NoWindow(at: int, busy: seq<Busy>)
    ensures ExactGaps(at, at, busy, []) && Drop0([]) == [] && Drop0([] + [Gap(at, at)]) == []
  {
    assert ([] + [Gap(at, at)])[1..] == [];
    assert FreeMinutes(at, at, busy) == {};
  }

  lemma SortedAlike(busy: seq<Busy>)
    requires Lasting(busy)
    ensures var sorted := SortBusy(busy);
            Lasting(sorted) && ByStart(sorted) && forall x :: x in sorted <==> x in busy
  {
    SortSorts(busy);
    var sorted := SortBusy(busy);
    forall i | 0 <= i < |sorted| ensures sorted[i].start < sorted[i].end {
      assert sorted[i] in busy;
    }
  }

  lemma SameCover(a: seq<Busy>, b: seq<Busy>, m: int)
    requires forall x :: x in a <==> x in b
    ensures Covered(a, m) <==> Covered(b, m)
  {
    if i :| 0 <= i < |a| && Covers(a[i], m) {
      assert a[i] in b;
      var j :| 0 <= j < |b| && b[j] == a[i];
    }
    if j :| 0 <= j < |b| && Covers(b[j], m) {
      assert b[j] in a;
      var i :| 0 <= i < |a| && a[i] == b[j];
    }
  }

  lemma CutDone(from: int, to: int, busy: seq<Busy>, sorted: seq<Busy>, n: nat, gaps: seq<Gap>, cursor: int)
    requires n <= |sorted| && Cut(from, to, sorted, n, gaps, cursor) && to <= cursor
    requires forall x :: x in sorted <==> x in busy
    ensures Drop0(gaps) == gaps && ExactGaps(from, to, busy, gaps)
  {
    NothingDropped(gaps);
    forall m ensures m in GapMinutes(gaps) <==> m in FreeMinutes(from, to, busy) {
      SameCover(sorted, busy, m);
      GapMinutesHas(gaps, m);
    }
  }

  lemma GapSnoc(gaps: seq<Gap>, g: Gap)
    ensures forall m :: m in GapMinutes(gaps + [g]) <==> m in GapMinutes(gaps) || g.start <= m < g.end
  {
    var all := gaps + [g];
    assert all[..|all| - 1] == gaps;
  }

  lemma CutLast(from: int, to: int, busy: seq<Busy>, sorted: seq<Busy>, gaps: seq<Gap>, cursor: int)
    requires Cut(from, to, sorted, |sorted|, gaps, cursor) && cursor < to
    requires forall x :: x in sorted <==> x in busy
    ensures var all := gaps + [Gap(cursor, to)];
            Drop0(all) == all && ExactGaps(from, to, busy, all)
  {
    var all := gaps + [Gap(cursor, to)];
    NothingDropped(all);
    GapSnoc(gaps, Gap(cursor, to));
    hide GapMinutes, Covered;
    forall m ensures m in GapMinutes(all) <==> m in FreeMinutes(from, to, busy) {
      SameCover(sorted, busy, m);
      LastMinutes(from, to, sorted, gaps, cursor, m);
    }
  }

  lemma LastMinutes(from: int, to: int, sorted: seq<Busy>, gaps: seq<Gap>, cursor: int, m: int)
    requires Cut(from, to, sorted, |sorted|, gaps, cursor) && cursor < to
    ensures m in GapMinutes(gaps) || cursor <= m < to <==> from <= m < to && !Covered(sorted, m)
  {
    GapMinutesHas(gaps, m);
    hide GapMinutes;
    if cursor <= m < to {
      forall i | 0 <= i < |sorted| ensures !Covers(sorted[i], m) {
      }
    }
  }

  // ---- first fit ---------------------------------------------------------------------------------

  /** The first gap long enough. */
  ghost predicate FirstFit(gaps: seq<Gap>, minutes: int, k: nat) {
    && k < |gaps| && gaps[k].end - gaps[k].start >= minutes
    && forall i :: 0 <= i < k ==> gaps[i].end - gaps[i].start < minutes
  }

  /** A free run never crosses from one gap into the next. */
  lemma RunInGap(gaps: seq<Gap>, t: int, minutes: int) returns (k: nat)
    requires Separated(gaps) && minutes > 0 && Fits(GapMinutes(gaps), t, minutes)
    ensures k < |gaps| && gaps[k].start <= t && t + minutes <= gaps[k].end
  {
    assert t in Run(t, minutes);
    GapMinutesHas(gaps, t);
    k :| 0 <= k < |gaps| && gaps[k].start <= t < gaps[k].end;
    if gaps[k].end < t + minutes {
      var m := gaps[k].end;
      assert m in Run(t, minutes);
      GapMinutesHas(gaps, m);
      NotBetween(gaps, k);
      assert false;
    }
  }

  lemma NotBetween(gaps: seq<Gap>, k: nat)
    requires Separated(gaps) && k < |gaps|
    ensures !(exists i :: 0 <= i < |gaps| && gaps[i].start <= gaps[k].end < gaps[i].end)
  {
    forall i | 0 <= i < |gaps| ensures !(gaps[i].start <= gaps[k].end < gaps[i].end) {
      if i < k { assert gaps[i].end < gaps[k].start; }
      if k < i { assert gaps[k].end < gaps[i].start; }
    }
  }

  lemma FirstFitIsEarliest(gaps: seq<Gap>, minutes: int, k: nat)
    requires Separated(gaps) && minutes > 0 && FirstFit(gaps, minutes, k)
    ensures Earliest(GapMinutes(gaps), minutes) == Some(gaps[k].start)
  {
    var free, t := GapMinutes(gaps), gaps[k].start;
    forall m | m in Run(t, minutes) ensures m in free {
      GapMinutesHas(gaps, m);
    }
    forall u | Fits(free, u, minutes) ensures t <= u {
      var j := RunInGap(gaps, u, minutes);
      if j > k { assert gaps[k].end < gaps[j].start; }
    }
    EarliestUnique(free, minutes, t);
  }

  lemma NoFit(gaps: seq<Gap>, minutes: int)
    requires Separated(gaps) && minutes > 0 && forall i :: 0 <= i < |gaps| ==> gaps[i].end - gaps[i].start < minutes
    ensures Earliest(GapMinutes(gaps), minutes) == None
  {
    EarliestIs(GapMinutes(gaps), minutes);
    forall t ensures !Fits(GapMinutes(gaps), t, minutes) {
      if Fits(GapMinutes(gaps), t, minutes) {
        var k := RunInGap(gaps, t, minutes);
        assert false;
      }
    }
  }

  lemma Shrunk(gaps: seq<Gap>, minutes: int, k: nat)
    requires Separated(gaps) && minutes > 0 && FirstFit(gaps, minutes, k)
    ensures var g := gaps[k];
            var rest := gaps[k := Gap(g.start + minutes, g.end)];
            Separated(rest) && GapMinutes(rest) == GapMinutes(gaps) - Run(g.start, minutes)
  {
    var g := gaps[k];
    var rest := gaps[k := Gap(g.start + minutes, g.end)];
    hide GapMinutes;
    forall m ensures m in GapMinutes(rest) <==> m in GapMinutes(gaps) - Run(g.start, minutes) {
      ShrunkMinute(gaps, minutes, k, m);
    }
  }

  lemma ShrunkMinute(gaps: seq<Gap>, minutes: int, k: nat, m: int)
    requires Separated(gaps) && minutes > 0 && FirstFit(gaps, minutes, k)
    ensures var g := gaps[k];
            m in GapMinutes(gaps[k := Gap(g.start + minutes, g.end)])
            <==> m in GapMinutes(gaps) && !(g.start <= m < g.start + minutes)
  {
    var g := gaps[k];
    var rest := gaps[k := Gap(g.start + minutes, g.end)];
    GapMinutesHas(rest, m);
    GapMinutesHas(gaps, m);
    hide GapMinutes;
    if i :| 0 <= i < |rest| && rest[i].start <= m < rest[i].end {
      assert gaps[i].start <= m < gaps[i].end;
      if i < k { assert gaps[i].end < gaps[k].start; }
      if k < i { assert gaps[k].end < gaps[i].start; }
    }
    if i :| 0 <= i < |gaps| && gaps[i].start <= m < gaps[i].end && !(g.start <= m < g.start + minutes) {
      assert rest[i].start <= m < rest[i].end;
    }
  }

  /** `_place`: the earliest start whose whole run is free, taken from the front of its gap. */
  method Place(minutes: int, gaps: seq<Gap>) returns (start: Option<int>, rest: seq<Gap>)
    requires minutes > 0 && Separated(gaps)
    ensures start == Earliest(GapMinutes(gaps), minutes) && Separated(rest)
    ensures GapMinutes(rest) == if start.Some? then GapMinutes(gaps) - Run(start.value, minutes) else GapMinutes(gaps)
  {
    hide Earliest, GapMinutes;
    for i := 0 to |gaps|
      invariant forall j :: 0 <= j < i ==> gaps[j].end - gaps[j].start < minutes
    {
      if gaps[i].end - gaps[i].start >= minutes {
        FirstFitIsEarliest(gaps, minutes, i);
        Shrunk(gaps, minutes, i);
        return Some(gaps[i].start), gaps[i := Gap(gaps[i].start + minutes, gaps[i].end)];
      }
    }
    NoFit(gaps, minutes);
    return None, gaps;
  }
}
