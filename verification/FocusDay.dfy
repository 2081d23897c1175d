/**
 The whole Focus day: fixed blocks, gaps, pins, ranking, and where every source task ends up
 (backend/app/services/focus.py, `_pack` and `get_focus_plan`).
 */
module FocusDay {
  import opened Common
  import opened Calendar
  import opened FocusLine
  import opened FocusPacker
  import opened Focus

  // ---- the packer -------------------------------------------------------------------------------

  /** The sort key of a block: its clock time read back. */
  function BlockKey(b: Block): int {
    var at := AbsoluteMinute(FormatTime(b.start));
    if at.Some? then at.value else 0
  }

  /** Later blocks go after earlier ones with the same key: the sort is stable. */
  function InsertBlock(b: Block, sorted: seq<Block>): seq<Block> {
    if sorted == [] then [b]
    else if BlockKey(b) <= BlockKey(sorted[0]) then [b] + sorted
    else [sorted[0]] + InsertBlock(b, sorted[1..])
  }

  function TimeSort(blocks: seq<Block>): seq<Block> {
    if blocks == [] then [] else InsertBlock(blocks[0], TimeSort(blocks[1..]))
  }

  predicate InTimeOrder(blocks: seq<Block>) {
    forall i, j :: 0 <= i < j < |blocks| ==> blocks[i].start <= blocks[j].start
  }

  lemma KeyIsStart(b: Block)
    ensures BlockKey(b) == b.start
  {
    TimeRoundTrip(b.start);
  }

  lemma {:induction false} InsertBlockBag(b: Block, sorted: seq<Block>)
    ensures multiset(InsertBlock(b, sorted)) == multiset(sorted) + multiset{b}
    decreases |sorted|
  {
    if sorted != [] {
      hide BlockKey;
      assert sorted == [sorted[0]] + sorted[1..];
      InsertBlockBag(b, sorted[1..]);
    }
  }

  lemma {:induction false} InsertBlockSorts(b: Block, sorted: seq<Block>)
    requires InTimeOrder(sorted)
    ensures InTimeOrder(InsertBlock(b, sorted)) && multiset(InsertBlock(b, sorted)) == multiset(sorted) + multiset{b}
    decreases |sorted|
  {
    InsertBlockBag(b, sorted);
    if sorted != [] {
      KeyIsStart(b);
      KeyIsStart(sorted[0]);
      hide BlockKey;
      if b.start <= sorted[0].start {
        InFront(b, sorted);
      } else {
        InsertBlockSorts(b, sorted[1..]);
        InsertBlockBag(b, sorted[1..]);
        Behind(b, sorted, InsertBlock(b, sorted[1..]));
      }
    }
  }

  lemma InFront(b: Block, sorted: seq<Block>)
    requires InTimeOrder(sorted) && sorted != [] && b.start <= sorted[0].start
    ensures InTimeOrder([b] + sorted)
  {
    var all := [b] + sorted;
    forall i, j | 0 <= i < j < |all| ensures all[i].start <= all[j].start {
      assert all[j] == sorted[j - 1];
      if i > 0 { assert all[i] == sorted[i - 1]; }
    }
  }

  lemma Behind(b: Block, sorted: seq<Block>, rest: seq<Block>)
    requires InTimeOrder(sorted) && sorted != [] && b.start > sorted[0].start && InTimeOrder(rest)
    requires multiset(rest) == multiset(sorted[1..]) + multiset{b}
    ensures InTimeOrder([sorted[0]] + rest)
  {
    forall k | 0 <= k < |rest| ensures sorted[0].start <= rest[k].start {
      assert rest[k] in multiset(rest);
      if rest[k] != b {
        assert rest[k] in multiset(sorted[1..]);
        var i :| 0 <= i < |sorted[1..]| && sorted[1..][i] == rest[k];
        assert sorted[i + 1] == rest[k];
      }
    }
    var all := [sorted[0]] + rest;
    forall i, j | 0 <= i < j < |all| ensures all[i].start <= all[j].start {
      assert all[j] == rest[j - 1];
      if i > 0 { assert all[i] == rest[i - 1]; }
    }
  }

  /** The blocks come back in time order, none lost and none added. */
  lemma {:induction false} TimeSortSorts(blocks: seq<Block>)
    ensures InTimeOrder(TimeSort(blocks)) && multiset(TimeSort(blocks)) == multiset(blocks)
  {
    if blocks != [] {
      TimeSortSorts(blocks[1..]);
      InsertBlockSorts(blocks[0], TimeSort(blocks[1..]));
      assert blocks == [blocks[0]] + blocks[1..];
    }
  }

  lemma TimedStep(day: Day, start: int, timed: seq<TimedPin>, busy: seq<Busy>, i: nat)
    requires i < |timed|
    ensures var p := timed[i];
            && PlaceTimed(day, start, timed[i..])
               == PlaceTimed(AddBlock(day, start, Block(p.work.task, p.start, p.work.minutes, Fixed)), start, timed[i + 1..])
            && Intervals(busy, timed[..i + 1]) == Intervals(busy, timed[..i]) + [Busy(p.start, p.start + p.work.minutes)]
  {
    assert timed[i..][0] == timed[i] && timed[i..][1..] == timed[i + 1..];
    assert timed[..i + 1][..i] == timed[..i];
  }

  lemma TimedDone(day: Day, start: int, timed: seq<TimedPin>, busy: seq<Busy>)
    ensures PlaceTimed(day, start, timed[|timed|..]) == day && timed[0..] == timed
    ensures Intervals(busy, timed[..0]) == busy && timed[..|timed|] == timed
  {
    assert timed[..0] == [];
  }

  /** The timed pins, fixed at their own times. */
  method PlaceTimedPins(start: int, timed: seq<TimedPin>, busy: seq<Busy>, ghost day: Day)
    returns (blocks: seq<Block>, used: int, fixed: seq<Busy>)
    requires day.blocks == [] && day.used == 0
    ensures PlaceTimed(day, start, timed) == day.(blocks := blocks, used := used) && fixed == Intervals(busy, timed)
  {
    hide PlaceTimed, Intervals;
    blocks, used, fixed := [], 0, busy;
    ghost var now := day;
    TimedDone(day, start, timed, busy);
    for i := 0 to |timed|
      invariant now == day.(blocks := blocks, used := used) && fixed == Intervals(busy, timed[..i])
      invariant PlaceTimed(now, start, timed[i..]) == PlaceTimed(day, start, timed)
    {
      var p := timed[i];
      TimedStep(now, start, timed, busy, i);
      blocks, used := AddTo(blocks, used, start, Block(p.work.task, p.start, p.work.minutes, Fixed), now);
      now := AddBlock(now, start, Block(p.work.task, p.start, p.work.minutes, Fixed));
      fixed := fixed + [Busy(p.start, p.start + p.work.minutes)];
    }
    TimedDone(now, start, timed, busy);
  }

  lemma LatestStep(from: int, busy: seq<Busy>, i: nat)
    requires i < |busy|
    ensures LatestEnd(from, busy[..i + 1]) == FocusLine.Max(LatestEnd(from, busy[..i]), busy[i].end)
    ensures LatestEnd(from, busy[..0]) == from && busy[..|busy|] == busy
  {
    assert busy[..i + 1][..i] == busy[..i];
  }

  method LatestOf(from: int, busy: seq<Busy>) returns (late: int)
    ensures late == LatestEnd(from, busy)
  {
    late := from;
    hide LatestEnd;
    if busy == [] { NoneLater(from); return; }
    LatestStep(from, busy, 0);
    for i := 0 to |busy|
      invariant late == LatestEnd(from, busy[..i])
    {
      LatestStep(from, busy, i);
      if late < busy[i].end { late := busy[i].end; }
    }
  }

  lemma NoneLater(from: int)
    ensures LatestEnd(from, []) == from
  {
  }

  lemma {:induction false} IntervalsLast(busy: seq<Busy>, timed: seq<TimedPin>)
    requires Lasting(busy) && PositivePins(timed)
    ensures Lasting(Intervals(busy, timed))
  {
    if timed != [] {
      IntervalsLast(busy, timed[..|timed| - 1]);
      assert PositivePins(timed[..|timed| - 1]);
      assert timed[|timed| - 1].work.minutes > 0;
    }
  }

  /** `_pack`: the same day as on the plain line of minutes, its blocks in time order. */
  method Pack(start: int, available: int, floating: seq<Work>, timed: seq<TimedPin>, ranked: seq<RankedWork>, busy: seq<Busy>)
    returns (blocks: seq<Block>, overflow: seq<Overflow>, used: int)
    requires available >= 0 && Lasting(busy) && PositivePins(timed) && Positive(floating) && AllPositive(ranked)
    ensures var day := Schedule(start, available, floating, timed, ranked, busy);
            blocks == TimeSort(day.blocks) && overflow == day.overflow && used == day.used
  {
    hide PlaceTimed, PlacePins, PlaceRanked, Intervals, LatestEnd, FreeMinutes, TimeSort, GapMinutes, Separated, Positive,
         AllPositive, PositivePins, Lasting;
    ghost var fixed0 := Intervals(busy, timed);
    IntervalsLast(busy, timed);
    OpenedTidy(start, available, floating, timed, busy);
    ghost var empty := FocusLine.Day.Day(FreeMinutes(start, start + available, fixed0), [], [], 0,
                                         LatestEnd(start + available, fixed0));
    var fixed: seq<Busy>;
    blocks, used, fixed := PlaceTimedPins(start, timed, busy, empty);
    var gaps := FreeGaps(start, start + available, fixed);
    var late := LatestOf(start + available, fixed);
    ghost var timedDay := PlaceTimed(empty, start, timed);
    gaps, blocks, used, late := PlaceFloating(start, floating, gaps, blocks, used, late, timedDay);
    ghost var openedDay := PlacePins(timedDay, start, floating, 0);
    blocks, overflow, used := PlaceRankedTasks(start, ranked, gaps, blocks, used, openedDay);
    blocks := TimeSort(blocks);
  }

  // ---- the plan -----------------------------------------------------------------------------------

  /** A stored pin of the day, in its stored order. */
  datatype Pin = Pin(task: int, start: Option<int>)

  datatype Plan = Plan(scheduled: seq<Block>, overflow: seq<Overflow>, blocked: seq<int>, used: int)

  function BlockedIds(source: seq<Source>): seq<int> {
    if source == [] then [] else (if source[0].blocked then [source[0].id] else []) + BlockedIds(source[1..])
  }

  function Schedulable(source: seq<Source>): (r: seq<Source>)
    ensures forall t :: t in r ==> t in source && !t.blocked
  {
    if source == [] then [] else (if source[0].blocked then [] else [source[0]]) + Schedulable(source[1..])
  }

  function Ids(ts: seq<Source>): seq<int> {
    if ts == [] then [] else [ts[0].id] + Ids(ts[1..])
  }

  /** `schedulable_by_id.get(...)`. */
  function Find(ts: seq<Source>, id: int): (r: Option<Source>)
    ensures r.Some? ==> r.value in ts && r.value.id == id
  {
    if ts == [] then None else if ts[0].id == id then Some(ts[0]) else Find(ts[1..], id)
  }

  /** Whether a pin still has a time of its own: one that ended before the window floats. */
  predicate StillTimed(pin: Pin, t: Source, windowStart: int) {
    pin.start.Some? && pin.start.value + Minutes(t) > windowStart
  }

  function FloatingPins(ts: seq<Source>, pins: seq<Pin>, windowStart: int): seq<Work> {
    if pins == [] then [] else
      var t := Find(ts, pins[0].task);
      (if t.Some? && !StillTimed(pins[0], t.value, windowStart) then [Work(pins[0].task, Minutes(t.value))] else [])
      + FloatingPins(ts, pins[1..], windowStart)
  }

  function TimedPins(ts: seq<Source>, pins: seq<Pin>, windowStart: int): seq<TimedPin> {
    if pins == [] then [] else
      var t := Find(ts, pins[0].task);
      (if t.Some? && StillTimed(pins[0], t.value, windowStart)
       then [TimedPin(Work(pins[0].task, Minutes(t.value)), pins[0].start.value)] else [])
      + TimedPins(ts, pins[1..], windowStart)
  }

  function Unpinned(ts: seq<Source>, pinned: set<int>): (r: seq<Source>)
    ensures forall t :: t in r ==> t in ts
  {
    if ts == [] then [] else (if ts[0].id in pinned then [] else [ts[0]]) + Unpinned(ts[1..], pinned)
  }

  function PinnedIds(pins: seq<Pin>): set<int> {
    set i | 0 <= i < |pins| :: pins[i].task
  }

  function AsRanked(ts: seq<Source>): seq<RankedWork> {
    if ts == [] then [] else [RankedWork(Work(ts[0].id, Minutes(ts[0])), ts[0].standIns)] + AsRanked(ts[1..])
  }

  /** Commitments that end after the window opens. */
  function Ongoing(commitments: seq<Busy>, windowStart: int): seq<Busy> {
    if commitments == [] then []
    else (if commitments[0].end <= windowStart then [] else [commitments[0]]) + Ongoing(commitments[1..], windowStart)
  }

  function CommittedMinutes(commitments: seq<Busy>, windowStart: int): int {
    if commitments == [] then 0
    else commitments[0].end - commitments[0].start - FocusLine.Max(0, windowStart - commitments[0].start)
         + CommittedMinutes(commitments[1..], windowStart)
  }

  predicate Sized(source: seq<Source>) {
    forall t :: t in source ==> Minutes(t) > 0 && Positive(t.standIns)
  }

  predicate OnePinEach(pins: seq<Pin>) {
    forall i, j :: 0 <= i < j < |pins| ==> pins[i].task != pins[j].task
  }

  /** The plan of the day: the line scheduler's day in time order, and the minutes it commits. */
  function PlanOf(source: seq<Source>, pins: seq<Pin>, commitments: seq<Busy>, target: Date, windowStart: int, available: int): Plan {
    var ts := Schedulable(source);
    var ranked := AsRanked(RankSort(Unpinned(ts, PinnedIds(pins)), target));
    var busy := Ongoing(commitments, windowStart);
    var day := Schedule(windowStart, available, FloatingPins(ts, pins, windowStart), TimedPins(ts, pins, windowStart), ranked, busy);
    Plan(TimeSort(day.blocks), day.overflow, BlockedIds(source), day.used + CommittedMinutes(busy, windowStart))
  }

  /** `get_focus_plan`, on what its queries return. */
  method GetFocusPlan(source: seq<Source>, pins: seq<Pin>, commitments: seq<Busy>, target: Date, windowStart: int, available: int)
    returns (plan: Plan)
    requires available >= 0 && Sized(source) && Lasting(commitments) && DistinctIds(source)
    ensures plan == PlanOf(source, pins, commitments, target, windowStart, available)
  {
    hide Schedule, TimeSort, RankSort;
    var ts := Schedulable(source);
    var floating: seq<Work>, timed: seq<TimedPin> := [], [];
    hide FloatingPins, TimedPins;
    PinsSplitDone(ts, pins, windowStart);
    for i := 0 to |pins|
      invariant floating + FloatingPins(ts, pins[i..], windowStart) == FloatingPins(ts, pins, windowStart)
      invariant timed + TimedPins(ts, pins[i..], windowStart) == TimedPins(ts, pins, windowStart)
    {
      PinsSplitStep(ts, pins, windowStart, i);
      var t := Find(ts, pins[i].task);
      if t.None? { continue; }
      if StillTimed(pins[i], t.value, windowStart) {
        timed := timed + [TimedPin(Work(pins[i].task, Minutes(t.value)), pins[i].start.value)];
      } else {
        floating := floating + [Work(pins[i].task, Minutes(t.value))];
      }
    }
    PinsSplitDone(ts, pins, windowStart);
    assert floating + [] == floating && timed + [] == timed;
    var ranked := AsRanked(RankSort(Unpinned(ts, PinnedIds(pins)), target));
    var busy := Ongoing(commitments, windowStart);
    AllSized(source, pins, windowStart, target);
    OngoingLasts(commitments, windowStart);
    var blocks, overflow, used := Pack(windowStart, available, floating, timed, ranked, busy);
    plan := Plan(blocks, overflow, BlockedIds(source), used + CommittedMinutes(busy, windowStart));
  }

  lemma PinsSplitStep(ts: seq<Source>, pins: seq<Pin>, windowStart: int, i: nat)
    requires i < |pins|
    ensures var t := Find(ts, pins[i].task);
            && FloatingPins(ts, pins[i..], windowStart)
               == (if t.Some? && !StillTimed(pins[i], t.value, windowStart) then [Work(pins[i].task, Minutes(t.value))] else [])
                  + FloatingPins(ts, pins[i + 1..], windowStart)
            && TimedPins(ts, pins[i..], windowStart)
               == (if t.Some? && StillTimed(pins[i], t.value, windowStart)
                   then [TimedPin(Work(pins[i].task, Minutes(t.value)), pins[i].start.value)] else [])
                  + TimedPins(ts, pins[i + 1..], windowStart)
  {
    assert pins[i..][0] == pins[i] && pins[i..][1..] == pins[i + 1..];
  }

  lemma PinsSplitDone(ts: seq<Source>, pins: seq<Pin>, windowStart: int)
    ensures FloatingPins(ts, pins[|pins|..], windowStart) == [] && TimedPins(ts, pins[|pins|..], windowStart) == []
    ensures pins[0..] == pins
  {
  }

  lemma {:induction false} PinsSized(ts: seq<Source>, pins: seq<Pin>, windowStart: int)
    requires Sized(ts)
    ensures Positive(FloatingPins(ts, pins, windowStart)) && PositivePins(TimedPins(ts, pins, windowStart))
    decreases |pins|
  {
    if pins != [] {
      PinsSized(ts, pins[1..], windowStart);
      PinsSplitStep(ts, pins, windowStart, 0);
      assert pins[0..] == pins;
      hide FloatingPins, TimedPins;
    }
  }

  lemma {:induction false} RankedSized(ts: seq<Source>)
    requires Sized(ts)
    ensures AllPositive(AsRanked(ts))
    decreases |ts|
  {
    if ts != [] {
      assert ts[0] in ts;
      RankedSized(ts[1..]);
    }
  }

  lemma AllSized(source: seq<Source>, pins: seq<Pin>, windowStart: int, target: Date)
    requires Sized(source) && DistinctIds(source)
    ensures var ts := Schedulable(source);
            && Positive(FloatingPins(ts, pins, windowStart)) && PositivePins(TimedPins(ts, pins, windowStart))
            && AllPositive(AsRanked(RankSort(Unpinned(ts, PinnedIds(pins)), target)))
  {
    var ts := Schedulable(source);
    PinsSized(ts, pins, windowStart);
    var rest := Unpinned(ts, PinnedIds(pins));
    SchedulableDistinct(source);
    UnpinnedDistinct(ts, PinnedIds(pins));
    RankSortRanks(rest, target);
    var sorted := RankSort(rest, target);
    forall t | t in sorted ensures t in source {
      assert t in multiset(sorted);
      assert t in multiset(rest);
      assert t in rest;
    }
    RankedSized(sorted);
  }

  lemma {:induction false} SchedulableDistinct(source: seq<Source>)
    requires DistinctIds(source)
    ensures DistinctIds(Schedulable(source))
  {
    if source != [] {
      var rest := Schedulable(source[1..]);
      SchedulableDistinct(source[1..]);
      forall i | 0 <= i < |rest| ensures rest[i].id != source[0].id {
        assert rest[i] in source[1..];
        var k :| 0 <= k < |source[1..]| && source[1..][k] == rest[i];
        assert source[k + 1] == rest[i];
      }
    }
  }

  lemma {:induction false} UnpinnedDistinct(ts: seq<Source>, pinned: set<int>)
    requires DistinctIds(ts)
    ensures DistinctIds(Unpinned(ts, pinned))
  {
    if ts != [] {
      var rest := Unpinned(ts[1..], pinned);
      UnpinnedDistinct(ts[1..], pinned);
      forall i | 0 <= i < |rest| ensures rest[i].id != ts[0].id {
        assert rest[i] in ts[1..];
        var k :| 0 <= k < |ts[1..]| && ts[1..][k] == rest[i];
        assert ts[k + 1] == rest[i];
      }
    }
  }

  lemma {:induction false} OngoingLasts(commitments: seq<Busy>, windowStart: int)
    requires Lasting(commitments)
    ensures Lasting(Ongoing(commitments, windowStart))
  {
    if commitments != [] { OngoingLasts(commitments[1..], windowStart); }
  }
}
