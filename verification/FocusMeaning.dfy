/**
 What a Focus plan says of the tasks, pins and commitments it was made from
 (backend/app/services/focus.py, `get_focus_plan`).
 */
module FocusMeaning {
  import opened Common
  import opened Calendar
  import opened FocusLine
  import opened FocusPacker
  import opened Focus
  import opened FocusDay

  /** A task of the day that nothing unfinished blocks, and the minutes it takes. */
  predicate Open(source: seq<Source>, t: Source, minutes: int) {
    t in source && !t.blocked && Takes(t, minutes)
  }

  /** The pin keeps its own time: it has one, and does not end before the day begins. */
  predicate AtOwnTime(p: Pin, t: Source, minutes: int, windowStart: int) {
    t.id == p.task && p.start.Some? && p.start.value + minutes > windowStart
  }

  // ---- which works the day is packed from -----------------------------------------------------------

  lemma {:induction false} SchedulableHas(source: seq<Source>, t: Source)
    ensures t in Schedulable(source) <==> t in source && !t.blocked
  {
    if source != [] {
      SchedulableHas(source[1..], t);
      assert t in source <==> t == source[0] || t in source[1..];
    }
  }

  lemma {:induction false} FindHas(ts: seq<Source>, t: Source)
    requires DistinctIds(ts) && t in ts
    ensures Find(ts, t.id) == Some(t)
  {
    if ts[0] != t {
      assert t in ts[1..];
      var k :| 0 <= k < |ts[1..]| && ts[1..][k] == t;
      assert ts[k + 1] == t;
      FindHas(ts[1..], t);
    }
  }

  lemma TakesIs(t: Source, minutes: int)
    ensures Takes(t, minutes) <==> minutes == Minutes(t)
  {
  }

  lemma {:induction false} TimedHas(ts: seq<Source>, pins: seq<Pin>, windowStart: int, p: TimedPin)
    requires DistinctIds(ts)
    ensures p in TimedPins(ts, pins, windowStart)
            <==> exists i, t :: 0 <= i < |pins| && t in ts && AtOwnTime(pins[i], t, Minutes(t), windowStart)
                                && p == TimedPin(Work(t.id, Minutes(t)), pins[i].start.value)
    decreases |pins|
  {
    if pins != [] {
      TimedHas(ts, pins[1..], windowStart, p);
      var all, rest := TimedPins(ts, pins, windowStart), TimedPins(ts, pins[1..], windowStart);
      var t := Find(ts, pins[0].task);
      assert all == (if t.Some? && StillTimed(pins[0], t.value, windowStart)
                     then [TimedPin(Work(pins[0].task, Minutes(t.value)), pins[0].start.value)] else []) + rest;
      if i, u :| 0 <= i < |pins| && u in ts && AtOwnTime(pins[i], u, Minutes(u), windowStart)
                 && p == TimedPin(Work(u.id, Minutes(u)), pins[i].start.value) {
        if i == 0 { FindHas(ts, u); } else { assert pins[1..][i - 1] == pins[i]; }
      }
      if p in rest {
        var i, u :| 0 <= i < |pins[1..]| && u in ts && AtOwnTime(pins[1..][i], u, Minutes(u), windowStart)
                    && p == TimedPin(Work(u.id, Minutes(u)), pins[1..][i].start.value);
        assert pins[i + 1] == pins[1..][i];
      }
      if t.Some? && StillTimed(pins[0], t.value, windowStart) { assert AtOwnTime(pins[0], t.value, Minutes(t.value), windowStart); }
    }
  }

  lemma {:induction false} FloatingHas(ts: seq<Source>, pins: seq<Pin>, windowStart: int, w: Work)
    requires DistinctIds(ts)
    ensures w in FloatingPins(ts, pins, windowStart)
            <==> exists i, t :: 0 <= i < |pins| && t in ts && Drifts(pins[i], t, windowStart) && w == Work(t.id, Minutes(t))
    decreases |pins|
  {
    if pins != [] {
      FloatingHas(ts, pins[1..], windowStart, w);
      var all, rest := FloatingPins(ts, pins, windowStart), FloatingPins(ts, pins[1..], windowStart);
      var t := Find(ts, pins[0].task);
      assert all == (if t.Some? && !StillTimed(pins[0], t.value, windowStart) then [Work(pins[0].task, Minutes(t.value))] else []) + rest;
      if i, u :| 0 <= i < |pins| && u in ts && Drifts(pins[i], u, windowStart) && w == Work(u.id, Minutes(u)) {
        if i == 0 { FindHas(ts, u); } else { assert pins[1..][i - 1] == pins[i]; }
      }
      if w in rest {
        var i, u :| 0 <= i < |pins[1..]| && u in ts && Drifts(pins[1..][i], u, windowStart) && w == Work(u.id, Minutes(u));
        assert pins[i + 1] == pins[1..][i];
      }
      if t.Some? && !StillTimed(pins[0], t.value, windowStart) { assert Drifts(pins[0], t.value, windowStart); }
    }
  }

  predicate Drifts(p: Pin, t: Source, windowStart: int) {
    t.id == p.task && !AtOwnTime(p, t, Minutes(t), windowStart)
  }

  lemma {:induction false} RankedHas(ts: seq<Source>, r: RankedWork)
    ensures r in AsRanked(ts) <==> exists t :: t in ts && r == RankedWork(Work(t.id, Minutes(t)), t.standIns)
    decreases |ts|
  {
    if ts != [] {
      RankedHas(ts[1..], r);
      assert forall t :: t in ts <==> t == ts[0] || t in ts[1..];
    }
  }

  lemma {:induction false} UnpinnedHas(ts: seq<Source>, pinned: set<int>, t: Source)
    ensures t in Unpinned(ts, pinned) <==> t in ts && t.id !in pinned
  {
    if ts != [] {
      UnpinnedHas(ts[1..], pinned, t);
      assert t in ts <==> t == ts[0] || t in ts[1..];
    }
  }

  // ---- the blocks they become -------------------------------------------------------------------------

  lemma {:induction false} TimedBlocks(day: Day, start: int, timed: seq<TimedPin>, b: Block)
    ensures b in PlaceTimed(day, start, timed).blocks
            <==> b in day.blocks || exists p :: p in timed && b == Block(p.work.task, p.start, p.work.minutes, Fixed)
    decreases |timed|
  {
    if timed != [] {
      var p := timed[0];
      TimedBlocks(AddBlock(day, start, Block(p.work.task, p.start, p.work.minutes, Fixed)), start, timed[1..], b);
      assert forall q :: q in timed <==> q == p || q in timed[1..];
    }
  }

  /** What a ranked task adds: a block of its own, or blocks of its stand-ins. */
  predicate FromRanked(ranked: seq<RankedWork>, b: Block) {
    || (b.kind == Ranked && exists r :: r in ranked && b.task == r.work.task && b.minutes == r.work.minutes)
    || (b.kind.StandIn? && exists r, w :: r in ranked && b.kind.parent == r.work.task && w in r.standIns && b.task == w.task && b.minutes == w.minutes)
  }

  lemma {:induction false} StandInBlocks(day: Day, start: int, parent: int, subs: seq<Work>, b: Block)
    ensures b in PlaceStandIns(day, start, parent, subs).blocks ==>
              b in day.blocks || (b.kind == StandIn(parent) && exists w :: w in subs && b.task == w.task && b.minutes == w.minutes)
    decreases |subs|
  {
    if subs != [] {
      var at := Earliest(day.free, subs[0].minutes);
      var next := if at.Some? then Occupy(day, start, subs[0], at.value, StandIn(parent)) else day;
      hide Earliest, Run;
      StandInBlocks(next, start, parent, subs[1..], b);
      assert forall w :: w in subs <==> w == subs[0] || w in subs[1..];
    }
  }

  lemma OneBlocks(day: Day, start: int, r: RankedWork, b: Block)
    ensures b in PlaceOne(day, start, r).blocks ==> b in day.blocks || FromRanked([r], b)
  {
    StandInBlocks(day, start, r.work.task, r.standIns, b);
    hide Earliest, Run, PlaceStandIns;
    assert r in [r];
  }

  lemma {:induction false} RankedBlocks(day: Day, start: int, ranked: seq<RankedWork>, b: Block)
    ensures b in PlaceRanked(day, start, ranked).blocks ==> b in day.blocks || FromRanked(ranked, b)
    ensures day.blocks <= PlaceRanked(day, start, ranked).blocks
    decreases |ranked|
  {
    RankedLater(day, start, ranked);
    if ranked != [] {
      OneBlocks(day, start, ranked[0], b);
      RankedBlocks(PlaceOne(day, start, ranked[0]), start, ranked[1..], b);
      assert forall r :: r in ranked <==> r == ranked[0] || r in ranked[1..];
      hide PlaceOne, PlaceRanked;
    }
  }

  /** The parts a plan is packed from. */
  datatype Parts = Parts(floating: seq<Work>, timed: seq<TimedPin>, ranked: seq<RankedWork>, busy: seq<Busy>)

  function PartsOf(source: seq<Source>, pins: seq<Pin>, commitments: seq<Busy>, target: Date, windowStart: int): Parts {
    var ts := Schedulable(source);
    Parts(FloatingPins(ts, pins, windowStart), TimedPins(ts, pins, windowStart),
          AsRanked(RankSort(Unpinned(ts, PinnedIds(pins)), target)), Ongoing(commitments, windowStart))
  }

  lemma PlanIs(source: seq<Source>, pins: seq<Pin>, commitments: seq<Busy>, target: Date, windowStart: int, available: int)
    ensures var p := PartsOf(source, pins, commitments, target, windowStart);
            var day := Schedule(windowStart, available, p.floating, p.timed, p.ranked, p.busy);
            PlanOf(source, pins, commitments, target, windowStart, available)
            == Plan(TimeSort(day.blocks), day.overflow, BlockedIds(source), day.used + CommittedMinutes(p.busy, windowStart))
  {
    hide Schedule, TimeSort, RankSort;
  }

  lemma BlocksOf(start: int, available: int, p: Parts, b: Block)
    ensures var day := Schedule(start, available, p.floating, p.timed, p.ranked, p.busy);
            && (b in TimeSort(day.blocks) <==> b in day.blocks)
            && (b.kind.Fixed? ==> (b in day.blocks <==> exists q :: q in p.timed && b == Block(q.work.task, q.start, q.work.minutes, Fixed)))
            && (b in day.blocks && b.kind.Pinned? ==> exists w :: w in p.floating && b.task == w.task && b.minutes == w.minutes)
            && (b in day.blocks && (b.kind.Ranked? || b.kind.StandIn?) ==> FromRanked(p.ranked, b))
            && (forall k :: 0 <= k < |p.floating| ==> HasPin(day.blocks, p.floating[k], k))
  {
    var fixed := Intervals(p.busy, p.timed);
    var empty := FocusLine.Day.Day(FreeMinutes(start, start + available, fixed), [], [], 0, LatestEnd(start + available, fixed));
    var timed := PlaceTimed(empty, start, p.timed);
    var pinned := PlacePins(timed, start, p.floating, 0);
    TimedBlocks(empty, start, p.timed, b);
    TimedFixed(empty, start, p.timed, b);
    PinBlocks(timed, start, p.floating, b);
    PinsNeverOverflow(timed, start, p.floating, 0);
    RankedBlocks(pinned, start, p.ranked, b);
    var day := PlaceRanked(pinned, start, p.ranked);
    assert day == Schedule(start, available, p.floating, p.timed, p.ranked, p.busy);
    RankedNotFixed(p.ranked, b);
    SameBlocks(day.blocks, b);
    PrefixHas(pinned.blocks, day.blocks, b);
    assert empty.blocks == [];
    PinsThere(timed, pinned, day, p.floating);
    hide *;
  }

  /** The `k`-th floating pin has a block of its own, with its place in the order. */
  ghost predicate HasPin(blocks: seq<Block>, w: Work, k: nat) {
    exists c :: c in blocks && c.task == w.task && c.minutes == w.minutes && c.kind == Pinned(k)
  }

  lemma PinsThere(timed: Day, pinned: Day, day: Day, floating: seq<Work>)
    requires pinned.blocks <= day.blocks && |pinned.blocks| == |timed.blocks| + |floating|
    requires forall i :: 0 <= i < |floating| ==>
               pinned.blocks[|timed.blocks| + i].task == floating[i].task && pinned.blocks[|timed.blocks| + i].minutes == floating[i].minutes
               && pinned.blocks[|timed.blocks| + i].kind == Pinned(i)
    ensures forall k :: 0 <= k < |floating| ==> HasPin(day.blocks, floating[k], k)
  {
    forall k | 0 <= k < |floating| ensures HasPin(day.blocks, floating[k], k) {
      var c := pinned.blocks[|timed.blocks| + k];
      assert day.blocks[|timed.blocks| + k] == c;
    }
  }

  lemma SameBlocks(blocks: seq<Block>, b: Block)
    ensures b in TimeSort(blocks) <==> b in blocks
  {
    TimeSortSorts(blocks);
    hide TimeSort;
    assert b in TimeSort(blocks) <==> b in multiset(TimeSort(blocks));
  }

  lemma PrefixHas(a: seq<Block>, b: seq<Block>, x: Block)
    requires a <= b
    ensures x in a ==> x in b
  {
    if x in a {
      var i :| 0 <= i < |a| && a[i] == x;
      assert b[i] == x;
    }
  }

  /** The floating pins add pinned blocks only, each of one of them. */
  lemma PinBlocks(day: Day, start: int, pins: seq<Work>, b: Block)
    ensures b in day.blocks ==> b in PlacePins(day, start, pins, 0).blocks
    ensures b in PlacePins(day, start, pins, 0).blocks && b !in day.blocks ==>
              b.kind.Pinned? && exists w :: w in pins && b.task == w.task && b.minutes == w.minutes
  {
    PinsNeverOverflow(day, start, pins, 0);
    var t := PlacePins(day, start, pins, 0);
    hide PlacePins;
    assert t.blocks == day.blocks + t.blocks[|day.blocks|..];
    if b in t.blocks[|day.blocks|..] {
      var i :| 0 <= i < |pins| && t.blocks[|day.blocks|..][i] == b;
      assert t.blocks[|day.blocks| + i] == b;
      assert pins[i] in pins;
    }
  }

  lemma RankedNotFixed(ranked: seq<RankedWork>, b: Block)
    ensures FromRanked(ranked, b) ==> b.kind.Ranked? || b.kind.StandIn?
  {
  }

  lemma TimedFixed(day: Day, start: int, timed: seq<TimedPin>, b: Block)
    requires day.blocks == []
    ensures b in PlaceTimed(day, start, timed).blocks ==> b.kind.Fixed?
  {
    TimedBlocks(day, start, timed, b);
  }

  // ---- what the plan shows ------------------------------------------------------------------------------

  /**
   The fixed blocks are exactly the pins of open tasks that keep their own time, at that time and for
   the task's minutes.
   */
  lemma FixedAreTimedPins(source: seq<Source>, pins: seq<Pin>, commitments: seq<Busy>, target: Date, windowStart: int, available: int, b: Block)
    requires DistinctIds(source) && b.kind.Fixed?
    ensures b in PlanOf(source, pins, commitments, target, windowStart, available).scheduled
            <==> exists i, t :: 0 <= i < |pins| && Open(source, t, b.minutes) && AtOwnTime(pins[i], t, b.minutes, windowStart)
                                && b.task == t.id && b.start == pins[i].start.value
  {
    var ts, p := Schedulable(source), PartsOf(source, pins, commitments, target, windowStart);
    PlanIs(source, pins, commitments, target, windowStart, available);
    BlocksOf(windowStart, available, p, b);
    SchedulableDistinct(source);
    TimedHas(ts, pins, windowStart, TimedPin(Work(b.task, b.minutes), b.start));
    forall t ensures t in ts <==> t in source && !t.blocked { SchedulableHas(source, t); }
    assert p.timed == TimedPins(ts, pins, windowStart);
    hide PlanOf, Schedule, TimeSort, TimedPins, Schedulable, PartsOf, FromRanked;
    if q :| q in p.timed && b == Block(q.work.task, q.start, q.work.minutes, Fixed) {
      assert q == TimedPin(Work(b.task, b.minutes), b.start);
    }
    if TimedPin(Work(b.task, b.minutes), b.start) in p.timed {
      var q := TimedPin(Work(b.task, b.minutes), b.start);
      assert q in p.timed && b == Block(q.work.task, q.start, q.work.minutes, Fixed);
      var i, t :| 0 <= i < |pins| && t in ts && AtOwnTime(pins[i], t, Minutes(t), windowStart) && q == TimedPin(Work(t.id, Minutes(t)), pins[i].start.value);
      TakesIs(t, b.minutes);
      assert Open(source, t, b.minutes) && AtOwnTime(pins[i], t, b.minutes, windowStart);
    }
    if i, t :| 0 <= i < |pins| && Open(source, t, b.minutes) && AtOwnTime(pins[i], t, b.minutes, windowStart) && b.task == t.id && b.start == pins[i].start.value {
      TakesIs(t, b.minutes);
      assert t in ts && AtOwnTime(pins[i], t, Minutes(t), windowStart);
    }
  }

  /** Every other pin of an open task gets a pinned block of the task's minutes, wherever it fits. */
  lemma OtherPinsArePlaced(source: seq<Source>, pins: seq<Pin>, commitments: seq<Busy>, target: Date, windowStart: int, available: int,
                           i: nat, t: Source, minutes: int)
    requires DistinctIds(source) && i < |pins| && Open(source, t, minutes) && t.id == pins[i].task && !AtOwnTime(pins[i], t, minutes, windowStart)
    ensures exists b :: b in PlanOf(source, pins, commitments, target, windowStart, available).scheduled
                        && b.task == t.id && b.minutes == minutes && b.kind.Pinned?
  {
    var ts, p := Schedulable(source), PartsOf(source, pins, commitments, target, windowStart);
    PlanIs(source, pins, commitments, target, windowStart, available);
    SchedulableDistinct(source);
    SchedulableHas(source, t);
    TakesIs(t, minutes);
    FloatingHas(ts, pins, windowStart, Work(t.id, minutes));
    assert Drifts(pins[i], t, windowStart);
    assert p.floating == FloatingPins(ts, pins, windowStart);
    var day := Schedule(windowStart, available, p.floating, p.timed, p.ranked, p.busy);
    hide PlanOf, Schedule, TimeSort, FloatingPins, Schedulable, PartsOf, FromRanked;
    var k :| 0 <= k < |p.floating| && p.floating[k] == Work(t.id, minutes);
    BlocksOf(windowStart, available, p, Block(t.id, 0, minutes, Fixed));
    assert HasPin(day.blocks, p.floating[k], k);
    var c :| c in day.blocks && c.task == p.floating[k].task && c.minutes == p.floating[k].minutes && c.kind == Pinned(k);
    BlocksOf(windowStart, available, p, c);
  }

  /** A pin of the task that does not keep a time of its own. */
  predicate PinnedLoosely(pins: seq<Pin>, t: Source, minutes: int, windowStart: int) {
    exists i :: 0 <= i < |pins| && pins[i].task == t.id && !AtOwnTime(pins[i], t, minutes, windowStart)
  }

  /**
   A block that is not fixed is of an open task: pinned without a time of its own if it says so,
   ranked only if nothing pins the task, or a stand-in for such a task; and it has its minutes.
   */
  lemma OtherBlocksAre(source: seq<Source>, pins: seq<Pin>, commitments: seq<Busy>, target: Date, windowStart: int, available: int, b: Block)
    requires DistinctIds(source) && b in PlanOf(source, pins, commitments, target, windowStart, available).scheduled
    ensures b.kind.Pinned? ==> exists t :: Open(source, t, b.minutes) && t.id == b.task && PinnedLoosely(pins, t, b.minutes, windowStart)
    ensures b.kind.Ranked? ==> exists t :: Open(source, t, b.minutes) && t.id == b.task && forall i :: 0 <= i < |pins| ==> pins[i].task != t.id
    ensures b.kind.StandIn? ==> exists t :: t in source && !t.blocked && t.id == b.kind.parent && Work(b.task, b.minutes) in t.standIns
                                            && forall i :: 0 <= i < |pins| ==> pins[i].task != t.id
  {
    var ts, p := Schedulable(source), PartsOf(source, pins, commitments, target, windowStart);
    PlanIs(source, pins, commitments, target, windowStart, available);
    BlocksOf(windowStart, available, p, b);
    SchedulableDistinct(source);
    forall t ensures t in ts <==> t in source && !t.blocked { SchedulableHas(source, t); }
    var free := Unpinned(ts, PinnedIds(pins));
    UnpinnedDistinct(ts, PinnedIds(pins));
    RankSortRanks(free, target);
    assert p.floating == FloatingPins(ts, pins, windowStart) && p.ranked == AsRanked(RankSort(free, target));
    hide PlanOf, Schedule, TimeSort, FloatingPins, Schedulable, PartsOf, RankSort, AsRanked;
    if b.kind.Pinned? {
      FloatingHas(ts, pins, windowStart, Work(b.task, b.minutes));
      var w :| w in p.floating && b.task == w.task && b.minutes == w.minutes;
      assert w == Work(b.task, b.minutes);
      var i, t :| 0 <= i < |pins| && t in ts && Drifts(pins[i], t, windowStart) && w == Work(t.id, Minutes(t));
      TakesIs(t, b.minutes);
      assert Open(source, t, b.minutes) && PinnedLoosely(pins, t, b.minutes, windowStart);
    } else if b.kind.Ranked? {
      var r :| r in p.ranked && b.task == r.work.task && b.minutes == r.work.minutes;
      var t := RankedSource(ts, pins, target, r);
      TakesIs(t, b.minutes);
      assert Open(source, t, b.minutes);
    } else if b.kind.StandIn? {
      var r, w :| r in p.ranked && b.kind.parent == r.work.task && w in r.standIns && b.task == w.task && b.minutes == w.minutes;
      var t := RankedSource(ts, pins, target, r);
      assert w == Work(b.task, b.minutes);
    }
  }

  lemma RankedSource(ts: seq<Source>, pins: seq<Pin>, target: Date, r: RankedWork) returns (t: Source)
    requires DistinctIds(ts) && r in AsRanked(RankSort(Unpinned(ts, PinnedIds(pins)), target))
    ensures t in ts && r == RankedWork(Work(t.id, Minutes(t)), t.standIns) && forall i :: 0 <= i < |pins| ==> pins[i].task != t.id
  {
    var free := Unpinned(ts, PinnedIds(pins));
    var sorted := RankSort(free, target);
    UnpinnedDistinct(ts, PinnedIds(pins));
    RankSortRanks(free, target);
    hide RankSort, Unpinned;
    RankedHas(sorted, r);
    t :| t in sorted && r == RankedWork(Work(t.id, Minutes(t)), t.standIns);
    assert t in multiset(sorted);
    assert t in multiset(free);
    UnpinnedHas(ts, PinnedIds(pins), t);
    forall i | 0 <= i < |pins| ensures pins[i].task != t.id {
      assert pins[i].task in PinnedIds(pins);
    }
  }

  /** The blocked list names exactly the blocked tasks. */
  lemma {:induction false} BlockedAre(source: seq<Source>, id: int)
    ensures id in BlockedIds(source) <==> exists t :: t in source && t.blocked && t.id == id
  {
    if source != [] {
      BlockedAre(source[1..], id);
      assert forall t :: t in source <==> t == source[0] || t in source[1..];
    }
  }

  // ---- the minutes used -----------------------------------------------------------------------------------

  /** How much of an interval lies at or after the start of the window. */
  ghost function MinutesAfter(windowStart: int, from: int, to: int): nat {
    var run := Run(from, to - from);
    |set m | m in run && windowStart <= m|
  }

  ghost function BlockMinutes(windowStart: int, blocks: seq<Block>): nat {
    if blocks == [] then 0
    else BlockMinutes(windowStart, blocks[..|blocks| - 1])
         + MinutesAfter(windowStart, blocks[|blocks| - 1].start, blocks[|blocks| - 1].start + blocks[|blocks| - 1].minutes)
  }

  ghost function BusyMinutes(windowStart: int, busy: seq<Busy>): nat {
    if busy == [] then 0 else MinutesAfter(windowStart, busy[0].start, busy[0].end) + BusyMinutes(windowStart, busy[1..])
  }

  lemma MinutesAfterIs(windowStart: int, from: int, to: int)
    ensures var first := if from < windowStart then windowStart else from;
            MinutesAfter(windowStart, from, to) == if first < to then to - first else 0
  {
    hide Run;
    var first := if from < windowStart then windowStart else from;
    if first < to {
      AfterRun(windowStart, Run(from, to - from), Run(first, to - first));
      RunSize(first, to - first);
    } else {
      AfterRun(windowStart, Run(from, to - from), {});
    }
  }

  lemma AfterRun(windowStart: int, run: set<int>, rest: set<int>)
    requires forall m :: m in rest <==> m in run && windowStart <= m
    ensures (set m | m in run && windowStart <= m) == rest
  {
    var later := set m | m in run && windowStart <= m;
    forall m ensures m in later <==> m in rest {
      assert m in rest <==> m in run && windowStart <= m;
    }
  }

  /** Adding a block adds its minutes. */
  lemma AddCounts(day: Day, windowStart: int, b: Block)
    requires day.used == BlockMinutes(windowStart, day.blocks)
    ensures var t := AddBlock(day, windowStart, b); t.used == BlockMinutes(windowStart, t.blocks)
  {
    MinutesAfterIs(windowStart, b.start, b.start + b.minutes);
    assert (day.blocks + [b])[..|day.blocks|] == day.blocks;
    hide MinutesAfter;
  }

  ghost predicate UsedRight(day: Day, windowStart: int) {
    day.used == BlockMinutes(windowStart, day.blocks)
  }

  lemma {:induction false} TimedCounts(day: Day, start: int, timed: seq<TimedPin>)
    requires UsedRight(day, start)
    ensures UsedRight(PlaceTimed(day, start, timed), start)
    decreases |timed|
  {
    if timed != [] {
      var b := Block(timed[0].work.task, timed[0].start, timed[0].work.minutes, Fixed);
      AddCounts(day, start, b);
      hide BlockMinutes, AddBlock;
      TimedCounts(AddBlock(day, start, b), start, timed[1..]);
    }
  }

  lemma {:induction false} PinsCount(day: Day, start: int, pins: seq<Work>, order: nat)
    requires UsedRight(day, start)
    ensures UsedRight(PlacePins(day, start, pins, order), start)
    decreases |pins|
  {
    if pins != [] {
      var at := Earliest(day.free, pins[0].minutes);
      AddCounts(day, start, Block(pins[0].task, if at.Some? then at.value else day.late, pins[0].minutes, Pinned(order)));
      hide BlockMinutes, AddBlock, Earliest;
      PinsCount(PinOne(day, start, pins[0], order), start, pins[1..], order + 1);
    }
  }

  lemma {:induction false} StandInsCount(day: Day, start: int, parent: int, subs: seq<Work>)
    requires UsedRight(day, start)
    ensures UsedRight(PlaceStandIns(day, start, parent, subs), start)
    decreases |subs|
  {
    if subs != [] {
      var at := Earliest(day.free, subs[0].minutes);
      if at.Some? { AddCounts(day, start, Block(subs[0].task, at.value, subs[0].minutes, StandIn(parent))); }
      hide BlockMinutes, AddBlock, Earliest;
      StandInsCount(if at.Some? then Occupy(day, start, subs[0], at.value, StandIn(parent)) else day, start, parent, subs[1..]);
    }
  }

  lemma {:induction false} RankedCount(day: Day, start: int, ranked: seq<RankedWork>)
    requires UsedRight(day, start)
    ensures UsedRight(PlaceRanked(day, start, ranked), start)
    decreases |ranked|
  {
    if ranked != [] {
      var r := ranked[0];
      var at := Earliest(day.free, r.work.minutes);
      if at.Some? { AddCounts(day, start, Block(r.work.task, at.value, r.work.minutes, Ranked)); }
      StandInsCount(day, start, r.work.task, r.standIns);
      hide BlockMinutes, AddBlock, Earliest, PlaceStandIns;
      RankedCount(PlaceOne(day, start, r), start, ranked[1..]);
    }
  }

  lemma {:induction false} CountConcat(windowStart: int, a: seq<Block>, b: seq<Block>)
    ensures BlockMinutes(windowStart, a + b) == BlockMinutes(windowStart, a) + BlockMinutes(windowStart, b)
    decreases |b|
  {
    hide MinutesAfter;
    if b == [] { assert a + b == a; } else {
      assert (a + b)[..|a + b| - 1] == a + b[..|b| - 1];
      CountConcat(windowStart, a, b[..|b| - 1]);
    }
  }

  lemma {:induction false} CountInsert(windowStart: int, b: Block, sorted: seq<Block>)
    ensures BlockMinutes(windowStart, InsertBlock(b, sorted)) == BlockMinutes(windowStart, [b]) + BlockMinutes(windowStart, sorted)
    decreases |sorted|
  {
    hide BlockKey, MinutesAfter;
    if sorted == [] {
      assert [b] + [] == [b];
    } else if BlockKey(b) <= BlockKey(sorted[0]) {
      CountConcat(windowStart, [b], sorted);
    } else {
      CountInsert(windowStart, b, sorted[1..]);
      CountConcat(windowStart, [sorted[0]], InsertBlock(b, sorted[1..]));
      CountConcat(windowStart, [sorted[0]], sorted[1..]);
      assert sorted == [sorted[0]] + sorted[1..];
    }
  }

  lemma {:induction false} CountSorted(windowStart: int, blocks: seq<Block>)
    ensures BlockMinutes(windowStart, TimeSort(blocks)) == BlockMinutes(windowStart, blocks)
    decreases |blocks|
  {
    if blocks != [] {
      CountSorted(windowStart, blocks[1..]);
      CountInsert(windowStart, blocks[0], TimeSort(blocks[1..]));
      CountConcat(windowStart, [blocks[0]], blocks[1..]);
      assert blocks == [blocks[0]] + blocks[1..];
      hide InsertBlock;
    }
  }

  lemma {:induction false} CommittedIs(commitments: seq<Busy>, windowStart: int)
    requires Lasting(commitments)
    ensures CommittedMinutes(Ongoing(commitments, windowStart), windowStart) == BusyMinutes(windowStart, commitments)
    decreases |commitments|
  {
    if commitments != [] {
      var c := commitments[0];
      CommittedIs(commitments[1..], windowStart);
      MinutesAfterIs(windowStart, c.start, c.end);
      hide MinutesAfter;
      assert c.start < c.end;
      var rest := Ongoing(commitments[1..], windowStart);
      if c.end > windowStart { assert ([c] + rest)[1..] == rest; } else { assert [] + rest == rest; }
    }
  }

  /** The minutes a plan uses are those of its blocks and of the day's commitments, as far as they lie in or after the window. */
  lemma UsedIs(source: seq<Source>, pins: seq<Pin>, commitments: seq<Busy>, target: Date, windowStart: int, available: int)
    requires Lasting(commitments)
    ensures var plan := PlanOf(source, pins, commitments, target, windowStart, available);
            plan.used == BlockMinutes(windowStart, plan.scheduled) + BusyMinutes(windowStart, commitments)
  {
    var p := PartsOf(source, pins, commitments, target, windowStart);
    PlanIs(source, pins, commitments, target, windowStart, available);
    var fixed := Intervals(p.busy, p.timed);
    var empty := FocusLine.Day.Day(FreeMinutes(windowStart, windowStart + available, fixed), [], [], 0, LatestEnd(windowStart + available, fixed));
    TimedCounts(empty, windowStart, p.timed);
    PinsCount(PlaceTimed(empty, windowStart, p.timed), windowStart, p.floating, 0);
    var opening := Opened(windowStart, available, p.floating, p.timed, p.busy);
    RankedCount(opening, windowStart, p.ranked);
    CountSorted(windowStart, PlaceRanked(opening, windowStart, p.ranked).blocks);
    CommittedIs(commitments, windowStart);
    hide PlanOf, TimeSort, PlaceTimed, PlacePins, PlaceRanked, FreeMinutes, Intervals, LatestEnd, BlockMinutes, BusyMinutes, CommittedMinutes;
  }

  // ---- no two things at once --------------------------------------------------------------------------------

  /** No two blocks but fixed ones share a minute. */
  ghost predicate PairwiseClear(blocks: seq<Block>) {
    forall i, j :: 0 <= i < j < |blocks| && !blocks[i].kind.Fixed? && !blocks[j].kind.Fixed? ==> Disjoint(blocks[i], blocks[j])
  }

  lemma {:induction false} InsertClear(b: Block, sorted: seq<Block>)
    requires PairwiseClear(sorted) && (!b.kind.Fixed? ==> forall c :: c in sorted && !c.kind.Fixed? ==> Disjoint(b, c))
    ensures PairwiseClear(InsertBlock(b, sorted))
    ensures forall c :: c in InsertBlock(b, sorted) <==> c == b || c in sorted
    decreases |sorted|
  {
    hide BlockKey;
    if sorted == [] {
    } else if BlockKey(b) <= BlockKey(sorted[0]) {
      ClearHead(b, sorted);
    } else {
      assert forall c :: c in sorted <==> c == sorted[0] || c in sorted[1..];
      InsertClear(b, sorted[1..]);
      ClearTail(sorted);
      ClearHead(sorted[0], InsertBlock(b, sorted[1..]));
    }
  }

  lemma ClearTail(sorted: seq<Block>)
    requires PairwiseClear(sorted) && sorted != []
    ensures PairwiseClear(sorted[1..]) && forall c :: c in sorted[1..] && !sorted[0].kind.Fixed? && !c.kind.Fixed? ==> Disjoint(sorted[0], c)
  {
    forall c | c in sorted[1..] && !sorted[0].kind.Fixed? && !c.kind.Fixed? ensures Disjoint(sorted[0], c) {
      var k :| 0 <= k < |sorted[1..]| && sorted[1..][k] == c;
      assert sorted[k + 1] == c;
    }
  }

  lemma ClearHead(b: Block, rest: seq<Block>)
    requires PairwiseClear(rest) && (!b.kind.Fixed? ==> forall c :: c in rest && !c.kind.Fixed? ==> Disjoint(b, c))
    ensures PairwiseClear([b] + rest)
  {
    var all := [b] + rest;
    forall i, j | 0 <= i < j < |all| && !all[i].kind.Fixed? && !all[j].kind.Fixed? ensures Disjoint(all[i], all[j]) {
      assert all[j] == rest[j - 1];
      if i > 0 { assert all[i] == rest[i - 1]; }
    }
  }

  lemma {:induction false} SortClear(blocks: seq<Block>)
    requires PairwiseClear(blocks)
    ensures PairwiseClear(TimeSort(blocks))
    decreases |blocks|
  {
    if blocks != [] {
      ClearTail(blocks);
      SortClear(blocks[1..]);
      TimeSortSorts(blocks[1..]);
      forall c | c in TimeSort(blocks[1..]) && !blocks[0].kind.Fixed? && !c.kind.Fixed? ensures Disjoint(blocks[0], c) {
        assert c in multiset(TimeSort(blocks[1..]));
        assert c in multiset(blocks[1..]);
      }
      InsertClear(blocks[0], TimeSort(blocks[1..]));
      hide InsertBlock;
    }
  }

  /**
   In the plan itself: what is not fixed shares no minute with another such block, with a fixed block
   or with a commitment, and lies in the window unless it is a pin, which then comes after the window,
   the commitments and the fixed blocks.
   */
  lemma NothingTwice(source: seq<Source>, pins: seq<Pin>, commitments: seq<Busy>, target: Date, windowStart: int, available: int, b: Block)
    requires available >= 0 && Sized(source) && DistinctIds(source) && Lasting(commitments)
    requires b in PlanOf(source, pins, commitments, target, windowStart, available).scheduled && !b.kind.Fixed?
    ensures var plan := PlanOf(source, pins, commitments, target, windowStart, available);
            && PairwiseClear(plan.scheduled)
            && (forall c :: c in plan.scheduled && c.kind.Fixed? ==> Disjoint(b, c))
            && (forall c :: c in commitments ==> b.start + b.minutes <= c.start || c.end <= b.start)
            && windowStart <= b.start
            && (b.start + b.minutes <= windowStart + available || (b.kind.Pinned? && windowStart + available <= b.start))
  {
    var p := PartsOf(source, pins, commitments, target, windowStart);
    var day := Schedule(windowStart, available, p.floating, p.timed, p.ranked, p.busy);
    PlanIs(source, pins, commitments, target, windowStart, available);
    AllSized(source, pins, windowStart, target);
    ScheduleIsSound(windowStart, available, p.floating, p.timed, p.ranked, p.busy);
    SortClear(day.blocks);
    BlocksOf(windowStart, available, p, b);
    var k :| 0 <= k < |day.blocks| && day.blocks[k] == b;
    assert Apart(day, windowStart, windowStart + available, Intervals(p.busy, p.timed), k);
    var plan := PlanOf(source, pins, commitments, target, windowStart, available);
    assert p.busy == Ongoing(commitments, windowStart);
    hide *;
    ClearOfFixed(windowStart, available, p, b);
    ClearOfBusy(commitments, windowStart, p, b);
  }

  /** What covers no fixed minute stays off every fixed block. */
  lemma ClearOfFixed(windowStart: int, available: int, p: Parts, b: Block)
    requires b.minutes > 0 && forall m :: b.start <= m < b.start + b.minutes ==> !Covered(Intervals(p.busy, p.timed), m)
    requires PositivePins(p.timed)
    ensures forall c :: c in TimeSort(Schedule(windowStart, available, p.floating, p.timed, p.ranked, p.busy).blocks) && c.kind.Fixed? ==> Disjoint(b, c)
  {
    hide TimeSort, Schedule, Covered;
    forall c | c in TimeSort(Schedule(windowStart, available, p.floating, p.timed, p.ranked, p.busy).blocks) && c.kind.Fixed? ensures Disjoint(b, c) {
      BlocksOf(windowStart, available, p, c);
      var q :| q in p.timed && c == Block(q.work.task, q.start, q.work.minutes, Fixed);
      IntervalsHave(p.busy, p.timed, Busy(q.start, q.start + q.work.minutes));
      OffInterval(Intervals(p.busy, p.timed), b, Busy(q.start, q.start + q.work.minutes));
    }
  }

  lemma ClearOfBusy(commitments: seq<Busy>, windowStart: int, p: Parts, b: Block)
    requires b.minutes > 0 && forall m :: b.start <= m < b.start + b.minutes ==> !Covered(Intervals(p.busy, p.timed), m)
    requires Lasting(commitments) && p.busy == Ongoing(commitments, windowStart) && windowStart <= b.start
    ensures forall c :: c in commitments ==> b.start + b.minutes <= c.start || c.end <= b.start
  {
    hide Covered;
    forall c | c in commitments ensures b.start + b.minutes <= c.start || c.end <= b.start {
      if c.end > windowStart {
        OngoingHas(commitments, windowStart, c);
        IntervalsHave(p.busy, p.timed, c);
        OffInterval(Intervals(p.busy, p.timed), b, c);
      }
    }
  }

  lemma {:induction false} OngoingHas(commitments: seq<Busy>, windowStart: int, c: Busy)
    ensures c in Ongoing(commitments, windowStart) <==> c in commitments && c.end > windowStart
    decreases |commitments|
  {
    if commitments != [] {
      OngoingHas(commitments[1..], windowStart, c);
      assert c in commitments <==> c == commitments[0] || c in commitments[1..];
    }
  }

  lemma {:induction false} IntervalsHave(busy: seq<Busy>, timed: seq<TimedPin>, b: Busy)
    ensures b in Intervals(busy, timed) <==> b in busy || exists q :: q in timed && b == Busy(q.start, q.start + q.work.minutes)
    decreases |timed|
  {
    if timed != [] {
      IntervalsHave(busy, timed[..|timed| - 1], b);
      assert timed == timed[..|timed| - 1] + [timed[|timed| - 1]];
    }
  }

  lemma OffInterval(busy: seq<Busy>, b: Block, c: Busy)
    requires c in busy && c.start < c.end && b.minutes > 0
    requires forall m :: b.start <= m < b.start + b.minutes ==> !Covered(busy, m)
    ensures b.start + b.minutes <= c.start || c.end <= b.start
  {
    var k :| 0 <= k < |busy| && busy[k] == c;
    var m := FocusLine.Max(b.start, c.start);
    if m < c.end && m < b.start + b.minutes {
      assert Covers(busy[k], m);
      assert Covered(busy, m);
    }
  }

  // ---- pins that fit nowhere ----------------------------------------------------------------------------------

  predicate LatePin(b: Block, to: int) {
    b.kind.Pinned? && to <= b.start
  }

  /** Something that counts as the end of the day ends at `m`: the window, a fixed interval or a late pin. */
  ghost predicate EndsAt(blocks: seq<Block>, to: int, busy: seq<Busy>, m: int) {
    m == to || (exists c :: c in busy && c.end == m) || exists d :: d in blocks && LatePin(d, to) && d.start + d.minutes == m
  }

  ghost predicate Queued(day: Day, to: int, busy: seq<Busy>) {
    && to <= day.late && EndsAt(day.blocks, to, busy, day.late)
    && (forall b :: b in day.blocks && LatePin(b, to) ==> EndsAt(day.blocks, to, busy, b.start))
    && forall m :: m in day.free ==> m < to
  }

  lemma EndsMore(blocks: seq<Block>, b: Block, to: int, busy: seq<Busy>, m: int)
    ensures EndsAt(blocks, to, busy, m) ==> EndsAt(blocks + [b], to, busy, m)
  {
  }

  lemma PinQueues(day: Day, start: int, w: Work, order: nat, to: int, busy: seq<Busy>)
    requires Queued(day, to, busy) && w.minutes > 0
    ensures Queued(PinOne(day, start, w, order), to, busy)
  {
    EarliestIs(day.free, w.minutes);
    var at := Earliest(day.free, w.minutes);
    var t := PinOne(day, start, w, order);
    hide Earliest, EndsAt;
    var b := t.blocks[|day.blocks|];
    assert t.blocks == day.blocks + [b];
    if at.Some? { assert at.value in Run(at.value, w.minutes); }
    forall m ensures EndsAt(day.blocks, to, busy, m) ==> EndsAt(t.blocks, to, busy, m) { EndsMore(day.blocks, b, to, busy, m); }
    if at.None? { LateEnds(t.blocks, b, to, busy); }
  }

  lemma LateEnds(blocks: seq<Block>, b: Block, to: int, busy: seq<Busy>)
    requires b in blocks && LatePin(b, to)
    ensures EndsAt(blocks, to, busy, b.start + b.minutes)
  {
  }

  lemma {:induction false} PinsQueue(day: Day, start: int, pins: seq<Work>, order: nat, to: int, busy: seq<Busy>)
    requires Queued(day, to, busy) && Positive(pins)
    ensures Queued(PlacePins(day, start, pins, order), to, busy)
    decreases |pins|
  {
    if pins != [] {
      PinQueues(day, start, pins[0], order, to, busy);
      hide Queued, PinOne;
      PinsQueue(PinOne(day, start, pins[0], order), start, pins[1..], order + 1, to, busy);
    }
  }

  lemma {:induction false} LatestEnds(from: int, busy: seq<Busy>)
    ensures LatestEnd(from, busy) == from || exists c :: c in busy && c.end == LatestEnd(from, busy)
  {
    if busy != [] {
      var n := |busy| - 1;
      LatestEnds(from, busy[..n]);
      assert busy == busy[..n] + [busy[n]];
    }
  }

  /**
   A pin that fits nowhere leaves no hole: it starts where the window, a commitment, a fixed block or
   another such pin ends.
   */
  lemma LatePinsFollow(source: seq<Source>, pins: seq<Pin>, commitments: seq<Busy>, target: Date, windowStart: int, available: int, b: Block)
    requires available >= 0 && Sized(source) && DistinctIds(source) && Lasting(commitments)
    requires b in PlanOf(source, pins, commitments, target, windowStart, available).scheduled && LatePin(b, windowStart + available)
    ensures var plan := PlanOf(source, pins, commitments, target, windowStart, available);
            || b.start == windowStart + available
            || (exists c :: c in commitments && c.end == b.start)
            || exists d :: d in plan.scheduled && (d.kind.Fixed? || LatePin(d, windowStart + available)) && d.start + d.minutes == b.start
  {
    hide *;
    var p, to := PartsOf(source, pins, commitments, target, windowStart), windowStart + available;
    PlanIs(source, pins, commitments, target, windowStart, available);
    AllSized(source, pins, windowStart, target);
    PartsAre(source, pins, commitments, target, windowStart);
    OpenedQueues(windowStart, available, p);
    var pinned := Opened(windowStart, available, p.floating, p.timed, p.busy);
    var day := Schedule(windowStart, available, p.floating, p.timed, p.ranked, p.busy);
    LateBlockOf(windowStart, available, p, b);
    EndsInPlan(commitments, windowStart, available, p, pinned, day, TimeSort(day.blocks), b.start);
  }

  lemma PartsAre(source: seq<Source>, pins: seq<Pin>, commitments: seq<Busy>, target: Date, windowStart: int)
    ensures var ts, p := Schedulable(source), PartsOf(source, pins, commitments, target, windowStart);
            && p.floating == FloatingPins(ts, pins, windowStart) && p.timed == TimedPins(ts, pins, windowStart)
            && p.ranked == AsRanked(RankSort(Unpinned(ts, PinnedIds(pins)), target)) && p.busy == Ongoing(commitments, windowStart)
  {
    hide RankSort;
  }

  lemma OpenedQueues(start: int, available: int, p: Parts)
    requires Positive(p.floating)
    ensures Queued(Opened(start, available, p.floating, p.timed, p.busy), start + available, Intervals(p.busy, p.timed))
  {
    var fixed, to := Intervals(p.busy, p.timed), start + available;
    var empty := FocusLine.Day.Day(FreeMinutes(start, to, fixed), [], [], 0, LatestEnd(to, fixed));
    LatestEnds(to, fixed);
    LatestEndIs(to, fixed);
    assert forall m :: m in empty.free ==> m < to;
    assert Opened(start, available, p.floating, p.timed, p.busy) == PlacePins(PlaceTimed(empty, start, p.timed), start, p.floating, 0);
    hide PlaceTimed, PlacePins, FreeMinutes, Intervals, LatestEnd, Queued;
    TimedQueue(empty, start, p.timed, to, fixed);
    PinsQueue(PlaceTimed(empty, start, p.timed), start, p.floating, 0, to, fixed);
  }

  /** A late pin of the day was there before the ranking began. */
  lemma LateBlockOf(start: int, available: int, p: Parts, b: Block)
    requires b in TimeSort(Schedule(start, available, p.floating, p.timed, p.ranked, p.busy).blocks) && LatePin(b, start + available)
    requires var pinned := Opened(start, available, p.floating, p.timed, p.busy);
             Queued(pinned, start + available, Intervals(p.busy, p.timed))
    ensures var pinned := Opened(start, available, p.floating, p.timed, p.busy);
            && pinned.blocks <= Schedule(start, available, p.floating, p.timed, p.ranked, p.busy).blocks
            && EndsAt(pinned.blocks, start + available, Intervals(p.busy, p.timed), b.start)
  {
    var pinned := Opened(start, available, p.floating, p.timed, p.busy);
    SameBlocks(Schedule(start, available, p.floating, p.timed, p.ranked, p.busy).blocks, b);
    RankedBlocks(pinned, start, p.ranked, b);
    RankedNotFixed(p.ranked, b);
    hide TimeSort, Opened, PlaceRanked, FromRanked, EndsAt, Intervals;
  }

  lemma {:induction false} TimedQueue(day: Day, start: int, timed: seq<TimedPin>, to: int, busy: seq<Busy>)
    requires to <= day.late && EndsAt([], to, busy, day.late) && (forall m :: m in day.free ==> m < to) && day.blocks == []
    ensures Queued(PlaceTimed(day, start, timed), to, busy)
  {
    var t := PlaceTimed(day, start, timed);
    TimedRest(day, start, timed);
    hide PlaceTimed;
    forall b | b in t.blocks ensures b.kind.Fixed? { TimedFixed(day, start, timed, b); }
  }

  lemma {:induction false} TimedRest(day: Day, start: int, timed: seq<TimedPin>)
    ensures PlaceTimed(day, start, timed).free == day.free && PlaceTimed(day, start, timed).late == day.late
    decreases |timed|
  {
    if timed != [] {
      TimedRest(AddBlock(day, start, Block(timed[0].work.task, timed[0].start, timed[0].work.minutes, Fixed)), start, timed[1..]);
    }
  }

  lemma EndsInPlan(commitments: seq<Busy>, windowStart: int, available: int, p: Parts, pinned: Day, day: Day, scheduled: seq<Block>, m: int)
    requires EndsAt(pinned.blocks, windowStart + available, Intervals(p.busy, p.timed), m) && p.busy == Ongoing(commitments, windowStart)
    requires day == Schedule(windowStart, available, p.floating, p.timed, p.ranked, p.busy) && scheduled == TimeSort(day.blocks)
    requires pinned.blocks <= day.blocks
    ensures || m == windowStart + available
            || (exists c :: c in commitments && c.end == m)
            || exists d :: d in scheduled && (d.kind.Fixed? || LatePin(d, windowStart + available)) && d.start + d.minutes == m
  {
    var fixed, to := Intervals(p.busy, p.timed), windowStart + available;
    hide Schedule, TimeSort, Intervals, Ongoing;
    if m != to {
      if d :| d in pinned.blocks && LatePin(d, to) && d.start + d.minutes == m {
        PrefixHas(pinned.blocks, day.blocks, d);
        SameBlocks(day.blocks, d);
      } else {
        var c :| c in fixed && c.end == m;
        IntervalsHave(p.busy, p.timed, c);
        if c in p.busy { OngoingHas(commitments, windowStart, c); } else {
          var q :| q in p.timed && c == Busy(q.start, q.start + q.work.minutes);
          var d := Block(q.work.task, q.start, q.work.minutes, Fixed);
          BlocksOf(windowStart, available, p, d);
          assert d in scheduled && d.kind.Fixed? && d.start + d.minutes == m;
        }
      }
    }
  }
}
