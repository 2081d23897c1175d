/**
 The Focus day as a line of minutes: the plain scheduler the packer is held against. Every
 placement takes the earliest run of free minutes that is long enough.
 */
module FocusLine {
  import opened Common

  /** A fixed interval, `end` excluded; every stored length is at least a minute. */
  datatype Busy = Busy(start: int, end: int)

  datatype Kind = Fixed | Pinned(order: nat) | Ranked | StandIn(parent: int)

  datatype Block = Block(task: int, start: int, minutes: int, kind: Kind)

  datatype Overflow = Overflow(task: int, minutes: int, standIns: nat)

  /** A task with its effective estimate, always positive. */
  datatype Work = Work(task: int, minutes: int)

  /** A ranked task and the subtasks that could stand in for it, in order. */
  datatype RankedWork = RankedWork(work: Work, standIns: seq<Work>)

  datatype TimedPin = TimedPin(work: Work, start: int)

  /** The day so far: what is free, what is placed, and where a pin that fits nowhere goes. */
  datatype Day = Day(free: set<int>, blocks: seq<Block>, overflow: seq<Overflow>, used: int, late: int)

  predicate Covers(b: Busy, m: int) {
    b.start <= m < b.end
  }

  predicate Covered(busy: seq<Busy>, m: int) {
    exists i :: 0 <= i < |busy| && Covers(busy[i], m)
  }

  /** The minutes of the window no fixed block covers. */
  function FreeMinutes(from: int, to: int, busy: seq<Busy>): set<int> {
    set m | from <= m < to && !Covered(busy, m)
  }

  /** The minutes a block takes. */
  function Run(start: int, minutes: int): (run: set<int>)
    ensures forall m :: m in run <==> start <= m < start + minutes
    decreases minutes
  {
    if minutes <= 0 then {} else Run(start, minutes - 1) + {start + minutes - 1}
  }

  lemma {:induction false} RunSize(start: int, minutes: nat)
    ensures |Run(start, minutes)| == minutes
  {
    if minutes > 0 { RunSize(start, minutes - 1); }
  }

  predicate Fits(free: set<int>, start: int, minutes: int) {
    Run(start, minutes) <= free
  }

  /** The starts at which the whole run is free. */
  function Starts(free: set<int>, minutes: int): set<int> {
    set t | t in free && Fits(free, t, minutes)
  }

  function Earliest(free: set<int>, minutes: int): Option<int> {
    if Starts(free, minutes) == {} then None else Some(Least(Starts(free, minutes)))
  }

  /** The part of a block from the start of the window on. */
  function Counted(windowStart: int, start: int, minutes: int): int {
    var from := if start < windowStart then windowStart else start;
    if start + minutes - from > 0 then start + minutes - from else 0
  }

  function AddBlock(day: Day, windowStart: int, block: Block): Day {
    day.(blocks := day.blocks + [block], used := day.used + Counted(windowStart, block.start, block.minutes))
  }

  function Occupy(day: Day, windowStart: int, w: Work, start: int, kind: Kind): Day {
    AddBlock(day, windowStart, Block(w.task, start, w.minutes, kind)).(free := day.free - Run(start, w.minutes))
  }

  function PlaceTimed(day: Day, windowStart: int, timed: seq<TimedPin>): Day
    decreases |timed|
  {
    if timed == [] then day else
      var p := timed[0];
      PlaceTimed(AddBlock(day, windowStart, Block(p.work.task, p.start, p.work.minutes, Fixed)), windowStart, timed[1..])
  }

  /** Where one pin goes. */
  function PinOne(day: Day, windowStart: int, w: Work, order: nat): Day {
    var at := Earliest(day.free, w.minutes);
    if at.Some? then Occupy(day, windowStart, w, at.value, Pinned(order))
    else AddBlock(day, windowStart, Block(w.task, day.late, w.minutes, Pinned(order))).(late := day.late + w.minutes)
  }

  /** A floating pin never overflows: one that fits nowhere goes after the end of the day. */
  function PlacePins(day: Day, windowStart: int, pins: seq<Work>, order: nat): Day
    decreases |pins|
  {
    if pins == [] then day else
      PlacePins(PinOne(day, windowStart, pins[0], order), windowStart, pins[1..], order + 1)
  }

  function PlaceStandIns(day: Day, windowStart: int, parent: int, subs: seq<Work>): Day
    decreases |subs|
  {
    if subs == [] then day else
      var at := Earliest(day.free, subs[0].minutes);
      var next := if at.Some? then Occupy(day, windowStart, subs[0], at.value, StandIn(parent)) else day;
      PlaceStandIns(next, windowStart, parent, subs[1..])
  }

  function PlaceOne(day: Day, windowStart: int, r: RankedWork): Day {
    var at := Earliest(day.free, r.work.minutes);
    if at.Some? then Occupy(day, windowStart, r.work, at.value, Ranked) else
      var tried := PlaceStandIns(day, windowStart, r.work.task, r.standIns);
      tried.(overflow := tried.overflow
                         + [Overflow(r.work.task, r.work.minutes, Max(0, |tried.blocks| - |day.blocks|))])
  }

  function Max(a: int, b: int): int {
    if a < b then b else a
  }

  function PlaceRanked(day: Day, windowStart: int, ranked: seq<RankedWork>): Day
    decreases |ranked|
  {
    if ranked == [] then day else PlaceRanked(PlaceOne(day, windowStart, ranked[0]), windowStart, ranked[1..])
  }

  /** The fixed intervals: commitments, then the timed pins. */
  function Intervals(busy: seq<Busy>, timed: seq<TimedPin>): seq<Busy> {
    if timed == [] then busy
    else Intervals(busy, timed[..|timed| - 1])
         + [Busy(timed[|timed| - 1].start, timed[|timed| - 1].start + timed[|timed| - 1].work.minutes)]
  }

  function LatestEnd(from: int, busy: seq<Busy>): int {
    if busy == [] then from else Max(LatestEnd(from, busy[..|busy| - 1]), busy[|busy| - 1].end)
  }

  /** The day before anything ranked is placed. */
  function Opened(start: int, available: int, floating: seq<Work>, timed: seq<TimedPin>, busy: seq<Busy>): Day {
    var fixed := Intervals(busy, timed);
    var empty := Day(FreeMinutes(start, start + available, fixed), [], [], 0, LatestEnd(start + available, fixed));
    PlacePins(PlaceTimed(empty, start, timed), start, floating, 0)
  }

  /** The whole day, blocks in the order they were placed. */
  function Schedule(start: int, available: int, floating: seq<Work>, timed: seq<TimedPin>, ranked: seq<RankedWork>,
                    busy: seq<Busy>): Day {
    PlaceRanked(Opened(start, available, floating, timed, busy), start, ranked)
  }

  // ---- earliest placement -------------------------------------------------------------------

  lemma EarliestIs(free: set<int>, minutes: int)
    requires minutes > 0
    ensures Earliest(free, minutes).None? <==> forall t :: !Fits(free, t, minutes)
    ensures Earliest(free, minutes).Some? ==>
              Fits(free, Earliest(free, minutes).value, minutes)
              && forall t :: Fits(free, t, minutes) ==> Earliest(free, minutes).value <= t
  {
    forall t | Fits(free, t, minutes) ensures t in Starts(free, minutes) {
      assert t in Run(t, minutes);
    }
    if Earliest(free, minutes).None? {
      forall t ensures !Fits(free, t, minutes) {
        assert t !in Starts(free, minutes);
      }
    }
  }

  /** Only what is earliest, with the whole run free, can be the answer. */
  lemma EarliestUnique(free: set<int>, minutes: int, t: int)
    requires minutes > 0 && Fits(free, t, minutes) && forall u :: Fits(free, u, minutes) ==> t <= u
    ensures Earliest(free, minutes) == Some(t)
  {
    EarliestIs(free, minutes);
  }

  lemma FewerFit(less: set<int>, more: set<int>, t: int, minutes: int)
    requires less <= more && Fits(less, t, minutes)
    ensures Fits(more, t, minutes)
  {
  }

  // ---- what only shrinks or grows --------------------------------------------------------------

  /** A later moment of the same day. */
  ghost predicate Later(a: Day, b: Day) {
    && b.free <= a.free && a.blocks <= b.blocks && a.overflow <= b.overflow && a.late <= b.late
  }

  lemma LaterTrans(a: Day, b: Day, c: Day)
    requires Later(a, b) && Later(b, c)
    ensures Later(a, c)
  {
  }

  predicate Positive(ws: seq<Work>) {
    forall i :: 0 <= i < |ws| ==> ws[i].minutes > 0
  }

  predicate AllPositive(rs: seq<RankedWork>) {
    forall i :: 0 <= i < |rs| ==> rs[i].work.minutes > 0 && Positive(rs[i].standIns)
  }

  lemma {:induction false} StandInsLater(day: Day, windowStart: int, parent: int, subs: seq<Work>)
    ensures var t := PlaceStandIns(day, windowStart, parent, subs);
            && t.free <= day.free && day.blocks <= t.blocks && t.overflow == day.overflow && t.late == day.late
            && forall i :: |day.blocks| <= i < |t.blocks| ==> t.blocks[i].kind == StandIn(parent)
    decreases |subs|
  {
    if subs != [] {
      var at := Earliest(day.free, subs[0].minutes);
      var next := if at.Some? then Occupy(day, windowStart, subs[0], at.value, StandIn(parent)) else day;
      hide Earliest, Run;
      StandInsLater(next, windowStart, parent, subs[1..]);
    }
  }

  lemma OneLater(day: Day, windowStart: int, r: RankedWork)
    ensures Later(day, PlaceOne(day, windowStart, r))
    ensures var t := PlaceOne(day, windowStart, r);
            if Earliest(day.free, r.work.minutes).Some? then
              |t.blocks| == |day.blocks| + 1 && t.overflow == day.overflow
              && t.blocks[|day.blocks|].task == r.work.task && t.blocks[|day.blocks|].kind == Ranked
            else
              |t.overflow| == |day.overflow| + 1 && t.overflow[|day.overflow|].task == r.work.task
              && t.overflow[|day.overflow|].minutes == r.work.minutes
              && t.overflow[|day.overflow|].standIns == |t.blocks| - |day.blocks|
              && forall i :: |day.blocks| <= i < |t.blocks| ==> t.blocks[i].kind == StandIn(r.work.task)
  {
    StandInsLater(day, windowStart, r.work.task, r.standIns);
    hide Earliest, Run, PlaceStandIns;
  }

  lemma {:induction false} RankedLater(day: Day, windowStart: int, ranked: seq<RankedWork>)
    ensures Later(day, PlaceRanked(day, windowStart, ranked))
    decreases |ranked|
  {
    if ranked != [] {
      var next := PlaceOne(day, windowStart, ranked[0]);
      OneLater(day, windowStart, ranked[0]);
      RankedLater(next, windowStart, ranked[1..]);
      hide PlaceOne;
    }
  }

  // ---- the ranking ------------------------------------------------------------------------------

  /** The placement of a rank prefix does not depend on what comes after it. */
  lemma {:induction false} PrefixIndependent(day: Day, windowStart: int, first: seq<RankedWork>, rest: seq<RankedWork>)
    ensures PlaceRanked(day, windowStart, first + rest) == PlaceRanked(PlaceRanked(day, windowStart, first), windowStart, rest)
    ensures var a, b := PlaceRanked(day, windowStart, first), PlaceRanked(day, windowStart, first + rest);
            a.blocks <= b.blocks && a.overflow <= b.overflow
    decreases |first|
  {
    hide PlaceOne;
    if first == [] {
      assert first + rest == rest;
      RankedLater(day, windowStart, rest);
    } else {
      assert (first + rest)[0] == first[0] && (first + rest)[1..] == first[1..] + rest;
      PrefixIndependent(PlaceOne(day, windowStart, first[0]), windowStart, first[1..], rest);
    }
  }

  /** Nothing that overflowed would fit what is left of the day. */
  ghost predicate NothingFits(day: Day, overflow: seq<Overflow>) {
    forall i, t :: 0 <= i < |overflow| ==> !Fits(day.free, t, overflow[i].minutes)
  }

  lemma {:induction false} OverflowFitsNowhere(day: Day, windowStart: int, ranked: seq<RankedWork>)
    requires AllPositive(ranked) && NothingFits(day, day.overflow)
    ensures var t := PlaceRanked(day, windowStart, ranked);
            NothingFits(t, t.overflow)
    decreases |ranked|
  {
    if ranked != [] {
      var r := ranked[0];
      var next := PlaceOne(day, windowStart, r);
      OneLater(day, windowStart, r);
      EarliestIs(day.free, r.work.minutes);
      hide PlaceOne, Earliest, Run;
      forall i, t | 0 <= i < |next.overflow| ensures !Fits(next.free, t, next.overflow[i].minutes) {
        assert i < |day.overflow| ==> next.overflow[i] == day.overflow[i];
        if Fits(next.free, t, next.overflow[i].minutes) {
          FewerFit(next.free, day.free, t, next.overflow[i].minutes);
          assert false;
        }
      }
      OverflowFitsNowhere(next, windowStart, ranked[1..]);
    }
  }

  // ---- the tasks --------------------------------------------------------------------------------

  /** The tasks scheduled as themselves, in the order they were placed. */
  function OwnTasks(blocks: seq<Block>): seq<int> {
    if blocks == [] then [] else
      var b := blocks[|blocks| - 1];
      OwnTasks(blocks[..|blocks| - 1]) + (if b.kind.StandIn? then [] else [b.task])
  }

  function OverflowTasks(overflow: seq<Overflow>): seq<int> {
    if overflow == [] then [] else
      OverflowTasks(overflow[..|overflow| - 1]) + [overflow[|overflow| - 1].task]
  }

  function Tasks(ranked: seq<RankedWork>): seq<int> {
    if ranked == [] then [] else [ranked[0].work.task] + Tasks(ranked[1..])
  }

  lemma {:induction false} StandInsOwnNothing(blocks: seq<Block>, more: seq<Block>)
    requires forall i :: 0 <= i < |more| ==> more[i].kind.StandIn?
    ensures OwnTasks(blocks + more) == OwnTasks(blocks)
    decreases |more|
  {
    if more == [] {
      assert blocks + more == blocks;
    } else {
      var init := more[..|more| - 1];
      assert (blocks + more)[..|blocks + more| - 1] == blocks + init;
      StandInsOwnNothing(blocks, init);
    }
  }

  /** `tasks` dealt out over two lists, both keeping its order. */
  predicate DealtOut(tasks: seq<int>, own: seq<int>, over: seq<int>) {
    if tasks == [] then own == [] && over == [] else
      || (own != [] && own[0] == tasks[0] && DealtOut(tasks[1..], own[1..], over))
      || (over != [] && over[0] == tasks[0] && DealtOut(tasks[1..], own, over[1..]))
  }

  /**
   Every ranked task ends up in exactly one place, scheduled as itself or in the overflow, and each
   of the two lists grows by its tasks in rank order.
   */
  lemma {:induction false} RankedSplit(day: Day, windowStart: int, ranked: seq<RankedWork>)
    ensures var t := PlaceRanked(day, windowStart, ranked);
            && OwnTasks(day.blocks) <= OwnTasks(t.blocks) && OverflowTasks(day.overflow) <= OverflowTasks(t.overflow)
            && DealtOut(Tasks(ranked), OwnTasks(t.blocks)[|OwnTasks(day.blocks)|..],
                        OverflowTasks(t.overflow)[|OverflowTasks(day.overflow)|..])
            && multiset(OwnTasks(t.blocks)) + multiset(OverflowTasks(t.overflow))
               == multiset(OwnTasks(day.blocks)) + multiset(OverflowTasks(day.overflow)) + multiset(Tasks(ranked))
    decreases |ranked|
  {
    if ranked == [] {
    } else {
      var r := ranked[0];
      var next := PlaceOne(day, windowStart, r);
      OneLater(day, windowStart, r);
      OneSplit(day, windowStart, r);
      assert Tasks(ranked) == [r.work.task] + Tasks(ranked[1..]);
      hide *;
      RankedSplit(next, windowStart, ranked[1..]);
      var t := PlaceRanked(next, windowStart, ranked[1..]);
      OneMoreTask(OwnTasks(day.blocks), OverflowTasks(day.overflow), OwnTasks(next.blocks), OverflowTasks(next.overflow),
                  r.work.task, Tasks(ranked[1..]));
      DealOne(OwnTasks(day.blocks), OverflowTasks(day.overflow), OwnTasks(next.blocks), OverflowTasks(next.overflow),
              OwnTasks(t.blocks), OverflowTasks(t.overflow), r.work.task, Tasks(ranked[1..]));
    }
  }

  lemma DealOne(own: seq<int>, over: seq<int>, own': seq<int>, over': seq<int>, own'': seq<int>, over'': seq<int>, x: int, tasks: seq<int>)
    requires (own' == own + [x] && over' == over) || (own' == own && over' == over + [x])
    requires own' <= own'' && over' <= over'' && DealtOut(tasks, own''[|own'|..], over''[|over'|..])
    ensures own <= own'' && over <= over'' && DealtOut([x] + tasks, own''[|own|..], over''[|over|..])
  {
    assert ([x] + tasks)[1..] == tasks;
    if own' == own + [x] && over' == over {
      assert own''[|own|..][0] == x && own''[|own|..][1..] == own''[|own'|..];
    } else {
      assert over''[|over|..][0] == x && over''[|over|..][1..] == over''[|over'|..];
    }
  }

  lemma OneMoreTask(own: seq<int>, over: seq<int>, own': seq<int>, over': seq<int>, x: int, tasks: seq<int>)
    requires (own' == own + [x] && over' == over) || (own' == own && over' == over + [x])
    ensures multiset(own') + multiset(over') + multiset(tasks) == multiset(own) + multiset(over) + multiset([x] + tasks)
  {
    assert multiset([x] + tasks) == multiset{x} + multiset(tasks);
    assert multiset(own + [x]) == multiset(own) + multiset{x};
    assert multiset(over + [x]) == multiset(over) + multiset{x};
  }

  lemma OneSplit(day: Day, windowStart: int, r: RankedWork)
    ensures var t := PlaceOne(day, windowStart, r);
            if Earliest(day.free, r.work.minutes).Some? then
              OwnTasks(t.blocks) == OwnTasks(day.blocks) + [r.work.task] && OverflowTasks(t.overflow) == OverflowTasks(day.overflow)
            else
              OwnTasks(t.blocks) == OwnTasks(day.blocks) && OverflowTasks(t.overflow) == OverflowTasks(day.overflow) + [r.work.task]
  {
    var t := PlaceOne(day, windowStart, r);
    OneLater(day, windowStart, r);
    hide PlaceOne, Earliest;
    if Earliest(day.free, r.work.minutes).Some? {
      assert t.blocks[..|t.blocks| - 1] == day.blocks;
    } else {
      assert t.overflow[..|t.overflow| - 1] == day.overflow;
      var more := t.blocks[|day.blocks|..];
      assert t.blocks == day.blocks + more;
      StandInsOwnNothing(day.blocks, more);
    }
  }

  // ---- the minutes ---------------------------------------------------------------------------------

  /** Blocks other than `Fixed` ones keep out of each other and out of what is still free. */
  ghost predicate Tidy(day: Day, from: int, to: int, busy: seq<Busy>) {
    && (forall m :: m in day.free ==> from <= m < to && !Covered(busy, m))
    && (forall i :: 0 <= i < |day.blocks| && !day.blocks[i].kind.Fixed? ==> Apart(day, from, to, busy, i))
    && (forall i, j :: 0 <= i < j < |day.blocks| && !day.blocks[i].kind.Fixed? && !day.blocks[j].kind.Fixed? ==>
          Disjoint(day.blocks[i], day.blocks[j]))
    && to <= day.late && (forall i :: 0 <= i < |busy| ==> busy[i].end <= day.late)
  }

  predicate Disjoint(a: Block, b: Block) {
    a.start + a.minutes <= b.start || b.start + b.minutes <= a.start
  }

  /** In the window and clear of everything fixed, or a pin after the end of the day. */
  predicate Apart(day: Day, from: int, to: int, busy: seq<Busy>, i: nat)
    requires i < |day.blocks|
  {
    var b := day.blocks[i];
    && b.minutes > 0 && (forall m :: b.start <= m < b.start + b.minutes ==> m !in day.free && !Covered(busy, m))
    && ((from <= b.start && b.start + b.minutes <= to) || (b.kind.Pinned? && to <= b.start && b.start + b.minutes <= day.late))
  }

  /** Taking a free run keeps the day tidy. */
  lemma OccupyTidy(day: Day, from: int, to: int, busy: seq<Busy>, windowStart: int, w: Work, start: int, kind: Kind)
    requires Tidy(day, from, to, busy) && w.minutes > 0 && Fits(day.free, start, w.minutes) && !kind.Fixed?
    ensures Tidy(Occupy(day, windowStart, w, start, kind), from, to, busy)
  {
    var t := Occupy(day, windowStart, w, start, kind);
    var n := |day.blocks|;
    assert start in Run(start, w.minutes) && start + w.minutes - 1 in Run(start, w.minutes);
    hide Covered;
    forall i | 0 <= i < n && !t.blocks[i].kind.Fixed? ensures Apart(t, from, to, busy, i) && Disjoint(t.blocks[i], t.blocks[n]) {
      assert Apart(day, from, to, busy, i);
      ApartRuns(day.blocks[i], start, w.minutes, day.free);
    }
    forall m | start <= m < start + w.minutes ensures m !in t.free && !Covered(busy, m) {
      assert m in Run(start, w.minutes);
    }
    assert Apart(t, from, to, busy, n);
  }

  lemma ApartRuns(b: Block, start: int, minutes: int, free: set<int>)
    requires minutes > 0 && b.minutes > 0 && Run(start, minutes) <= free
    requires forall m :: b.start <= m < b.start + b.minutes ==> m !in free
    ensures b.start + b.minutes <= start || start + minutes <= b.start
  {
    var m := Max(b.start, start);
    assert m in Run(start, minutes) || start + minutes <= m;
  }

  /** A pin placed after everything keeps the day tidy. */
  lemma LateTidy(day: Day, from: int, to: int, busy: seq<Busy>, windowStart: int, w: Work, order: nat)
    requires Tidy(day, from, to, busy) && w.minutes > 0
    ensures var t := AddBlock(day, windowStart, Block(w.task, day.late, w.minutes, Pinned(order)));
            Tidy(t.(late := day.late + w.minutes), from, to, busy)
  {
    var t := AddBlock(day, windowStart, Block(w.task, day.late, w.minutes, Pinned(order))).(late := day.late + w.minutes);
    var n := |day.blocks|;
    forall i | 0 <= i < n && !t.blocks[i].kind.Fixed? ensures Apart(t, from, to, busy, i) && Disjoint(t.blocks[i], t.blocks[n]) {
      assert Apart(day, from, to, busy, i);
    }
    forall m | day.late <= m < day.late + w.minutes ensures m !in t.free && !Covered(busy, m) {
    }
    assert Apart(t, from, to, busy, n);
  }

  lemma {:induction false} TimedTidy(day: Day, from: int, to: int, busy: seq<Busy>, timed: seq<TimedPin>)
    requires Tidy(day, from, to, busy)
    ensures Tidy(PlaceTimed(day, from, timed), from, to, busy)
    ensures PlaceTimed(day, from, timed).free == day.free && PlaceTimed(day, from, timed).late == day.late
    ensures PlaceTimed(day, from, timed).overflow == day.overflow
    decreases |timed|
  {
    if timed != [] {
      var p := timed[0];
      var next := AddBlock(day, from, Block(p.work.task, p.start, p.work.minutes, Fixed));
      forall i | 0 <= i < |day.blocks| && !next.blocks[i].kind.Fixed? ensures Apart(next, from, to, busy, i) {
        assert Apart(day, from, to, busy, i);
      }
      hide Covered, Apart, Disjoint;
      TimedTidy(next, from, to, busy, timed[1..]);
    }
  }

  lemma PinOneTidy(day: Day, from: int, to: int, busy: seq<Busy>, w: Work, order: nat)
    requires Tidy(day, from, to, busy) && w.minutes > 0
    ensures Tidy(PinOne(day, from, w, order), from, to, busy)
  {
    EarliestIs(day.free, w.minutes);
    var at := Earliest(day.free, w.minutes);
    hide Tidy, Earliest, Fits;
    if at.Some? {
      OccupyTidy(day, from, to, busy, from, w, at.value, Pinned(order));
    } else {
      LateTidy(day, from, to, busy, from, w, order);
    }
  }

  lemma {:induction false} PinsTidy(day: Day, from: int, to: int, busy: seq<Busy>, pins: seq<Work>, order: nat)
    requires Tidy(day, from, to, busy) && Positive(pins)
    ensures Tidy(PlacePins(day, from, pins, order), from, to, busy)
    decreases |pins|
  {
    if pins != [] {
      PinOneTidy(day, from, to, busy, pins[0], order);
      hide Tidy, Earliest, Occupy, AddBlock;
      PinsTidy(PinOne(day, from, pins[0], order), from, to, busy, pins[1..], order + 1);
    }
  }

  /** Floating pins never overflow: each gets a block of its own, in its order. */
  lemma {:induction false} PinsNeverOverflow(day: Day, from: int, pins: seq<Work>, order: nat)
    ensures var t := PlacePins(day, from, pins, order);
            && t.overflow == day.overflow && day.blocks <= t.blocks && |t.blocks| == |day.blocks| + |pins|
            && forall i :: 0 <= i < |pins| ==>
                 t.blocks[|day.blocks| + i].task == pins[i].task && t.blocks[|day.blocks| + i].minutes == pins[i].minutes
                 && t.blocks[|day.blocks| + i].kind == Pinned(order + i)
    decreases |pins|
  {
    if pins != [] {
      var next := PinOne(day, from, pins[0], order);
      hide Earliest, Run;
      PinsNeverOverflow(next, from, pins[1..], order + 1);
      var t := PlacePins(day, from, pins, order);
      forall i | 0 <= i < |pins|
        ensures t.blocks[|day.blocks| + i].task == pins[i].task && t.blocks[|day.blocks| + i].minutes == pins[i].minutes
                && t.blocks[|day.blocks| + i].kind == Pinned(order + i)
      {
        if i > 0 { assert pins[1..][i - 1] == pins[i]; }
        if i > 0 { assert t.blocks[|next.blocks| + (i - 1)].task == pins[1..][i - 1].task; }
      }
    }
  }

  lemma {:induction false} StandInsTidy(day: Day, from: int, to: int, busy: seq<Busy>, parent: int, subs: seq<Work>)
    requires Tidy(day, from, to, busy) && Positive(subs)
    ensures Tidy(PlaceStandIns(day, from, parent, subs), from, to, busy)
    decreases |subs|
  {
    if subs != [] {
      EarliestIs(day.free, subs[0].minutes);
      var at := Earliest(day.free, subs[0].minutes);
      hide Tidy, Earliest, Fits;
      if at.Some? { OccupyTidy(day, from, to, busy, from, subs[0], at.value, StandIn(parent)); }
      StandInsTidy(if at.Some? then Occupy(day, from, subs[0], at.value, StandIn(parent)) else day, from, to, busy, parent,
                   subs[1..]);
    }
  }

  lemma OverflowTidy(day: Day, from: int, to: int, busy: seq<Busy>, overflow: seq<Overflow>)
    requires Tidy(day, from, to, busy)
    ensures Tidy(day.(overflow := overflow), from, to, busy)
  {
    var t := day.(overflow := overflow);
    forall i | 0 <= i < |t.blocks| && !t.blocks[i].kind.Fixed? ensures Apart(t, from, to, busy, i) {
      assert Apart(day, from, to, busy, i);
    }
  }

  lemma {:induction false} RankedTidy(day: Day, from: int, to: int, busy: seq<Busy>, ranked: seq<RankedWork>)
    requires Tidy(day, from, to, busy) && AllPositive(ranked)
    ensures Tidy(PlaceRanked(day, from, ranked), from, to, busy)
    decreases |ranked|
  {
    if ranked != [] {
      var r := ranked[0];
      EarliestIs(day.free, r.work.minutes);
      var at := Earliest(day.free, r.work.minutes);
      hide Tidy, Earliest, Fits;
      if at.Some? {
        OccupyTidy(day, from, to, busy, from, r.work, at.value, Ranked);
      } else {
        StandInsTidy(day, from, to, busy, r.work.task, r.standIns);
        OverflowTidy(PlaceStandIns(day, from, r.work.task, r.standIns), from, to, busy, PlaceOne(day, from, r).overflow);
      }
      RankedTidy(PlaceOne(day, from, r), from, to, busy, ranked[1..]);
    }
  }

  lemma {:induction false} LatestEndIs(from: int, busy: seq<Busy>)
    ensures LatestEnd(from, busy) >= from
    ensures forall i :: 0 <= i < |busy| ==> busy[i].end <= LatestEnd(from, busy)
  {
    if busy != [] {
      var init := busy[..|busy| - 1];
      LatestEndIs(from, init);
      forall i | 0 <= i < |busy| ensures busy[i].end <= LatestEnd(from, busy) {
        if i < |init| { assert init[i] == busy[i]; }
      }
    }
  }

  predicate PositivePins(ps: seq<TimedPin>) {
    forall i :: 0 <= i < |ps| ==> ps[i].work.minutes > 0
  }

  lemma OpenedTidy(start: int, available: int, floating: seq<Work>, timed: seq<TimedPin>, busy: seq<Busy>)
    requires available >= 0 && Positive(floating)
    ensures var day := Opened(start, available, floating, timed, busy);
            Tidy(day, start, start + available, Intervals(busy, timed)) && day.overflow == []
  {
    var fixed := Intervals(busy, timed);
    LatestEndIs(start + available, fixed);
    var empty := Day(FreeMinutes(start, start + available, fixed), [], [], 0, LatestEnd(start + available, fixed));
    hide Covered;
    assert Tidy(empty, start, start + available, fixed);
    hide Tidy;
    TimedTidy(empty, start, start + available, fixed, timed);
    PinsNeverOverflow(PlaceTimed(empty, start, timed), start, floating, 0);
    PinsTidy(PlaceTimed(empty, start, timed), start, start + available, fixed, floating, 0);
  }

  /**
   Every block but the fixed ones is clear of every other such block and of every fixed interval,
   and lies in the window unless it is a pin after the end of the day. Nothing that overflowed
   fits what is left.
   */
  lemma ScheduleIsSound(start: int, available: int, floating: seq<Work>, timed: seq<TimedPin>, ranked: seq<RankedWork>,
                        busy: seq<Busy>)
    requires available >= 0 && Positive(floating) && AllPositive(ranked)
    ensures var day := Schedule(start, available, floating, timed, ranked, busy);
            Tidy(day, start, start + available, Intervals(busy, timed)) && NothingFits(day, day.overflow)
  {
    OpenedTidy(start, available, floating, timed, busy);
    var day := Opened(start, available, floating, timed, busy);
    hide Tidy, Opened, Fits;
    RankedTidy(day, start, start + available, Intervals(busy, timed), ranked);
    OverflowFitsNowhere(day, start, ranked);
  }

  // ---- minutes are neither lost nor used twice -----------------------------------------------------

  /** The minutes taken out of the window: everything placed but fixed blocks and late pins. */
  function Taken(blocks: seq<Block>, to: int): int {
    if blocks == [] then 0 else
      var b := blocks[|blocks| - 1];
      Taken(blocks[..|blocks| - 1], to) + (if b.kind.Fixed? || to <= b.start then 0 else b.minutes)
  }

  lemma OccupyTakes(day: Day, from: int, to: int, windowStart: int, w: Work, start: int, kind: Kind)
    requires w.minutes > 0 && Fits(day.free, start, w.minutes) && !kind.Fixed? && forall m :: m in day.free ==> m < to
    ensures var t := Occupy(day, windowStart, w, start, kind);
            |t.free| + Taken(t.blocks, to) == |day.free| + Taken(day.blocks, to)
  {
    var t := Occupy(day, windowStart, w, start, kind);
    assert t.blocks[..|t.blocks| - 1] == day.blocks;
    RunSize(start, w.minutes);
    assert day.free == t.free + Run(start, w.minutes);
  }

  lemma {:induction false} StandInsTake(day: Day, from: int, to: int, parent: int, subs: seq<Work>)
    requires Positive(subs) && forall m :: m in day.free ==> m < to
    ensures var t := PlaceStandIns(day, from, parent, subs);
            |t.free| + Taken(t.blocks, to) == |day.free| + Taken(day.blocks, to)
    decreases |subs|
  {
    if subs != [] {
      EarliestIs(day.free, subs[0].minutes);
      var at := Earliest(day.free, subs[0].minutes);
      hide Earliest, Fits, Taken;
      if at.Some? { OccupyTakes(day, from, to, from, subs[0], at.value, StandIn(parent)); }
      StandInsTake(if at.Some? then Occupy(day, from, subs[0], at.value, StandIn(parent)) else day, from, to, parent, subs[1..]);
    }
  }

  /** The free minutes and the minutes placed always add up to the same. */
  lemma {:induction false} MinutesConserved(day: Day, from: int, to: int, ranked: seq<RankedWork>)
    requires AllPositive(ranked) && forall m :: m in day.free ==> m < to
    ensures var t := PlaceRanked(day, from, ranked);
            |t.free| + Taken(t.blocks, to) == |day.free| + Taken(day.blocks, to)
    decreases |ranked|
  {
    if ranked != [] {
      var r := ranked[0];
      EarliestIs(day.free, r.work.minutes);
      var at := Earliest(day.free, r.work.minutes);
      StandInsTake(day, from, to, r.work.task, r.standIns);
      OneLater(day, from, r);
      hide Earliest, Fits, Taken, PlaceStandIns;
      if at.Some? { OccupyTakes(day, from, to, from, r.work, at.value, Ranked); }
      MinutesConserved(PlaceOne(day, from, r), from, to, ranked[1..]);
    }
  }

  // ---- an empty day ------------------------------------------------------------------------------------

  /** The free minutes are what is left of the window, and the blocks fill the rest back to back. */
  ghost predicate BackToBack(day: Day, from: int, to: int) {
    && from <= from + day.used <= to && day.free == Run(from + day.used, to - from - day.used)
    && (|day.blocks| > 0 ==> day.blocks[0].start == from)
    && (forall i :: 0 <= i < |day.blocks| ==> day.blocks[i].minutes > 0)
    && (forall i :: 0 < i < |day.blocks| ==> day.blocks[i].start == day.blocks[i - 1].start + day.blocks[i - 1].minutes)
    && from + day.used == (if day.blocks == [] then from else
                             day.blocks[|day.blocks| - 1].start + day.blocks[|day.blocks| - 1].minutes)
  }

  lemma FillWhere(day: Day, from: int, to: int, minutes: int)
    requires BackToBack(day, from, to) && minutes > 0
    ensures Earliest(day.free, minutes) == if day.used + minutes <= to - from then Some(from + day.used) else None
  {
    EarliestIs(day.free, minutes);
    var cursor := from + day.used;
    hide Earliest;
    forall t | Fits(day.free, t, minutes) ensures cursor <= t && t + minutes <= to {
      assert t in Run(t, minutes) && t + minutes - 1 in Run(t, minutes);
    }
    if day.used + minutes <= to - from {
      assert Fits(day.free, cursor, minutes);
      EarliestUnique(day.free, minutes, cursor);
    }
  }

  lemma FillKeeps(day: Day, from: int, to: int, w: Work, kind: Kind)
    requires BackToBack(day, from, to) && w.minutes > 0 && day.used + w.minutes <= to - from
    ensures BackToBack(Occupy(day, from, w, from + day.used, kind), from, to)
  {
    var cursor := from + day.used;
    var next := Occupy(day, from, w, cursor, kind);
    RunSplit(cursor, w.minutes, to - cursor);
    hide Run;
    forall i | 0 < i < |next.blocks| ensures next.blocks[i].start == next.blocks[i - 1].start + next.blocks[i - 1].minutes {
      if i < |day.blocks| { assert next.blocks[i] == day.blocks[i] && next.blocks[i - 1] == day.blocks[i - 1]; }
    }
  }

  lemma RunSplit(start: int, minutes: int, all: int)
    requires 0 < minutes <= all
    ensures Run(start, all) - Run(start, minutes) == Run(start + minutes, all - minutes)
  {
    forall m ensures m in Run(start, all) - Run(start, minutes) <==> m in Run(start + minutes, all - minutes) {
    }
  }

  /** Whatever the earliest place is, taking it keeps the day back to back. */
  lemma FillNext(day: Day, from: int, to: int, w: Work, kind: Kind)
    requires BackToBack(day, from, to) && w.minutes > 0
    ensures var at := Earliest(day.free, w.minutes);
            at.Some? ==> BackToBack(Occupy(day, from, w, at.value, kind), from, to)
  {
    FillWhere(day, from, to, w.minutes);
    hide BackToBack, Earliest, Occupy;
    if day.used + w.minutes <= to - from { FillKeeps(day, from, to, w, kind); }
  }

  lemma {:induction false} StandInsFill(day: Day, from: int, to: int, parent: int, subs: seq<Work>)
    requires BackToBack(day, from, to) && Positive(subs)
    ensures BackToBack(PlaceStandIns(day, from, parent, subs), from, to)
    decreases |subs|
  {
    hide BackToBack, Earliest, Occupy;
    if subs != [] {
      FillNext(day, from, to, subs[0], StandIn(parent));
      var at := Earliest(day.free, subs[0].minutes);
      StandInsFill(if at.Some? then Occupy(day, from, subs[0], at.value, StandIn(parent)) else day, from, to, parent, subs[1..]);
    }
  }

  lemma OneFills(day: Day, from: int, to: int, r: RankedWork)
    requires BackToBack(day, from, to) && r.work.minutes > 0 && Positive(r.standIns)
    ensures BackToBack(PlaceOne(day, from, r), from, to)
  {
    FillNext(day, from, to, r.work, Ranked);
    StandInsFill(day, from, to, r.work.task, r.standIns);
    OverflowFill(PlaceStandIns(day, from, r.work.task, r.standIns), from, to, PlaceOne(day, from, r).overflow);
    hide BackToBack, Earliest, PlaceStandIns, Occupy;
  }

  lemma {:induction false} RankedFill(day: Day, from: int, to: int, ranked: seq<RankedWork>)
    requires BackToBack(day, from, to) && AllPositive(ranked)
    ensures BackToBack(PlaceRanked(day, from, ranked), from, to)
    decreases |ranked|
  {
    if ranked != [] {
      OneFills(day, from, to, ranked[0]);
      hide BackToBack, PlaceOne;
      RankedFill(PlaceOne(day, from, ranked[0]), from, to, ranked[1..]);
    }
  }

  lemma OverflowFill(day: Day, from: int, to: int, overflow: seq<Overflow>)
    requires BackToBack(day, from, to)
    ensures BackToBack(day.(overflow := overflow), from, to)
  {
  }

  /** Packing without a calendar: what is placed, what is left over, and the minutes used. */
  datatype Packed = Packed(blocks: seq<Block>, overflow: seq<Overflow>, used: int)

  /** A task is taken exactly when it still fits what is left of the day. */
  function Take(p: Packed, start: int, available: int, w: Work, kind: Kind): Packed {
    if p.used + w.minutes <= available then p.(blocks := p.blocks + [Block(w.task, start + p.used, w.minutes, kind)], used := p.used + w.minutes)
    else p
  }

  function TakeStandIns(p: Packed, start: int, available: int, parent: int, subs: seq<Work>): Packed
    decreases |subs|
  {
    if subs == [] then p else TakeStandIns(Take(p, start, available, subs[0], StandIn(parent)), start, available, parent, subs[1..])
  }

  /** The plain greedy pack: each task in rank order if it fits, else those of its stand-ins that do. */
  function Greedy(p: Packed, start: int, available: int, ranked: seq<RankedWork>): Packed
    decreases |ranked|
  {
    if ranked == [] then p else
      var r := ranked[0];
      if p.used + r.work.minutes <= available then Greedy(Take(p, start, available, r.work, Ranked), start, available, ranked[1..])
      else
        var tried := TakeStandIns(p, start, available, r.work.task, r.standIns);
        Greedy(tried.(overflow := tried.overflow + [Overflow(r.work.task, r.work.minutes, Max(0, |tried.blocks| - |p.blocks|))]),
               start, available, ranked[1..])
  }

  function PackedOf(day: Day): Packed {
    Packed(day.blocks, day.overflow, day.used)
  }

  lemma TakeIs(day: Day, start: int, available: int, w: Work, kind: Kind)
    requires BackToBack(day, start, start + available) && w.minutes > 0
    ensures var at := Earliest(day.free, w.minutes);
            && (at.Some? <==> day.used + w.minutes <= available)
            && var next := if at.Some? then Occupy(day, start, w, at.value, kind) else day;
            BackToBack(next, start, start + available) && PackedOf(next) == Take(PackedOf(day), start, available, w, kind)
  {
    FillWhere(day, start, start + available, w.minutes);
    FillNext(day, start, start + available, w, kind);
    hide Earliest, Run;
  }

  lemma {:induction false} TakeStandInsIs(day: Day, start: int, available: int, parent: int, subs: seq<Work>)
    requires BackToBack(day, start, start + available) && Positive(subs)
    ensures var next := PlaceStandIns(day, start, parent, subs);
            BackToBack(next, start, start + available)
            && PackedOf(next) == TakeStandIns(PackedOf(day), start, available, parent, subs)
    decreases |subs|
  {
    hide BackToBack, Earliest, Occupy, PackedOf, Take;
    if subs != [] {
      TakeIs(day, start, available, subs[0], StandIn(parent));
      var at := Earliest(day.free, subs[0].minutes);
      TakeStandInsIs(if at.Some? then Occupy(day, start, subs[0], at.value, StandIn(parent)) else day, start, available, parent, subs[1..]);
    }
  }

  lemma {:induction false} GreedyIs(day: Day, start: int, available: int, ranked: seq<RankedWork>)
    requires BackToBack(day, start, start + available) && AllPositive(ranked)
    ensures PackedOf(PlaceRanked(day, start, ranked)) == Greedy(PackedOf(day), start, available, ranked)
    decreases |ranked|
  {
    if ranked != [] {
      var r := ranked[0];
      TakeIs(day, start, available, r.work, Ranked);
      TakeStandInsIs(day, start, available, r.work.task, r.standIns);
      OneFills(day, start, start + available, r);
      hide BackToBack, Earliest, Occupy, Take, PlaceStandIns, TakeStandIns;
      GreedyIs(PlaceOne(day, start, r), start, available, ranked[1..]);
    }
  }

  /**
   With no pins and no commitments the day is the plain greedy pack of the ranked tasks: back to
   back from the start, and never more than what is available.
   */
  lemma EmptyDayIsGreedy(start: int, available: int, ranked: seq<RankedWork>)
    requires available >= 0 && AllPositive(ranked)
    ensures var day := Schedule(start, available, [], [], ranked, []);
            && PackedOf(day) == Greedy(Packed([], [], 0), start, available, ranked)
            && BackToBack(day, start, start + available) && day.used <= available
  {
    var day := Opened(start, available, [], [], []);
    assert Intervals([], []) == [];
    forall m ensures m in day.free <==> start <= m < start + available {
    }
    assert day.free == Run(start, available);
    RankedFill(day, start, start + available, ranked);
    GreedyIs(day, start, available, ranked);
  }
}
