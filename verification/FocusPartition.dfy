/** Where every source task of a Focus day ends up. */
module FocusPartition {
  import opened Common
  import opened Calendar
  import opened FocusLine
  import opened FocusPacker
  import opened Focus
  import opened FocusDay

  function WorkTasks(ws: seq<Work>): seq<int> {
    if ws == [] then [] else [ws[0].task] + WorkTasks(ws[1..])
  }

  function TimedTasks(ps: seq<TimedPin>): seq<int> {
    if ps == [] then [] else [ps[0].work.task] + TimedTasks(ps[1..])
  }

  // ---- blocks ---------------------------------------------------------------------------------

  lemma {:induction false} OwnConcat(a: seq<Block>, b: seq<Block>)
    ensures OwnTasks(a + b) == OwnTasks(a) + OwnTasks(b)
    decreases |b|
  {
    if b == [] {
      assert a + b == a;
    } else {
      var init := b[..|b| - 1];
      assert (a + b)[..|a + b| - 1] == a + init;
      OwnConcat(a, init);
    }
  }

  lemma OwnOne(b: Block)
    ensures OwnTasks([b]) == if b.kind.StandIn? then [] else [b.task]
  {
    assert [b][..0] == [];
  }

  lemma {:induction false} OwnInsert(b: Block, sorted: seq<Block>)
    ensures multiset(OwnTasks(InsertBlock(b, sorted))) == multiset(OwnTasks(sorted)) + multiset(OwnTasks([b]))
    decreases |sorted|
  {
    hide BlockKey, OwnTasks;
    if sorted == [] {
      NoneOwned();
    } else if BlockKey(b) <= BlockKey(sorted[0]) {
      OwnConcat([b], sorted);
    } else {
      OwnInsert(b, sorted[1..]);
      OwnConcat([sorted[0]], InsertBlock(b, sorted[1..]));
      OwnConcat([sorted[0]], sorted[1..]);
      assert sorted == [sorted[0]] + sorted[1..];
    }
  }

  lemma NoneOwned()
    ensures OwnTasks([]) == []
  {
  }

  lemma {:induction false} OwnSorted(blocks: seq<Block>)
    ensures multiset(OwnTasks(TimeSort(blocks))) == multiset(OwnTasks(blocks))
    decreases |blocks|
  {
    hide OwnTasks, InsertBlock;
    if blocks != [] {
      OwnSorted(blocks[1..]);
      OwnInsert(blocks[0], TimeSort(blocks[1..]));
      OwnConcat([blocks[0]], blocks[1..]);
      assert blocks == [blocks[0]] + blocks[1..];
    }
  }

  lemma {:induction false} OwnTimed(day: Day, start: int, timed: seq<TimedPin>)
    ensures OwnTasks(PlaceTimed(day, start, timed).blocks) == OwnTasks(day.blocks) + TimedTasks(timed)
    decreases |timed|
  {
    hide OwnTasks;
    if timed != [] {
      var b := Block(timed[0].work.task, timed[0].start, timed[0].work.minutes, Fixed);
      OwnConcat(day.blocks, [b]);
      OwnOne(b);
      OwnTimed(AddBlock(day, start, b), start, timed[1..]);
    }
  }

  lemma {:induction false} OwnPins(day: Day, start: int, pins: seq<Work>, order: nat)
    ensures OwnTasks(PlacePins(day, start, pins, order).blocks) == OwnTasks(day.blocks) + WorkTasks(pins)
    decreases |pins|
  {
    hide OwnTasks, Earliest;
    if pins != [] {
      var next := PinOne(day, start, pins[0], order);
      var b := next.blocks[|day.blocks|];
      assert next.blocks == day.blocks + [b];
      OwnConcat(day.blocks, [b]);
      OwnOne(b);
      OwnPins(next, start, pins[1..], order + 1);
    }
  }

  lemma OwnOpened(start: int, available: int, floating: seq<Work>, timed: seq<TimedPin>, busy: seq<Busy>)
    ensures OwnTasks(Opened(start, available, floating, timed, busy).blocks) == TimedTasks(timed) + WorkTasks(floating)
  {
    var fixed := Intervals(busy, timed);
    var empty := FocusLine.Day.Day(FreeMinutes(start, start + available, fixed), [], [], 0, LatestEnd(start + available, fixed));
    OwnTimed(empty, start, timed);
    OwnPins(PlaceTimed(empty, start, timed), start, floating, 0);
    NoneOwned();
    hide OwnTasks, PlaceTimed, PlacePins;
    assert [] + TimedTasks(timed) == TimedTasks(timed);
  }

  // ---- ids ---------------------------------------------------------------------------------------

  lemma BlockedHead(source: seq<Source>)
    requires source != []
    ensures multiset(BlockedIds(source))
         == (if source[0].blocked then multiset{source[0].id} else multiset{}) + multiset(BlockedIds(source[1..]))
    ensures multiset(Ids(Schedulable(source)))
         == (if source[0].blocked then multiset{} else multiset{source[0].id}) + multiset(Ids(Schedulable(source[1..])))
  {
    var t, rest := source[0], Schedulable(source[1..]);
    if t.blocked {
      assert [] + rest == rest;
    } else {
      IdsHead([t] + rest);
      assert ([t] + rest)[1..] == rest;
      assert [] + BlockedIds(source[1..]) == BlockedIds(source[1..]);
    }
  }

  lemma {:induction false} SplitBlocked(source: seq<Source>)
    ensures multiset(Ids(source)) == multiset(BlockedIds(source)) + multiset(Ids(Schedulable(source)))
    decreases |source|
  {
    if source != [] {
      hide *;
      SplitBlocked(source[1..]);
      IdsHead(source);
      BlockedHead(source);
    }
  }

  lemma IdsHead(ts: seq<Source>)
    requires ts != []
    ensures multiset(Ids(ts)) == multiset{ts[0].id} + multiset(Ids(ts[1..]))
  {
  }

  lemma {:induction false} IdsInsert(t: Source, sorted: seq<Source>, target: Date)
    ensures multiset(Ids(InsertRanked(t, sorted, target))) == multiset{t.id} + multiset(Ids(sorted))
    decreases |sorted|
  {
    if sorted == [] {
    } else if Before(RankKey(sorted[0], target), RankKey(t, target)) {
      IdsInsert(t, sorted[1..], target);
      var all := [sorted[0]] + InsertRanked(t, sorted[1..], target);
      assert all[1..] == InsertRanked(t, sorted[1..], target);
      IdsHead(all);
      IdsHead(sorted);
    } else {
      assert ([t] + sorted)[1..] == sorted;
      IdsHead([t] + sorted);
    }
  }

  lemma {:induction false} IdsSorted(ts: seq<Source>, target: Date)
    ensures multiset(Ids(RankSort(ts, target))) == multiset(Ids(ts))
    decreases |ts|
  {
    if ts != [] {
      IdsSorted(ts[1..], target);
      IdsInsert(ts[0], RankSort(ts[1..], target), target);
      IdsHead(ts);
    }
  }

  lemma {:induction false} RankedIds(ts: seq<Source>)
    ensures FocusLine.Tasks(AsRanked(ts)) == Ids(ts)
    decreases |ts|
  {
    if ts != [] {
      RankedIds(ts[1..]);
      assert AsRanked(ts)[1..] == AsRanked(ts[1..]);
    }
  }

  // ---- pins ----------------------------------------------------------------------------------------

  lemma {:induction false} FindIs(ts: seq<Source>, id: int)
    ensures Find(ts, id).Some? <==> id in Ids(ts)
    decreases |ts|
  {
    if ts != [] { FindIs(ts[1..], id); }
  }

  lemma UnpinnedHead(ts: seq<Source>, pinned: set<int>)
    requires ts != []
    ensures multiset(Ids(Unpinned(ts, pinned)))
         == (if ts[0].id in pinned then multiset{} else multiset{ts[0].id}) + multiset(Ids(Unpinned(ts[1..], pinned)))
  {
    var t, rest := ts[0], Unpinned(ts[1..], pinned);
    if t.id in pinned {
      assert [] + rest == rest;
    } else {
      IdsHead([t] + rest);
      assert ([t] + rest)[1..] == rest;
    }
  }

  lemma FindHead(ts: seq<Source>, id: int)
    requires ts != []
    ensures Find(ts, id) == if ts[0].id == id then Some(ts[0]) else Find(ts[1..], id)
  {
  }

  /** Pinning one more task takes exactly that task off the ranking. */
  lemma {:induction false} PinTakesOne(ts: seq<Source>, pinned: set<int>, id: int)
    requires DistinctIds(ts) && id !in pinned
    ensures multiset(Ids(Unpinned(ts, pinned)))
         == multiset(Ids(Unpinned(ts, pinned + {id}))) + (if Find(ts, id).Some? then multiset{id} else multiset{})
    decreases |ts|
  {
    if ts != [] {
      assert DistinctIds(ts[1..]);
      if ts[0].id == id { NotAgain(ts, id); }
      hide *;
      PinTakesOne(ts[1..], pinned, id);
      UnpinnedHead(ts, pinned);
      UnpinnedHead(ts, pinned + {id});
      FindHead(ts, id);
    }
  }

  lemma NotAgain(ts: seq<Source>, id: int)
    requires DistinctIds(ts) && ts != [] && ts[0].id == id
    ensures Find(ts[1..], id).None?
  {
    forall k | 0 <= k < |ts[1..]| ensures ts[1..][k].id != id {
      assert ts[1..][k] == ts[k + 1];
    }
  }

  lemma {:induction false} NothingPinned(ts: seq<Source>)
    ensures Unpinned(ts, {}) == ts
  {
    if ts != [] { NothingPinned(ts[1..]); }
  }

  /** Every schedulable task is a floating pin, a timed pin, or on the ranking. */
  lemma {:induction false} PinsSplit(ts: seq<Source>, pins: seq<Pin>, windowStart: int, before: set<int>)
    requires DistinctIds(ts) && OnePinEach(pins) && forall i :: 0 <= i < |pins| ==> pins[i].task !in before
    ensures multiset(Ids(Unpinned(ts, before)))
         == multiset(Ids(Unpinned(ts, before + PinnedIds(pins))))
            + multiset(TimedTasks(TimedPins(ts, pins, windowStart))) + multiset(WorkTasks(FloatingPins(ts, pins, windowStart)))
    decreases |pins|
  {
    hide *;
    if pins == [] { NoPins(ts, windowStart, before); } else {
      PinsTail(pins, before);
      var id := pins[0].task;
      PinTakesOne(ts, before, id);
      PinsSplit(ts, pins[1..], windowStart, before + {id});
      PinnedHead(pins, before);
      assert Unpinned(ts, before + {id} + PinnedIds(pins[1..])) == Unpinned(ts, before + PinnedIds(pins));
      OnePin(ts, pins, windowStart);
      var rest := multiset(Ids(Unpinned(ts, before + PinnedIds(pins))));
      var t0, f0 := multiset(TimedTasks(TimedPins(ts, pins, windowStart))), multiset(WorkTasks(FloatingPins(ts, pins, windowStart)));
      var t1 := multiset(TimedTasks(TimedPins(ts, pins[1..], windowStart)));
      var f1 := multiset(WorkTasks(FloatingPins(ts, pins[1..], windowStart)));
      var one := if Find(ts, id).Some? then multiset{id} else multiset{};
      assert multiset(Ids(Unpinned(ts, before))) == rest + t1 + f1 + one;
      assert rest + t1 + f1 + one == rest + (t1 + f1 + one);
      assert rest + t0 + f0 == rest + (t0 + f0);
    }
  }

  lemma PinsTail(pins: seq<Pin>, before: set<int>)
    requires pins != [] && OnePinEach(pins) && forall i :: 0 <= i < |pins| ==> pins[i].task !in before
    ensures pins[0].task !in before && OnePinEach(pins[1..])
    ensures forall i :: 0 <= i < |pins[1..]| ==> pins[1..][i].task !in before + {pins[0].task}
  {
  }

  lemma NoPins(ts: seq<Source>, windowStart: int, before: set<int>)
    ensures var none: seq<Pin> := [];
            && before + PinnedIds(none) == before
            && multiset(TimedTasks(TimedPins(ts, none, windowStart))) == multiset{}
            && multiset(WorkTasks(FloatingPins(ts, none, windowStart))) == multiset{}
  {
  }

  lemma PinnedHead(pins: seq<Pin>, before: set<int>)
    requires pins != []
    ensures before + {pins[0].task} + PinnedIds(pins[1..]) == before + PinnedIds(pins)
  {
    forall x ensures x in {pins[0].task} + PinnedIds(pins[1..]) <==> x in PinnedIds(pins) {
      if x in PinnedIds(pins) {
        var i :| 0 <= i < |pins| && pins[i].task == x;
        if i > 0 { assert pins[1..][i - 1].task == x; }
      }
      if x in PinnedIds(pins[1..]) {
        var i :| 0 <= i < |pins[1..]| && pins[1..][i].task == x;
        assert pins[i + 1].task == x;
      }
    }
  }

  lemma OnePin(ts: seq<Source>, pins: seq<Pin>, windowStart: int)
    requires pins != []
    ensures multiset(TimedTasks(TimedPins(ts, pins, windowStart))) + multiset(WorkTasks(FloatingPins(ts, pins, windowStart)))
         == multiset(TimedTasks(TimedPins(ts, pins[1..], windowStart))) + multiset(WorkTasks(FloatingPins(ts, pins[1..], windowStart)))
            + (if Find(ts, pins[0].task).Some? then multiset{pins[0].task} else multiset{})
  {
    PinsSplitStep(ts, pins, windowStart, 0);
    assert pins[0..] == pins;
    var t := Find(ts, pins[0].task);
    var a, b := TimedPins(ts, pins[1..], windowStart), FloatingPins(ts, pins[1..], windowStart);
    hide *;
    if t.Some? {
      var w := Work(pins[0].task, Minutes(t.value));
      if StillTimed(pins[0], t.value, windowStart) {
        TimedHead(TimedPin(w, pins[0].start.value), a);
        assert [] + b == b;
      } else {
        WorkHead(w, b);
        assert [] + a == a;
      }
    } else {
      assert [] + b == b && [] + a == a;
    }
  }

  lemma TimedHead(p: TimedPin, rest: seq<TimedPin>)
    ensures multiset(TimedTasks([p] + rest)) == multiset{p.work.task} + multiset(TimedTasks(rest))
  {
    assert ([p] + rest)[1..] == rest;
  }

  lemma WorkHead(w: Work, rest: seq<Work>)
    ensures multiset(WorkTasks([w] + rest)) == multiset{w.task} + multiset(WorkTasks(rest))
  {
    assert ([w] + rest)[1..] == rest;
  }

  // ---- the partition ---------------------------------------------------------------------------------

  /**
   Every source task appears exactly once on the day: blocked, scheduled as itself, or in the
   overflow. One live pin per day and task is all this takes.
   */
  lemma EachTaskOnce(source: seq<Source>, pins: seq<Pin>, commitments: seq<Busy>, target: Date, windowStart: int, available: int)
    requires DistinctIds(source) && OnePinEach(pins)
    ensures var ts := Schedulable(source);
            var ranked := AsRanked(RankSort(Unpinned(ts, PinnedIds(pins)), target));
            var day := Schedule(windowStart, available, FloatingPins(ts, pins, windowStart), TimedPins(ts, pins, windowStart), ranked,
                                Ongoing(commitments, windowStart));
            multiset(BlockedIds(source)) + multiset(OwnTasks(TimeSort(day.blocks))) + multiset(OverflowTasks(day.overflow))
            == multiset(Ids(source))
  {
    hide *;
    var ts := Schedulable(source);
    var rest := Unpinned(ts, PinnedIds(pins));
    var ranked := AsRanked(RankSort(rest, target));
    var floating, timed := FloatingPins(ts, pins, windowStart), TimedPins(ts, pins, windowStart);
    var busy := Ongoing(commitments, windowStart);
    var opening := Opened(windowStart, available, floating, timed, busy);
    SplitBlocked(source);
    SchedulableDistinct(source);
    NothingPinned(ts);
    PinsSplit(ts, pins, windowStart, {});
    assert {} + PinnedIds(pins) == PinnedIds(pins);
    IdsSorted(rest, target);
    RankedIds(RankSort(rest, target));
    OwnOpened(windowStart, available, floating, timed, busy);
    OpenedOverflow(windowStart, available, floating, timed, busy);
    RankedSplit(opening, windowStart, ranked);
    OwnSorted(PlaceRanked(opening, windowStart, ranked).blocks);
    ScheduleIs(windowStart, available, floating, timed, ranked, busy);
    assert multiset(TimedTasks(timed) + WorkTasks(floating)) == multiset(TimedTasks(timed)) + multiset(WorkTasks(floating));
    var none: seq<int> := [];
    assert multiset(none) == multiset{};
    var day := PlaceRanked(opening, windowStart, ranked);
    assert multiset(OwnTasks(day.blocks)) + multiset(OverflowTasks(day.overflow))
        == multiset(TimedTasks(timed)) + multiset(WorkTasks(floating)) + multiset(Ids(rest));
    assert multiset(Ids(ts)) == multiset(Ids(rest)) + multiset(TimedTasks(timed)) + multiset(WorkTasks(floating));
    var own, over, waiting := multiset(OwnTasks(TimeSort(day.blocks))), multiset(OverflowTasks(day.overflow)), multiset(BlockedIds(source));
    assert own + over == multiset(Ids(ts));
    assert waiting + own + over == waiting + (own + over);
  }

  lemma ScheduleIs(start: int, available: int, floating: seq<Work>, timed: seq<TimedPin>, ranked: seq<RankedWork>, busy: seq<Busy>)
    ensures Schedule(start, available, floating, timed, ranked, busy)
         == PlaceRanked(Opened(start, available, floating, timed, busy), start, ranked)
  {
    hide PlaceRanked, Opened;
  }

  lemma OpenedOverflow(start: int, available: int, floating: seq<Work>, timed: seq<TimedPin>, busy: seq<Busy>)
    ensures OverflowTasks(Opened(start, available, floating, timed, busy).overflow) == []
  {
    var fixed := Intervals(busy, timed);
    var empty := FocusLine.Day.Day(FreeMinutes(start, start + available, fixed), [], [], 0, LatestEnd(start + available, fixed));
    TimedNoOverflow(empty, start, timed);
    PinsNeverOverflow(PlaceTimed(empty, start, timed), start, floating, 0);
  }

  lemma {:induction false} TimedNoOverflow(day: Day, start: int, timed: seq<TimedPin>)
    ensures PlaceTimed(day, start, timed).overflow == day.overflow
    decreases |timed|
  {
    if timed != [] {
      var p := timed[0];
      TimedNoOverflow(AddBlock(day, start, Block(p.work.task, p.start, p.work.minutes, Fixed)), start, timed[1..]);
    }
  }
}
