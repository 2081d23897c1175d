/**
 The Focus day from what is stored: the day's commitments become the fixed intervals the packer
 keeps clear of, the day's pins its pins (backend/app/services/focus.py, `get_focus_plan`).
 */
module FocusStored {
  import opened Common
  import opened FocusEntries
  import opened FocusCommitments
  import FocusPlan
  import FocusLine
  import FocusPacker
  import Focus
  import FocusDay

  function DurationOf(es: Entries, h: Happening): int {
    var shown := if h.edit.Some? then h.edit.value else h.entry;
    if shown !in es then 0 else
      match es[shown].kind
      case Commitment(_, duration) => duration
      case Repeating(_, duration, _, _, _) => duration
      case Override(_, _, duration) => duration
      case Pin(_, _) => 0
      case Skip(_) => 0
  }

  function EndOf(es: Entries, h: Happening): int {
    StartOf(es, h) + DurationOf(es, h)
  }

  /** Every stored commitment lasts: the schema asks for five minutes or more. */
  predicate Lengths(es: Entries) {
    forall x :: x in es ==>
      match es[x].kind
      case Commitment(_, duration) => duration > 0
      case Repeating(_, duration, _, _, _) => duration > 0
      case Override(_, _, duration) => duration > 0
      case Pin(_, _) => true
      case Skip(_) => true
  }

  function Times(es: Entries, hs: seq<Happening>): seq<FocusLine.Busy> {
    seq(|hs|, i requires 0 <= i < |hs| => FocusLine.Busy(StartOf(es, hs[i]), EndOf(es, hs[i])))
  }

  /** The day's pins in the order `list_entries` gives them. */
  function StoredPins(es: Entries, order: seq<int>): seq<FocusDay.Pin>
    requires forall x :: x in order ==> x in es && es[x].kind.Pin?
  {
    if order == [] then [] else
      var x := order[0];
      assert x in order;
      [FocusDay.Pin(es[x].kind.task, es[x].kind.at)] + StoredPins(es, order[1..])
  }

  /** A block and a commitment share no minute. */
  predicate KeepsClear(es: Entries, b: FocusLine.Block, h: Happening) {
    b.start + b.minutes <= StartOf(es, h) || EndOf(es, h) <= b.start
  }

  /**
   Whatever is happening on the day, nothing the plan places itself is put on top of it; only a pin
   with a time of its own may be.
   */
  ghost predicate ClearOfCommitments(es: Entries, day: Date, blocks: seq<FocusLine.Block>)
    requires Valid(es)
  {
    forall i, h :: 0 <= i < |blocks| && !blocks[i].kind.Fixed? && HappensOn(es, day, h) ==> KeepsClear(es, blocks[i], h)
  }

  /** `get_focus_plan` over the stored overlay: the plan, and the commitments and skips it shows. */
  method GetStoredPlan(stored: FocusPlan.Plan, source: seq<Focus.Source>, day: Date, windowStart: int, available: int)
    returns (plan: FocusDay.Plan, shown: seq<Happening>, skipped: set<(int, int)>)
    requires stored.Valid() && Lengths(stored.entries)
    requires available >= 0 && FocusDay.Sized(source) && Focus.DistinctIds(source)
    ensures Valid(stored.entries) && InStartOrder(stored.entries, shown)
    ensures forall h :: h in shown <==> HappensOn(stored.entries, day, h) && EndOf(stored.entries, h) > windowStart
    ensures forall p :: p in skipped <==> SkippedOn(stored.entries, day, p.0, p.1)
                                          && EndOf(stored.entries, Happening(p.0, None)) > windowStart
    ensures ClearOfCommitments(stored.entries, day, plan.scheduled)
    ensures (forall x :: x in DayPins(stored.entries, day) ==> x in stored.entries && stored.entries[x].kind.Pin?)
            && (forall x :: x in InOrder(stored.entries, DayPins(stored.entries, day)) ==> x in DayPins(stored.entries, day))
    ensures plan == FocusDay.PlanOf(source, StoredPins(stored.entries, InOrder(stored.entries, DayPins(stored.entries, day))),
                                    Times(stored.entries, shown), day, windowStart, available)
  {
    var es := stored.entries;
    var happening, gone := FocusCommitments.DayCommitments(stored, day);
    PinsListed(es, day);
    hide InStartOrder, HappensOn, SkippedOn, StartOf, EndOf, Valid, InOrder, DayPins, Lengths, Times, FocusDay.PlanOf, ClearOfCommitments;
    shown := [];
    assert happening[..0] == [];
    for i := 0 to |happening|
      invariant shown == NotOver(es, happening[..i], windowStart)
    {
      NotOverStep(es, happening, i, windowStart);
      if EndOf(es, happening[i]) > windowStart { shown := shown + [happening[i]]; }
    }
    assert happening[..|happening|] == happening;
    NotOverIs(es, happening, windowStart);
    skipped := set p | p in gone && EndOf(es, Happening(p.0, None)) > windowStart;
    var pins := StoredPins(es, InOrder(es, DayPins(es, day)));
    TimesLast(es, day, shown);
    plan := FocusDay.GetFocusPlan(source, pins, Times(es, shown), day, windowStart, available);
    PlanClear(es, day, source, pins, shown, windowStart, available);
  }

  lemma PinsListed(es: Entries, day: Date)
    ensures forall x :: x in DayPins(es, day) ==> x in es && es[x].kind.Pin?
    ensures forall x :: x in InOrder(es, DayPins(es, day)) ==> x in DayPins(es, day)
  {
    InOrderIs(es, DayPins(es, day));
    forall x | x in InOrder(es, DayPins(es, day)) ensures x in DayPins(es, day) {
      assert x in Elems(InOrder(es, DayPins(es, day)));
    }
  }

  // ---- what is not over yet -----------------------------------------------------------------------

  function NotOver(es: Entries, hs: seq<Happening>, windowStart: int): seq<Happening> {
    if hs == [] then [] else
      var last := hs[|hs| - 1];
      NotOver(es, hs[..|hs| - 1], windowStart) + (if EndOf(es, last) > windowStart then [last] else [])
  }

  lemma NotOverStep(es: Entries, hs: seq<Happening>, i: nat, windowStart: int)
    requires i < |hs|
    ensures NotOver(es, hs[..i + 1], windowStart)
            == NotOver(es, hs[..i], windowStart) + (if EndOf(es, hs[i]) > windowStart then [hs[i]] else [])
  {
    assert hs[..i + 1][..i] == hs[..i];
  }

  lemma {:induction false} NotOverIs(es: Entries, hs: seq<Happening>, windowStart: int)
    ensures forall h :: h in NotOver(es, hs, windowStart) <==> h in hs && EndOf(es, h) > windowStart
    ensures InStartOrder(es, hs) ==> InStartOrder(es, NotOver(es, hs, windowStart))
    decreases |hs|
  {
    if hs != [] {
      var init, last := hs[..|hs| - 1], hs[|hs| - 1];
      hide EndOf, StartOf;
      NotOverIs(es, init, windowStart);
      assert hs == init + [last];
      assert InStartOrder(es, hs) ==> InStartOrder(es, init);
      if InStartOrder(es, hs) { OrderKept(es, init, last, NotOver(es, init, windowStart)); }
    }
  }

  lemma OrderKept(es: Entries, init: seq<Happening>, last: Happening, kept: seq<Happening>)
    requires InStartOrder(es, init + [last]) && InStartOrder(es, kept) && forall h :: h in kept ==> h in init
    ensures InStartOrder(es, kept + [last])
  {
    hide StartOf;
    var hs := init + [last];
    forall k | 0 <= k < |kept| ensures FocusCommitments.Sooner(es, kept[k], last) {
      assert kept[k] in kept;
      var j :| 0 <= j < |init| && init[j] == kept[k];
      assert hs[j] == kept[k] && hs[|init|] == last;
    }
  }

  lemma ShownLasts(es: Entries, day: Date, h: Happening)
    requires Valid(es) && Lengths(es) && HappensOn(es, day, h)
    ensures StartOf(es, h) < EndOf(es, h)
  {
    hide Valid;
  }

  lemma TimesLast(es: Entries, day: Date, hs: seq<Happening>)
    requires Valid(es) && Lengths(es) && forall h :: h in hs ==> HappensOn(es, day, h)
    ensures FocusPacker.Lasting(Times(es, hs))
  {
    hide Valid, Lengths, HappensOn, StartOf, EndOf;
    forall i | 0 <= i < |hs| ensures Times(es, hs)[i].start < Times(es, hs)[i].end {
      ShownLasts(es, day, hs[i]);
    }
  }

  // ---- clear of what happens ------------------------------------------------------------------------

  lemma {:induction false} OngoingKeeps(busy: seq<FocusLine.Busy>, windowStart: int, b: FocusLine.Busy)
    requires b in busy && b.end > windowStart
    ensures b in FocusDay.Ongoing(busy, windowStart)
    decreases |busy|
  {
    if busy[0] != b { OngoingKeeps(busy[1..], windowStart, b); }
  }

  lemma {:induction false} IntervalsKeep(busy: seq<FocusLine.Busy>, timed: seq<FocusLine.TimedPin>, b: FocusLine.Busy)
    requires b in busy
    ensures b in FocusLine.Intervals(busy, timed)
    decreases |timed|
  {
    if timed != [] { IntervalsKeep(busy, timed[..|timed| - 1], b); }
  }

  /** A tidy day keeps its blocks out of every fixed interval. */
  lemma TidyApart(day: FocusLine.Day, from: int, to: int, busy: seq<FocusLine.Busy>, i: nat, b: FocusLine.Busy)
    requires FocusLine.Tidy(day, from, to, busy) && i < |day.blocks| && !day.blocks[i].kind.Fixed?
    requires b in busy && b.start < b.end
    ensures day.blocks[i].start + day.blocks[i].minutes <= b.start || b.end <= day.blocks[i].start
  {
    var block := day.blocks[i];
    assert FocusLine.Apart(day, from, to, busy, i);
    var k :| 0 <= k < |busy| && busy[k] == b;
    var m := FocusLine.Max(block.start, b.start);
    if block.start <= m < block.start + block.minutes && m < b.end {
      assert FocusLine.Covers(busy[k], m);
      assert FocusLine.Covered(busy, m);
      assert false;
    }
  }

  lemma TidyStarts(day: FocusLine.Day, from: int, to: int, busy: seq<FocusLine.Busy>, i: nat)
    requires FocusLine.Tidy(day, from, to, busy) && i < |day.blocks| && !day.blocks[i].kind.Fixed? && from <= to
    ensures from <= day.blocks[i].start
  {
    assert FocusLine.Apart(day, from, to, busy, i);
  }

  lemma PlanClear(es: Entries, day: Date, source: seq<Focus.Source>, pins: seq<FocusDay.Pin>, shown: seq<Happening>,
                  windowStart: int, available: int)
    requires Valid(es) && Lengths(es) && available >= 0 && FocusDay.Sized(source) && Focus.DistinctIds(source)
    requires forall h :: h in shown <==> HappensOn(es, day, h) && EndOf(es, h) > windowStart
    ensures ClearOfCommitments(es, day, FocusDay.PlanOf(source, pins, Times(es, shown), day, windowStart, available).scheduled)
  {
    hide Valid, Lengths, HappensOn, ClearOfCommitments, Times, FocusLine.Schedule, FocusDay.TimeSort, Focus.RankSort, FocusDay.Schedulable,
         FocusDay.Ongoing, FocusDay.TimedPins, FocusDay.FloatingPins, FocusDay.Unpinned, FocusDay.AsRanked;
    var ts := FocusDay.Schedulable(source);
    var busy := FocusDay.Ongoing(Times(es, shown), windowStart);
    var timed := FocusDay.TimedPins(ts, pins, windowStart);
    var ranked := FocusDay.AsRanked(Focus.RankSort(FocusDay.Unpinned(ts, FocusDay.PinnedIds(pins)), day));
    var floating := FocusDay.FloatingPins(ts, pins, windowStart);
    var packed := FocusLine.Schedule(windowStart, available, floating, timed, ranked, busy);
    var scheduled := FocusDay.PlanOf(source, pins, Times(es, shown), day, windowStart, available).scheduled;
    assert scheduled == FocusDay.TimeSort(packed.blocks);
    hide *;
    FocusDay.AllSized(source, pins, windowStart, day);
    FocusLine.ScheduleIsSound(windowStart, available, floating, timed, ranked, busy);
    SortedIn(packed.blocks);
    PackedClear(es, day, shown, packed, windowStart, windowStart + available, busy, timed);
    SameBlocksClear(es, day, packed.blocks, scheduled);
  }

  lemma SortedIn(blocks: seq<FocusLine.Block>)
    ensures forall b :: b in FocusDay.TimeSort(blocks) ==> b in blocks
  {
    FocusDay.TimeSortSorts(blocks);
    forall b | b in FocusDay.TimeSort(blocks) ensures b in blocks {
      assert b in multiset(FocusDay.TimeSort(blocks));
    }
  }

  lemma SameBlocksClear(es: Entries, day: Date, blocks: seq<FocusLine.Block>, sorted: seq<FocusLine.Block>)
    requires Valid(es) && ClearOfCommitments(es, day, blocks) && forall b :: b in sorted ==> b in blocks
    ensures ClearOfCommitments(es, day, sorted)
  {
    hide Valid, HappensOn, KeepsClear;
    forall i, h | 0 <= i < |sorted| && !sorted[i].kind.Fixed? && HappensOn(es, day, h) ensures KeepsClear(es, sorted[i], h) {
      assert sorted[i] in blocks;
      var j :| 0 <= j < |blocks| && blocks[j] == sorted[i];
    }
  }

  lemma PackedClear(es: Entries, day: Date, shown: seq<Happening>, packed: FocusLine.Day, from: int, to: int,
                    busy: seq<FocusLine.Busy>, timed: seq<FocusLine.TimedPin>)
    requires Valid(es) && Lengths(es) && from <= to
    requires forall h :: h in shown <==> HappensOn(es, day, h) && EndOf(es, h) > from
    requires busy == FocusDay.Ongoing(Times(es, shown), from)
    requires FocusLine.Tidy(packed, from, to, FocusLine.Intervals(busy, timed))
    ensures ClearOfCommitments(es, day, packed.blocks)
  {
    hide Valid, Lengths, HappensOn, StartOf, EndOf, FocusLine.Tidy, FocusLine.Intervals, FocusDay.Ongoing;
    forall i, h | 0 <= i < |packed.blocks| && !packed.blocks[i].kind.Fixed? && HappensOn(es, day, h)
      ensures KeepsClear(es, packed.blocks[i], h)
    {
      TidyStarts(packed, from, to, FocusLine.Intervals(busy, timed), i);
      if EndOf(es, h) > from {
        var k :| 0 <= k < |shown| && shown[k] == h;
        var b := Times(es, shown)[k];
        assert b in Times(es, shown);
        ShownLasts(es, day, h);
        OngoingKeeps(Times(es, shown), from, b);
        IntervalsKeep(busy, timed, b);
        TidyApart(packed, from, to, FocusLine.Intervals(busy, timed), i, b);
      }
    }
  }
}
