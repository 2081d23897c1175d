/**
 The writes of the stored day plan, as the services run, and what a day shows
 (backend/app/services/focus_plan.py).
 */
module FocusPlan {
  import opened Common
  import opened FocusEntries
  import Calendar

  function SeriesOf(e: Entry): Calendar.Series
    requires e.kind.Repeating?
  {
    Calendar.Series(e.day, e.kind.interval, e.kind.days, e.kind.stop)
  }

  ghost predicate ValidIntervals(es: Entries) {
    forall x :: x in es && es[x].kind.Repeating? ==> Calendar.ValidInterval(es[x].kind.interval)
  }

  class Plan {
    var entries: Entries

    ghost predicate Valid()
      reads this
    {
      OneEach(entries) && ValidIntervals(entries)
    }

    constructor ()
      ensures Valid() && entries == map[]
    {
      entries := map[];
    }

    /**
     `pin_task`: re-pinning an already pinned task moves its time, so a day never holds two live
     pins of one task. `pinnable` is what `_ensure_pinnable` decides.
     */
    method PinTask(day: Date, task: int, at: Option<int>, pinnable: bool) returns (r: Result<int, Error>)
      requires Valid()
      modifies this
      ensures Valid()
      ensures r.Ok? <==> pinnable
      ensures r.Err? ==> entries == old(entries)
      ensures r.Ok? ==>
                LivePins(entries, day, task) == {r.value} && r.value in entries && entries[r.value].kind == Pin(task, at)
      ensures r.Ok? && LivePins(old(entries), day, task) != {} ==>
                r.value in old(entries) && entries == old(entries)[r.value := old(entries)[r.value].(kind := Pin(task, at))]
      ensures r.Ok? && LivePins(old(entries), day, task) == {} ==>
                r.value !in old(entries)
                && entries == old(entries)[r.value := Entry(day, Pin(task, at), NextPosition(old(entries), day), false)]
    {
      if !pinnable { return Err(Unpinnable); }
      var live := LivePins(entries, day, task);
      if live != {} {
        var id := Least(live);
        OnlyOne(entries, day, task, id);
        if entries[id].kind.at == at {
          assert entries[id].kind == Pin(task, at);
          assert entries[id := entries[id].(kind := Pin(task, at))] == entries;
          return Ok(id);
        }
        PinMoved(entries, id, task, at);
        entries := entries[id := entries[id].(kind := Pin(task, at))];
        OnlyOne(entries, day, task, id);
        return Ok(id);
      }
      var id := NextId(entries.Keys);
      var entry := Entry(day, Pin(task, at), NextPosition(entries, day), false);
      assert id !in entries.Keys;
      EntryAdded(entries, id, entry);
      entries := entries[id := entry];
      OnlyOne(entries, day, task, id);
      return Ok(id);
    }

    /** `skip_occurrence`: idempotent, and refused on a day edited by hand. */
    method SkipOccurrence(series: int, day: Date) returns (r: Result<int, Error>)
      requires Valid() && LiveEntry(entries, series)
      modifies this
      ensures Valid()
      ensures r.Err? ==> entries == old(entries)
      ensures r.Ok? ==> Skipped(entries, series, day) && r.value in entries && entries[r.value].kind == Skip(series)
                        && (entries == old(entries)
                            || (r.value !in old(entries) && entries == old(entries)[r.value := Entry(day, Skip(series), 0, false)]))
      ensures r.Ok? <==> old(entries)[series].kind.Repeating? && Calendar.OccursOn(SeriesOf(old(entries)[series]), day)
                         && !EditedOn(old(entries), series, day)
    {
      if !entries[series].kind.Repeating? || !Calendar.OccursOn(SeriesOf(entries[series]), day) { return Err(NotAnOccurrence); }
      var live := LiveExceptions(entries, series, day);
      if live != {} {
        var id := Least(live);
        OnlyException(entries, series, day, id);
        if entries[id].kind.Override? { return Err(AlreadyEdited); }
        return Ok(id);
      }
      var id := NextId(entries.Keys);
      assert id !in entries.Keys;
      EntryAdded(entries, id, Entry(day, Skip(series), 0, false));
      entries := entries[id := Entry(day, Skip(series), 0, false)];
      OnlyException(entries, series, day, id);
      return Ok(id);
    }

    /** `edit_occurrence`, with all three fields worked out. */
    method EditOccurrence(series: int, day: Date, start: int, duration: int) returns (r: Result<int, Error>)
      requires Valid() && LiveEntry(entries, series)
      modifies this
      ensures Valid()
      ensures r.Err? ==> entries == old(entries)
      ensures r.Ok? ==> EditedOn(entries, series, day) && r.value in entries
                        && entries[r.value].kind == Override(series, start, duration)
                        && forall x :: x in old(entries) && x != r.value ==> x in entries && entries[x] == old(entries)[x]
      ensures r.Ok? <==> old(entries)[series].kind.Repeating? && Calendar.OccursOn(SeriesOf(old(entries)[series]), day)
                         && !Skipped(old(entries), series, day)
    {
      if !entries[series].kind.Repeating? || !Calendar.OccursOn(SeriesOf(entries[series]), day) { return Err(NotAnOccurrence); }
      var live := LiveExceptions(entries, series, day);
      if live != {} {
        var id := Least(live);
        OnlyException(entries, series, day, id);
        if entries[id].kind.Skip? { return Err(AlreadyException); }
        ExceptionEdited(entries, id, series, start, duration);
        entries := entries[id := entries[id].(kind := Override(series, start, duration))];
        OnlyException(entries, series, day, id);
        return Ok(id);
      }
      var id := NextId(entries.Keys);
      assert id !in entries.Keys;
      EntryAdded(entries, id, Entry(day, Override(series, start, duration), 0, false));
      entries := entries[id := Entry(day, Override(series, start, duration), 0, false)];
      OnlyException(entries, series, day, id);
      return Ok(id);
    }

    /** `remove_entry`. */
    method RemoveEntry(id: int)
      requires Valid() && LiveEntry(entries, id)
      modifies this
      ensures Valid() && entries == old(entries)[id := old(entries)[id].(deleted := true)]
    {
      entries := entries[id := entries[id].(deleted := true)];
    }

    /** `restore_entry`: refused when the day has the task, or an exception of the series, again. */
    method RestoreEntry(id: int, taskLive: bool) returns (r: Result<(), Error>)
      requires Valid() && id in entries && entries[id].deleted
      modifies this
      ensures Valid()
      ensures r.Err? ==> entries == old(entries)
      ensures r.Ok? ==> entries == old(entries)[id := old(entries)[id].(deleted := false)]
      ensures r.Ok? <==> OneEach(old(entries)[id := old(entries)[id].(deleted := false)]) && (IsPin(old(entries)[id]) ==> taskLive)
    {
      var e := entries[id];
      RestoreExact(entries, id);
      if IsException(e) && LiveExceptions(entries, e.kind.series, e.day) != {} { return Err(AlreadyException); }
      if e.kind.Pin? {
        if LivePins(entries, e.day, e.kind.task) != {} { return Err(AlreadyPinned); }
        if !taskLive { return Err(TaskInTrash); }
      }
      entries := entries[id := e.(deleted := false)];
      return Ok(());
    }

    /** `stop_series`, or with `None` lifting the end: only the end date changes. */
    method StopSeries(id: int, stop: Option<Date>) returns (r: Result<(), Error>)
      requires Valid() && LiveEntry(entries, id)
      modifies this
      ensures Valid()
      ensures r.Ok? <==> old(entries)[id].kind.Repeating? && (stop.Some? ==> stop.value > old(entries)[id].day)
      ensures r.Err? ==> entries == old(entries)
      ensures r.Ok? ==> entries == old(entries)[id := old(entries)[id].(kind := old(entries)[id].kind.(stop := stop))]
    {
      var e := entries[id];
      if !e.kind.Repeating? { return Err(NotASeries); }
      if stop.Some? && stop.value <= e.day { return Err(StopsTooEarly); }
      if e.kind.stop == stop {
        assert e.(kind := e.kind.(stop := stop)) == e;
        assert entries[id := e] == entries;
        return Ok(());
      }
      entries := entries[id := e.(kind := e.kind.(stop := stop))];
      return Ok(());
    }

    /** `reorder_pins`: the named pins trade their slots and the day's pins are renumbered. */
    method ReorderPins(day: Date, ids: seq<int>) returns (r: Result<seq<int>, Error>)
      requires Valid()
      modifies this
      ensures Valid()
      ensures r.Ok? <==> ids != [] && Distinct(ids) && forall x :: x in ids ==> x in DayPins(old(entries), day)
      ensures r.Err? ==> entries == old(entries)
      ensures DayPins(entries, day) == DayPins(old(entries), day) && DayPins(entries, day) <= entries.Keys
      ensures r.Ok? ==> r.value == InOrder(entries, DayPins(entries, day)) && |r.value| == |InOrder(old(entries), DayPins(old(entries), day))|
      ensures r.Ok? ==> Named(r.value, Elems(ids)) == ids
      ensures r.Ok? ==> forall i :: 0 <= i < |r.value| && InOrder(old(entries), DayPins(old(entries), day))[i] !in ids ==>
                          r.value[i] == InOrder(old(entries), DayPins(old(entries), day))[i]
      ensures r.Ok? ==> forall x :: x in entries <==> x in old(entries)
      ensures r.Ok? ==> forall x :: x in entries ==> entries[x].(position := 0) == old(entries)[x].(position := 0)
    {
      if ids == [] { return Err(NothingToReorder); }
      if !Distinct(ids) { return Err(RepeatedEntry); }
      for i := 0 to |ids|
        invariant forall j :: 0 <= j < i ==> ids[j] in DayPins(entries, day)
      {
        if !LiveEntry(entries, ids[i]) || entries[ids[i]].day != day { NotThere(entries, day, ids, i); return Err(NotOfTheDay); }
        if !entries[ids[i]].kind.Pin? { NotThere(entries, day, ids, i); return Err(HasNoOrder); }
      }
      var pins := InOrder(entries, DayPins(entries, day));
      PinsListed(entries, day, ids, pins);
      TradedRearranges(pins, ids);
      TradedNamed(pins, Elems(ids), ids);
      var ordered := Traded(pins, Elems(ids), ids);
      OthersStay(pins, ids, ordered);
      if ordered == pins && forall i :: 0 <= i < |pins| ==> pins[i] in entries && entries[pins[i]].position == i { return Ok(ordered); }
      RenumberedOrder(entries, day, ordered);
      RenumberedKeeps(entries, ordered);
      entries := Renumbered(entries, ordered);
      return Ok(ordered);
    }
  }

  // ---- what the writes keep ----------------------------------------------------------------------

  /** The occurrence is skipped, or edited, that day. */
  ghost predicate Skipped(es: Entries, series: int, day: Date) {
    exists x :: x in LiveExceptions(es, series, day) && es[x].kind.Skip?
  }

  ghost predicate EditedOn(es: Entries, series: int, day: Date) {
    exists x :: x in LiveExceptions(es, series, day) && es[x].kind.Override?
  }

  lemma OnlyOne(es: Entries, day: Date, task: int, id: int)
    requires OneEach(es) && id in LivePins(es, day, task)
    ensures LivePins(es, day, task) == {id}
  {
    forall x | x in LivePins(es, day, task) ensures x == id {
      assert SamePin(es[x], es[id]);
    }
  }

  lemma OnlyException(es: Entries, series: int, day: Date, id: int)
    requires OneEach(es) && id in LiveExceptions(es, series, day)
    ensures LiveExceptions(es, series, day) == {id}
    ensures es[id].kind.Skip? <==> Skipped(es, series, day)
    ensures es[id].kind.Override? <==> EditedOn(es, series, day)
  {
    forall x | x in LiveExceptions(es, series, day) ensures x == id {
      assert SameException(es[x], es[id]);
    }
  }

  lemma PinMoved(es: Entries, id: int, task: int, at: Option<int>)
    requires OneEach(es) && ValidIntervals(es) && LiveEntry(es, id) && es[id].kind.Pin? && es[id].kind.task == task
    ensures var t := es[id := es[id].(kind := Pin(task, at))];
            OneEach(t) && ValidIntervals(t)
  {
    var t := es[id := es[id].(kind := Pin(task, at))];
    forall a, b | LiveEntry(t, a) && LiveEntry(t, b) && SamePin(t[a], t[b]) ensures a == b {
      assert SamePin(es[a], es[b]);
    }
    forall a, b | LiveEntry(t, a) && LiveEntry(t, b) && SameException(t[a], t[b]) ensures a == b {
      assert SameException(es[a], es[b]);
    }
  }

  lemma ExceptionEdited(es: Entries, id: int, series: int, start: int, duration: int)
    requires OneEach(es) && ValidIntervals(es) && LiveEntry(es, id) && es[id].kind.Override? && es[id].kind.series == series
    ensures var t := es[id := es[id].(kind := Override(series, start, duration))];
            OneEach(t) && ValidIntervals(t)
  {
    var t := es[id := es[id].(kind := Override(series, start, duration))];
    forall a, b | LiveEntry(t, a) && LiveEntry(t, b) && SamePin(t[a], t[b]) ensures a == b {
      assert SamePin(es[a], es[b]);
    }
    forall a, b | LiveEntry(t, a) && LiveEntry(t, b) && SameException(t[a], t[b]) ensures a == b {
      assert SameException(es[a], es[b]);
    }
  }

  /** A new entry keeps the plan sound when its slot is free. */
  lemma EntryAdded(es: Entries, id: int, e: Entry)
    requires OneEach(es) && ValidIntervals(es) && id !in es && !e.kind.Repeating?
    requires e.kind.Pin? ==> LivePins(es, e.day, e.kind.task) == {}
    requires IsException(e) ==> LiveExceptions(es, e.kind.series, e.day) == {}
    ensures OneEach(es[id := e]) && ValidIntervals(es[id := e])
  {
    var t := es[id := e];
    NobodyLike(es, e);
    forall a, b | LiveEntry(t, a) && LiveEntry(t, b) && SamePin(t[a], t[b]) ensures a == b {
      if a != id && b != id { assert SamePin(es[a], es[b]); }
    }
    forall a, b | LiveEntry(t, a) && LiveEntry(t, b) && SameException(t[a], t[b]) ensures a == b {
      if a != id && b != id { assert SameException(es[a], es[b]); }
    }
  }

  lemma NobodyLike(es: Entries, e: Entry)
    requires e.kind.Pin? ==> LivePins(es, e.day, e.kind.task) == {}
    requires IsException(e) ==> LiveExceptions(es, e.kind.series, e.day) == {}
    ensures forall x :: LiveEntry(es, x) ==>
              !SamePin(es[x], e) && !SamePin(e, es[x]) && !SameException(es[x], e) && !SameException(e, es[x])
  {
    forall x | LiveEntry(es, x)
      ensures !SamePin(es[x], e) && !SamePin(e, es[x]) && !SameException(es[x], e) && !SameException(e, es[x])
    {
      if e.kind.Pin? { assert x !in LivePins(es, e.day, e.kind.task); }
      if IsException(e) { assert x !in LiveExceptions(es, e.kind.series, e.day); }
    }
  }

  /** The guard of a restore is exact: it refuses exactly what would double up. */
  lemma RestoreExact(es: Entries, id: int)
    requires OneEach(es) && ValidIntervals(es) && id in es && es[id].deleted
    ensures var t := es[id := es[id].(deleted := false)];
            && ValidIntervals(t)
            && (OneEach(t) <==> (es[id].kind.Pin? ==> LivePins(es, es[id].day, es[id].kind.task) == {})
                                && (IsException(es[id]) ==> LiveExceptions(es, es[id].kind.series, es[id].day) == {}))
  {
    var t := es[id := es[id].(deleted := false)];
    var e := es[id];
    if e.kind.Pin? && LivePins(es, e.day, e.kind.task) != {} {
      var x := Any(LivePins(es, e.day, e.kind.task));
      assert LiveEntry(t, x) && LiveEntry(t, id) && SamePin(t[x], t[id]);
    } else if IsException(e) && LiveExceptions(es, e.kind.series, e.day) != {} {
      var x := Any(LiveExceptions(es, e.kind.series, e.day));
      assert LiveEntry(t, x) && LiveEntry(t, id) && SameException(t[x], t[id]);
    } else {
      NobodyLike(es, e);
      forall a, b | LiveEntry(t, a) && LiveEntry(t, b) && SamePin(t[a], t[b]) ensures a == b {
        if a != id && b != id { assert SamePin(es[a], es[b]); }
      }
      forall a, b | LiveEntry(t, a) && LiveEntry(t, b) && SameException(t[a], t[b]) ensures a == b {
        if a != id && b != id { assert SameException(es[a], es[b]); }
      }
    }
  }

  lemma NotThere(es: Entries, day: Date, ids: seq<int>, i: nat)
    requires i < |ids| && ids[i] !in DayPins(es, day)
    ensures !(forall x :: x in ids ==> x in DayPins(es, day))
  {
    var x := ids[i];
    assert x in ids && x !in DayPins(es, day);
  }

  lemma PinsListed(es: Entries, day: Date, ids: seq<int>, pins: seq<int>)
    requires pins == InOrder(es, DayPins(es, day)) && forall j :: 0 <= j < |ids| ==> ids[j] in DayPins(es, day)
    ensures Distinct(pins) && (forall x :: x in ids ==> x in pins) && Elems(pins) == DayPins(es, day)
  {
    InOrderIs(es, DayPins(es, day));
    forall i, j | 0 <= i < j < |pins| ensures pins[i] != pins[j] {
      assert Sooner(es, pins[i], pins[j]);
    }
    forall x | x in ids ensures x in pins {
      assert x in Elems(pins);
    }
  }

  lemma OthersStay(pins: seq<int>, ids: seq<int>, ordered: seq<int>)
    requires CountIn(pins, Elems(ids)) == |ids| && ordered == Traded(pins, Elems(ids), ids)
    ensures forall i :: 0 <= i < |pins| && pins[i] !in ids ==> ordered[i] == pins[i]
  {
    forall i | 0 <= i < |pins| && pins[i] !in ids ensures ordered[i] == pins[i] {
      TradedOthers(pins, Elems(ids), ids, i);
    }
  }

  lemma RenumberedKeeps(es: Entries, order: seq<int>)
    requires OneEach(es) && ValidIntervals(es) && forall x :: x in order ==> x in es
    ensures OneEach(Renumbered(es, order)) && ValidIntervals(Renumbered(es, order))
  {
    var t := Renumbered(es, order);
    hide IndexIn;
    forall a, b | LiveEntry(t, a) && LiveEntry(t, b) && SamePin(t[a], t[b]) ensures a == b {
      assert SamePin(es[a], es[b]);
    }
    forall a, b | LiveEntry(t, a) && LiveEntry(t, b) && SameException(t[a], t[b]) ensures a == b {
      assert SameException(es[a], es[b]);
    }
  }
}
