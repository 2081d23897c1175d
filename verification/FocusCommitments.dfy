/**
 Which commitments happen on a day, and which were skipped
 (backend/app/services/focus_plan.py, `day_commitments`, `day_skipped_commitments`).
 */
module FocusCommitments {
  import opened Common
  import opened FocusEntries
  import opened FocusPlan
  import Calendar

  /** A commitment as it happens: the entry, and the one-day edit that wins over it. */
  datatype Happening = Happening(entry: int, edit: Option<int>)

  predicate Valid(es: Entries) {
    forall x :: x in es && es[x].kind.Repeating? ==> Calendar.ValidInterval(es[x].kind.interval)
  }

  /** A live series with an occurrence on `day`. */
  predicate Occurs(es: Entries, day: Date, id: int)
    requires Valid(es)
  {
    LiveEntry(es, id) && es[id].kind.Repeating? && es[id].day <= day && Calendar.OccursOn(SeriesOf(es[id]), day)
  }

  predicate OneOff(es: Entries, day: Date, id: int) {
    LiveEntry(es, id) && es[id].kind.Commitment? && es[id].day == day
  }

  /** What the day shows of an entry. */
  ghost predicate HappensOn(es: Entries, day: Date, h: Happening)
    requires Valid(es)
  {
    || (OneOff(es, day, h.entry) && h.edit.None?)
    || (Occurs(es, day, h.entry)
        && if h.edit.Some? then h.edit.value in LiveExceptions(es, h.entry, day) && es[h.edit.value].kind.Override?
           else LiveExceptions(es, h.entry, day) == {})
  }

  ghost predicate SkippedOn(es: Entries, day: Date, series: int, skip: int)
    requires Valid(es)
  {
    Occurs(es, day, series) && skip in LiveExceptions(es, series, day) && es[skip].kind.Skip?
  }

  function StartOf(es: Entries, h: Happening): int {
    var shown := if h.edit.Some? then h.edit.value else h.entry;
    if shown !in es then 0 else
      match es[shown].kind
      case Commitment(start, _) => start
      case Repeating(start, _, _, _, _) => start
      case Override(_, start, _) => start
      case Pin(_, _) => 0
      case Skip(_) => 0
  }

  predicate Sooner(es: Entries, a: Happening, b: Happening) {
    StartOf(es, a) < StartOf(es, b) || (StartOf(es, a) == StartOf(es, b) && a.entry <= b.entry)
  }

  function InsertByStart(es: Entries, h: Happening, sorted: seq<Happening>): seq<Happening> {
    if sorted == [] then [h]
    else if Sooner(es, h, sorted[0]) then [h] + sorted
    else [sorted[0]] + InsertByStart(es, h, sorted[1..])
  }

  predicate InStartOrder(es: Entries, hs: seq<Happening>) {
    forall i, j :: 0 <= i < j < |hs| ==> Sooner(es, hs[i], hs[j])
  }

  lemma {:induction false} InsertKeeps(es: Entries, h: Happening, sorted: seq<Happening>)
    requires InStartOrder(es, sorted)
    ensures InStartOrder(es, InsertByStart(es, h, sorted))
    ensures forall x :: x in InsertByStart(es, h, sorted) <==> x == h || x in sorted
    decreases |sorted|
  {
    hide StartOf;
    if sorted == [] {
    } else if Sooner(es, h, sorted[0]) {
      var all := [h] + sorted;
      forall i, j | 0 <= i < j < |all| ensures Sooner(es, all[i], all[j]) {
        assert all[j] == sorted[j - 1];
        if i > 0 { assert all[i] == sorted[i - 1]; } else if j > 1 { assert Sooner(es, sorted[0], sorted[j - 1]); }
      }
    } else {
      var rest := InsertByStart(es, h, sorted[1..]);
      InsertKeeps(es, h, sorted[1..]);
      assert sorted == [sorted[0]] + sorted[1..];
      var all := [sorted[0]] + rest;
      forall i, j | 0 <= i < j < |all| ensures Sooner(es, all[i], all[j]) {
        assert all[j] == rest[j - 1];
        if i > 0 { assert all[i] == rest[i - 1]; } else {
          assert rest[j - 1] in rest;
          if rest[j - 1] != h {
            var k :| 0 <= k < |sorted[1..]| && sorted[1..][k] == rest[j - 1];
            assert sorted[k + 1] == rest[j - 1];
          }
        }
      }
    }
  }

  /** One entry of the day: what it shows, or that it was skipped. */
  method Look(es: Entries, day: Date, id: int) returns (shown: Option<Happening>, skip: Option<int>)
    requires Valid(es) && OneEach(es)
    ensures forall h :: shown == Some(h) <==> h.entry == id && HappensOn(es, day, h)
    ensures forall x :: skip == Some(x) <==> SkippedOn(es, day, id, x)
  {
    shown, skip := None, None;
    hide Calendar.OccursOn, OneEach, Valid;
    if OneOff(es, day, id) { return Some(Happening(id, None)), None; }
    if !Occurs(es, day, id) { return; }
    var live := LiveExceptions(es, id, day);
    if live == {} { return Some(Happening(id, None)), None; }
    var x := Least(live);
    OnlyException(es, id, day, x);
    hide LiveExceptions;
    if es[x].kind.Override? { shown := Some(Happening(id, Some(x))); } else { skip := Some(x); }
  }

  /** What the first entries show. */
  ghost predicate Looked(es: Entries, day: Date, ids: seq<int>, happening: seq<Happening>, skipped: set<(int, int)>)
    requires Valid(es)
  {
    && InStartOrder(es, happening)
    && (forall h :: h in happening <==> h.entry in ids && HappensOn(es, day, h))
    && (forall p :: p in skipped <==> p.0 in ids && SkippedOn(es, day, p.0, p.1))
  }

  /**
   `day_commitments` and `day_skipped_commitments`: exactly what happens and exactly what was
   skipped, what happens in start order.
   */
  method DayCommitments(plan: Plan, day: Date) returns (happening: seq<Happening>, skipped: set<(int, int)>)
    requires plan.Valid()
    ensures Valid(plan.entries) && InStartOrder(plan.entries, happening)
    ensures forall h :: h in happening <==> HappensOn(plan.entries, day, h)
    ensures forall p :: p in skipped <==> SkippedOn(plan.entries, day, p.0, p.1)
  {
    var es := plan.entries;
    assert Valid(es) && OneEach(es);
    happening, skipped := [], {};
    var ids := Sorted(es.Keys);
    hide InsertByStart, Sorted, OneEach, HappensOn, SkippedOn, Looked, Valid;
    LookedNothing(es, day);
    assert ids[..0] == [];
    for i := 0 to |ids|
      invariant Looked(es, day, ids[..i], happening, skipped)
    {
      var shown, skip := Look(es, day, ids[i]);
      LookedMore(es, day, ids, i, happening, skipped, shown, skip);
      if shown.Some? { happening := InsertByStart(es, shown.value, happening); }
      if skip.Some? { skipped := skipped + {(ids[i], skip.value)}; }
    }
    assert ids[..|ids|] == ids;
    LookedAll(es, day, ids, happening, skipped);
  }

  lemma LookedNothing(es: Entries, day: Date)
    requires Valid(es)
    ensures Looked(es, day, [], [], {})
  {
  }

  lemma LookedMore(es: Entries, day: Date, ids: seq<int>, i: nat, happening: seq<Happening>, skipped: set<(int, int)>,
                   shown: Option<Happening>, skip: Option<int>)
    requires Valid(es) && i < |ids| && Looked(es, day, ids[..i], happening, skipped)
    requires forall h :: shown == Some(h) <==> h.entry == ids[i] && HappensOn(es, day, h)
    requires forall x :: skip == Some(x) <==> SkippedOn(es, day, ids[i], x)
    ensures Looked(es, day, ids[..i + 1], if shown.Some? then InsertByStart(es, shown.value, happening) else happening,
                   if skip.Some? then skipped + {(ids[i], skip.value)} else skipped)
  {
    hide HappensOn, SkippedOn, InsertByStart, InStartOrder, Valid;
    assert ids[..i + 1] == ids[..i] + [ids[i]];
    if shown.Some? { InsertKeeps(es, shown.value, happening); }
    var more := if shown.Some? then InsertByStart(es, shown.value, happening) else happening;
    forall h ensures h in more <==> h.entry in ids[..i + 1] && HappensOn(es, day, h) {
      assert shown == Some(h) <==> h.entry == ids[i] && HappensOn(es, day, h);
    }
    var gone := if skip.Some? then skipped + {(ids[i], skip.value)} else skipped;
    forall p: (int, int) ensures p in gone <==> p.0 in ids[..i + 1] && SkippedOn(es, day, p.0, p.1) {
      assert skip == Some(p.1) <==> SkippedOn(es, day, ids[i], p.1);
    }
  }

  lemma LookedAll(es: Entries, day: Date, ids: seq<int>, happening: seq<Happening>, skipped: set<(int, int)>)
    requires Valid(es) && Looked(es, day, ids, happening, skipped) && forall x :: x in es.Keys <==> x in ids
    ensures InStartOrder(es, happening)
    ensures forall h :: h in happening <==> HappensOn(es, day, h)
    ensures forall p :: p in skipped <==> SkippedOn(es, day, p.0, p.1)
  {
    hide InStartOrder, Calendar.OccursOn;
    forall h | HappensOn(es, day, h) ensures h.entry in ids {
      assert h.entry in es.Keys;
    }
    forall p: (int, int) | SkippedOn(es, day, p.0, p.1) ensures p.0 in ids {
      assert p.0 in es.Keys;
    }
  }

  /** An occurrence of a live series is in exactly one state: as usual, edited, or skipped. */
  lemma EachOccurrenceOnce(es: Entries, day: Date, series: int)
    requires Valid(es) && OneEach(es) && Occurs(es, day, series)
    ensures var usual := HappensOn(es, day, Happening(series, None));
            var edited := exists x :: HappensOn(es, day, Happening(series, Some(x)));
            var gone := exists x :: SkippedOn(es, day, series, x);
            && (usual || edited || gone)
            && !(usual && edited) && !(usual && gone) && !(edited && gone)
  {
    var live := LiveExceptions(es, series, day);
    if live != {} {
      var x := Any(live);
      OnlyException(es, series, day, x);
      if es[x].kind.Override? { assert HappensOn(es, day, Happening(series, Some(x))); } else { assert SkippedOn(es, day, series, x); }
    }
  }

  /**
   A stop takes away exactly the occurrences from the stop date on, and lifting it brings back
   exactly those.
   */
  lemma StopTakesTheRest(es: Entries, series: int, stop: Date, day: Date)
    requires Valid(es) && LiveEntry(es, series) && es[series].kind.Repeating? && es[series].kind.stop.None?
    ensures var stopped := es[series := es[series].(kind := es[series].kind.(stop := Some(stop)))];
            && Valid(stopped)
            && (Occurs(stopped, day, series) <==> Occurs(es, day, series) && day < stop)
            && stopped[series := stopped[series].(kind := stopped[series].kind.(stop := None))] == es
  {
    hide Calendar.FromOrdinal, Calendar.DaysInMonth, Calendar.Weekday;
    var stopped := es[series := es[series].(kind := es[series].kind.(stop := Some(stop)))];
    assert stopped[series].kind.(stop := None) == es[series].kind;
    assert stopped[series := stopped[series].(kind := stopped[series].kind.(stop := None))] == es;
  }
}
