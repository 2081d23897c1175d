/**
 What a stored day shows, entry by entry: the commitments and their times, and the pins in their
 order (backend/app/services/focus_plan.py).
 */
module FocusShown {
  import opened Common
  import opened FocusEntries
  import opened FocusPlan
  import opened FocusCommitments
  import opened FocusStored
  import FocusDay
  import Calendar

  /** A live entry of that day. */
  predicate OfDay(es: Entries, x: int, day: Date) {
    x in es && !es[x].deleted && es[x].day == day
  }

  /** A live skip or one-day edit of the series on the day. */
  predicate Excepts(es: Entries, x: int, series: int, day: Date) {
    OfDay(es, x, day) && match es[x].kind
                         case Skip(of) => of == series
                         case Override(of, _, _) => of == series
                         case Pin(_, _) => false
                         case Commitment(_, _) => false
                         case Repeating(_, _, _, _, _) => false
  }

  /** A live series, begun by the day, with an occurrence on it. */
  predicate Recurs(es: Entries, x: int, day: Date)
    requires Valid(es)
  {
    && x in es && !es[x].deleted && es[x].kind.Repeating? && es[x].day <= day
    && Calendar.OccursOn(Calendar.Series(es[x].day, es[x].kind.interval, es[x].kind.days, es[x].kind.stop), day)
  }

  /**
   A day shows a one-off commitment of its own; an occurrence of a series as usual when nothing
   excepts it that day, edited when an edit of that day does, and not at all when a skip does.
   */
  lemma HappensMeans(es: Entries, day: Date, x: int, edit: int)
    requires Valid(es)
    ensures HappensOn(es, day, Happening(x, None))
            <==> (OfDay(es, x, day) && es[x].kind.Commitment?) || (Recurs(es, x, day) && forall y :: !Excepts(es, y, x, day))
    ensures HappensOn(es, day, Happening(x, Some(edit)))
            <==> Recurs(es, x, day) && Excepts(es, edit, x, day) && es[edit].kind.Override?
    ensures SkippedOn(es, day, x, edit) <==> Recurs(es, x, day) && Excepts(es, edit, x, day) && es[edit].kind.Skip?
  {
    hide Calendar.OccursOn;
    forall y ensures y in LiveExceptions(es, x, day) <==> Excepts(es, y, x, day) {
    }
    if LiveExceptions(es, x, day) != {} { assert Excepts(es, Any(LiveExceptions(es, x, day)), x, day); }
  }

  /** It shows the times of the edit when there is one, and of the entry otherwise. */
  lemma ShownTimes(es: Entries, day: Date, h: Happening)
    requires Valid(es) && HappensOn(es, day, h)
    ensures h.edit.Some? ==> var e := h.edit.value;
              e in es && es[e].kind.Override? && StartOf(es, h) == es[e].kind.start && EndOf(es, h) == es[e].kind.start + es[e].kind.duration
    ensures h.edit.None? ==>
              && h.entry in es && (es[h.entry].kind.Commitment? || es[h.entry].kind.Repeating?)
              && StartOf(es, h) == es[h.entry].kind.start && EndOf(es, h) == es[h.entry].kind.start + es[h.entry].kind.duration
  {
    hide Calendar.OccursOn;
  }

  /** The packer is given the day's pins in their listed order, each with its task and its time. */
  lemma {:induction false} PinsGiven(es: Entries, order: seq<int>, i: nat)
    requires (forall x :: x in order ==> x in es && es[x].kind.Pin?) && i < |order|
    ensures |StoredPins(es, order)| == |order| && order[i] in es && es[order[i]].kind.Pin?
    ensures StoredPins(es, order)[i].task == es[order[i]].kind.task && StoredPins(es, order)[i].start == es[order[i]].kind.at
    decreases |order|
  {
    assert order[i] in order;
    if |order| > 1 {
      if i > 0 { PinsGiven(es, order[1..], i - 1); } else { PinsGiven(es, order[1..], 0); }
    }
  }

  /** The pins of a day are its live pins, by position and then by id. */
  lemma PinsInOrder(es: Entries, day: Date)
    ensures DayPins(es, day) <= es.Keys
    ensures var order := InOrder(es, DayPins(es, day));
            && (forall x :: x in order <==> OfDay(es, x, day) && es[x].kind.Pin?)
            && forall i, j :: 0 <= i < j < |order| ==>
                 order[i] in es && order[j] in es
                 && (es[order[i]].position < es[order[j]].position
                     || (es[order[i]].position == es[order[j]].position && order[i] < order[j]))
  {
    InOrderIs(es, DayPins(es, day));
    var order := InOrder(es, DayPins(es, day));
    hide InOrder;
    forall x ensures x in order <==> OfDay(es, x, day) && es[x].kind.Pin? {
      assert x in order <==> x in Elems(order);
    }
    forall i, j | 0 <= i < j < |order|
      ensures order[i] in es && order[j] in es
      ensures es[order[i]].position < es[order[j]].position || (es[order[i]].position == es[order[j]].position && order[i] < order[j])
    {
      assert FocusEntries.Sooner(es, order[i], order[j]);
    }
  }

  /** A new pin goes behind every pin of its day, and moves none of them. */
  lemma NewPinGoesLast(es: Entries, day: Date, task: int, at: Option<int>, id: int)
    requires id !in es
    ensures var t := es[id := Entry(day, Pin(task, at), NextPosition(es, day), false)];
            && DayPins(es, day) <= es.Keys && DayPins(t, day) <= t.Keys
            && InOrder(t, DayPins(t, day)) == InOrder(es, DayPins(es, day)) + [id]
  {
    var t := es[id := Entry(day, Pin(task, at), NextPosition(es, day), false)];
    var order := InOrder(es, DayPins(es, day));
    InOrderIs(es, DayPins(es, day));
    forall x | x in DayPins(es, day) ensures es[x].position < NextPosition(es, day) {
      assert es[x].position in Positions(es, day);
    }
    hide InOrder, NextPosition;
    forall i | 0 <= i < |order| ensures order[i] in DayPins(es, day) {
      assert order[i] in Elems(order);
    }
    var more := order + [id];
    forall i, j | 0 <= i < j < |more| ensures more[i] in t && more[j] in t && FocusEntries.Sooner(t, more[i], more[j]) {
      if j < |order| { assert FocusEntries.Sooner(es, order[i], order[j]); }
    }
    forall x ensures x in Elems(more) <==> x in DayPins(t, day) {
      assert x in Elems(order) <==> x in DayPins(es, day);
    }
    OrderUnique(t, DayPins(t, day), more);
  }
}
