/**
 The stored day plan: pins, commitments, one-day exceptions, and the order of a day's pins
 (backend/app/services/focus_plan.py).
 */
module FocusEntries {
  import opened Common
  import Calendar

  type Date = Calendar.Date

  /** What an entry is; the shapes `ck_focus_plan_entries_kind` admits. */
  datatype Kind =
    | Pin(task: int, at: Option<int>)
    | Commitment(start: int, duration: int)
    | Repeating(start: int, duration: int, interval: Calendar.Interval, days: set<int>, stop: Option<Date>)
    | Skip(series: int)
    | Override(series: int, start: int, duration: int)

  datatype Entry = Entry(day: Date, kind: Kind, position: int, deleted: bool)

  datatype Error = Unpinnable | NotAnOccurrence | AlreadyEdited | AlreadyPinned | AlreadyException | TaskInTrash
                 | NothingToReorder | RepeatedEntry | NotOfTheDay | HasNoOrder | NotASeries | StopsTooEarly

  type Entries = map<int, Entry>

  predicate LiveEntry(es: Entries, id: int) {
    id in es && !es[id].deleted
  }

  predicate IsPin(e: Entry) {
    e.kind.Pin?
  }

  /** A skip or a one-day edit of a series. */
  predicate IsException(e: Entry) {
    e.kind.Skip? || e.kind.Override?
  }

  /** Both unique indexes: one live pin per day and task, one live exception per day and series. */
  ghost predicate OneEach(es: Entries) {
    && (forall a, b :: LiveEntry(es, a) && LiveEntry(es, b) && SamePin(es[a], es[b]) ==> a == b)
    && (forall a, b :: LiveEntry(es, a) && LiveEntry(es, b) && SameException(es[a], es[b]) ==> a == b)
  }

  predicate SamePin(a: Entry, b: Entry) {
    IsPin(a) && IsPin(b) && a.day == b.day && a.kind.task == b.kind.task
  }

  predicate SameException(a: Entry, b: Entry) {
    IsException(a) && IsException(b) && a.day == b.day && a.kind.series == b.kind.series
  }

  /** `_live_pin`. */
  function LivePins(es: Entries, day: Date, task: int): set<int> {
    set x | x in es && !es[x].deleted && es[x].day == day && es[x].kind.Pin? && es[x].kind.task == task
  }

  /** `_live_exception`. */
  function LiveExceptions(es: Entries, series: int, day: Date): set<int> {
    set x | x in es && !es[x].deleted && es[x].day == day && IsException(es[x]) && es[x].kind.series == series
  }

  function Positions(es: Entries, day: Date): set<int> {
    set x | x in es && !es[x].deleted && es[x].day == day :: es[x].position
  }

  /** `_next_position`. */
  function NextPosition(es: Entries, day: Date): int {
    var taken := Positions(es, day);
    if taken == {} then 0 else Greatest(taken) + 1
  }

  // ---- the order of a day's pins -----------------------------------------------------------------

  function DayPins(es: Entries, day: Date): set<int> {
    set x | x in es && !es[x].deleted && es[x].day == day && IsPin(es[x])
  }

  predicate Sooner(es: Entries, a: int, b: int)
    requires a in es && b in es
  {
    es[a].position < es[b].position || (es[a].position == es[b].position && a < b)
  }

  lemma {:induction false} HasFirst(es: Entries, ids: set<int>)
    requires ids != {} && ids <= es.Keys
    ensures exists x :: x in ids && forall y :: y in ids && y != x ==> Sooner(es, x, y)
  {
    var x := Any(ids);
    if ids - {x} != {} {
      HasFirst(es, ids - {x});
      var z :| z in ids - {x} && forall y :: y in ids - {x} && y != z ==> Sooner(es, z, y);
      var w := if Sooner(es, x, z) then x else z;
      forall y | y in ids && y != w ensures Sooner(es, w, y) {
        if y != x { assert y in ids - {x}; }
      }
    } else {
      assert forall y :: y in ids && y != x ==> y in ids - {x};
    }
  }

  /** `ORDER BY position, id`. */
  function InOrder(es: Entries, ids: set<int>): (order: seq<int>)
    requires ids <= es.Keys
    decreases |ids|
  {
    if ids == {} then [] else
      HasFirst(es, ids);
      var x :| x in ids && forall y :: y in ids && y != x ==> Sooner(es, x, y);
      [x] + InOrder(es, ids - {x})
  }

  predicate Ordered(es: Entries, order: seq<int>) {
    && (forall i :: 0 <= i < |order| ==> order[i] in es)
    && forall i, j :: 0 <= i < j < |order| ==> order[i] in es && order[j] in es && Sooner(es, order[i], order[j])
  }

  lemma {:induction false} InOrderIs(es: Entries, ids: set<int>)
    requires ids <= es.Keys
    ensures Ordered(es, InOrder(es, ids)) && Elems(InOrder(es, ids)) == ids
    decreases |ids|
  {
    if ids != {} {
      HasFirst(es, ids);
      var order := InOrder(es, ids);
      var x := order[0];
      assert x in ids && forall y :: y in ids && y != x ==> Sooner(es, x, y);
      assert order[1..] == InOrder(es, ids - {x});
      InOrderIs(es, ids - {x});
      assert order == [x] + order[1..];
      forall i, j | 0 <= i < j < |order| ensures order[i] in es && order[j] in es && Sooner(es, order[i], order[j]) {
        assert order[j] == order[1..][j - 1] && order[j] in Elems(order[1..]);
        if i > 0 { assert order[i] == order[1..][i - 1]; }
      }
      forall y ensures y in Elems(order) <==> y in ids {
        assert y in Elems(order[1..]) <==> y in ids - {x};
      }
    }
  }

  lemma OrderTail(es: Entries, ids: set<int>, order: seq<int>)
    requires Ordered(es, order) && Elems(order) == ids && order != []
    ensures Ordered(es, order[1..]) && Elems(order[1..]) == ids - {order[0]}
  {
    var x, rest := order[0], order[1..];
    forall i, j | 0 <= i < j < |rest| ensures rest[i] in es && rest[j] in es && Sooner(es, rest[i], rest[j]) {
      assert rest[i] == order[i + 1] && rest[j] == order[j + 1];
    }
    forall y ensures y in Elems(rest) <==> y in ids - {x} {
      assert order == [x] + rest;
      assert y in Elems(order) <==> y == x || y in rest;
      assert x !in rest by { FirstOnce(es, order); }
    }
  }

  lemma FirstOnce(es: Entries, order: seq<int>)
    requires Ordered(es, order) && order != []
    ensures order[0] !in order[1..]
  {
    forall j | 0 <= j < |order[1..]| ensures order[1..][j] != order[0] {
      assert order[j + 1] == order[1..][j] && Sooner(es, order[0], order[j + 1]);
    }
  }

  /** Only one listing is in order. */
  lemma {:induction false} OrderUnique(es: Entries, ids: set<int>, order: seq<int>)
    requires ids <= es.Keys && Ordered(es, order) && Elems(order) == ids
    ensures order == InOrder(es, ids)
    decreases |ids|
  {
    if order == [] {
      assert ids == {};
    } else {
      var x := order[0];
      assert x in Elems(order);
      HasFirst(es, ids);
      var first := InOrder(es, ids)[0];
      assert first in ids && forall y :: y in ids && y != first ==> Sooner(es, first, y);
      assert first in Elems(order);
      var k :| 0 <= k < |order| && order[k] == first;
      assert k > 0 ==> Sooner(es, order[0], order[k]);
      assert x in ids && x == first;
      var rest := order[1..];
      OrderTail(es, ids, order);
      OrderUnique(es, ids - {x}, rest);
    }
  }

  // ---- reordering ---------------------------------------------------------------------------------

  function CountIn(pins: seq<int>, named: set<int>): nat {
    if pins == [] then 0 else (if pins[0] in named then 1 else 0) + CountIn(pins[1..], named)
  }

  /** The named pins trade the slots they hold; every other pin keeps its place. */
  function Traded(pins: seq<int>, named: set<int>, queue: seq<int>): (r: seq<int>)
    requires CountIn(pins, named) == |queue|
    ensures |r| == |pins|
  {
    if pins == [] then []
    else if pins[0] in named then [queue[0]] + Traded(pins[1..], named, queue[1..])
    else [pins[0]] + Traded(pins[1..], named, queue)
  }

  function Named(pins: seq<int>, named: set<int>): seq<int> {
    if pins == [] then [] else (if pins[0] in named then [pins[0]] else []) + Named(pins[1..], named)
  }

  lemma {:induction false} NamedHas(pins: seq<int>, named: set<int>)
    ensures forall x :: x in Named(pins, named) <==> x in pins && x in named
    ensures |Named(pins, named)| == CountIn(pins, named)
    ensures Distinct(pins) ==> Distinct(Named(pins, named))
    decreases |pins|
  {
    if pins != [] {
      NamedHas(pins[1..], named);
      assert pins == [pins[0]] + pins[1..];
      if Distinct(pins) {
        assert Distinct(pins[1..]);
        forall i | 0 <= i < |pins[1..]| ensures pins[1..][i] != pins[0] {
          assert pins[i + 1] != pins[0];
        }
      }
    }
  }

  /** As many named pins on the day as ids named: none is missing. */
  lemma CountNamed(pins: seq<int>, ids: seq<int>)
    requires Distinct(pins) && Distinct(ids) && forall x :: x in ids ==> x in pins
    ensures CountIn(pins, Elems(ids)) == |ids|
  {
    NamedHas(pins, Elems(ids));
    var kept := Named(pins, Elems(ids));
    forall x ensures x in kept <==> x in ids {
    }
    DistinctSize(kept);
    DistinctSize(ids);
    assert Elems(kept) == Elems(ids);
  }

  lemma {:induction false} DistinctSize(s: seq<int>)
    requires Distinct(s)
    ensures |Elems(s)| == |s|
    decreases |s|
  {
    if s != [] {
      assert Distinct(s[1..]);
      DistinctSize(s[1..]);
      assert s == [s[0]] + s[1..];
      assert Elems(s) == {s[0]} + Elems(s[1..]);
      forall k | 0 <= k < |s[1..]| ensures s[1..][k] != s[0] {
        assert s[1..][k] == s[k + 1];
      }
      assert s[0] !in Elems(s[1..]);
    }
  }

  lemma TradedHead(pins: seq<int>, named: set<int>, queue: seq<int>)
    requires CountIn(pins, named) == |queue| && pins != []
    ensures var all := Traded(pins, named, queue);
            if pins[0] in named then
              queue != [] && CountIn(pins[1..], named) == |queue[1..]| && all == [queue[0]] + Traded(pins[1..], named, queue[1..])
            else CountIn(pins[1..], named) == |queue| && all == [pins[0]] + Traded(pins[1..], named, queue)
  {
  }

  lemma NamedHead(x: int, rest: seq<int>, named: set<int>)
    ensures Named([x] + rest, named) == (if x in named then [x] else []) + Named(rest, named)
  {
    assert ([x] + rest)[1..] == rest;
  }

  /** The named pins come out in the asked order, */
  lemma {:induction false} TradedNamed(pins: seq<int>, named: set<int>, queue: seq<int>)
    requires CountIn(pins, named) == |queue| && forall x :: x in queue ==> x in named
    ensures Named(Traded(pins, named, queue), named) == queue
    decreases |pins|
  {
    if pins != [] {
      TradedHead(pins, named, queue);
      hide Traded, Named, CountIn;
      if pins[0] in named {
        TradedNamed(pins[1..], named, queue[1..]);
        NamedHead(queue[0], Traded(pins[1..], named, queue[1..]), named);
        assert queue[0] in queue && queue == [queue[0]] + queue[1..];
      } else {
        TradedNamed(pins[1..], named, queue);
        NamedHead(pins[0], Traded(pins[1..], named, queue), named);
        assert [] + queue == queue;
      }
    }
  }

  /** every other pin keeps its place, */
  lemma {:induction false} TradedOthers(pins: seq<int>, named: set<int>, queue: seq<int>, i: nat)
    requires CountIn(pins, named) == |queue| && i < |pins| && pins[i] !in named
    ensures Traded(pins, named, queue)[i] == pins[i]
    decreases |pins|
  {
    TradedHead(pins, named, queue);
    if i > 0 { TradedOthers(pins[1..], named, if pins[0] in named then queue[1..] else queue, i - 1); }
  }

  lemma AddBoth(x: int, y: int, r: multiset<int>, n: multiset<int>, p: multiset<int>, q: multiset<int>)
    requires r + n == p + q
    ensures (multiset{x} + r) + n == (multiset{x} + p) + q
    ensures (multiset{y} + r) + (multiset{x} + n) == (multiset{x} + p) + (multiset{y} + q)
  {
    assert (multiset{x} + r) + n == multiset{x} + (r + n);
    assert (multiset{x} + p) + q == multiset{x} + (p + q);
    assert (multiset{y} + r) + (multiset{x} + n) == multiset{x} + multiset{y} + (r + n);
    assert (multiset{x} + p) + (multiset{y} + q) == multiset{x} + multiset{y} + (p + q);
  }

  lemma BagHead(x: int, rest: seq<int>)
    ensures multiset([x] + rest) == multiset{x} + multiset(rest) && [] + rest == rest
  {
  }

  /** and none is lost or added. */
  lemma {:induction false} TradedKeeps(pins: seq<int>, named: set<int>, queue: seq<int>)
    requires CountIn(pins, named) == |queue|
    ensures multiset(Traded(pins, named, queue)) + multiset(Named(pins, named)) == multiset(pins) + multiset(queue)
    decreases |pins|
  {
    if pins != [] {
      TradedHead(pins, named, queue);
      NamedHead(pins[0], pins[1..], named);
      assert pins == [pins[0]] + pins[1..];
      hide *;
      if pins[0] in named {
        assert queue == [queue[0]] + queue[1..];
        TradedKeeps(pins[1..], named, queue[1..]);
        Traded2(pins[0], queue[0], Traded(pins[1..], named, queue[1..]), Named(pins[1..], named), pins[1..], queue[1..]);
      } else {
        assert [] + Named(pins[1..], named) == Named(pins[1..], named);
        TradedKeeps(pins[1..], named, queue);
        Traded1(pins[0], Traded(pins[1..], named, queue), Named(pins[1..], named), pins[1..], queue);
      }
    }
  }

  lemma Traded1(x: int, r: seq<int>, n: seq<int>, p: seq<int>, q: seq<int>)
    requires multiset(r) + multiset(n) == multiset(p) + multiset(q)
    ensures multiset([x] + r) + multiset(n) == multiset([x] + p) + multiset(q)
  {
    BagHead(x, r);
    BagHead(x, p);
    AddBoth(x, 0, multiset(r), multiset(n), multiset(p), multiset(q));
  }

  lemma Traded2(x: int, y: int, r: seq<int>, n: seq<int>, p: seq<int>, q: seq<int>)
    requires multiset(r) + multiset(n) == multiset(p) + multiset(q)
    ensures multiset([y] + r) + multiset([x] + n) == multiset([x] + p) + multiset([y] + q)
  {
    BagHead(y, r);
    BagHead(x, n);
    BagHead(x, p);
    BagHead(y, q);
    AddBoth(x, y, multiset(r), multiset(n), multiset(p), multiset(q));
  }

  lemma {:induction false} CountOne(s: seq<int>, x: int)
    requires Distinct(s)
    ensures multiset(s)[x] == if x in s then 1 else 0
    decreases |s|
  {
    if s != [] {
      assert Distinct(s[1..]);
      CountOne(s[1..], x);
      assert s == [s[0]] + s[1..];
      forall k | 0 <= k < |s[1..]| ensures s[1..][k] != s[0] {
        assert s[1..][k] == s[k + 1];
      }
    }
  }

  lemma SameDistinct(a: seq<int>, b: seq<int>)
    requires Distinct(a) && Distinct(b) && forall x :: x in a <==> x in b
    ensures multiset(a) == multiset(b)
  {
    forall x ensures multiset(a)[x] == multiset(b)[x] {
      CountOne(a, x);
      CountOne(b, x);
    }
  }

  lemma {:induction false} OnceEach(s: seq<int>)
    requires forall x :: multiset(s)[x] <= 1
    ensures Distinct(s)
    decreases |s|
  {
    if s != [] {
      assert s == [s[0]] + s[1..];
      assert multiset(s) == multiset{s[0]} + multiset(s[1..]);
      forall x ensures multiset(s[1..])[x] <= 1 {
        assert multiset(s)[x] <= 1;
      }
      OnceEach(s[1..]);
      assert multiset(s)[s[0]] <= 1;
      assert s[0] !in multiset(s[1..]);
      forall i, j | 0 <= i < j < |s| ensures s[i] != s[j] {
        assert s[j] == s[1..][j - 1] && s[1..][j - 1] in multiset(s[1..]);
        if i > 0 { assert s[i] == s[1..][i - 1]; }
      }
    }
  }

  /** A trade rearranges the day's pins. */
  lemma TradedRearranges(pins: seq<int>, ids: seq<int>)
    requires Distinct(pins) && Distinct(ids) && forall x :: x in ids ==> x in pins
    ensures CountIn(pins, Elems(ids)) == |ids|
    ensures var r := Traded(pins, Elems(ids), ids);
            Distinct(r) && Elems(r) == Elems(pins)
  {
    CountNamed(pins, ids);
    var r := Traded(pins, Elems(ids), ids);
    TradedKeeps(pins, Elems(ids), ids);
    NamedHas(pins, Elems(ids));
    var kept := Named(pins, Elems(ids));
    forall x ensures x in kept <==> x in ids {
    }
    SameDistinct(kept, ids);
    forall x ensures multiset(r)[x] == multiset(pins)[x] {
      assert (multiset(r) + multiset(kept))[x] == (multiset(pins) + multiset(ids))[x];
    }
    assert multiset(r) == multiset(pins);
    forall x ensures multiset(r)[x] <= 1 {
      CountOne(pins, x);
    }
    OnceEach(r);
    forall x ensures x in Elems(r) <==> x in Elems(pins) {
      assert x in r <==> x in multiset(r);
      assert x in pins <==> x in multiset(pins);
    }
  }

  /** `pin.position = index`, along the new order. */
  function Renumbered(es: Entries, order: seq<int>): Entries
    requires forall x :: x in order ==> x in es
  {
    map x | x in es :: if x in order then es[x].(position := IndexIn(order, x)) else es[x]
  }

  function IndexIn(order: seq<int>, x: int): (i: nat)
    requires x in order
    ensures i < |order| && order[i] == x
  {
    if order[0] == x then 0 else 1 + IndexIn(order[1..], x)
  }

  lemma IndexUnique(order: seq<int>, i: nat)
    requires Distinct(order) && i < |order|
    ensures order[i] in order && IndexIn(order, order[i]) == i
  {
  }

  /** Once renumbered, the day's pins list in the new order. */
  lemma RenumberedOrder(es: Entries, day: Date, order: seq<int>)
    requires Distinct(order) && Elems(order) == DayPins(es, day)
    ensures forall x :: x in order ==> x in es
    ensures var t := Renumbered(es, order);
            DayPins(t, day) == DayPins(es, day) && DayPins(t, day) <= t.Keys && InOrder(t, DayPins(t, day)) == order
  {
    forall x | x in order ensures x in DayPins(es, day) {
      assert x in Elems(order);
    }
    var t := Renumbered(es, order);
    forall x ensures x in DayPins(t, day) <==> x in DayPins(es, day) {
    }
    forall i, j | 0 <= i < j < |order| ensures order[i] in t && order[j] in t && Sooner(t, order[i], order[j]) {
      IndexUnique(order, i);
      IndexUnique(order, j);
    }
    OrderUnique(t, DayPins(t, day), order);
  }
}
