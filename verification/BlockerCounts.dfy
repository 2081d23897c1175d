/**
 How many unfinished tasks wait, directly or not, on each top-level blocker
 (backend/app/services/task_dependencies.py, `top_level_blocker_counts`).
 */
module BlockerCounts {
  import opened Common
  import opened Store
  import opened DependencyWalks
  import Graph

  /** `effective_statuses` has an entry for live rows only. */
  predicate Unfinished(s: State, done: Oracle, x: int) {
    Live(s, x) && !done(s, x)
  }

  /** Blocker to dependent, over active edges between unfinished tasks. */
  function OpenArrows(s: State, done: Oracle): Graph.Arrows {
    set e | e in s.edges && !e.deleted && Unfinished(s, done, e.blocker) && Unfinished(s, done, e.task) :: (e.blocker, e.task)
  }

  /** `y` waits on `t`, through unfinished tasks only. */
  ghost predicate Waits(g: Graph.Arrows, t: int, y: int) {
    exists z :: (t, z) in g && Graph.Reaches(g, z, y)
  }

  /** Everything waiting on `t` through unfinished tasks only. */
  ghost function Downstream(g: Graph.Arrows, t: int): set<int> {
    set a | a in g && Waits(g, t, a.1) :: a.1
  }

  lemma DownstreamHas(g: Graph.Arrows, t: int, y: int)
    ensures y in Downstream(g, t) <==> Waits(g, t, y)
  {
    if Waits(g, t, y) {
      var z :| (t, z) in g && Graph.Reaches(g, z, y);
      var k: nat :| Graph.Path(g, z, k, y);
      var targets := set a | a in g :: a.1;
      assert (t, z).1 in targets;
      assert Graph.Closed(g, targets);
      Graph.StaysInside(g, targets, z, k, y);
      var a :| a in g && a.1 == y;
    }
  }

  /** An unfinished task that waits on nothing unfinished and that something unfinished waits on. */
  ghost predicate TopLevel(s: State, done: Oracle, t: int) {
    && Unfinished(s, done, t)
    && !Blocked(s, done, t)
    && (exists d :: (t, d) in OpenArrows(s, done))
  }

  predicate Blocked(s: State, done: Oracle, t: int) {
    exists b :: b in Next(s.edges, false, t) && Unfinished(s, done, b)
  }

  /** The unfinished ones of a list of dependents. */
  function Open(s: State, done: Oracle, ids: seq<int>): set<int> {
    set d | d in ids && Unfinished(s, done, d)
  }

  lemma OpenHas(s: State, done: Oracle, b: int, d: int)
    ensures (b, d) in OpenArrows(s, done)
            <==> Unfinished(s, done, b) && d in Open(s, done, Next(s.edges, true, b))
  {
    hide Unfinished;
    if (b, d) in OpenArrows(s, done) {
      var e :| e in s.edges && !e.deleted && Unfinished(s, done, e.blocker) && Unfinished(s, done, e.task)
               && (e.blocker, e.task) == (b, d);
      assert (From(e, true), To(e, true)) in Arrows(s.edges, true);
    }
    if d in Open(s, done, Next(s.edges, true, b)) {
      assert (b, d) in Arrows(s.edges, true);
      var e :| e in s.edges && !e.deleted && (From(e, true), To(e, true)) == (b, d);
    }
  }

  /** The lists of unfinished dependents, one key per unfinished blocker that has any. */
  ghost predicate Listing(s: State, done: Oracle, dependents: map<int, set<int>>, known: set<int>) {
    && (forall b :: b in dependents ==> forall d :: d in dependents[b] <==> (b, d) in OpenArrows(s, done))
    && (forall b :: b in dependents ==> dependents[b] != {})
    && (forall b, d :: b in known && (b, d) in OpenArrows(s, done) ==> b in dependents)
  }

  method OpenDependents(db: Database, done: Oracle, downstream: map<int, seq<int>>) returns (dependents: map<int, set<int>>)
    requires forall b :: b in downstream ==> downstream[b] == Next(db.edges, true, b)
    ensures Listing(db.View(), done, dependents, downstream.Keys)
  {
    dependents := map[];
    var keys := Sorted(downstream.Keys);
    hide Unfinished, OpenArrows, Next, Open, Sorted;
    for i := 0 to |keys|
      invariant Listing(db.View(), done, dependents, Elems(keys[..i]))
    {
      var b := keys[i];
      assert keys[..i + 1] == keys[..i] + [b];
      assert b in downstream.Keys;
      var open := Open(db.View(), done, downstream[b]);
      forall d ensures (b, d) in OpenArrows(db.View(), done) <==> Unfinished(db.View(), done, b) && d in open {
        OpenHas(db.View(), done, b, d);
      }
      if Unfinished(db.View(), done, b) && open != {} {
        dependents := dependents[b := open];
      }
    }
    assert keys[..|keys|] == keys;
  }

  // ---- one task's count ------------------------------------------------------------------

  ghost predicate Counting(g: Graph.Arrows, t: int, seen: set<int>, stack: seq<int>) {
    && (forall x :: x in seen || x in stack ==> x in Downstream(g, t))
    && (forall z :: (t, z) in g ==> z in seen || z in stack)
    && (forall x, y :: x in seen && (x, y) in g ==> y in seen || y in stack)
  }

  /** The lists are the arrows, as far as `t` can reach along them. */
  ghost predicate ListsFor(dependents: map<int, set<int>>, g: Graph.Arrows, t: int) {
    && (forall b, d :: b in dependents ==> (d in dependents[b] <==> (b, d) in g))
    && (forall b, d :: (b, d) in g && b in Downstream(g, t) ==> b in dependents)
  }

  /** The stack walk: what it has seen in the end is everything waiting on `t`. */
  method CountFrom(dependents: map<int, set<int>>, ghost g: Graph.Arrows, t: int) returns (count: nat)
    requires t in dependents && ListsFor(dependents, g, t)
    ensures count == |Downstream(g, t)|
  {
    hide *;
    var seen: set<int> := {};
    var stack := Sorted(dependents[t]);
    CountBegins(dependents, g, t);
    while stack != []
      invariant Counting(g, t, seen, stack)
      decreases |Downstream(g, t) - seen|, |stack|
    {
      var current := stack[|stack| - 1];
      assert stack == stack[..|stack| - 1] + [current];
      stack := stack[..|stack| - 1];
      if current in seen { CountSkips(g, t, seen, stack, current); } else {
        var more := if current in dependents then Sorted(dependents[current]) else [];
        MoreOf(dependents, g, t, seen, stack, current);
        CountGoesOn(g, t, seen, stack, current, more);
        seen := seen + {current};
        stack := stack + more;
      }
    }
    CountEnds(g, t, seen);
    count := |seen|;
  }

  lemma MoreOf(dependents: map<int, set<int>>, g: Graph.Arrows, t: int, seen: set<int>, rest: seq<int>, current: int)
    requires ListsFor(dependents, g, t) && Counting(g, t, seen, rest + [current])
    ensures forall d :: d in (if current in dependents then Sorted(dependents[current]) else []) <==> (current, d) in g
  {
    hide Downstream;
    assert current in rest + [current];
  }

  lemma CountBegins(dependents: map<int, set<int>>, g: Graph.Arrows, t: int)
    requires t in dependents && ListsFor(dependents, g, t)
    ensures Counting(g, t, {}, Sorted(dependents[t]))
  {
    hide Downstream;
    var stack := Sorted(dependents[t]);
    forall x | x in stack ensures x in Downstream(g, t) {
      Graph.ReachesSelf(g, x);
      DownstreamHas(g, t, x);
    }
  }

  lemma CountSkips(g: Graph.Arrows, t: int, seen: set<int>, rest: seq<int>, current: int)
    requires Counting(g, t, seen, rest + [current]) && current in seen
    ensures Counting(g, t, seen, rest)
  {
    hide Downstream;
    assert forall x :: x in rest + [current] <==> x in rest || x == current;
  }

  lemma CountGoesOn(g: Graph.Arrows, t: int, seen: set<int>, rest: seq<int>, current: int, more: seq<int>)
    requires Counting(g, t, seen, rest + [current]) && current !in seen
    requires forall d :: d in more <==> (current, d) in g
    ensures Counting(g, t, seen + {current}, rest + more)
    ensures |Downstream(g, t) - (seen + {current})| < |Downstream(g, t) - seen|
  {
    hide Downstream;
    var before := rest + [current];
    assert forall x :: x in before <==> x in rest || x == current;
    assert forall x :: x in rest + more <==> x in rest || x in more;
    assert current in before;
    forall y | y in more ensures y in Downstream(g, t) {
      DownstreamStep(g, t, current, y);
    }
    var all := Downstream(g, t);
    assert current in all - seen && current !in all - (seen + {current});
    SubsetSize(all - (seen + {current}), all - seen);
  }

  lemma DownstreamStep(g: Graph.Arrows, t: int, x: int, y: int)
    requires x in Downstream(g, t) && (x, y) in g
    ensures y in Downstream(g, t)
  {
    DownstreamHas(g, t, x);
    DownstreamHas(g, t, y);
    var z :| (t, z) in g && Graph.Reaches(g, z, x);
    Graph.ReachesArrow(g, z, x, y);
  }

  lemma CountEnds(g: Graph.Arrows, t: int, seen: set<int>)
    requires Counting(g, t, seen, [])
    ensures seen == Downstream(g, t)
  {
    SeenIsClosed(g, t, seen);
    hide Graph.Closed, Downstream;
    forall y | y in Downstream(g, t) ensures y in seen {
      DownstreamHas(g, t, y);
      var z :| (t, z) in g && Graph.Reaches(g, z, y);
      var k: nat :| Graph.Path(g, z, k, y);
      Graph.StaysInside(g, seen, z, k, y);
    }
    forall y | y in seen ensures y in Downstream(g, t) {
    }
  }

  lemma SeenIsClosed(g: Graph.Arrows, t: int, seen: set<int>)
    requires Counting(g, t, seen, [])
    ensures Graph.Closed(g, seen)
  {
    hide Downstream;
    forall x, y | (x, y) in g && x in seen ensures y in seen {
    }
    forall a | a in g && a.0 in seen ensures a.1 in seen {
      assert (a.0, a.1) in g;
    }
  }

  // ---- the counts --------------------------------------------------------------------------

  /** The counts of the requested tasks looked at so far. */
  ghost predicate CountsOf(s: State, done: Oracle, looked: set<int>, counts: map<int, nat>) {
    && (forall t :: t in counts <==> t in looked && TopLevel(s, done, t))
    && (forall t :: t in counts ==> counts[t] == |Downstream(OpenArrows(s, done), t)|)
  }

  /** Whatever waits on a requested task through unfinished tasks was walked by the closure. */
  lemma WalkedEnough(s: State, done: Oracle, requested: set<int>, t: int, b: int)
    requires t in requested && b in Downstream(OpenArrows(s, done), t)
    ensures Reachable(Arrows(s.edges, true), requested, b)
  {
    var g, h := OpenArrows(s, done), Arrows(s.edges, true);
    DownstreamHas(g, t, b);
    var z :| (t, z) in g && Graph.Reaches(g, z, b);
    var k: nat :| Graph.Path(g, z, k, b);
    forall a | a in g ensures a in h {
      var e :| e in s.edges && !e.deleted && (e.blocker, e.task) == a;
      assert (From(e, true), To(e, true)) in h;
    }
    hide OpenArrows, Arrows;
    Graph.MoreArrows(g, h, z, k, b);
    assert Graph.Path(h, t, k + 1, b);
    assert Graph.Reaches(h, t, b);
  }

  /** What the counting loop starts from. */
  ghost predicate Prepared(s: State, done: Oracle, requested: set<int>, blocked: set<int>, dependents: map<int, set<int>>) {
    && (forall t :: t in blocked <==> t in requested && Unfinished(s, done, t) && Blocked(s, done, t))
    && (forall t :: t in requested ==> ListsFor(dependents, OpenArrows(s, done), t))
    && (forall t :: t in requested && t !in blocked && t in dependents ==> TopLevel(s, done, t))
    && (forall t :: t in requested && TopLevel(s, done, t) ==> t !in blocked && t in dependents)
  }

  /**
   `top_level_blocker_counts`: an entry for exactly the requested top-level blockers, counting
   everything that waits on each through unfinished tasks only.
   */
  method TopLevelBlockerCounts(db: Database, requested: set<int>, done: Oracle) returns (counts: map<int, nat>)
    ensures CountsOf(db.View(), done, requested, counts)
  {
    hide *;
    ghost var s := db.View();
    db.Fields();
    var downstream := Closure(db, requested, true);
    var upstream := map t | t in requested :: Next(db.edges, false, t);
    WalkedFrom(s, done, requested, downstream);
    if (forall b :: b in downstream ==> downstream[b] == []) && (forall t :: t in upstream ==> upstream[t] == []) {
      return map[];
    }
    var dependents := OpenDependents(db, done, downstream);
    var blocked := set t | t in requested && Unfinished(db.View(), done, t)
                           && exists b :: b in upstream[t] && Unfinished(db.View(), done, b);
    BlockedAre(s, done, requested, upstream, blocked);
    GetReady(s, done, requested, downstream.Keys, blocked, dependents);
    counts := CountEach(db, requested, done, blocked, dependents);
  }

  lemma BlockedAre(s: State, done: Oracle, requested: set<int>, upstream: map<int, seq<int>>, blocked: set<int>)
    requires upstream == map t | t in requested :: Next(s.edges, false, t)
    requires blocked == set t | t in requested && Unfinished(s, done, t) && exists b :: b in upstream[t] && Unfinished(s, done, b)
    ensures forall t :: t in blocked <==> t in requested && Unfinished(s, done, t) && Blocked(s, done, t)
  {
    hide Unfinished, Next;
  }

  method CountEach(db: Database, requested: set<int>, done: Oracle, blocked: set<int>, dependents: map<int, set<int>>)
    returns (counts: map<int, nat>)
    requires Prepared(db.View(), done, requested, blocked, dependents)
    ensures CountsOf(db.View(), done, requested, counts)
  {
    hide *;
    ghost var s := db.View();
    counts := map[];
    var order := Sorted(requested);
    CountsBegin(s, done, order);
    for i := 0 to |order|
      invariant CountsOf(s, done, Elems(order[..i]), counts)
    {
      var t := order[i];
      CountsStep(s, done, order, i, counts);
      ReadyFor(s, done, requested, blocked, dependents, t);
      if t !in blocked && t in dependents {
        var n := CountFrom(dependents, OpenArrows(s, done), t);
        counts := counts[t := n];
      }
    }
    assert order[..|order|] == order;
  }

  lemma ReadyFor(s: State, done: Oracle, requested: set<int>, blocked: set<int>, dependents: map<int, set<int>>, t: int)
    requires Prepared(s, done, requested, blocked, dependents) && t in requested
    ensures ListsFor(dependents, OpenArrows(s, done), t)
    ensures t !in blocked && t in dependents <==> TopLevel(s, done, t)
  {
    hide ListsFor, TopLevel, Unfinished, Blocked;
  }

  /** The walk covers what will be counted; if it found nothing at all, there is nothing to count. */
  lemma WalkedFrom(s: State, done: Oracle, requested: set<int>, downstream: map<int, seq<int>>)
    requires forall x :: x in downstream <==> Reachable(Arrows(s.edges, true), requested, x)
    requires forall x :: x in downstream ==> downstream[x] == Next(s.edges, true, x)
    ensures requested <= downstream.Keys
    ensures forall t, b :: t in requested && b in Downstream(OpenArrows(s, done), t) ==> b in downstream.Keys
    ensures (forall b :: b in downstream ==> downstream[b] == []) ==> CountsOf(s, done, requested, map[])
  {
    hide Next;
    forall t | t in requested ensures t in downstream.Keys {
      Graph.ReachesSelf(Arrows(s.edges, true), t);
    }
    forall t, b | t in requested && b in Downstream(OpenArrows(s, done), t) ensures b in downstream.Keys {
      WalkedEnough(s, done, requested, t, b);
    }
    hide Reachable, Arrows, Downstream;
    if forall b :: b in downstream ==> downstream[b] == [] {
      forall t | t in requested ensures !TopLevel(s, done, t) {
        assert t in downstream.Keys;
        forall d ensures (t, d) !in OpenArrows(s, done) {
          OpenHas(s, done, t, d);
        }
      }
    }
  }

  lemma CountsBegin(s: State, done: Oracle, order: seq<int>)
    ensures CountsOf(s, done, Elems(order[..0]), map[])
  {
  }

  lemma GetReady(s: State, done: Oracle, requested: set<int>, known: set<int>, blocked: set<int>, dependents: map<int, set<int>>)
    requires Listing(s, done, dependents, known) && requested <= known
    requires forall t, b :: t in requested && b in Downstream(OpenArrows(s, done), t) ==> b in known
    requires forall t :: t in blocked <==> t in requested && Unfinished(s, done, t) && Blocked(s, done, t)
    ensures Prepared(s, done, requested, blocked, dependents)
  {
    hide Downstream, Blocked, OpenArrows, Unfinished;
    forall t | t in requested ensures ListsFor(dependents, OpenArrows(s, done), t) {
    }
    forall t | t in requested && t !in blocked && t in dependents ensures TopLevel(s, done, t) {
      var d := Any(dependents[t]);
      assert (t, d) in OpenArrows(s, done);
      OpenHas(s, done, t, d);
    }
    forall t | t in requested && TopLevel(s, done, t) ensures t !in blocked && t in dependents {
      var d :| (t, d) in OpenArrows(s, done);
      assert t in known;
    }
  }

  lemma CountsStep(s: State, done: Oracle, order: seq<int>, i: nat, counts: map<int, nat>)
    requires i < |order| && CountsOf(s, done, Elems(order[..i]), counts)
    ensures var t := order[i];
            && (TopLevel(s, done, t) ==>
                  CountsOf(s, done, Elems(order[..i + 1]), counts[t := |Downstream(OpenArrows(s, done), t)|]))
            && (!TopLevel(s, done, t) ==> CountsOf(s, done, Elems(order[..i + 1]), counts))
  {
    hide TopLevel, Downstream, OpenArrows;
    assert order[..i + 1] == order[..i] + [order[i]];
  }

  // ---- what the counts mean ----------------------------------------------------------------

  /** An active edge makes `x` wait for `b`, and neither is done or in the trash. */
  ghost predicate WaitsFor(s: State, done: Oracle, x: int, b: int) {
    && (exists e :: e in s.edges && !e.deleted && e.task == x && e.blocker == b)
    && x in s.tasks && !s.tasks[x].deleted && !done(s, x) && b in s.tasks && !s.tasks[b].deleted && !done(s, b)
  }

  /** `x` waits for `t` over `k` such edges. */
  ghost predicate WaitsOver(s: State, done: Oracle, x: int, k: nat, t: int)
    decreases k
  {
    if k == 0 then x == t else exists b :: WaitsFor(s, done, x, b) && WaitsOver(s, done, b, k - 1, t)
  }

  lemma ArrowIs(s: State, done: Oracle, x: int, b: int)
    ensures (b, x) in OpenArrows(s, done) <==> WaitsFor(s, done, x, b)
  {
    if WaitsFor(s, done, x, b) {
      var e :| e in s.edges && !e.deleted && e.task == x && e.blocker == b;
      assert (e.blocker, e.task) == (b, x);
    }
  }

  lemma {:induction false} PathIs(s: State, done: Oracle, x: int, k: nat, t: int)
    ensures Graph.Path(OpenArrows(s, done), t, k, x) <==> WaitsOver(s, done, x, k, t)
    decreases k
  {
    var g := OpenArrows(s, done);
    hide OpenArrows, WaitsFor;
    if k > 0 {
      if Graph.Path(g, t, k, x) {
        var b := Graph.LastArrow(g, t, k, x);
        PathIs(s, done, b, k - 1, t);
        ArrowIs(s, done, x, b);
      }
      if WaitsOver(s, done, x, k, t) {
        var b :| WaitsFor(s, done, x, b) && WaitsOver(s, done, b, k - 1, t);
        PathIs(s, done, b, k - 1, t);
        ArrowIs(s, done, x, b);
        assert Graph.Path(g, x, 0, x);
        assert Graph.Path(g, b, 1, x);
        Graph.PathJoin(g, t, k - 1, b, 1, x);
      }
    }
  }

  /**
   A blocker is top-level when it is unfinished, an unfinished task waits for it and it waits for none
   itself; what is counted for it is every task that waits for it over one edge or more.
   */
  lemma CountsMean(s: State, done: Oracle, t: int, x: int)
    ensures TopLevel(s, done, t) <==> (exists d :: WaitsFor(s, done, d, t)) && forall b :: !WaitsFor(s, done, t, b)
    ensures x in Downstream(OpenArrows(s, done), t) <==> exists k: nat :: k > 0 && WaitsOver(s, done, x, k, t)
  {
    TopLevelIs(s, done, t);
    var g := OpenArrows(s, done);
    DownstreamHas(g, t, x);
    hide OpenArrows, Downstream, WaitsFor, TopLevel;
    if Waits(g, t, x) {
      var z :| (t, z) in g && Graph.Reaches(g, z, x);
      var k: nat :| Graph.Path(g, z, k, x);
      assert Graph.Path(g, t, k + 1, x);
      PathIs(s, done, x, k + 1, t);
    }
    if k: nat :| k > 0 && WaitsOver(s, done, x, k, t) {
      PathIs(s, done, x, k, t);
      var z :| (t, z) in g && Graph.Path(g, z, k - 1, x);
      assert Graph.Reaches(g, z, x);
    }
  }

  lemma TopLevelIs(s: State, done: Oracle, t: int)
    ensures TopLevel(s, done, t) <==> (exists d :: WaitsFor(s, done, d, t)) && forall b :: !WaitsFor(s, done, t, b)
  {
    forall d ensures (t, d) in OpenArrows(s, done) <==> WaitsFor(s, done, d, t) { ArrowIs(s, done, d, t); }
    forall b ensures b in Next(s.edges, false, t) <==> exists e :: e in s.edges && !e.deleted && e.task == t && e.blocker == b {
      NextIs(s.edges, t, b);
    }
    hide OpenArrows, Next;
    if Unfinished(s, done, t) && Blocked(s, done, t) {
      var b :| b in Next(s.edges, false, t) && Unfinished(s, done, b);
      assert WaitsFor(s, done, t, b);
    }
    if d :| WaitsFor(s, done, d, t) { assert (t, d) in OpenArrows(s, done); }
  }

  lemma NextIs(edges: seq<Edge>, t: int, b: int)
    ensures b in Next(edges, false, t) <==> exists e :: e in edges && !e.deleted && e.task == t && e.blocker == b
  {
    hide Next;
    if e :| e in edges && !e.deleted && e.task == t && e.blocker == b { assert (From(e, false), To(e, false)) == (t, b); }
  }
}
