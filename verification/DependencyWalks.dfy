/**
 The walks over dependency edges as they run: the level-batched closure, the wait-cycle walk,
 the ancestor climb, adding an edge, and the counts of top-level blockers
 (backend/app/services/task_dependencies.py, `waits_on` in backend/app/services/tasks.py).
 */
module DependencyWalks {
  import opened Common
  import opened Store
  import TaskDependencies
  import Forest
  import Graph

  /** How many ids one `IN (...)` list binds. */
  const IN_CHUNK := 900

  // ---- queries ------------------------------------------------------------------------

  function From(e: Edge, reverse: bool): int {
    if reverse then e.blocker else e.task
  }

  function To(e: Edge, reverse: bool): int {
    if reverse then e.task else e.blocker
  }

  /** The active edges as arrows, followed forwards or backwards. */
  function Arrows(edges: seq<Edge>, reverse: bool): Graph.Arrows {
    set e | e in edges && !e.deleted :: (From(e, reverse), To(e, reverse))
  }

  /** Where the active edges from `x` lead, in edge order. */
  function Next(edges: seq<Edge>, reverse: bool, x: int): (to: seq<int>)
    ensures forall y :: y in to <==> (x, y) in Arrows(edges, reverse)
  {
    if edges == [] then [] else
      var e := edges[0];
      var rest := Next(edges[1..], reverse, x);
      ArrowsSplit(edges, reverse);
      if !e.deleted && From(e, reverse) == x then [To(e, reverse)] + rest else rest
  }

  lemma ArrowsSplit(edges: seq<Edge>, reverse: bool)
    requires edges != []
    ensures var e := edges[0];
            forall a :: a in Arrows(edges, reverse)
                        <==> a in Arrows(edges[1..], reverse) || (!e.deleted && a == (From(e, reverse), To(e, reverse)))
  {
    var first := edges[0];
    assert edges == [first] + edges[1..];
    forall a ensures a in Arrows(edges, reverse)
                     <==> a in Arrows(edges[1..], reverse) || (!first.deleted && a == (From(first, reverse), To(first, reverse)))
    {
      if a in Arrows(edges, reverse) {
        var e :| e in edges && !e.deleted && a == (From(e, reverse), To(e, reverse));
        assert e == first || e in edges[1..];
      }
      if a in Arrows(edges[1..], reverse) {
        var e :| e in edges[1..] && !e.deleted && a == (From(e, reverse), To(e, reverse));
        assert e in edges;
      }
      assert first in edges;
    }
  }

  /** `SELECT src, dst ... WHERE src IN (chunk) ORDER BY id`. */
  function Rows(edges: seq<Edge>, reverse: bool, chunk: seq<int>): (rows: seq<(int, int)>)
    ensures forall r :: r in rows ==> r.0 in chunk
  {
    if edges == [] then [] else
      var e := edges[0];
      (if !e.deleted && From(e, reverse) in chunk then [(From(e, reverse), To(e, reverse))] else [])
      + Rows(edges[1..], reverse, chunk)
  }

  function Pick(rows: seq<(int, int)>, x: int): seq<int> {
    if rows == [] then []
    else if rows[0].0 == x then [rows[0].1] + Pick(rows[1..], x)
    else Pick(rows[1..], x)
  }

  lemma {:induction false} PickConcat(a: seq<(int, int)>, b: seq<(int, int)>, x: int)
    ensures Pick(a + b, x) == Pick(a, x) + Pick(b, x)
  {
    if a == [] {
      assert a + b == b;
    } else {
      assert (a + b)[1..] == a[1..] + b;
      PickConcat(a[1..], b, x);
    }
  }

  lemma {:induction false} PickRows(edges: seq<Edge>, reverse: bool, chunk: seq<int>, x: int)
    ensures Pick(Rows(edges, reverse, chunk), x) == if x in chunk then Next(edges, reverse, x) else []
  {
    hide Arrows;
    if edges != [] {
      var e := edges[0];
      PickRows(edges[1..], reverse, chunk, x);
      var head := if !e.deleted && From(e, reverse) in chunk then [(From(e, reverse), To(e, reverse))] else [];
      PickConcat(head, Rows(edges[1..], reverse, chunk), x);
    }
  }

  // ---- the closure -----------------------------------------------------------------------

  ghost predicate Reachable(g: Graph.Arrows, seeds: set<int>, x: int) {
    exists seed :: seed in seeds && Graph.Reaches(g, seed, x)
  }

  /** Everything walked has its complete list, */
  ghost predicate Listed(edges: seq<Edge>, reverse: bool, adjacency: map<int, seq<int>>) {
    forall x :: x in adjacency ==> adjacency[x] == Next(edges, reverse, x)
  }

  /** leads to walked or waiting, */
  ghost predicate LeadsInside(edges: seq<Edge>, reverse: bool, walked: set<int>, frontier: set<int>) {
    forall x, y :: x in walked && (x, y) in Arrows(edges, reverse) ==> y in walked || y in frontier
  }

  /** and whatever is walked or waiting is reachable. */
  ghost predicate AllReached(edges: seq<Edge>, reverse: bool, seeds: set<int>, known: set<int>) {
    seeds <= known && forall x :: x in known ==> Reachable(Arrows(edges, reverse), seeds, x)
  }

  ghost predicate Walking(edges: seq<Edge>, reverse: bool, seeds: set<int>, adjacency: map<int, seq<int>>, frontier: set<int>) {
    && Listed(edges, reverse, adjacency) && LeadsInside(edges, reverse, adjacency.Keys, frontier)
    && AllReached(edges, reverse, seeds, adjacency.Keys + frontier) && adjacency.Keys !! frontier
  }

  /** Every id the walk can ever see. */
  ghost function Universe(edges: seq<Edge>, reverse: bool, seeds: set<int>): set<int> {
    seeds + set a | a in Arrows(edges, reverse) :: a.1
  }

  /** Some of these rows leads to `y`. */
  ghost predicate Named(rows: seq<(int, int)>, y: int) {
    exists j :: 0 <= j < |rows| && rows[j].1 == y
  }

  ghost predicate LedTo(edges: seq<Edge>, reverse: bool, frontier: set<int>, y: int) {
    exists x :: x in frontier && (x, y) in Arrows(edges, reverse)
  }

  /** One level is known: the frontier's nodes have their lists, the rest is as it was. */
  ghost predicate LevelDone(edges: seq<Edge>, reverse: bool, known: map<int, seq<int>>, frontier: set<int>,
                            adjacency: map<int, seq<int>>, next: set<int>) {
    && adjacency.Keys == known.Keys + frontier
    && (forall x :: x in known ==> adjacency[x] == known[x])
    && (forall x :: x in frontier ==> adjacency[x] == Next(edges, reverse, x))
    && (forall y :: y in next <==> y !in adjacency && LedTo(edges, reverse, frontier, y))
  }

  /** The same part of the way through the rows. */
  ghost predicate LevelHalf(rows: seq<(int, int)>, known: map<int, seq<int>>, frontier: set<int>,
                            adjacency: map<int, seq<int>>, next: set<int>) {
    && adjacency.Keys == known.Keys + frontier
    && (forall x :: x in known ==> adjacency[x] == known[x])
    && (forall x :: x in frontier ==> adjacency[x] == Pick(rows, x))
    && (forall y :: y in next <==> y !in adjacency && Named(rows, y))
  }

  /** One level: the frontier's lists from one query per chunk, and the ids they lead to. */
  method Level(db: Database, reverse: bool, known: map<int, seq<int>>, frontier: set<int>)
    returns (adjacency: map<int, seq<int>>, next: set<int>)
    requires forall x :: x in frontier ==> x !in known
    ensures LevelDone(db.edges, reverse, known, frontier, adjacency, next)
  {
    hide *;
    var ordered := Sorted(frontier);
    var rows := LevelRows(db, reverse, ordered);
    adjacency := known + map x | x in frontier :: [];
    next := {};
    HalfBegins(known, frontier);
    assert rows[..0] == [];
    for i := 0 to |rows|
      invariant LevelHalf(rows[..i], known, frontier, adjacency, next)
    {
      var row := rows[i];
      RowIsKnown(db.edges, reverse, frontier, rows, known, adjacency, next, i);
      HalfStep(rows, i, known, frontier, adjacency, next);
      adjacency := adjacency[row.0 := adjacency[row.0] + [row.1]];
      if row.1 !in adjacency { next := next + {row.1}; }
    }
    assert rows[..|rows|] == rows;
    LevelEnds(db.edges, reverse, frontier, rows, known, adjacency, next);
  }

  lemma HalfBegins(known: map<int, seq<int>>, frontier: set<int>)
    requires forall x :: x in frontier ==> x !in known
    ensures LevelHalf([], known, frontier, known + map x | x in frontier :: [], {})
  {
  }

  lemma RowIsKnown(edges: seq<Edge>, reverse: bool, frontier: set<int>, rows: seq<(int, int)>, known: map<int, seq<int>>,
                   adjacency: map<int, seq<int>>, next: set<int>, i: nat)
    requires LevelOf(edges, reverse, frontier, rows) && i < |rows|
    requires LevelHalf(rows[..i], known, frontier, adjacency, next)
    ensures rows[i].0 in frontier && rows[i].0 in adjacency
  {
    assert rows[i] in rows;
    assert rows[i].0 in known.Keys + frontier;
  }

  lemma HalfStep(rows: seq<(int, int)>, i: nat, known: map<int, seq<int>>, frontier: set<int>,
                 adjacency: map<int, seq<int>>, next: set<int>)
    requires i < |rows| && rows[i].0 in frontier && rows[i].0 in adjacency
    requires forall x :: x in frontier ==> x !in known
    requires LevelHalf(rows[..i], known, frontier, adjacency, next)
    ensures var row := rows[i];
            LevelHalf(rows[..i + 1], known, frontier, adjacency[row.0 := adjacency[row.0] + [row.1]],
                      if row.1 !in adjacency then next + {row.1} else next)
  {
    var row := rows[i];
    PickSnoc(rows, i);
    NamedSnoc(rows, i);
    hide Pick, Named;
    var after := adjacency[row.0 := adjacency[row.0] + [row.1]];
    assert after.Keys == adjacency.Keys;
    forall y ensures y in after <==> y in adjacency {
    }
  }

  lemma NamedSnoc(rows: seq<(int, int)>, i: nat)
    requires i < |rows|
    ensures forall y :: Named(rows[..i + 1], y) <==> Named(rows[..i], y) || rows[i].1 == y
  {
    assert rows[..i + 1] == rows[..i] + [rows[i]];
    forall y ensures Named(rows[..i + 1], y) <==> Named(rows[..i], y) || rows[i].1 == y {
      if Named(rows[..i], y) {
        var j :| 0 <= j < i && rows[..i][j].1 == y;
        assert rows[..i + 1][j].1 == y;
      }
      if rows[i].1 == y { assert rows[..i + 1][i].1 == y; }
    }
  }

  lemma PickNothing()
    ensures forall x :: Pick([], x) == []
  {
  }

  lemma PickSnoc(rows: seq<(int, int)>, i: nat)
    requires i < |rows|
    ensures forall x :: Pick(rows[..i + 1], x) == if rows[i].0 == x then Pick(rows[..i], x) + [rows[i].1] else Pick(rows[..i], x)
  {
    assert rows[..i + 1] == rows[..i] + [rows[i]];
    forall x ensures Pick(rows[..i + 1], x) == if rows[i].0 == x then Pick(rows[..i], x) + [rows[i].1] else Pick(rows[..i], x) {
      PickConcat(rows[..i], [rows[i]], x);
      assert Pick([rows[i]], x) == if rows[i].0 == x then [rows[i].1] else [];
    }
  }

  /** What the rows of a level say about the nodes of its frontier. */
  ghost predicate LevelOf(edges: seq<Edge>, reverse: bool, frontier: set<int>, rows: seq<(int, int)>) {
    && (forall r :: r in rows ==> r.0 in frontier)
    && (forall x :: x in frontier ==> Pick(rows, x) == Next(edges, reverse, x))
  }

  lemma {:induction false} PickHas(rows: seq<(int, int)>, x: int, y: int)
    ensures y in Pick(rows, x) <==> (x, y) in rows
  {
    if rows != [] {
      PickHas(rows[1..], x, y);
      assert rows == [rows[0]] + rows[1..];
    }
  }

  lemma LevelEnds(edges: seq<Edge>, reverse: bool, frontier: set<int>, rows: seq<(int, int)>, known: map<int, seq<int>>,
                  adjacency: map<int, seq<int>>, next: set<int>)
    requires LevelOf(edges, reverse, frontier, rows) && LevelHalf(rows, known, frontier, adjacency, next)
    ensures LevelDone(edges, reverse, known, frontier, adjacency, next)
  {
    hide Arrows, Pick, Next;
    forall y ensures Named(rows, y) <==> LedTo(edges, reverse, frontier, y) {
      if Named(rows, y) {
        var j :| 0 <= j < |rows| && rows[j].1 == y;
        var x := rows[j].0;
        assert rows[j] in rows && rows[j] == (x, y);
        PickHas(rows, x, y);
        assert (x, y) in Arrows(edges, reverse);
      }
      if LedTo(edges, reverse, frontier, y) {
        var x :| x in frontier && (x, y) in Arrows(edges, reverse);
        PickHas(rows, x, y);
        assert y in Next(edges, reverse, x);
        var j :| 0 <= j < |rows| && rows[j] == (x, y);
      }
    }
  }

  /** The rows of the first `n` nodes are in, each node's complete. */
  ghost predicate RowsOfFirst(edges: seq<Edge>, reverse: bool, ordered: seq<int>, n: nat, rows: seq<(int, int)>)
    requires n <= |ordered|
  {
    && (forall r :: r in rows ==> r.0 in ordered[..n])
    && (forall x :: x in ordered[..n] ==> Pick(rows, x) == Next(edges, reverse, x))
  }

  /** The rows of one level, fetched in chunks of the sorted frontier. */
  method LevelRows(db: Database, reverse: bool, ordered: seq<int>) returns (rows: seq<(int, int)>)
    requires Distinct(ordered)
    ensures LevelOf(db.edges, reverse, Elems(ordered), rows)
  {
    hide LevelOf, RowsOfFirst, Rows, Elems, Distinct;
    rows := [];
    var start := 0;
    RowsBegin(db.edges, reverse, ordered);
    while start < |ordered|
      invariant 0 <= start <= |ordered| && RowsOfFirst(db.edges, reverse, ordered, start, rows)
    {
      var end := if start + IN_CHUNK < |ordered| then start + IN_CHUNK else |ordered|;
      RowsGrow(db.edges, reverse, ordered, start, end, rows);
      rows := rows + Rows(db.edges, reverse, ordered[start..end]);
      start := end;
    }
    RowsEnd(db.edges, reverse, ordered, rows);
  }

  lemma RowsBegin(edges: seq<Edge>, reverse: bool, ordered: seq<int>)
    ensures RowsOfFirst(edges, reverse, ordered, 0, [])
  {
  }

  lemma RowsEnd(edges: seq<Edge>, reverse: bool, ordered: seq<int>, rows: seq<(int, int)>)
    requires RowsOfFirst(edges, reverse, ordered, |ordered|, rows)
    ensures LevelOf(edges, reverse, Elems(ordered), rows)
  {
    assert ordered[..|ordered|] == ordered;
  }

  lemma {:induction false} PickNone(rows: seq<(int, int)>, x: int)
    requires forall r :: r in rows ==> r.0 != x
    ensures Pick(rows, x) == []
  {
    if rows != [] {
      assert rows[0] in rows;
      PickNone(rows[1..], x);
    }
  }

  lemma RowsGrow(edges: seq<Edge>, reverse: bool, ordered: seq<int>, start: nat, end: nat, rows: seq<(int, int)>)
    requires Distinct(ordered) && start <= end <= |ordered| && RowsOfFirst(edges, reverse, ordered, start, rows)
    ensures RowsOfFirst(edges, reverse, ordered, end, rows + Rows(edges, reverse, ordered[start..end]))
  {
    var chunk := ordered[start..end];
    var more := Rows(edges, reverse, chunk);
    hide Next, Rows, Arrows, Pick;
    forall r | r in rows + more ensures r.0 in ordered[..end] {
      ChunkOnce(ordered, start, end, r.0);
    }
    forall x | x in ordered[..end] ensures Pick(rows + more, x) == Next(edges, reverse, x) {
      PickConcat(rows, more, x);
      PickRows(edges, reverse, chunk, x);
      ChunkOnce(ordered, start, end, x);
      if x in chunk { PickNone(rows, x); }
    }
  }

  lemma ChunkOnce(ordered: seq<int>, start: nat, end: nat, x: int)
    requires Distinct(ordered) && start <= end <= |ordered|
    ensures x in ordered[..end] <==> x in ordered[..start] || x in ordered[start..end]
    ensures !(x in ordered[..start] && x in ordered[start..end])
  {
    assert ordered[..end] == ordered[..start] + ordered[start..end];
  }

  /**
   `_closure`: it ends on any graph, cyclic or not, and its keys are exactly the nodes reachable
   from the seeds, each with its complete list of successors in edge order.
   */
  method Closure(db: Database, taskIds: set<int>, reverse: bool) returns (adjacency: map<int, seq<int>>)
    ensures forall x :: x in adjacency <==> Reachable(Arrows(db.edges, reverse), taskIds, x)
    ensures forall x :: x in adjacency ==> adjacency[x] == Next(db.edges, reverse, x)
  {
    hide *;
    adjacency := map[];
    var frontier := taskIds;
    WalkBegins(db.edges, reverse, taskIds);
    while frontier != {}
      invariant Walking(db.edges, reverse, taskIds, adjacency, frontier)
      decreases |Universe(db.edges, reverse, taskIds) - adjacency.Keys|
    {
      WalkingFresh(db.edges, reverse, taskIds, adjacency, frontier);
      var before := adjacency;
      var next: set<int>;
      adjacency, next := Level(db, reverse, before, frontier);
      WalkGoesOn(db.edges, reverse, taskIds, before, frontier, adjacency, next);
      frontier := next;
    }
    WalkEnds(db.edges, reverse, taskIds, adjacency);
  }

  lemma WalkBegins(edges: seq<Edge>, reverse: bool, seeds: set<int>)
    ensures Walking(edges, reverse, seeds, map[], seeds)
  {
    forall x | x in seeds ensures Reachable(Arrows(edges, reverse), seeds, x) {
      Graph.ReachesSelf(Arrows(edges, reverse), x);
    }
  }

  lemma WalkingFresh(edges: seq<Edge>, reverse: bool, seeds: set<int>, adjacency: map<int, seq<int>>, frontier: set<int>)
    requires Walking(edges, reverse, seeds, adjacency, frontier)
    ensures forall x :: x in frontier ==> x !in adjacency
  {
  }

  lemma WalkGoesOn(edges: seq<Edge>, reverse: bool, seeds: set<int>, before: map<int, seq<int>>, frontier: set<int>,
                   adjacency: map<int, seq<int>>, next: set<int>)
    requires Walking(edges, reverse, seeds, before, frontier) && frontier != {}
    requires LevelDone(edges, reverse, before, frontier, adjacency, next)
    ensures Walking(edges, reverse, seeds, adjacency, next)
    ensures |Universe(edges, reverse, seeds) - adjacency.Keys| < |Universe(edges, reverse, seeds) - before.Keys|
  {
    hide Next, Arrows, Reachable, Universe, LedTo, Listed, LeadsInside, AllReached;
    LevelParts(edges, reverse, before, frontier, adjacency, next);
    hide LevelDone;
    NextInside(edges, reverse, before.Keys, frontier, next);
    NextReached(edges, reverse, seeds, before.Keys, frontier, next);
    NextListed(edges, reverse, before, frontier, adjacency);
    WalkShrinks(edges, reverse, seeds, before.Keys, frontier, adjacency.Keys);
  }

  lemma LevelParts(edges: seq<Edge>, reverse: bool, before: map<int, seq<int>>, frontier: set<int>,
                   adjacency: map<int, seq<int>>, next: set<int>)
    requires LevelDone(edges, reverse, before, frontier, adjacency, next)
    ensures adjacency.Keys == before.Keys + frontier && adjacency.Keys !! next
    ensures forall x :: x in before ==> adjacency[x] == before[x]
    ensures forall x :: x in frontier ==> adjacency[x] == Next(edges, reverse, x)
    ensures forall y :: y !in before.Keys + frontier && LedTo(edges, reverse, frontier, y) ==> y in next
    ensures forall y :: y in next ==> LedTo(edges, reverse, frontier, y)
  {
    hide Next, LedTo;
    forall y | y !in before.Keys + frontier && LedTo(edges, reverse, frontier, y) ensures y in next {
      assert y !in adjacency.Keys;
    }
    forall y | y in next ensures y !in adjacency.Keys {
      assert y !in adjacency;
    }
  }

  lemma NextListed(edges: seq<Edge>, reverse: bool, before: map<int, seq<int>>, frontier: set<int>, adjacency: map<int, seq<int>>)
    requires Listed(edges, reverse, before) && adjacency.Keys == before.Keys + frontier
    requires forall x :: x in before ==> adjacency[x] == before[x]
    requires forall x :: x in frontier ==> adjacency[x] == Next(edges, reverse, x)
    ensures Listed(edges, reverse, adjacency)
  {
    hide Next;
    forall x | x in adjacency ensures adjacency[x] == Next(edges, reverse, x) {
      assert x in before.Keys + frontier;
    }
  }

  lemma NextInside(edges: seq<Edge>, reverse: bool, before: set<int>, frontier: set<int>, next: set<int>)
    requires LeadsInside(edges, reverse, before, frontier)
    requires forall y :: y !in before + frontier && LedTo(edges, reverse, frontier, y) ==> y in next
    ensures LeadsInside(edges, reverse, before + frontier, next)
  {
    hide Arrows;
    forall x, y | x in before + frontier && (x, y) in Arrows(edges, reverse) ensures y in before + frontier || y in next {
      if x in frontier { assert LedTo(edges, reverse, frontier, y); }
    }
  }

  lemma NextReached(edges: seq<Edge>, reverse: bool, seeds: set<int>, before: set<int>, frontier: set<int>, next: set<int>)
    requires AllReached(edges, reverse, seeds, before + frontier)
    requires forall y :: y in next ==> LedTo(edges, reverse, frontier, y)
    ensures AllReached(edges, reverse, seeds, before + frontier + next)
  {
    hide Arrows, Reachable;
    forall y | y in next ensures Reachable(Arrows(edges, reverse), seeds, y) {
      var x :| x in frontier && (x, y) in Arrows(edges, reverse);
      assert x in before + frontier;
      ReachableStep(Arrows(edges, reverse), seeds, x, y);
    }
  }

  lemma ReachableStep(g: Graph.Arrows, seeds: set<int>, x: int, y: int)
    requires Reachable(g, seeds, x) && (x, y) in g
    ensures Reachable(g, seeds, y)
  {
    var seed :| seed in seeds && Graph.Reaches(g, seed, x);
    Graph.ReachesArrow(g, seed, x, y);
  }

  lemma WalkShrinks(edges: seq<Edge>, reverse: bool, seeds: set<int>, before: set<int>, frontier: set<int>, after: set<int>)
    requires frontier != {} && after == before + frontier
    requires before !! frontier && AllReached(edges, reverse, seeds, before + frontier)
    ensures |Universe(edges, reverse, seeds) - after| < |Universe(edges, reverse, seeds) - before|
  {
    hide Reachable, Universe;
    var u := Universe(edges, reverse, seeds);
    var w := Any(frontier);
    InUniverse(edges, reverse, seeds, w);
    assert w in u - before && w !in u - after;
    SubsetSize(u - after, u - before);
  }

  lemma InUniverse(edges: seq<Edge>, reverse: bool, seeds: set<int>, x: int)
    requires Reachable(Arrows(edges, reverse), seeds, x)
    ensures x in Universe(edges, reverse, seeds)
  {
    var g, u := Arrows(edges, reverse), Universe(edges, reverse, seeds);
    var seed :| seed in seeds && Graph.Reaches(g, seed, x);
    var k: nat :| Graph.Path(g, seed, k, x);
    assert Graph.Closed(g, u);
    Graph.StaysInside(g, u, seed, k, x);
  }

  lemma WalkEnds(edges: seq<Edge>, reverse: bool, seeds: set<int>, adjacency: map<int, seq<int>>)
    requires Walking(edges, reverse, seeds, adjacency, {})
    ensures forall x :: x in adjacency <==> Reachable(Arrows(edges, reverse), seeds, x)
    ensures forall x :: x in adjacency ==> adjacency[x] == Next(edges, reverse, x)
  {
    hide Arrows, Reachable;
    assert adjacency.Keys + {} == adjacency.Keys;
    forall x | Reachable(Arrows(edges, reverse), seeds, x) ensures x in adjacency {
      ClosedHolds(edges, reverse, seeds, adjacency.Keys, x);
    }
  }

  lemma ClosedHolds(edges: seq<Edge>, reverse: bool, seeds: set<int>, walked: set<int>, x: int)
    requires seeds <= walked && LeadsInside(edges, reverse, walked, {}) && Reachable(Arrows(edges, reverse), seeds, x)
    ensures x in walked
  {
    var g := Arrows(edges, reverse);
    var seed :| seed in seeds && Graph.Reaches(g, seed, x);
    var k: nat :| Graph.Path(g, seed, k, x);
    hide Arrows;
    forall a | a in g && a.0 in walked ensures a.1 in walked {
      assert (a.0, a.1) in g;
    }
    Graph.StaysInside(g, walked, seed, k, x);
  }

  // ---- the wait-cycle walk ------------------------------------------------------------------

  /** What one chunk of a frontier reaches: its subtasks, trashed or not, and its blockers. */
  function Waited(s: State, chunk: seq<int>): (ids: set<int>)
  {
    (set x | x in s.tasks && s.tasks[x].parent.Some? && s.tasks[x].parent.value in chunk)
    + (set e | e in s.edges && !e.deleted && e.task in chunk :: e.blocker)
  }

  lemma WaitedHas(s: State, chunk: seq<int>, y: int)
    ensures y in Waited(s, chunk) <==> exists x :: x in chunk && (x, y) in WaitArrows(s)
  {
    if y in Waited(s, chunk) {
      if y in s.tasks && s.tasks[y].parent.Some? && s.tasks[y].parent.value in chunk {
        var q: int := s.tasks[y].parent.value;
        assert (q, y) in ChildArrows(s.tasks);
        assert (q, y) in WaitArrows(s);
      } else {
        var e :| e in s.edges && !e.deleted && e.task in chunk && e.blocker == y;
        assert (e.task, y) in EdgeArrows(s.edges);
        assert (e.task, y) in WaitArrows(s);
      }
    }
    if x :| x in chunk && (x, y) in WaitArrows(s) {
      if (x, y) in EdgeArrows(s.edges) {
        var e :| e in s.edges && !e.deleted && (e.task, e.blocker) == (x, y);
        assert e.blocker in Waited(s, chunk);
      } else {
        var c :| c in s.tasks && s.tasks[c].parent.Some? && (s.tasks[c].parent.value, c) == (x, y);
        assert c in Waited(s, chunk);
      }
    }
  }

  lemma {:induction false} WaitedConcat(s: State, a: seq<int>, b: seq<int>)
    ensures Waited(s, a + b) == Waited(s, a) + Waited(s, b)
  {
    hide WaitArrows;
    forall y ensures y in Waited(s, a + b) <==> y in Waited(s, a) + Waited(s, b) {
      WaitedHas(s, a, y);
      WaitedHas(s, b, y);
      WaitedHas(s, a + b, y);
    }
  }

  /** Part of the way: what is seen is waited for, and leads to what is seen. */
  ghost predicate Waiting(s: State, task: int, other: int, seen: set<int>, frontier: seq<int>) {
    && task in seen && other !in seen && Elems(frontier) <= seen
    && (forall x :: x in seen ==> Graph.Reaches(WaitArrows(s), task, x))
    && (forall x, y :: x in seen && x !in frontier && (x, y) in WaitArrows(s) ==> y in seen)
  }

  ghost function WaitUniverse(s: State, task: int): set<int> {
    {task} + set a | a in WaitArrows(s) :: a.1
  }

  /** `waits_on`: it ends on any graph, and answers reachability along blockers and subtasks. */
  method WaitsOn(db: Database, task: int, other: int) returns (waits: bool)
    ensures waits <==> TaskDependencies.WaitsOn(db.View(), task, other)
  {
    ghost var s := db.View();
    Graph.ReachesSelf(WaitArrows(s), task);
    if task == other { return true; }
    var seen := {task};
    var frontier := [task];
    WaitBegins(s, task, other);
    hide WaitArrows, Graph.Reaches, Waited, WaitUniverse, Waiting;
    while frontier != []
      invariant Waiting(s, task, other, seen, frontier) && Distinct(frontier)
      decreases |WaitUniverse(s, task) - seen|, |frontier|
    {
      var reached := WaitLevel(db, frontier);
      if other in reached {
        WaitFound(s, task, other, seen, frontier, reached);
        return true;
      }
      WaitGoesOn(s, task, other, seen, frontier, reached);
      frontier := Sorted(reached - seen);
      seen := seen + Elems(frontier);
    }
    WaitEnds(s, task, other, seen);
    return false;
  }

  /** One level of the walk, two lookups per chunk of the frontier. */
  method WaitLevel(db: Database, frontier: seq<int>) returns (reached: set<int>)
    ensures reached == Waited(db.View(), frontier)
  {
    hide Waited;
    reached := {};
    var start := 0;
    assert frontier[..0] == [];
    WaitedNothing(db.View());
    while start < |frontier|
      invariant 0 <= start <= |frontier| && reached == Waited(db.View(), frontier[..start])
    {
      var end := if start + IN_CHUNK < |frontier| then start + IN_CHUNK else |frontier|;
      assert frontier[..end] == frontier[..start] + frontier[start..end];
      WaitedConcat(db.View(), frontier[..start], frontier[start..end]);
      reached := reached + Waited(db.View(), frontier[start..end]);
      start := end;
    }
    assert frontier[..|frontier|] == frontier;
  }

  lemma WaitedNothing(s: State)
    ensures Waited(s, []) == {}
  {
  }

  lemma WaitBegins(s: State, task: int, other: int)
    requires task != other
    ensures Waiting(s, task, other, {task}, [task])
  {
    Graph.ReachesSelf(WaitArrows(s), task);
  }

  lemma WaitFound(s: State, task: int, other: int, seen: set<int>, frontier: seq<int>, reached: set<int>)
    requires Waiting(s, task, other, seen, frontier) && reached == Waited(s, frontier) && other in reached
    ensures TaskDependencies.WaitsOn(s, task, other)
  {
    WaitedHas(s, frontier, other);
    hide WaitArrows, Graph.Reaches;
    var x :| x in frontier && (x, other) in WaitArrows(s);
    assert x in Elems(frontier);
    Graph.ReachesArrow(WaitArrows(s), task, x, other);
  }

  lemma WaitGoesOn(s: State, task: int, other: int, seen: set<int>, frontier: seq<int>, reached: set<int>)
    requires Waiting(s, task, other, seen, frontier) && reached == Waited(s, frontier) && other !in reached && frontier != []
    ensures var next := Sorted(reached - seen);
            && Waiting(s, task, other, seen + Elems(next), next)
            && (if next == [] then seen + Elems(next) == seen
                else |WaitUniverse(s, task) - (seen + Elems(next))| < |WaitUniverse(s, task) - seen|)
  {
    var next := Sorted(reached - seen);
    hide WaitArrows, Graph.Reaches, Waited;
    assert Elems(next) == reached - seen;
    forall y | y in reached ensures Graph.Reaches(WaitArrows(s), task, y) {
      WaitedHas(s, frontier, y);
      var x :| x in frontier && (x, y) in WaitArrows(s);
      assert x in Elems(frontier);
      Graph.ReachesArrow(WaitArrows(s), task, x, y);
    }
    forall x, y | x in seen + Elems(next) && x !in next && (x, y) in WaitArrows(s) ensures y in seen + Elems(next) {
      assert x in Elems(next) ==> x in next;
      if x in frontier {
        WaitedHas(s, frontier, y);
      }
    }
    if next != [] {
      var u := WaitUniverse(s, task);
      InWaitUniverse(s, task, next[0]);
      assert next[0] in u - seen && next[0] !in u - (seen + Elems(next));
      SubsetSize(u - (seen + Elems(next)), u - seen);
    }
  }

  lemma InWaitUniverse(s: State, task: int, x: int)
    requires Graph.Reaches(WaitArrows(s), task, x)
    ensures x in WaitUniverse(s, task)
  {
    var g, u := WaitArrows(s), WaitUniverse(s, task);
    hide WaitArrows;
    var k: nat :| Graph.Path(g, task, k, x);
    assert Graph.Closed(g, u);
    Graph.StaysInside(g, u, task, k, x);
  }

  lemma WaitEnds(s: State, task: int, other: int, seen: set<int>)
    requires Waiting(s, task, other, seen, [])
    ensures !TaskDependencies.WaitsOn(s, task, other)
  {
    var g := WaitArrows(s);
    hide WaitArrows;
    if Graph.Reaches(g, task, other) {
      var k: nat :| Graph.Path(g, task, k, other);
      SeenIsClosed(s, task, other, seen);
      Graph.StaysInside(g, seen, task, k, other);
      assert false;
    }
  }

  lemma SeenIsClosed(s: State, task: int, other: int, seen: set<int>)
    requires Waiting(s, task, other, seen, [])
    ensures Graph.Closed(WaitArrows(s), seen)
  {
    hide WaitArrows;
    forall x, y | (x, y) in WaitArrows(s) && x in seen ensures y in seen {
    }
    forall a | a in WaitArrows(s) && a.0 in seen ensures a.1 in seen {
      assert (a.0, a.1) in WaitArrows(s);
    }
  }

  // ---- the ancestor climb ----------------------------------------------------------------

  /** The nodes strictly above `task` that the climb has passed, and where it stands. */
  ghost predicate Climbing(up: Forest.Links, task: int, ancestor: int, seen: set<int>, at: int) {
    && ancestor !in seen && (at == task || at in seen)
    && (exists k: nat :: Forest.Climbs(up, task, k, at))
    && (task != at ==> task in up && up[task] in seen)
    && (forall x :: x in seen && x != at && x in up ==> up[x] in seen)
    && seen <= up.Values
  }

  /** `_is_ancestor`: it ends on a cyclic chain too, and answers exactly. */
  method IsAncestor(db: Database, ancestor: int, task: int) returns (above: bool)
    ensures above <==> TaskDependencies.IsAncestor(db.View(), ancestor, task)
  {
    ghost var up := ParentLinks(db.tasks);
    var seen: set<int> := {};
    var at := task;
    assert Forest.Climbs(up, task, 0, task);
    while at in db.tasks && db.tasks[at].parent.Some?
      invariant Climbing(up, task, ancestor, seen, at)
      decreases |up.Values - seen|
    {
      var parent := db.tasks[at].parent.value;
      assert at in up && up[at] == parent;
      if parent == ancestor {
        ClimbFound(up, task, ancestor, at);
        return true;
      }
      if parent in seen {
        ClimbLoops(up, task, ancestor, seen, at);
        return false;
      }
      ClimbOn(up, task, ancestor, seen, at);
      seen := seen + {parent};
      at := parent;
    }
    ClimbStops(up, task, ancestor, seen, at);
    return false;
  }

  lemma ClimbFound(up: Forest.Links, task: int, ancestor: int, at: int)
    requires at in up && up[at] == ancestor && exists k: nat :: Forest.Climbs(up, task, k, at)
    ensures exists k: nat :: k > 0 && Forest.Climbs(up, task, k, ancestor)
  {
    var k: nat :| Forest.Climbs(up, task, k, at);
    assert Forest.Climbs(up, ancestor, 0, ancestor);
    assert Forest.Climbs(up, at, 1, ancestor);
    Forest.ClimbsJoin(up, task, k, at, 1, ancestor);
  }

  lemma ClimbOn(up: Forest.Links, task: int, ancestor: int, seen: set<int>, at: int)
    requires Climbing(up, task, ancestor, seen, at) && at in up && up[at] != ancestor && up[at] !in seen
    ensures Climbing(up, task, ancestor, seen + {up[at]}, up[at])
    ensures |up.Values - (seen + {up[at]})| < |up.Values - seen|
  {
    var p := up[at];
    ClimbFound(up, task, p, at);
    assert p in up.Values;
    assert p in up.Values - seen && p !in up.Values - (seen + {p});
    SubsetSize(up.Values - (seen + {p}), up.Values - seen);
  }

  /** Everything above `task` stays in a set that links cannot leave. */
  lemma {:induction false} StaysAbove(up: Forest.Links, seen: set<int>, x: int, k: nat, y: int)
    requires (x in up ==> up[x] in seen) && (forall z :: z in seen && z in up ==> up[z] in seen)
    requires k > 0 && Forest.Climbs(up, x, k, y)
    ensures y in seen
    decreases k
  {
    if k > 1 { StaysAbove(up, seen, up[x], k - 1, y); }
  }

  lemma ClimbLoops(up: Forest.Links, task: int, ancestor: int, seen: set<int>, at: int)
    requires Climbing(up, task, ancestor, seen, at) && at in up && up[at] in seen
    ensures !(exists k: nat :: k > 0 && Forest.Climbs(up, task, k, ancestor))
  {
    forall k: nat | k > 0 ensures !Forest.Climbs(up, task, k, ancestor) {
      if Forest.Climbs(up, task, k, ancestor) {
        StaysAbove(up, seen, task, k, ancestor);
        assert false;
      }
    }
  }

  lemma ClimbStops(up: Forest.Links, task: int, ancestor: int, seen: set<int>, at: int)
    requires Climbing(up, task, ancestor, seen, at) && at !in up
    ensures !(exists k: nat :: k > 0 && Forest.Climbs(up, task, k, ancestor))
  {
    forall k: nat | k > 0 ensures !Forest.Climbs(up, task, k, ancestor) {
      if Forest.Climbs(up, task, k, ancestor) {
        StaysAbove(up, seen, task, k, ancestor);
        assert false;
      }
    }
  }

  /** `add_dependency`. */
  method AddDependency(db: Database, task: int, blocker: int, done: Oracle) returns (raised: Option<Error>)
    modifies db
    ensures var r := TaskDependencies.AddDependency(old(db.View()), task, blocker, done);
            raised == (if r.Err? then Some(r.error) else None)
            && db.View() == (if r.Ok? then r.value else old(db.View()))
  {
    hide EdgeArrows, TaskDependencies.WaitsOn, TaskDependencies.IsAncestor;
    if task == blocker { return Some(SelfDependency); }
    if !Live(db.View(), task) || !Live(db.View(), blocker) { return Some(MissingTask); }
    if done(db.View(), task) { return Some(CompletedTask); }
    if (task, blocker) in EdgeArrows(db.edges) { return Some(DuplicateDependency); }
    var cycle := WaitsOn(db, blocker, task);
    if cycle {
      var own := IsAncestor(db, blocker, task);
      return Some(DependencyCycle(own));
    }
    db.edges := db.edges + [Edge(task, blocker, false)];
    db.Log(TaskEvent(db.tasks[task], task, DependencyAdded, Usual));
    return None;
  }
}
