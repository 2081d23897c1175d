/**
 Reconciling when stored parent links run in circles (backend/app/services/task_recurrence.py,
 `reconcile`): the walk itself always ends, and exactly when the cloning it sets off does not.
 */
module CyclicParents {
  import opened Common
  import opened Calendar
  import opened Store
  import opened TaskRecurrence
  import Forest
  import Graph

  // ---- the loop, pass by pass -------------------------------------------------------------------

  /** The loop's variables: the store, the queue, and what it has seen. */
  datatype Config = Config(state: State, queue: seq<int>, seen: set<int>)

  /** One pass of the loop; none when the queue is empty, or when the pass does not come back with an occurrence. */
  ghost function Pass(c: Config, done: Oracle): (r: Option<Config>)
    requires Sound(c.state)
    ensures r.Some? ==> Sound(r.value.state)
  {
    if c.queue == [] then None else
      var s, id, rest := c.state, c.queue[|c.queue| - 1], c.queue[..|c.queue| - 1];
      if id in c.seen then Some(Config(s, rest, c.seen))
      else if !Live(s, id) then Some(Config(s, rest, c.seen + {id}))
      else
        var climbed := rest + ClimbFrom(s.tasks[id]);
        if !done(s, id) then Some(Config(s, climbed, c.seen + {id}))
        else if !SeriesHead(s.tasks[id]) then Some(Config(s, climbed + Dependents(s.edges, id), c.seen + {id}))
        else
          CreateNextGrows(s, id, done);
          match CreateNext(s, id, done)
          case Err(_) => None
          case Ok(next) => Some(Config(next.0, climbed + Dependents(next.0.edges, id), c.seen + {id}))
  }

  ghost function Passes(c: Config, n: nat, done: Oracle): (r: Option<Config>)
    requires Sound(c.state)
    ensures r.Some? ==> Sound(r.value.state)
    decreases n
  {
    if n == 0 then Some(c) else
      match Pass(c, done)
      case None => None
      case Some(d) => Passes(d, n - 1, done)
  }

  /** The next visit is to an effectively done series head that has to insert, and hangs below itself. */
  ghost predicate Stuck(c: Config, done: Oracle)
    requires Sound(c.state)
  {
    c.queue != []
    && var s, id := c.state, c.queue[|c.queue| - 1];
    id !in c.seen && Live(s, id) && done(s, id) && StuckHead(s, id)
  }

  ghost predicate StuckHead(s: State, id: int)
    requires Sound(s) && id in s.tasks
  {
    assert RowWellFormed(s, s.tasks[id]);
    SeriesHead(s.tasks[id]) && Inserts(s, s.tasks[id]) && !Clonable(s, id)
  }

  /** Some pass of the loop from here is such a visit. */
  ghost predicate GetsStuck(c: Config, done: Oracle)
    requires Sound(c.state)
  {
    exists n: nat :: Passes(c, n, done).Some? && Stuck(Passes(c, n, done).value, done)
  }

  lemma StuckNow(c: Config, done: Oracle)
    requires Sound(c.state) && Pass(c, done).None?
    ensures GetsStuck(c, done) <==> Stuck(c, done)
  {
    hide Pass, Stuck;
    if Stuck(c, done) { assert Passes(c, 0, done) == Some(c); }
  }

  lemma StuckLater(c: Config, done: Oracle)
    requires Sound(c.state) && Pass(c, done).Some? && !Stuck(c, done)
    ensures GetsStuck(c, done) <==> GetsStuck(Pass(c, done).value, done)
  {
    hide Pass, Stuck;
    var d := Pass(c, done).value;
    if GetsStuck(c, done) {
      var n: nat :| Passes(c, n, done).Some? && Stuck(Passes(c, n, done).value, done);
      assert n > 0;
      assert Passes(d, n - 1, done) == Passes(c, n, done);
    }
    if GetsStuck(d, done) {
      var n: nat :| Passes(d, n, done).Some? && Stuck(Passes(d, n, done).value, done);
      assert Passes(c, n + 1, done) == Passes(d, n, done);
    }
  }

  lemma {:induction false} WalkEndlessIff(s: State, queue: seq<int>, seen: set<int>, spawned: seq<int>, ids: set<int>, done: Oracle)
    requires Sound(s) && Enclosed(s, ids) && (forall q :: q in queue ==> q in ids)
    ensures Walk(s, queue, seen, spawned, ids, done) == Err(EndlessChecklist) <==> GetsStuck(Config(s, queue, seen), done)
    decreases |ids - seen|, |queue|
  {
    hide WellFormed, Sound, Enclosed, Spawned, CreateNext, Dependents, GetsStuck, Inserts, Clonable, ClimbFrom;
    var c := Config(s, queue, seen);
    if queue == [] { StuckNow(c, done); } else {
      var id := queue[|queue| - 1];
      var rest := queue[..|queue| - 1];
      if id in seen {
        StuckLater(c, done);
        WalkEndlessIff(s, rest, seen, spawned, ids, done);
      } else {
        SubsetSize(ids - (seen + {id}), ids - seen);
        assert id in ids - seen;
        if !Live(s, id) {
          StuckLater(c, done);
          WalkEndlessIff(s, rest, seen + {id}, spawned, ids, done);
        } else {
          ClimbInside(s, id, ids);
          var climbed := rest + ClimbFrom(s.tasks[id]);
          if !done(s, id) {
            StuckLater(c, done);
            WalkEndlessIff(s, climbed, seen + {id}, spawned, ids, done);
          } else if SeriesHead(s.tasks[id]) {
            CreateNextGrows(s, id, done);
            EndlessIff(s, id, done);
            var next := CreateNext(s, id, done);
            if next.Ok? {
              EnclosedStays(s, next.value.0, ids);
              DependentsInside(next.value.0, id, ids);
              StuckLater(c, done);
              WalkEndlessIff(next.value.0, climbed + Dependents(next.value.0.edges, id), seen + {id}, spawned + [next.value.1], ids, done);
            } else {
              StuckNow(c, done);
            }
          } else {
            DependentsInside(s, id, ids);
            StuckLater(c, done);
            WalkEndlessIff(s, climbed + Dependents(s.edges, id), seen + {id}, spawned, ids, done);
          }
        }
      }
    }
  }

  /**
   Reconciling fails to end exactly when its loop comes to visit an effectively done series head
   that, in the store it is visited in, has to insert its next occurrence and hangs below itself.
   */
  lemma ReconcileEndlessIff(s: State, seeds: seq<int>, done: Oracle)
    requires Sound(s) && forall q :: q in seeds ==> q in s.tasks
    ensures Reconcile(s, seeds, done) == Err(EndlessChecklist) <==> GetsStuck(Config(s, seeds, {}), done)
  {
    AllEnclosed(s);
    hide Walk, Sound, WellFormed, Enclosed, GetsStuck;
    WalkEndlessIff(s, seeds, {}, [], s.tasks.Keys, done);
  }

  // ---- seen from the store before -----------------------------------------------------------------

  /** No effectively done head in `bound` has to insert and hangs below itself. */
  ghost predicate HeadsEnd(s: State, bound: set<int>, done: Oracle)
    requires Sound(s)
  {
    forall x :: x in bound && Live(s, x) && done(s, x) ==> !StuckHead(s, x)
  }

  /** A refusal to roll forward stays one: nothing is spawned on a skipped date. */
  lemma {:induction false} RollForwardErrStays(a: State, b: State, series: string, from: Date, iv: Interval)
    requires ValidInterval(iv) && Spawned(a, b) && RollForward(a, series, from, iv).Err?
    ensures RollForward(b, series, from, iv).Err?
    decreases MAX_ORDINAL - from
  {
    hide NextDue, SkippedOn, LiveOn;
    NextDueIsLater(from, iv);
    var next := NextDue(from, iv);
    if next.Some? {
      SkipsUnchanged(a, b, series, next.value);
      SkippedGetsNothing(a, b, series, next.value);
      RollForwardErrStays(a, b, series, next.value, iv);
    }
  }

  /** What has to insert after other rows were spawned had to before. */
  lemma StuckEarlier(a: State, b: State, x: int)
    requires Spawned(a, b) && Sound(a) && Sound(b) && x in a.tasks && x in b.tasks && b.tasks[x] == a.tasks[x] && StuckHead(b, x)
    ensures StuckHead(a, x)
  {
    var t := a.tasks[x];
    assert RowWellFormed(a, t) && RowWellFormed(b, t);
    ClonableStays(a, b, x);
    hide Sound, Spawned, NextDue, Clonable, RollForward;
    if t.series.Some? {
      var r := RollForward(a, t.series.value, t.due.value, t.repeat.value);
      if r.Err? { RollForwardErrStays(a, b, t.series.value, t.due.value, t.repeat.value); }
      else if r.value.taken.Some? { RollForwardStays(a, b, t.series.value, t.due.value, t.repeat.value); }
    }
  }

  lemma {:induction false} WalkNotEndless(
      s: State, queue: seq<int>, seen: set<int>, spawned: seq<int>, ids: set<int>, done: Oracle, bound: set<int>)
    requires Sound(s) && Enclosed(s, ids) && (forall q :: q in queue ==> q in ids && q in bound)
    requires SpawnStable(done) && WalkClosed(s, bound, done) && bound <= ids && HeadsEnd(s, bound, done)
    ensures Walk(s, queue, seen, spawned, ids, done) != Err(EndlessChecklist)
    decreases |ids - seen|, |queue|
  {
    hide WellFormed, Sound, Enclosed, Spawned, CreateNext, UniqueSlots, Dependents, SpawnStable, WalkClosed, HeadsEnd;
    if queue != [] {
      var id := queue[|queue| - 1];
      var rest := queue[..|queue| - 1];
      assert id in bound;
      if id in seen { WalkNotEndless(s, rest, seen, spawned, ids, done, bound); } else {
        SubsetSize(ids - (seen + {id}), ids - seen);
        assert id in ids - seen;
        if !Live(s, id) { WalkNotEndless(s, rest, seen + {id}, spawned, ids, done, bound); } else {
          ClimbInside(s, id, ids);
          OneStepInside(s, id, bound, done);
          var climbed := rest + ClimbFrom(s.tasks[id]);
          if !done(s, id) { WalkNotEndless(s, climbed, seen + {id}, spawned, ids, done, bound); }
          else if SeriesHead(s.tasks[id]) {
            CreateNextGrows(s, id, done);
            HeadNotEndless(s, id, bound, done);
            var next := CreateNext(s, id, done);
            if next.Ok? {
              EnclosedStays(s, next.value.0, ids);
              DependentsInside(next.value.0, id, ids);
              ClosedStays(s, next.value.0, bound, ids, done);
              HeadsStay(s, next.value.0, bound, ids, done);
              CreateNextKeepsHead(s, id, done);
              OneStepInside(next.value.0, id, bound, done);
              WalkNotEndless(next.value.0, climbed + Dependents(next.value.0.edges, id), seen + {id}, spawned + [next.value.1], ids, done, bound);
            }
          } else {
            DependentsInside(s, id, ids);
            WalkNotEndless(s, climbed + Dependents(s.edges, id), seen + {id}, spawned, ids, done, bound);
          }
        }
      }
    }
  }

  lemma HeadNotEndless(s: State, id: int, bound: set<int>, done: Oracle)
    requires Sound(s) && HeadsEnd(s, bound, done) && id in bound && Live(s, id) && done(s, id) && SeriesHead(s.tasks[id])
    ensures CreateNext(s, id, done) != Err(EndlessChecklist)
  {
    EndlessIff(s, id, done);
    hide WellFormed, Sound, CreateNext, Inserts, Clonable;
  }

  lemma HeadsStay(s: State, s1: State, bound: set<int>, ids: set<int>, done: Oracle)
    requires Sound(s) && Sound(s1) && Enclosed(s, ids) && bound <= ids
    requires Spawned(s, s1) && SpawnStable(done) && HeadsEnd(s, bound, done)
    ensures HeadsEnd(s1, bound, done)
  {
    hide StuckHead, Sound;
    forall x | x in bound && Live(s1, x) && done(s1, x) ensures !StuckHead(s1, x) {
      EnclosedHas(s, ids, x);
      assert s1.tasks[x] == s.tasks[x];
      assert done(s, x) <==> done(s1, x);
      if StuckHead(s1, x) { StuckEarlier(s, s1, x); }
    }
  }

  /**
   Read off the store before the call: reconciling ends when, of the rows its links reach from the
   seeds, no effectively done head has to insert and hangs below itself.
   */
  lemma ReconcileEnds(s: State, seeds: seq<int>, done: Oracle, bound: set<int>)
    requires Sound(s) && (forall q :: q in seeds ==> q in bound) && bound <= s.tasks.Keys
    requires SpawnStable(done) && WalkClosed(s, bound, done) && HeadsEnd(s, bound, done)
    ensures Reconcile(s, seeds, done) != Err(EndlessChecklist)
  {
    AllEnclosed(s);
    WalkNotEndless(s, seeds, {}, [], s.tasks.Keys, done, bound);
  }

  // ---- two rows that hang below each other ----------------------------------------------------------

  /** The active arrows a roll-up follows: blockers and subtasks, both ends live. */
  function LiveWaits(s: State): Graph.Arrows {
    set a | a in WaitArrows(s) && Live(s, a.0) && Live(s, a.1)
  }

  /**
   How the roll-up cuts cycles (backend/app/services/tasks.py, `_resolve_rollup`): a child link on a
   parent cycle counts for nothing, so a row with no other child and no live blocker is done as it
   is stored; and a blocker on a wait cycle always blocks.
   */
  ghost predicate CutsCycles(done: Oracle) {
    && (forall s: State, x :: AllKidsCut(s, x) && NoBlocker(s, x) ==> (done(s, x) <==> s.tasks[x].status == Done))
    && (forall s: State, x, b :: BlocksOnCycle(s, x, b) ==> !done(s, x))
  }

  ghost predicate AllKidsCut(s: State, x: int) {
    Live(s, x) && forall c :: c in Forest.Kids(LiveLinks(s.tasks), x) ==> Forest.Reaches(LiveLinks(s.tasks), x, c)
  }

  predicate NoBlocker(s: State, x: int) {
    forall a :: a in EdgeArrows(s.edges) && a.0 == x ==> !Live(s, a.1)
  }

  ghost predicate BlocksOnCycle(s: State, x: int, b: int) {
    Live(s, x) && Live(s, b) && (x, b) in EdgeArrows(s.edges) && Graph.Reaches(LiveWaits(s), b, x)
  }

  /** Done as stored, unless anything live blocks it: one roll-up that cuts cycles this way. */
  predicate OwnStatus(s: State, x: int) {
    Live(s, x) && s.tasks[x].status == Done && NoBlocker(s, x)
  }

  lemma OwnStatusCuts()
    ensures CutsCycles(OwnStatus)
  {
    forall s: State, x, b | BlocksOnCycle(s, x, b) ensures !OwnStatus(s, x) {
      assert (x, b) in EdgeArrows(s.edges) && (x, b).0 == x;
    }
  }

  /** Rows 1 and 2 hang below each other; row 1 is stored as done, and may be a daily occurrence of day 10. */
  function Loop(head: bool, edges: seq<Edge>): State {
    var content := Content("", None, 0, None);
    State(map[1 := Task(GENERAL, Some(2), content, Done, if head then Some(10) else None, if head then Some(Interval(Day, 1)) else None,
                        if head then Some("series") else None, false, false, false, None, None),
              2 := Task(GENERAL, Some(1), content, Open, None, None, None, false, false, false, None, None)],
          map[GENERAL := Project(true, false)], edges, [])
  }

  lemma LoopFacts(head: bool, edges: seq<Edge>)
    requires forall e :: e in edges ==> e.task in {1, 2} && e.blocker in {1, 2}
    ensures var s := Loop(head, edges);
            && Sound(s) && !WellFormed(s) && !Clonable(s, 1) && s.tasks.Keys == {1, 2} && Enclosed(s, {1, 2})
            && Live(s, 1) && Live(s, 2) && AllKidsCut(s, 1) && AllKidsCut(s, 2)
  {
    var s := Loop(head, edges);
    var up := LiveLinks(s.tasks);
    assert Forest.Climbs(up, 1, 0, 1) && Forest.Climbs(up, 2, 0, 2);
    assert Forest.Climbs(up, 2, 1, 1) && Forest.Climbs(up, 1, 1, 2);
    assert Forest.Climbs(up, 1, 2, 1);
    assert Forest.Kids(up, 1) == {2} && Forest.Kids(up, 2) == {1};
    var all := ParentLinks(s.tasks);
    assert Forest.Climbs(all, 1, 0, 1);
    assert Forest.Climbs(all, 2, 1, 1);
    assert Forest.Climbs(all, 1, 2, 1);
    assert !Forest.OffCycle(all, 1);
    forall a | a in EdgeArrows(s.edges) ensures a.0 in {1, 2} {
      var e :| e in s.edges && !e.deleted && a == (e.task, e.blocker);
    }
  }

  /** The next visit, to a live row that does no more than send the walk to its parent. */
  lemma Climbed(s: State, id: int, parent: int, seen: set<int>, ids: set<int>, done: Oracle)
    requires Sound(s) && Enclosed(s, ids) && id in ids && parent in ids && id !in seen && Live(s, id)
    requires !SeriesHead(s.tasks[id]) && s.tasks[id].parent == Some(parent)
    requires done(s, id) ==> Dependents(s.edges, id) == []
    ensures Walk(s, [id], seen, [], ids, done) == Walk(s, [parent], seen + {id}, [], ids, done)
  {
    hide Sound, WellFormed, Enclosed, Dependents;
    assert [id][..0] == [] && [] + [parent] == [parent] && [parent] + [] == [parent];
  }

  lemma Skipped(s: State, id: int, seen: set<int>, ids: set<int>, done: Oracle)
    requires Sound(s) && Enclosed(s, ids) && id in ids && id in seen
    ensures Walk(s, [id], seen, [], ids, done) == Ok(Walked(s, [], seen))
  {
    hide Sound, WellFormed, Enclosed;
    assert [id][..0] == [];
    assert Walk(s, [], seen, [], ids, done) == Ok(Walked(s, [], seen));
  }

  /** Without edges, or with edges that run in a circle too. */
  predicate Crossed(edges: seq<Edge>) {
    edges == [] || edges == [Edge(1, 2, false), Edge(2, 1, false)]
  }

  lemma CrossedNotDone(edges: seq<Edge>, done: Oracle)
    requires Crossed(edges) && edges != [] && CutsCycles(done)
    ensures var s := Loop(false, edges); !done(s, 1) && !done(s, 2)
  {
    var s := Loop(false, edges);
    assert edges[0] in s.edges && edges[1] in s.edges;
    assert (1, 2) in LiveWaits(s) && (2, 1) in LiveWaits(s);
    Graph.ReachesSelf(LiveWaits(s), 1);
    Graph.ReachesSelf(LiveWaits(s), 2);
    Graph.ReachesArrow(LiveWaits(s), 1, 1, 2);
    Graph.ReachesArrow(LiveWaits(s), 2, 2, 1);
    assert BlocksOnCycle(s, 1, 2) && BlocksOnCycle(s, 2, 1);
  }

  lemma CrossedDependents(edges: seq<Edge>, done: Oracle)
    requires Crossed(edges) && CutsCycles(done)
    ensures var s := Loop(false, edges);
            forall x :: (x == 1 || x == 2) && done(s, x) ==> Dependents(s.edges, x) == []
  {
    if edges != [] { CrossedNotDone(edges, done); }
    assert Dependents([], 1) == [] && Dependents([], 2) == [];
  }

  /**
   With parent links that run in a circle, and edges that do too or none, reconciling finishes
   under any roll-up that cuts cycles, having seen both rows.
   */
  lemma ReconcileOnALoop(edges: seq<Edge>, done: Oracle)
    requires Crossed(edges) && CutsCycles(done)
    ensures var s := Loop(false, edges);
            && Sound(s) && !WellFormed(s) && Reconcile(s, [1], done) == Ok(s)
            && Enclosed(s, {1, 2}) && Walk(s, [1], {}, [], {1, 2}, done) == Ok(Walked(s, [], {1, 2}))
  {
    var s := Loop(false, edges);
    LoopFacts(false, edges);
    CrossedDependents(edges, done);
    assert !SeriesHead(s.tasks[1]) && !SeriesHead(s.tasks[2]) && s.tasks[1].parent == Some(2) && s.tasks[2].parent == Some(1);
    hide Loop, Sound, WellFormed, Enclosed, Dependents, Walk, CutsCycles, SeriesHead, Clonable, AllKidsCut;
    assert {} + {1} == {1} && {1} + {2} == {1, 2};
    Climbed(s, 1, 2, {}, {1, 2}, done);
    Climbed(s, 2, 1, {1}, {1, 2}, done);
    Skipped(s, 1, {1, 2}, {1, 2}, done);
    assert s.tasks.Keys == {1, 2};
  }

  /** The day after day 10 is free. */
  lemma LoopInserts()
    ensures var s := Loop(true, []);
            && SeriesHead(s.tasks[1]) && ValidInterval(s.tasks[1].repeat.value) && Inserts(s, s.tasks[1])
  {
    var s := Loop(true, []);
    assert NextDue(10, Interval(Day, 1)) == Some(11);
    assert LiveOn(s, "series", 11) - {} == {};
    assert !SkippedOn(s, "series", 11);
  }

  /**
   Without edges, and with row 1 an occurrence: it is done as stored, so reconciling sets out to
   clone what hangs below it, and that exhausts every depth.
   */
  lemma EndlessOnALoop(done: Oracle)
    requires CutsCycles(done)
    ensures var s := Loop(true, []);
            && Sound(s) && done(s, 1) && Reconcile(s, [1], done) == Err(EndlessChecklist)
            && forall depth: nat :: CloneTree(s, 1, 11, depth).None?
  {
    var s := Loop(true, []);
    LoopFacts(true, []);
    LoopInserts();
    assert NoBlocker(s, 1) && s.tasks[1].status == Done;
    assert done(s, 1);
    CloningEndsIff(s, 1, 11);
    hide Loop, Sound, WellFormed, Enclosed, CutsCycles, Inserts, Clonable, CloneTree, AllKidsCut, NoBlocker;
    var c := Config(s, [1], {});
    assert StuckHead(s, 1);
    assert Stuck(c, done);
    assert Passes(c, 0, done) == Some(c);
    ReconcileEndlessIff(s, [1], done);
  }
}
