/**
 The wait graph over runs: no task ever comes to wait on itself, through blockers, subtasks or
 any mix of the two.
 */
module WaitRuns {
  import opened Common
  import opened Calendar
  import opened Store
  import opened TaskRecurrence
  import opened Tasks
  import opened TaskTrash
  import opened Projects
  import opened Invariant
  import opened ProjectPurge
  import opened Trash
  import opened Runs
  import TaskDependencies
  import TaskPurge
  import TaskSteps
  import RestoreUndo
  import ProjectUndo
  import Edits
  import Forest
  import Graph

  ghost predicate NoDeadlock(s: State) {
    Graph.NoCycle(WaitArrows(s))
  }

  // ---- growing the graph ---------------------------------------------------------------------

  /** Every arrow added joins two new nodes, the lower to the higher. */
  ghost predicate GrowsUpwards(g: Graph.Arrows, h: Graph.Arrows, known: set<int>) {
    && g <= h && (forall a :: a in g ==> a.0 in known && a.1 in known)
    && (forall a :: a in h && a !in g ==> a.0 !in known && a.1 !in known && a.0 < a.1)
  }

  lemma {:induction false} OldPath(g: Graph.Arrows, h: Graph.Arrows, known: set<int>, x: int, k: nat, y: int)
    requires GrowsUpwards(g, h, known) && Graph.Path(h, x, k, y) && x in known
    ensures Graph.Path(g, x, k, y)
    decreases k
  {
    if k > 0 {
      var z :| (x, z) in h && Graph.Path(h, z, k - 1, y);
      assert (x, z) in g;
      OldPath(g, h, known, z, k - 1, y);
    }
  }

  lemma {:induction false} NewPath(g: Graph.Arrows, h: Graph.Arrows, known: set<int>, x: int, k: nat, y: int)
    requires GrowsUpwards(g, h, known) && Graph.Path(h, x, k, y) && x !in known
    ensures k > 0 ==> x < y
    decreases k
  {
    if k > 0 {
      var z :| (x, z) in h && Graph.Path(h, z, k - 1, y);
      assert (x, z) !in g;
      NewPath(g, h, known, z, k - 1, y);
    }
  }

  lemma GrownNoCycle(g: Graph.Arrows, h: Graph.Arrows, known: set<int>)
    requires GrowsUpwards(g, h, known) && Graph.NoCycle(g)
    ensures Graph.NoCycle(h)
  {
    forall x, k: nat | k > 0 ensures !Graph.Path(h, x, k, x) {
      if Graph.Path(h, x, k, x) {
        if x in known { OldPath(g, h, known, x, k, x); } else { NewPath(g, h, known, x, k, x); }
        assert false;
      }
    }
  }

  lemma FewerNoCycle(g: Graph.Arrows, h: Graph.Arrows)
    requires g <= h && Graph.NoCycle(h)
    ensures Graph.NoCycle(g)
  {
    forall x, k: nat | k > 0 ensures !Graph.Path(g, x, k, x) {
      if Graph.Path(g, x, k, x) {
        Graph.MoreArrows(g, h, x, k, x);
        assert false;
      }
    }
  }

  // ---- spawning -----------------------------------------------------------------------------

  lemma RowsGrow(tasks: map<int, Task>, rows: map<int, Task>)
    requires forall n :: n in rows ==> n !in tasks
    requires forall n :: n in rows && rows[n].parent.Some? ==> rows[n].parent.value !in tasks && rows[n].parent.value < n
    ensures ChildArrows(tasks) <= ChildArrows(tasks + rows)
    ensures forall a :: a in ChildArrows(tasks + rows) && a !in ChildArrows(tasks) ==>
              a.0 !in tasks.Keys && a.1 !in tasks.Keys && a.0 < a.1
  {
    var all := tasks + rows;
    forall a | a in ChildArrows(tasks) ensures a in ChildArrows(all) {
      var x :| x in tasks && tasks[x].parent.Some? && a == (tasks[x].parent.value, x);
      assert x in all && all[x] == tasks[x];
    }
    forall a | a in ChildArrows(all) && a !in ChildArrows(tasks) ensures a.0 !in tasks.Keys && a.1 !in tasks.Keys && a.0 < a.1 {
      var x :| x in all && all[x].parent.Some? && a == (all[x].parent.value, x);
      assert x !in rows ==> a in ChildArrows(tasks);
    }
  }

  lemma CopiesGrow(s: State, id: int, due: Date)
    requires WellFormed(s) && id in s.tasks
    ensures GrowsUpwards(WaitArrows(s), WaitArrows(WithCopies(s, id, due)), s.tasks.Keys)
  {
    hide *;
    hide WellFormed;
    CopiedParents(s, id, due);
    OldEnds(s);
    RowsGrow(s.tasks, CopiedTasks(s, id, due));
    CopiesOnlyAddRows(s, id, due);
    GrowsWith(s, WithCopies(s, id, due), CopiedTasks(s, id, due));
  }

  lemma CopiesOnlyAddRows(s: State, id: int, due: Date)
    requires id in s.tasks && (WellFormed(s) || Clonable(s, id))
    ensures WithCopies(s, id, due).tasks == s.tasks + CopiedTasks(s, id, due) && WithCopies(s, id, due).edges == s.edges
  {
    hide CopiedTasks, Checklist, WellFormed, Clonable;
  }

  lemma GrowsWith(s: State, t: State, rows: map<int, Task>)
    requires t.tasks == s.tasks + rows && t.edges == s.edges
    requires forall a :: a in WaitArrows(s) ==> a.0 in s.tasks.Keys && a.1 in s.tasks.Keys
    requires ChildArrows(s.tasks) <= ChildArrows(s.tasks + rows)
    requires forall a :: a in ChildArrows(s.tasks + rows) && a !in ChildArrows(s.tasks) ==>
               a.0 !in s.tasks.Keys && a.1 !in s.tasks.Keys && a.0 < a.1
    ensures GrowsUpwards(WaitArrows(s), WaitArrows(t), s.tasks.Keys)
  {
    hide ChildArrows, EdgeArrows;
  }

  lemma CopiedParents(s: State, id: int, due: Date)
    requires WellFormed(s) && id in s.tasks
    ensures var rows := CopiedTasks(s, id, due);
            forall n :: n in rows ==>
              n !in s.tasks && (rows[n].parent.Some? ==> rows[n].parent.value !in s.tasks && rows[n].parent.value < n)
  {
    var rows := CopiedTasks(s, id, due);
    hide CopiedTasks, Checklist, CopyRow, WellFormed, Sound;
    forall n | n in rows
      ensures n !in s.tasks && (rows[n].parent.Some? ==> rows[n].parent.value !in s.tasks && rows[n].parent.value < n)
    {
      CopiedRow(s, id, due, n);
    }
  }

  lemma OldEnds(s: State)
    requires WellFormed(s)
    ensures forall a :: a in WaitArrows(s) ==> a.0 in s.tasks.Keys && a.1 in s.tasks.Keys
  {
    hide Forest.Acyclic;
    forall a | a in WaitArrows(s) ensures a.0 in s.tasks.Keys && a.1 in s.tasks.Keys {
      if a in EdgeArrows(s.edges) {
        var e :| e in s.edges && !e.deleted && a == (e.task, e.blocker);
      } else {
        var x :| x in s.tasks && s.tasks[x].parent.Some? && a == (s.tasks[x].parent.value, x);
        assert RowWellFormed(s, s.tasks[x]);
      }
    }
  }

  lemma {:induction false} ReplayNoDeadlock(s: State, inner: seq<Edge>, order: seq<int>, base: int, done: Oracle)
    requires NoDeadlock(s) && forall e :: e in inner ==> e.task in order && e.blocker in order
    ensures ReplayEdges(s, inner, order, base, done).Ok? ==> NoDeadlock(ReplayEdges(s, inner, order, base, done).value)
    decreases |inner|
  {
    hide WaitArrows, Graph.NoCycle, TaskDependencies.AddDependency;
    if inner != [] {
      assert inner[0] in inner;
      var a, b := CopyId(order, base, inner[0].task), CopyId(order, base, inner[0].blocker);
      TaskDependencies.AddDependencyExact(s, a, b, done);
      var r := TaskDependencies.AddDependency(s, a, b, done);
      if r.Ok? { ReplayNoDeadlock(r.value, inner[1..], order, base, done); }
    }
  }

  lemma InsertNoDeadlock(s: State, id: int, due: Date, done: Oracle)
    requires WellFormed(s) && id in s.tasks && NoDeadlock(s)
    ensures InsertOccurrence(s, id, due, done).Ok? ==> NoDeadlock(InsertOccurrence(s, id, due, done).value.0)
  {
    CopiesGrow(s, id, due);
    GrownNoCycle(WaitArrows(s), WaitArrows(WithCopies(s, id, due)), s.tasks.Keys);
    InsertIs(s, id, due, done);
    ChecklistShape(s, id);
    hide WellFormed, Sound, WaitArrows, Graph.NoCycle, Checklist, WithCopies, ReplayEdges, InsertOccurrence, Clonable;
    var order, base := Checklist(s, id), NextId(s.tasks.Keys);
    ReplayNoDeadlock(WithCopies(s, id, due), InnerEdges(s.edges, order), order, base, done);
  }

  lemma CreateNoDeadlock(s: State, id: int, done: Oracle)
    requires WellFormed(s) && Live(s, id) && SeriesHead(s.tasks[id]) && NoDeadlock(s)
    ensures CreateNext(s, id, done).Ok? ==> NoDeadlock(CreateNext(s, id, done).value.0)
  {
    var t := s.tasks[id];
    assert RowWellFormed(s, t);
    hide WellFormed, Sound, NoDeadlock, InsertOccurrence;
    if t.series.None? {
      var next := NextDue(t.due.value, t.repeat.value);
      if next.Some? { InsertNoDeadlock(s, id, next.value, done); }
    } else {
      var slot := RollForward(s, t.series.value, t.due.value, t.repeat.value);
      if slot.Ok? && slot.value.taken.None? { InsertNoDeadlock(s, id, slot.value.due, done); }
    }
  }

  lemma {:induction false} WalkNoDeadlock(s: State, queue: seq<int>, seen: set<int>, spawned: seq<int>, ids: set<int>, done: Oracle)
    requires WellFormed(s) && Enclosed(s, ids) && (forall q :: q in queue ==> q in ids) && NoDeadlock(s)
    ensures var r := Walk(s, queue, seen, spawned, ids, done);
            r.Ok? ==> NoDeadlock(r.value.state)
    decreases |ids - seen|, |queue|
  {
    hide WellFormed, Sound, Enclosed, Spawned, CreateNext, Dependents, NoDeadlock;
    if queue != [] {
      var id := queue[|queue| - 1];
      var rest := queue[..|queue| - 1];
      if id in seen { WalkNoDeadlock(s, rest, seen, spawned, ids, done); } else {
        SubsetSize(ids - (seen + {id}), ids - seen);
        assert id in ids - seen;
        if !Live(s, id) { WalkNoDeadlock(s, rest, seen + {id}, spawned, ids, done); } else {
          ClimbInside(s, id, ids);
          var climbed := rest + ClimbFrom(s.tasks[id]);
          if !done(s, id) { WalkNoDeadlock(s, climbed, seen + {id}, spawned, ids, done); }
          else if SeriesHead(s.tasks[id]) {
            CreateNextSpawned(s, id, done);
            CreateNoDeadlock(s, id, done);
            var next := CreateNext(s, id, done);
            if next.Ok? {
              EnclosedStays(s, next.value.0, ids);
              DependentsInside(next.value.0, id, ids);
              WalkNoDeadlock(next.value.0, climbed + Dependents(next.value.0.edges, id), seen + {id}, spawned + [next.value.1], ids,
                             done);
            }
          } else {
            DependentsInside(s, id, ids);
            WalkNoDeadlock(s, climbed + Dependents(s.edges, id), seen + {id}, spawned, ids, done);
          }
        }
      }
    }
  }

  lemma ReconcileNoDeadlock(s: State, seeds: seq<int>, done: Oracle)
    requires WellFormed(s) && (forall q :: q in seeds ==> q in s.tasks) && NoDeadlock(s)
    ensures Reconcile(s, seeds, done).Ok? ==> NoDeadlock(Reconcile(s, seeds, done).value)
  {
    AllEnclosed(s);
    WalkNoDeadlock(s, seeds, {}, [], s.tasks.Keys, done);
  }

  // ---- rows that keep their parents ---------------------------------------------------------------

  /** Same rows, same parents, same edges: the same wait graph. */
  ghost predicate SameWaits(s: State, t: State) {
    t.edges == s.edges && (forall x :: x in t.tasks <==> x in s.tasks)
    && forall x :: x in s.tasks ==> t.tasks[x].parent == s.tasks[x].parent
  }

  lemma SameGraph(s: State, t: State)
    requires SameWaits(s, t)
    ensures WaitArrows(t) == WaitArrows(s)
  {
    var a, b := ChildArrows(s.tasks), ChildArrows(t.tasks);
    forall e ensures e in a <==> e in b {
      if e in a {
        var x :| x in s.tasks && s.tasks[x].parent.Some? && e == (s.tasks[x].parent.value, x);
        assert (t.tasks[x].parent.value, x) in b;
      }
      if e in b {
        var x :| x in t.tasks && t.tasks[x].parent.Some? && e == (t.tasks[x].parent.value, x);
        assert (s.tasks[x].parent.value, x) in a;
      }
    }
  }

  lemma ThenReconcile(s: State, mid: State, seeds: seq<int>, done: Oracle)
    requires NoDeadlock(s) && SameWaits(s, mid) && WellFormed(mid) && forall q :: q in seeds ==> q in mid.tasks
    ensures Reconcile(mid, seeds, done).Ok? ==> NoDeadlock(Reconcile(mid, seeds, done).value)
  {
    SameGraph(s, mid);
    hide WellFormed, Sound, WaitArrows, Reconcile;
    ReconcileNoDeadlock(mid, seeds, done);
  }

  lemma SameWaitsNoDeadlock(s: State, t: State)
    requires NoDeadlock(s) && SameWaits(s, t)
    ensures NoDeadlock(t)
  {
    SameGraph(s, t);
  }

  // ---- every call --------------------------------------------------------------------------------

  lemma SweepNoDeadlock(s: State, rows: seq<int>, root: int, left: set<int>, done: Oracle)
    requires WellFormed(s) && NoDeadlock(s) && forall x :: x in rows ==> x in s.tasks
    ensures var mid := Cascaded(s, rows, root);
            && WellFormed(mid) && (forall q :: q in Outside(SeedsOf(s, rows), left) ==> q in mid.tasks)
            && var r := Reconcile(mid, Outside(SeedsOf(s, rows), left), done);
            r.Ok? ==> NoDeadlock(r.value)
  {
    CascadedWellFormed(s, rows, root);
    SeedsExist(s, rows);
    assert SameWaits(s, Cascaded(s, rows, root));
    hide WellFormed, Sound, SeedsOf, Reconcile, Cascaded, NoDeadlock;
    ThenReconcile(s, Cascaded(s, rows, root), Outside(SeedsOf(s, rows), left), done);
  }

  lemma SoftDeleteNoDeadlock(s: State, id: int, done: Oracle)
    requires WellFormed(s) && id in s.tasks && NoDeadlock(s)
    ensures SoftDeleteTask(s, id, done).Ok? ==> NoDeadlock(SoftDeleteTask(s, id, done).value)
  {
    hide WellFormed, Sound, SeedsOf, Descendants, Reconcile, Cascaded, Outside, NoDeadlock;
    SweepNoDeadlock(s, Descendants(s, id) + [id], id, Elems(Descendants(s, id) + [id]), done);
  }

  lemma SweepDescendantsNoDeadlock(s: State, id: int, done: Oracle)
    requires WellFormed(s) && id in s.tasks && NoDeadlock(s)
    ensures SoftDeleteDescendants(s, id, done).Ok? ==> NoDeadlock(SoftDeleteDescendants(s, id, done).value)
  {
    hide WellFormed, Sound, SeedsOf, Descendants, Reconcile, Cascaded, Outside, NoDeadlock;
    SweepNoDeadlock(s, Descendants(s, id), id, Elems(Descendants(s, id)) + {id}, done);
  }

  lemma SkipNoDeadlock(s: State, id: int, done: Oracle)
    requires WellFormed(s) && Live(s, id) && NoDeadlock(s)
    ensures SkipOccurrence(s, id, done).Ok? ==> NoDeadlock(SkipOccurrence(s, id, done).value.0)
  {
    if SkipOccurrence(s, id, done).Ok? {
      CreateNextSpawned(s, id, done);
      CreateNoDeadlock(s, id, done);
      hide WellFormed, Sound, CreateNext, SoftDeleteDescendants, NoDeadlock;
      var next := CreateNext(s, id, done).value.0;
      SweepDescendantsNoDeadlock(next, id, done);
      SweptKeeps(next, id, done);
      var swept := SoftDeleteDescendants(next, id, done).value;
      SameWaitsNoDeadlock(swept, MarkSkipped(swept, id));
    }
  }

  lemma RewindNoDeadlock(s: State, id: int, done: Oracle)
    requires WellFormed(s) && Trashed(s, id) && IsUnskip(s, id) && NoDeadlock(s)
    ensures Rewind(s, id, done).Ok? ==> NoDeadlock(Rewind(s, id, done).value.state)
  {
    var live := FirstFollower(s, id);
    ActiveRowsExist(s, live);
    var rows, day := Elems(ActiveWalk(s, live)), s.tasks[id].due.value;
    RewoundWellFormed(s, id, rows, day);
    var mid := Superseded(OnDay(s, rows, day), id);
    MidWaits(s, id, rows, day);
    hide WellFormed, Sound, ActiveWalk, Reconcile, FirstFollower, Superseded, OnDay, MovedRows, PreviousDues, LatestRestored, NoDeadlock;
    ThenReconcile(s, mid, [live], done);
    if Rewind(s, id, done).Ok? {
      SameWaitsNoDeadlock(Reconcile(mid, [live], done).value, Rewind(s, id, done).value.state);
    }
  }

  lemma MidWaits(s: State, id: int, rows: set<int>, day: Date)
    requires id in s.tasks
    ensures SameWaits(s, Superseded(OnDay(s, rows, day), id))
  {
    hide SkipCascade, TaskEvents;
  }

  lemma {:induction false} RestoreNoDeadlock(s: State, id: int, deferred: bool, done: Oracle)
    requires WellFormed(s) && Trashed(s, id) && NoDeadlock(s)
    ensures RestoreTask(s, id, deferred, done).Ok? ==> NoDeadlock(RestoreTask(s, id, deferred, done).value.state)
    decreases |Pending(s)|, 1, 0
  {
    hide WellFormed, Sound, Restores, PlainRestore, Rewind, Pending, NoDeadlock;
    if s.tasks[id].superseded {
    } else if IsUnskip(s, id) {
      RewindNoDeadlock(s, id, done);
    } else {
      PlainNoDeadlock(s, id, deferred, done);
    }
  }

  lemma {:induction false} PlainNoDeadlock(s: State, id: int, deferred: bool, done: Oracle)
    requires WellFormed(s) && Trashed(s, id) && !s.tasks[id].superseded && NoDeadlock(s)
    ensures PlainRestore(s, id, deferred, done).Ok? ==> NoDeadlock(PlainRestore(s, id, deferred, done).value.state)
    decreases |Pending(s)|, 0, 0
  {
    var revived := ReviveRow(s, id);
    SameWaitsNoDeadlock(s, revived);
    hide WellFormed, Sound, Settle, Marked, Restores, Pending, LatestRestored, Sorted, RestoreMarked, NoDeadlock, ReviveRow;
    RevivedWellFormed(s, id);
    RevivedPending(s, id);
    RestoreUndo.MarkedExist(revived, id);
    var ids := Sorted(Marked(revived, id));
    MarkedNoDeadlock(revived, ids, done);
    if PlainRestore(s, id, deferred, done).Ok? {
      var back := if s.tasks[id].skipped then RestoreMarked(revived, ids, done).value else (revived, []);
      SettleNoDeadlock(back.0, [id] + back.1, deferred, done);
      SameWaitsNoDeadlock(Settle(back.0, [id] + back.1, deferred, done).value, PlainRestore(s, id, deferred, done).value.state);
    }
  }

  lemma SettleNoDeadlock(s: State, seeds: seq<int>, deferred: bool, done: Oracle)
    requires WellFormed(s) && NoDeadlock(s) && forall q :: q in seeds ==> q in s.tasks
    ensures Settle(s, seeds, deferred, done).Ok? ==> NoDeadlock(Settle(s, seeds, deferred, done).value)
  {
    hide WellFormed, Sound, NoDeadlock, Reconcile;
    ReconcileNoDeadlock(s, seeds, done);
  }

  lemma {:induction false} MarkedNoDeadlock(s: State, ids: seq<int>, done: Oracle)
    requires WellFormed(s) && NoDeadlock(s) && forall x :: x in ids ==> x in s.tasks
    ensures RestoreMarked(s, ids, done).Ok? ==> NoDeadlock(RestoreMarked(s, ids, done).value.0)
    decreases |Pending(s)|, 1, |ids|
  {
    hide WellFormed, Sound, RestoreTask, Restores, Pending, NoDeadlock;
    if ids != [] && RestoreMarked(s, ids, done).Ok? {
      var x := ids[0];
      assert x in ids;
      if x !in Pending(s) { MarkedNoDeadlock(s, ids[1..], done); } else {
        RestoreUndo.InPending(s, x);
        RestoreShrinks(s, x, true, done);
        RestoreNoDeadlock(s, x, true, done);
        MarkedNoDeadlock(RestoreTask(s, x, true, done).value.state, ids[1..], done);
      }
    }
  }

  lemma SubtreeNoDeadlock(s: State, id: int, done: Oracle)
    requires WellFormed(s) && Trashed(s, id) && NoDeadlock(s)
    ensures RestoreSubtree(s, id, done).Ok? ==> NoDeadlock(RestoreSubtree(s, id, done).value.0)
  {
    hide WellFormed, Sound, RestoreTask, RestoreMarked, Reconcile, Marked, Pending, Restores, NoDeadlock;
    RestoreNoDeadlock(s, id, true, done);
    if RestoreSubtree(s, id, done).Ok? {
      var root := RestoreTask(s, id, true, done).value;
      TaskSteps.RestoresTask(s, id, root);
      RestoreUndo.MarkedExist(root.state, id);
      var ids := Sorted(Marked(root.state, id));
      MarkedNoDeadlock(root.state, ids, done);
      var rest := RestoreMarked(root.state, ids, done).value.0;
      var back := Sorted(set x | x in Marked(s, id) && Live(rest, x));
      ReconcileNoDeadlock(rest, [root.task] + back, done);
    }
  }

  lemma UndoNoDeadlock(s: State, r: Receipt, done: Oracle)
    requires WellFormed(s) && NoDeadlock(s)
    ensures UndoTaskRestore(s, r, done).Ok? ==> NoDeadlock(UndoTaskRestore(s, r, done).value)
  {
    if Accepts(s, r) {
      if r.unskip.None? {
        RetrashedWellFormed(s, r);
        assert SameWaits(s, Retrashed(s, r));
        hide WellFormed, Sound, Reconcile, Accepts, SeedsOf, Reversed, NoDeadlock, Retrashed;
        ThenReconcile(s, Retrashed(s, r), Outside(SeedsOf(s, Reversed(r.restored)), Elems(r.restored)), done);
      } else {
        RestoreUndo.PreviousInStore(s, r.task, r.unskip.value);
        TaskSteps.UnrewindMoves(s, r.unskip.value);
        hide WellFormed, Sound, Accepts, AcceptsUnskip, Unrewound, PreviousMap, NoDeadlock;
        SameWaitsNoDeadlock(s, Unrewound(s, r.unskip.value));
      }
    }
  }

  lemma SoftDeleteProjectNoDeadlock(s: State, p: int, done: Oracle)
    requires WellFormed(s) && p in s.projects && NoDeadlock(s)
    ensures SoftDeleteProject(s, p, done).Ok? ==> NoDeadlock(SoftDeleteProject(s, p, done).value)
  {
    SweptWellFormed(s, p);
    assert SameWaits(s, Swept(s, p)) by { hide Sorted; }
    var seeds := Outside(SeedsOf(s, Sorted(LiveIn(s, p))), LiveIn(s, p));
    hide WellFormed, Sound, Reconcile, Swept, SeedsOf, Outside, NoDeadlock, LiveIn;
    ThenReconcile(s, Swept(s, p), seeds, done);
    if SoftDeleteProject(s, p, done).Ok? {
      SameWaitsNoDeadlock(Reconcile(Swept(s, p), seeds, done).value, SoftDeleteProject(s, p, done).value);
    }
  }

  lemma ModesWait(s: State, p: int)
    requires p in s.projects
    ensures SameWaits(s, Unpacked(s, p)) && SameWaits(s, Released(s, p))
  {
    hide Sorted, BulkEvents;
  }

  lemma LogWaits(s: State, p: int)
    requires NoDeadlock(s)
    ensures NoDeadlock(LogProject(s, p, Restored))
  {
  }

  lemma RestoreProjectNoDeadlock(s: State, p: int, withTasks: bool, done: Oracle)
    requires WellFormed(s) && p in s.projects && NoDeadlock(s)
    ensures RestoreProject(s, p, withTasks, done).Ok? ==> NoDeadlock(RestoreProject(s, p, withTasks, done).value.state)
  {
    UnpackedWellFormed(s, p);
    ProjectUndo.BatchExists(s, p);
    ModesWait(s, p);
    hide WellFormed, Sound, Reconcile, Unpacked, Released, BatchConflict, Archive, NoDeadlock, SameWaits, LogProject;
    if RestoreProject(s, p, withTasks, done).Ok? {
      if withTasks {
        ThenReconcile(s, Unpacked(s, p), Sorted(Archive(s, p)), done);
        LogWaits(Reconcile(Unpacked(s, p), Sorted(Archive(s, p)), done).value, p);
      } else {
        SameWaitsNoDeadlock(s, Released(s, p));
        LogWaits(Released(s, p), p);
      }
    }
  }

  lemma RearchivedWaits(s: State, r: ProjectReceipt)
    requires r.eventId <= |s.events| + 1
    ensures SameWaits(s, Rearchived(s, r))
  {
    hide LoggedIds, WindowStart;
  }

  lemma UndoProjectNoDeadlock(s: State, r: ProjectReceipt, done: Oracle)
    requires WellFormed(s) && NoDeadlock(s)
    ensures UndoProjectRestore(s, r, done).Ok? ==> NoDeadlock(UndoProjectRestore(s, r, done).value)
  {
    if AcceptsProjectUndo(s, r) {
      RearchivedWellFormed(s, r);
      RearchivedWaits(s, r);
      hide WellFormed, Sound, SoftDeleteProject, NoDeadlock, Rearchived, LoggedIds, WindowStart;
      SameWaitsNoDeadlock(s, Rearchived(s, r));
      SoftDeleteProjectNoDeadlock(Rearchived(s, r), r.project, done);
    }
  }

  lemma PurgeNoDeadlock(s: State, id: int)
    requires WellFormed(s) && id in s.tasks && NoDeadlock(s)
    ensures NoDeadlock(TaskPurge.PurgeTask(s, id))
  {
    var t := TaskPurge.PurgeTask(s, id);
    hide TaskPurge.PurgeTask, TaskPurge.Doomed, WellFormed, Sound;
    forall a | a in WaitArrows(t) ensures a in WaitArrows(s) {
      if a in EdgeArrows(t.edges) {
        var e :| e in t.edges && !e.deleted && a == (e.task, e.blocker);
        assert e in s.edges;
      } else {
        var x :| x in t.tasks && t.tasks[x].parent.Some? && a == (t.tasks[x].parent.value, x);
        assert s.tasks[x].parent == t.tasks[x].parent;
        assert (s.tasks[x].parent.value, x) in ChildArrows(s.tasks);
      }
    }
    FewerNoCycle(WaitArrows(t), WaitArrows(s));
  }

  lemma {:induction false} PurgeEachNoDeadlock(s: State, ids: seq<int>)
    requires WellFormed(s) && NoDeadlock(s)
    ensures NoDeadlock(PurgeEach(s, ids))
    decreases |ids|
  {
    hide WellFormed, Sound, TaskPurge.PurgeTask, NoDeadlock;
    if ids != [] {
      if Trashed(s, ids[0]) {
        TaskPurge.PurgeWellFormed(s, ids[0]);
        PurgeNoDeadlock(s, ids[0]);
        PurgeEachNoDeadlock(TaskPurge.PurgeTask(s, ids[0]), ids[1..]);
      } else {
        PurgeEachNoDeadlock(s, ids[1..]);
      }
    }
  }

  lemma {:induction false} PurgeProjectsNoDeadlock(s: State, ps: seq<int>)
    requires WellFormed(s) && NoDeadlock(s)
    ensures PurgeProjects(s, ps).Ok? ==> NoDeadlock(PurgeProjects(s, ps).value)
    decreases |ps|
  {
    hide WellFormed, Sound, PurgeProject, NoDeadlock;
    if ps != [] {
      if ps[0] in s.projects && s.projects[ps[0]].deleted {
        PurgedWellFormed(s, ps[0]);
        PurgeProjectNoDeadlock(s, ps[0]);
        if PurgeProject(s, ps[0]).Ok? { PurgeProjectsNoDeadlock(PurgeProject(s, ps[0]).value, ps[1..]); }
      } else {
        PurgeProjectsNoDeadlock(s, ps[1..]);
      }
    }
  }

  lemma WithoutWaits(s: State, p: int)
    ensures SameWaits(s, WithoutProject(s, p))
  {
    hide Unlinked;
  }

  lemma PurgeProjectNoDeadlock(s: State, p: int)
    requires WellFormed(s) && p in s.projects && NoDeadlock(s)
    ensures PurgeProject(s, p).Ok? ==> NoDeadlock(PurgeProject(s, p).value)
  {
    hide *;
    hide WellFormed;
    PurgeEachNoDeadlock(s, Sorted(TrashedIn(s, p)));
    var cleared := PurgeEach(s, Sorted(TrashedIn(s, p)));
    WithoutWaits(cleared, p);
    SameWaitsNoDeadlock(cleared, WithoutProject(cleared, p));
    PurgedIs(s, p);
  }

  lemma PurgedIs(s: State, p: int)
    requires WellFormed(s) && p in s.projects
    ensures PurgeProject(s, p).Ok? ==> PurgeProject(s, p).value == WithoutProject(PurgeEach(s, Sorted(TrashedIn(s, p))), p)
  {
    hide PurgeEach, WithoutProject, Sorted, TrashedIn, WellFormed, Sound;
  }

  lemma PurgeSelectedNoDeadlock(s: State, ps: seq<int>, ts: seq<int>)
    requires WellFormed(s) && NoDeadlock(s)
    ensures PurgeSelected(s, ps, ts).Ok? ==> NoDeadlock(PurgeSelected(s, ps, ts).value.0)
  {
    PurgeEachNoDeadlock(s, TrashedIds(s, ts));
    hide WellFormed, Sound, PurgeEach, PurgeProjects, NoDeadlock, RemovedIds, TrashedIds, PurgeableIds;
    PurgeProjectsNoDeadlock(PurgeEach(s, TrashedIds(s, ts)), PurgeableIds(s, ps));
  }

  lemma EmptyNoDeadlock(s: State)
    requires WellFormed(s) && NoDeadlock(s)
    ensures EmptyTrash(s).Ok? ==> NoDeadlock(EmptyTrash(s).value.0)
  {
    hide WellFormed, Sound, NoDeadlock, PurgeSelected;
    PurgeSelectedNoDeadlock(s, Sorted(set p | p in s.projects && s.projects[p].deleted), Sorted(TrashedTasks(s)));
  }

  lemma EditDueNoDeadlock(s: State, id: int, due: Option<Date>, done: Oracle)
    requires WellFormed(s) && Live(s, id) && NoDeadlock(s)
    ensures EditDue(s, id, due, done).Ok? ==> NoDeadlock(EditDue(s, id, due, done).value)
  {
    DatedWellFormed(s, id, due);
    assert SameWaits(s, Dated(s, id, due));
    hide WellFormed, Sound, Reconcile, FindLiveOn, NoDeadlock;
    ThenReconcile(s, Dated(s, id, due), [id], done);
    if EditDue(s, id, due, done).Ok? && s.tasks[id].due != due {
      SameWaitsNoDeadlock(Reconcile(Dated(s, id, due), [id], done).value, EditDue(s, id, due, done).value);
    }
  }

  lemma RemoveNoDeadlock(s: State, at: nat, done: Oracle)
    requires WellFormed(s) && NoDeadlock(s)
    ensures Edits.RemoveDependency(s, at, done).Ok? ==> NoDeadlock(Edits.RemoveDependency(s, at, done).value)
  {
    if at < |s.edges| {
      Edits.UnedgedWellFormed(s, at);
      var t := Edits.Unedged(s, at);
      forall a | a in EdgeArrows(t.edges) ensures a in EdgeArrows(s.edges) {
        var e :| e in t.edges && !e.deleted && a == (e.task, e.blocker);
        var k :| 0 <= k < |t.edges| && t.edges[k] == e;
        assert s.edges[k] in s.edges;
      }
      assert WaitArrows(t) <= WaitArrows(s);
      FewerNoCycle(WaitArrows(t), WaitArrows(s));
      hide WellFormed, Sound, Reconcile, Graph.NoCycle, WaitArrows;
      ReconcileNoDeadlock(t, [s.edges[at].task], done);
    }
  }

  /** A new leaf waits for nothing, so what waits for it waits for nothing more. */
  lemma InsertedNoDeadlock(s: State, t: Task)
    requires WellFormed(s) && NoDeadlock(s) && Edits.Fileable(s, t)
    ensures NoDeadlock(Edits.Inserted(s, t))
  {
    var id, u := NextId(s.tasks.Keys), Edits.Inserted(s, t);
    assert id !in s.tasks.Keys;
    OldEnds(s);
    InsertedArrows(s, t);
    if t.parent.Some? {
      hide WellFormed, Sound, WaitArrows, Edits.Inserted;
      if Graph.Reaches(WaitArrows(s), id, t.parent.value) {
        var k: nat :| Graph.Path(WaitArrows(s), id, k, t.parent.value);
        NoWayOut(WaitArrows(s), id, k, t.parent.value);
        assert false;
      }
      Graph.NoCycleIff(WaitArrows(s), t.parent.value, id);
    }
  }

  lemma NoWayOut(g: Graph.Arrows, x: int, k: nat, y: int)
    requires Graph.Path(g, x, k, y) && forall a :: a in g ==> a.0 != x
    ensures x == y
  {
  }

  lemma InsertedArrows(s: State, t: Task)
    requires WellFormed(s) && Edits.Fileable(s, t)
    ensures WaitArrows(Edits.Inserted(s, t))
            == if t.parent.Some? then WaitArrows(s) + {(t.parent.value, NextId(s.tasks.Keys))} else WaitArrows(s)
  {
    hide WellFormed, Sound;
    var id, u := NextId(s.tasks.Keys), Edits.Inserted(s, t);
    assert id !in s.tasks.Keys;
    var more := if t.parent.Some? then {(t.parent.value, id)} else {};
    forall a ensures a in ChildArrows(u.tasks) <==> a in ChildArrows(s.tasks) + more {
      if a in ChildArrows(u.tasks) {
        var x :| x in u.tasks && u.tasks[x].parent.Some? && a == (u.tasks[x].parent.value, x);
        if x != id { assert x in s.tasks && s.tasks[x] == u.tasks[x]; }
      }
      if a in ChildArrows(s.tasks) {
        var x :| x in s.tasks && s.tasks[x].parent.Some? && a == (s.tasks[x].parent.value, x);
        assert x in s.tasks.Keys && x in u.tasks && u.tasks[x] == s.tasks[x];
      }
      if a in more { assert id in u.tasks && u.tasks[id] == t; }
    }
    assert ChildArrows(u.tasks) == ChildArrows(s.tasks) + more;
  }

  lemma CreateTaskNoDeadlock(s: State, draft: Edits.Draft, done: Oracle)
    requires WellFormed(s) && NoDeadlock(s)
    ensures Edits.CreateTask(s, draft, done).Ok? ==> NoDeadlock(Edits.CreateTask(s, draft, done).value)
  {
    hide WellFormed, Sound, Reconcile, NoDeadlock, Edits.NestingLevel, Edits.DraftRow, Edits.Inserted, Edits.Fileable;
    if Edits.CreateTask(s, draft, done).Ok? {
      Edits.DraftFileable(s, draft);
      Edits.InsertedWellFormed(s, draft);
      InsertedNoDeadlock(s, Edits.DraftRow(s, draft));
      ReconcileNoDeadlock(Edits.Inserted(s, Edits.DraftRow(s, draft)), [NextId(s.tasks.Keys)], done);
    }
  }

  lemma DoneNoDeadlock(s: State, id: int, done: Oracle)
    requires WellFormed(s) && Live(s, id) && NoDeadlock(s)
    ensures Edits.MarkDone(s, id, done).Ok? ==> NoDeadlock(Edits.MarkDone(s, id, done).value)
  {
    var mid := Edits.WithStatus(s, id, Done);
    SameShapeWellFormed(s, mid);
    assert SameWaits(s, mid);
    hide WellFormed, Sound, Reconcile, NoDeadlock, Edits.Blocked, Edits.WithStatus;
    ReconcileNoDeadlock(s, [id], done);
    ThenReconcile(s, mid, [id], done);
    if Reconcile(mid, [id], done).Ok? { LoggedNoDeadlock(Reconcile(mid, [id], done).value, id, Completed); }
  }

  lemma LoggedNoDeadlock(s: State, id: int, action: Action)
    requires NoDeadlock(s)
    ensures id in s.tasks ==> NoDeadlock(LogTask(s, id, action))
  {
    if id in s.tasks { SameWaitsNoDeadlock(s, LogTask(s, id, action)); }
  }

  lemma RefileNoDeadlock(s: State, id: int, to: Option<int>, done: Oracle)
    requires WellFormed(s) && Live(s, id) && NoDeadlock(s)
    ensures Edits.Refile(s, id, to, done).Ok? ==> NoDeadlock(Edits.Refile(s, id, to, done).value)
  {
    var p := if to.Some? then to.value else GENERAL;
    Edits.GeneralLive(s);
    if LiveProject(s, p) {
      var mid := Edits.FiledIn(s, id, p);
      Edits.FiledWellFormed(s, id, p);
      assert SameWaits(s, mid);
      hide WellFormed, Sound, Reconcile, NoDeadlock, Edits.FiledIn;
      ThenReconcile(s, mid, [id], done);
      if Reconcile(mid, [id], done).Ok? { LoggedNoDeadlock(Reconcile(mid, [id], done).value, id, Updated); }
    }
  }

  lemma RecurNoDeadlock(s: State, id: int, repeat: Option<Interval>, due: Option<Date>, mint: string, done: Oracle)
    requires WellFormed(s) && Live(s, id) && NoDeadlock(s) && (repeat.Some? ==> ValidInterval(repeat.value))
    ensures var r := Edits.EditRecurrence(s, id, repeat, due, mint, done);
            r.Ok? ==> NoDeadlock(r.value)
  {
    var mid := Edits.Recurring(s, id, repeat, due, mint);
    Edits.RecurringWellFormed(s, id, repeat, due, mint);
    assert SameWaits(s, mid);
    hide WellFormed, Sound, Reconcile, NoDeadlock, Edits.Recurring, FindLiveOn, NextDue;
    ThenReconcile(s, mid, [id], done);
    if Reconcile(mid, [id], done).Ok? { LoggedNoDeadlock(Reconcile(mid, [id], done).value, id, Updated); }
  }

  lemma StepNoDeadlock(s: State, step: Step, done: Oracle)
    requires WellFormed(s) && NoDeadlock(s)
    ensures Attempt(s, step, done).Ok? ==> NoDeadlock(Attempt(s, step, done).value)
  {
    hide WellFormed, Sound, SoftDeleteTask, SkipOccurrence, Reconcile, RestoreTask, RestoreSubtree, UndoTaskRestore, TaskPurge.PurgeTask,
         SoftDeleteProject, RestoreProject, UndoProjectRestore, PurgeSelected, EmptyTrash, TaskDependencies.AddDependency,
         Graph.NoCycle, WaitArrows, EditDue, Edits.RemoveDependency, Edits.CreateTask, Edits.MarkDone, Edits.Refile,
         Edits.EditRecurrence, Edits.Unused, Edits.NestsSeries;
    match step
    case TrashTask(id) => if Live(s, id) { SoftDeleteNoDeadlock(s, id, done); }
    case Skip(id) => if Live(s, id) { SkipNoDeadlock(s, id, done); }
    case ReconcileTasks(ids) => if forall q :: q in ids ==> q in s.tasks { ReconcileNoDeadlock(s, ids, done); }
    case RestoreOne(id) => if Trashed(s, id) { RestoreNoDeadlock(s, id, false, done); }
    case RestoreTree(id) => if Trashed(s, id) { SubtreeNoDeadlock(s, id, done); }
    case UndoTask(receipt) => UndoNoDeadlock(s, receipt, done);
    case PurgeOne(id) => if Trashed(s, id) { PurgeNoDeadlock(s, id); }
    case TrashProject(p) => if LiveProject(s, p) { SoftDeleteProjectNoDeadlock(s, p, done); }
    case ReopenProject(p, withTasks) =>
      if p in s.projects && s.projects[p].deleted { RestoreProjectNoDeadlock(s, p, withTasks, done); }
    case UndoProject(receipt) => UndoProjectNoDeadlock(s, receipt, done);
    case Purge(ps, ts) => PurgeSelectedNoDeadlock(s, ps, ts);
    case Empty => EmptyNoDeadlock(s);
    case AddEdge(task, blocker) => TaskDependencies.AddDependencyExact(s, task, blocker, done);
    case RemoveEdge(at) => RemoveNoDeadlock(s, at, done);
    case Create(draft) => CreateTaskNoDeadlock(s, draft, done);
    case Complete(id) => if Live(s, id) { DoneNoDeadlock(s, id, done); }
    case Refile(id, to) => if Live(s, id) { RefileNoDeadlock(s, id, to, done); }
    case Recur(id, repeat, due, mint) =>
      if Live(s, id) && MayRecur(s, id, repeat, mint) { RecurNoDeadlock(s, id, repeat, due, mint, done); }
    case MoveDue(id, due) => if Live(s, id) { EditDueNoDeadlock(s, id, due, done); }
  }

  /** Over any run, no task ever comes to wait on itself. */
  lemma {:induction false} RunNeverDeadlocks(s: State, steps: seq<Step>, done: Oracle)
    requires Consistent(s) && NoDeadlock(s)
    ensures NoDeadlock(Run(s, steps, done))
    decreases |steps|
  {
    TaskSteps.ConsistentWellFormed(s);
    hide WellFormed, Sound, Consistent, Attempt, NoDeadlock;
    if steps != [] {
      StepKeeps(s, steps[0], done);
      StepNoDeadlock(s, steps[0], done);
      var r := Attempt(s, steps[0], done);
      RunNeverDeadlocks(if r.Ok? then r.value else s, steps[1..], done);
    }
  }
}
