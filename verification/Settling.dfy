/**
 Which tasks a call reconciles: every task whose effective status the call may have moved, so that a
 finished occurrence always has its next one (backend/app/services/task_recurrence.py, `reconcile`).
 */
module Settling {
  import opened Common
  import opened Calendar
  import opened Store
  import opened TaskRecurrence
  import opened Tasks
  import opened TaskTrash
  import opened Projects
  import Effects
  import Edits
  import Runs
  import Reparenting
  import RunLog
  import ProjectUndo
  import WaitRuns
  import Forest

  /** An effective status is read off the rows and the edges; projects and the log have no part in it. */
  ghost predicate FromRows(done: Oracle) {
    && SpawnStable(done)
    && forall a: State, b: State, x :: a.tasks == b.tasks && a.edges == b.edges ==> (done(a, x) <==> done(b, x))
  }

  /** In `t`, which came out of `s`, a live finished occurrence `q` has a live one on its next open date. */
  ghost predicate Continued(s: State, t: State, q: int, done: Oracle) {
    Live(t, q) && done(t, q) && t.tasks[q].repeat.Some? ==>
      ValidInterval(t.tasks[q].repeat.value) && HasSuccessor(s, t, t.tasks[q])
  }

  // ---- one reconcile ------------------------------------------------------------------------------

  lemma {:induction false} RollForwardSame(a: State, b: State, series: string, from: Date, iv: Interval)
    requires ValidInterval(iv) && a.tasks == b.tasks
    ensures RollForward(a, series, from, iv) == RollForward(b, series, from, iv)
    decreases MAX_ORDINAL - from
  {
    NextDueIsLater(from, iv);
    var next := NextDue(from, iv);
    hide NextDue;
    if next.Some? {
      assert LiveOn(a, series, next.value) == LiveOn(b, series, next.value);
      RollForwardSame(a, b, series, next.value, iv);
    }
  }

  lemma SuccessorSame(s: State, mid: State, a: State, b: State, t: Task)
    requires (t.repeat.Some? ==> ValidInterval(t.repeat.value)) && a.tasks == b.tasks
    requires forall x :: x in s.tasks ==> x in mid.tasks
    requires HasSuccessor(mid, a, t)
    ensures HasSuccessor(s, b, t)
  {
    hide RollForward, NextDue;
    if t.repeat.Some? && t.due.Some? {
      if t.series.Some? { RollForwardSame(a, b, t.series.value, t.due.value, t.repeat.value); }
    }
  }

  /** Every seed that is a finished occurrence has its next one when the reconcile is through. */
  lemma SeedContinues(mid: State, seeds: seq<int>, q: int, done: Oracle)
    requires WellFormed(mid) && (forall x :: x in seeds ==> x in mid.tasks) && q in seeds && SpawnStable(done)
    ensures var r := Reconcile(mid, seeds, done);
            r.Ok? ==> Spawned(mid, r.value) && (Live(mid, q) <==> Live(r.value, q)) && Continued(mid, r.value, q, done)
  {
    ReconcileSpawned(mid, seeds, done);
    ReconcileReaches(mid, seeds, done);
    var r := Reconcile(mid, seeds, done);
    hide Sound, WellFormed, Reconcile, SpawnEvent, OnOpenSlot, FreshRow, WalkClosed, Clonable, HasSuccessor;
    if r.Ok? && Live(r.value, q) {
      assert q in mid.tasks && r.value.tasks[q] == mid.tasks[q];
      assert done(mid, q) <==> done(r.value, q);
    }
  }

  /** The same in the store the call hands back: what comes after its reconcile writes no row and no edge. */
  lemma SeedSettles(s: State, mid: State, seeds: seq<int>, t: State, q: int, done: Oracle)
    requires WellFormed(mid) && (forall x :: x in seeds ==> x in mid.tasks) && q in seeds && FromRows(done)
    requires (forall x :: x in s.tasks ==> x in mid.tasks) && Reconcile(mid, seeds, done).Ok?
    requires t.tasks == Reconcile(mid, seeds, done).value.tasks && t.edges == Reconcile(mid, seeds, done).value.edges
    ensures Continued(s, t, q, done)
  {
    SeedContinues(mid, seeds, q, done);
    hide WellFormed, Spawned, Reconcile, HasSuccessor, SpawnStable;
    var r := Reconcile(mid, seeds, done).value;
    assert done(t, q) <==> done(r, q);
    if Live(t, q) && done(t, q) && t.tasks[q].repeat.Some? { SuccessorSame(s, mid, r, t, t.tasks[q]); }
  }

  /** A reconcile writes nothing when no finished occurrence is in reach of its seeds. */
  lemma IdleReconcile(s: State, seeds: seq<int>, bound: set<int>, done: Oracle)
    requires WellFormed(s) && (forall q :: q in seeds ==> q in s.tasks) && SpawnStable(done)
    requires bound <= s.tasks.Keys && (forall q :: q in seeds ==> q in bound) && WalkClosed(s, bound, done)
    requires forall x :: x in bound && Live(s, x) && done(s, x) ==> s.tasks[x].repeat.None? || s.tasks[x].due.None?
    ensures Reconcile(s, seeds, done) == Ok(s)
  {
    AllEnclosed(s);
    IdleWalk(s, seeds, {}, [], s.tasks.Keys, bound, done);
  }

  lemma {:induction false} IdleWalk(
      s: State, queue: seq<int>, seen: set<int>, spawned: seq<int>, ids: set<int>, bound: set<int>, done: Oracle)
    requires WellFormed(s) && Enclosed(s, ids) && bound <= ids && (forall q :: q in queue ==> q in ids && q in bound)
    requires WalkClosed(s, bound, done)
    requires forall x :: x in bound && Live(s, x) && done(s, x) ==> s.tasks[x].repeat.None? || s.tasks[x].due.None?
    ensures Walk(s, queue, seen, spawned, ids, done).Ok? && Walk(s, queue, seen, spawned, ids, done).value.state == s
    decreases |ids - seen|, |queue|
  {
    hide WellFormed, Sound, Enclosed, Dependents, WalkClosed, CreateNext;
    if queue != [] {
      var id := queue[|queue| - 1];
      var rest := queue[..|queue| - 1];
      assert id in bound;
      if id in seen { IdleWalk(s, rest, seen, spawned, ids, bound, done); } else {
        SubsetSize(ids - (seen + {id}), ids - seen);
        assert id in ids - seen;
        if !Live(s, id) { IdleWalk(s, rest, seen + {id}, spawned, ids, bound, done); } else {
          ClimbInside(s, id, ids);
          OneStepInside(s, id, bound, done);
          var climbed := rest + ClimbFrom(s.tasks[id]);
          if !done(s, id) { IdleWalk(s, climbed, seen + {id}, spawned, ids, bound, done); } else {
            DependentsInside(s, id, ids);
            IdleWalk(s, climbed + Dependents(s.edges, id), seen + {id}, spawned, ids, bound, done);
          }
        }
      }
    }
  }

  // ---- rows that go -------------------------------------------------------------------------------

  /** `q` is the parent of `x`, or waits for it by an active edge. */
  predicate Touches(s: State, x: int, q: int) {
    x in s.tasks && (s.tasks[x].parent == Some(q) || exists e :: e in s.edges && !e.deleted && e.task == q && e.blocker == x)
  }

  /** The seeds of rows that go are the parents of these rows and the tasks waiting for them. */
  lemma {:induction false} SeedsTouch(s: State, ids: seq<int>, q: int)
    requires forall x :: x in ids ==> x in s.tasks
    ensures q in SeedsOf(s, ids) <==> exists x :: x in ids && Touches(s, x, q)
  {
    if ids != [] {
      var x := ids[0];
      assert x in ids;
      SeedsTouch(s, ids[1..], q);
      assert q in Dependents(s.edges, x) <==> exists e :: e in s.edges && !e.deleted && e.task == q && e.blocker == x by {
        assert q in Dependents(s.edges, x) <==> (q, x) in EdgeArrows(s.edges);
        if e :| e in s.edges && !e.deleted && e.task == q && e.blocker == x { assert (q, x) == (e.task, e.blocker); }
      }
      assert forall y :: y in ids <==> y == x || y in ids[1..];
      assert q in SeedsOf(s, ids) <==> q in Dependents(s.edges, x) || s.tasks[x].parent == Some(q) || q in SeedsOf(s, ids[1..]);
    }
  }

  /** Trashing a task settles the parents of the rows it takes and the tasks that waited for them. */
  lemma TrashSettles(s: State, id: int, x: int, q: int, done: Oracle)
    requires WellFormed(s) && Live(s, id) && FromRows(done) && SoftDeleteTask(s, id, done).Ok?
    requires x in s.tasks && q in s.tasks && Effects.InSubtree(s, x, id) && !Effects.InSubtree(s, q, id) && Touches(s, x, q)
    ensures Continued(s, SoftDeleteTask(s, id, done).value, q, done)
  {
    var rows := Descendants(s, id) + [id];
    var mid := Cascaded(s, rows, id);
    CascadedWellFormed(s, rows, id);
    SeedsExist(s, rows);
    SeedsTouch(s, rows, q);
    Effects.SubtreeIs(s, x, id);
    Effects.SubtreeIs(s, q, id);
    assert forall y :: y in rows <==> y in Elems(Descendants(s, id)) + {id};
    hide WellFormed, Sound, Descendants, Reconcile, SeedsOf, Touches, TaskEvents, Forest.Subtree, Effects.InSubtree, Continued, FromRows;
    SeedSettles(s, mid, Outside(SeedsOf(s, rows), Elems(rows)), SoftDeleteTask(s, id, done).value, q, done);
  }

  /** Trashing a project does so for its live rows. */
  lemma ProjectTrashSettles(s: State, p: int, x: int, q: int, done: Oracle)
    requires WellFormed(s) && p in s.projects && FromRows(done) && SoftDeleteProject(s, p, done).Ok?
    requires Live(s, x) && s.tasks[x].project == p && q in s.tasks && (s.tasks[q].deleted || s.tasks[q].project != p) && Touches(s, x, q)
    ensures Continued(s, SoftDeleteProject(s, p, done).value, q, done)
  {
    SweptSpawned(s, p, done);
    RunLog.DeleteUnfolds(s, p, done);
    var rows := Sorted(LiveIn(s, p));
    SeedsTouch(s, rows, q);
    assert x in rows && q !in LiveIn(s, p);
    var seeds := Outside(SeedsOf(s, rows), LiveIn(s, p));
    assert q in seeds;
    hide WellFormed, Sound, Reconcile, SeedsOf, Outside, SoftDeleteProject, Sorted, BulkEvents, Touches, Continued, FromRows;
    assert forall y :: y in s.tasks ==> y in Swept(s, p).tasks;
    SeedSettles(s, Swept(s, p), seeds, SoftDeleteProject(s, p, done).value, q, done);
  }

  /** Undoing a restore in place does so for the rows it puts back. */
  lemma RetrashSettles(s: State, r: Receipt, x: int, q: int, done: Oracle)
    requires WellFormed(s) && r.unskip.None? && FromRows(done) && UndoTaskRestore(s, r, done).Ok?
    requires x in r.restored && q in s.tasks && q !in r.restored && Touches(s, x, q)
    ensures Continued(s, UndoTaskRestore(s, r, done).value, q, done)
  {
    RetrashedWellFormed(s, r);
    var rows := Reversed(r.restored);
    SeedsTouch(s, rows, q);
    var seeds := Outside(SeedsOf(s, rows), Elems(r.restored));
    assert q in seeds;
    hide WellFormed, Sound, Reconcile, SeedsOf, Outside, Touches, Continued, FromRows, RetrashEvents, RetrashedRow, Reversed, AcceptsPlain, BoundToRestore;
    assert forall y :: y in s.tasks ==> y in Retrashed(s, r).tasks;
    SeedSettles(s, Retrashed(s, r), seeds, UndoTaskRestore(s, r, done).value, q, done);
  }

  // ---- rows that come back ------------------------------------------------------------------------

  /** A project comes back with each of its rows settled. */
  lemma ProjectRestoreSettles(s: State, p: int, q: int, done: Oracle)
    requires WellFormed(s) && p in s.projects && FromRows(done) && RestoreProject(s, p, true, done).Ok?
    requires Trashed(s, q) && s.tasks[q].withProject == Some(p)
    ensures Continued(s, RestoreProject(s, p, true, done).value.state, q, done)
  {
    UnpackedWellFormed(s, p);
    ProjectUndo.BatchExists(s, p);
    RunLog.RestoreUnfolds(s, p, true, done);
    assert q in Sorted(Archive(s, p));
    hide WellFormed, Sound, Reconcile, RestoreProject, Sorted, BulkEvents, Continued, FromRows;
    assert forall y :: y in s.tasks ==> y in Unpacked(s, p).tasks;
    SeedSettles(s, Unpacked(s, p), Sorted(Archive(s, p)), RestoreProject(s, p, true, done).value.state, q, done);
  }

  /** An un-skip settles the occurrence it moved. */
  lemma RewindSettled(s: State, id: int, done: Oracle)
    requires WellFormed(s) && Trashed(s, id) && IsUnskip(s, id) && Rewind(s, id, done).Ok? && FromRows(done)
    ensures Continued(s, Rewind(s, id, done).value.state, Rewind(s, id, done).value.task, done)
  {
    var live, day := FirstFollower(s, id), s.tasks[id].due.value;
    var mid := Superseded(OnDay(s, Elems(ActiveWalk(s, live)), day), id);
    RewindSettles(s, id, done);
    assert forall y :: y in s.tasks ==> y in mid.tasks;
    hide *;
    hide WellFormed;
    RewindStore(s, mid, live, Rewind(s, id, done).value.state, done);
  }

  lemma RewindStore(s: State, mid: State, live: int, t: State, done: Oracle)
    requires WellFormed(mid) && live in mid.tasks && FromRows(done) && (forall y :: y in s.tasks ==> y in mid.tasks)
    requires Reconcile(mid, [live], done).Ok? && SameRows(Reconcile(mid, [live], done).value, t)
    ensures Continued(s, t, live, done)
  {
    hide WellFormed, Reconcile, Continued, FromRows;
    assert live in [live];
    SeedSettles(s, mid, [live], t, live, done);
  }

  /** A task restored in place, and every row its skip had taken and that came back with it, is settled. */
  lemma RestoreSettles(s: State, id: int, q: int, done: Oracle)
    requires WellFormed(s) && Trashed(s, id) && !s.tasks[id].superseded && PlainRestore(s, id, false, done).Ok? && FromRows(done)
    requires q in PlainRestore(s, id, false, done).value.receipt.restored
    ensures Continued(s, PlainRestore(s, id, false, done).value.state, q, done)
  {
    var revived := ReviveRow(s, id);
    RevivedWellFormed(s, id);
    var back := if s.tasks[id].skipped then RestoreMarked(revived, Sorted(Marked(revived, id)), done) else Ok((revived, []));
    assert back.Ok?;
    var restored := [id] + back.value.1;
    assert forall y :: y in s.tasks ==> y in revived.tasks;
    assert forall y :: y in restored ==> y in back.value.0.tasks;
    hide WellFormed, Sound, Reconcile, RestoreMarked, Continued, FromRows, Marked, Sorted;
    var t := PlainRestore(s, id, false, done).value.state;
    assert t.tasks == Reconcile(back.value.0, restored, done).value.tasks && t.edges == Reconcile(back.value.0, restored, done).value.edges;
    SeedSettles(s, back.value.0, restored, t, q, done);
  }

  /** Restoring a subtree settles its root and every row that came back with it. */
  lemma SubtreeSettles(s: State, id: int, q: int, done: Oracle)
    requires WellFormed(s) && Trashed(s, id) && RestoreSubtree(s, id, done).Ok? && FromRows(done)
    requires var root := RestoreTask(s, id, true, done);
             root.Ok? ==> q == root.value.task || (q in Marked(s, id) && Live(RestoreSubtree(s, id, done).value.0, q))
    ensures Continued(s, RestoreSubtree(s, id, done).value.0, q, done)
  {
    var marked := Marked(s, id);
    var root := RestoreTask(s, id, true, done);
    var rest := RestoreMarked(root.value.state, Sorted(Marked(root.value.state, id)), done);
    var back := Sorted(set x | x in marked && Live(rest.value.0, x));
    var mid, seeds := rest.value.0, [root.value.task] + back;
    assert forall y :: y in s.tasks ==> y in root.value.state.tasks;
    assert forall y :: y in s.tasks ==> y in mid.tasks;
    assert forall y :: y in seeds ==> y in mid.tasks;
    ReconcileSpawned(mid, seeds, done);
    assert q in seeds;
    hide WellFormed, Sound, Reconcile, RestoreMarked, RestoreTask, Continued, FromRows, Marked, Sorted;
    SeedSettles(s, mid, seeds, RestoreSubtree(s, id, done).value.0, q, done);
  }

  // ---- the everyday writes ------------------------------------------------------------------------

  /** A move settles both of its ends: the task, the parent it leaves and the parent it comes to. */
  lemma MoveSettlesBothEnds(s: State, id: int, parent: Option<int>, q: int, done: Oracle)
    requires WellFormed(s) && WaitRuns.NoDeadlock(s) && Live(s, id) && FromRows(done)
    requires Reparenting.Reparent(s, id, parent, done).Ok? && s.tasks[id].parent != parent
    requires q == id || s.tasks[id].parent == Some(q) || parent == Some(q)
    ensures Continued(s, Reparenting.Reparent(s, id, parent, done).value, q, done)
  {
    Reparenting.MoveKeeps(s, id, parent);
    var mid, seeds := Reparenting.Under(s, id, parent), Reparenting.MoveSeeds(s, id, parent);
    hide WellFormed, Sound, Reconcile, Continued, FromRows, NextDue, WaitRuns.NoDeadlock, Reparenting.MoveRefused;
    assert q in seeds;
    assert forall y :: y in s.tasks ==> y in mid.tasks;
    SeedSettles(s, mid, seeds, Reparenting.Reparent(s, id, parent, done).value, q, done);
  }

  lemma CreateSettles(s: State, d: Edits.Draft, done: Oracle)
    requires WellFormed(s) && Edits.CreateTask(s, d, done).Ok? && FromRows(done)
    ensures Continued(s, Edits.CreateTask(s, d, done).value, NextId(s.tasks.Keys), done)
  {
    Edits.InsertedWellFormed(s, d);
    var mid := Edits.Inserted(s, Edits.DraftRow(s, d));
    hide WellFormed, Sound, Reconcile, Continued, FromRows, Edits.NestingLevel, NextId;
    assert forall y :: y in s.tasks ==> y in mid.tasks;
    SeedSettles(s, mid, [NextId(s.tasks.Keys)], Edits.CreateTask(s, d, done).value, NextId(s.tasks.Keys), done);
  }

  /** Completing a task without live subtasks settles it. */
  lemma DoneSettles(s: State, id: int, done: Oracle)
    requires WellFormed(s) && Live(s, id) && Edits.MarkDone(s, id, done).Ok? && FromRows(done) && !Effects.HasLiveSubtask(s, id)
    ensures Continued(s, Edits.MarkDone(s, id, done).value, id, done)
  {
    assert Forest.Kids(LiveLinks(s.tasks), id) == {} by {
      forall c ensures c !in Forest.Kids(LiveLinks(s.tasks), id) {
        assert c in LiveLinks(s.tasks) && LiveLinks(s.tasks)[c] == id ==> Effects.HasLiveSubtask(s, id);
      }
    }
    var mid := Edits.WithStatus(s, id, Done);
    SameShapeWellFormed(s, mid);
    hide WellFormed, Sound, Reconcile, Continued, FromRows, Edits.Blocked, Effects.HasLiveSubtask;
    assert forall y :: y in s.tasks ==> y in mid.tasks;
    if s.tasks[id].status == Done { SeedSettles(s, s, [id], Edits.MarkDone(s, id, done).value, id, done); }
    else { SeedSettles(s, mid, [id], Edits.MarkDone(s, id, done).value, id, done); }
  }

  lemma RefileSettles(s: State, id: int, to: Option<int>, done: Oracle)
    requires WellFormed(s) && Live(s, id) && Edits.Refile(s, id, to, done).Ok? && FromRows(done)
    requires s.tasks[id].project != if to.Some? then to.value else 1
    ensures Continued(s, Edits.Refile(s, id, to, done).value, id, done)
  {
    var p := if to.Some? then to.value else GENERAL;
    Edits.GeneralLive(s);
    Edits.FiledWellFormed(s, id, p);
    var mid := Edits.FiledIn(s, id, p);
    hide WellFormed, Sound, Reconcile, Continued, FromRows, NextDue;
    assert forall y :: y in s.tasks ==> y in mid.tasks;
    SeedSettles(s, mid, [id], Edits.Refile(s, id, to, done).value, id, done);
  }

  lemma RecurSettles(s: State, id: int, repeat: Option<Interval>, due: Option<Date>, mint: string, done: Oracle)
    requires WellFormed(s) && Live(s, id) && (repeat.Some? ==> ValidInterval(repeat.value)) && FromRows(done)
    requires Edits.EditRecurrence(s, id, repeat, due, mint, done).Ok? && (s.tasks[id].repeat != repeat || s.tasks[id].due != due)
    ensures Continued(s, Edits.EditRecurrence(s, id, repeat, due, mint, done).value, id, done)
  {
    Edits.RecurringWellFormed(s, id, repeat, due, mint);
    var mid := Edits.Recurring(s, id, repeat, due, mint);
    hide WellFormed, Sound, Reconcile, Continued, FromRows, NextDue, ValidInterval, FindLiveOn;
    assert forall y :: y in s.tasks ==> y in mid.tasks;
    SeedSettles(s, mid, [id], Edits.EditRecurrence(s, id, repeat, due, mint, done).value, id, done);
  }

  lemma DueSettles(s: State, id: int, due: Option<Date>, done: Oracle)
    requires WellFormed(s) && Live(s, id) && Runs.EditDue(s, id, due, done).Ok? && FromRows(done) && s.tasks[id].due != due
    ensures Continued(s, Runs.EditDue(s, id, due, done).value, id, done)
  {
    Runs.DatedWellFormed(s, id, due);
    var mid := Runs.Dated(s, id, due);
    hide WellFormed, Sound, Reconcile, Continued, FromRows, NextDue, FindLiveOn;
    assert forall y :: y in s.tasks ==> y in mid.tasks;
    SeedSettles(s, mid, [id], Runs.EditDue(s, id, due, done).value, id, done);
  }

  /** Removing an edge settles the task that no longer waits. */
  lemma UnedgeSettles(s: State, at: nat, done: Oracle)
    requires WellFormed(s) && Edits.RemoveDependency(s, at, done).Ok? && FromRows(done)
    ensures at < |s.edges| && Continued(s, Edits.RemoveDependency(s, at, done).value, s.edges[at].task, done)
  {
    Edits.UnedgedWellFormed(s, at);
    var mid := Edits.Unedged(s, at);
    hide WellFormed, Sound, Reconcile, Continued, FromRows;
    SeedSettles(s, mid, [s.edges[at].task], Edits.RemoveDependency(s, at, done).value, s.edges[at].task, done);
  }
}
