/**
 The activity log each call leaves: for the tasks that were there before, exactly which events, so
 that the log tells what happened (backend/app/services/activity.py as the task services call it).
 */
module Audit {
  import opened Common
  import opened Calendar
  import opened Store
  import opened TaskRecurrence
  import opened Tasks
  import opened TaskTrash
  import opened TaskPurge
  import opened Projects
  import opened Effects
  import Edits
  import Runs
  import Reparenting
  import TaskDependencies
  import RunLog
  import ProjectUndo
  import WaitRuns
  import Forest

  predicate Names(e: Event, x: int, action: Action, note: Note) {
    e.entity == TaskEntity && e.entityId == x && e.action == action && e.note == note
  }

  /** The log of `t` goes on from the one of `s` with such an event on the task `x`. */
  ghost predicate Logged(s: State, t: State, x: int, action: Action, note: Note) {
    exists i :: |s.events| <= i < |t.events| && Names(t.events[i], x, action, note)
  }

  // ---- pieces of a log ----------------------------------------------------------------------------

  lemma LoggedBy(s: State, mid: State, t: State, x: int, action: Action, note: Note)
    requires s.events <= mid.events <= t.events
    ensures Logged(s, t, x, action, note) <==> Logged(s, mid, x, action, note) || Logged(mid, t, x, action, note)
  {
    if Logged(s, t, x, action, note) {
      var i :| |s.events| <= i < |t.events| && Names(t.events[i], x, action, note);
      if i < |mid.events| { assert mid.events[i] == t.events[i]; }
    }
    if Logged(s, mid, x, action, note) {
      var i :| |s.events| <= i < |mid.events| && Names(mid.events[i], x, action, note);
      assert t.events[i] == mid.events[i];
    }
  }

  /** A reconcile logs nothing on the rows there were. */
  lemma ReconcileLogs(mid: State, seeds: seq<int>, done: Oracle, x: int, action: Action, note: Note)
    requires WellFormed(mid) && (forall q :: q in seeds ==> q in mid.tasks) && x in mid.tasks
    ensures var r := Reconcile(mid, seeds, done);
            r.Ok? ==> mid.events <= r.value.events && !Logged(mid, r.value, x, action, note)
  {
    ReconcileSpawned(mid, seeds, done);
    hide WellFormed, Sound, Reconcile, OnOpenSlot, FreshRow;
  }

  /** One event of a kind on each of these tasks. */
  ghost predicate EachOnce(log: seq<Event>, ids: seq<int>, a: Action, n: Note) {
    |log| == |ids| && forall i :: 0 <= i < |log| ==> Names(log[i], ids[i], a, n)
  }

  lemma ListLog(s: State, t: State, log: seq<Event>, ids: seq<int>, a: Action, n: Note, x: int, action: Action, note: Note)
    requires EachOnce(log, ids, a, n) && t.events == s.events + log
    ensures Logged(s, t, x, action, note) <==> x in ids && action == a && note == n
  {
    if Logged(s, t, x, action, note) {
      var i :| |s.events| <= i < |t.events| && Names(t.events[i], x, action, note);
      assert t.events[i] == log[i - |s.events|];
    }
    if x in ids && action == a && note == n {
      var k :| 0 <= k < |ids| && ids[k] == x;
      assert t.events[|s.events| + k] == log[k];
      assert Names(t.events[|s.events| + k], x, action, note);
    }
  }

  lemma TaskEventsLog(s: State, t: State, tasks: map<int, Task>, ids: seq<int>, a: Action, n: Note, x: int, action: Action, note: Note)
    requires (forall y :: y in ids ==> y in tasks) && t.events == s.events + TaskEvents(tasks, ids, a, n)
    ensures Logged(s, t, x, action, note) <==> x in ids && action == a && note == n
  {
    assert EachOnce(TaskEvents(tasks, ids, a, n), ids, a, n);
    hide TaskEvents, EachOnce, Logged;
    ListLog(s, t, TaskEvents(tasks, ids, a, n), ids, a, n, x, action, note);
  }

  lemma BulkEventsLog(s: State, t: State, p: int, ids: seq<int>, a: Action, n: Note, x: int, action: Action, note: Note)
    requires t.events == s.events + BulkEvents(p, ids, a, n)
    ensures Logged(s, t, x, action, note) <==> x in ids && action == a && note == n
  {
    assert EachOnce(BulkEvents(p, ids, a, n), ids, a, n);
    hide BulkEvents, EachOnce, Logged;
    ListLog(s, t, BulkEvents(p, ids, a, n), ids, a, n, x, action, note);
  }

  lemma LastLog(s: State, t: State, e: Event, x: int, action: Action, note: Note)
    requires t.events == s.events + [e]
    ensures Logged(s, t, x, action, note) <==> Names(e, x, action, note)
  {
    assert t.events[|s.events|] == e;
    if Names(e, x, action, note) { assert Names(t.events[|s.events|], x, action, note); }
  }

  lemma NoLog(s: State, t: State, x: int, action: Action, note: Note)
    requires t.events == s.events
    ensures !Logged(s, t, x, action, note)
  {
  }

  // ---- into the trash -----------------------------------------------------------------------------

  /** A delete logs `deleted` on exactly the rows it takes. */
  lemma TrashLogs(s: State, id: int, done: Oracle, x: int, action: Action, note: Note)
    requires WellFormed(s) && Live(s, id) && x in s.tasks && SoftDeleteTask(s, id, done).Ok?
    ensures Logged(s, SoftDeleteTask(s, id, done).value, x, action, note) <==> InSubtree(s, x, id) && action == Deleted && note == Usual
  {
    var rows := Descendants(s, id) + [id];
    var mid := Cascaded(s, rows, id);
    CascadedWellFormed(s, rows, id);
    SeedsExist(s, rows);
    SubtreeIs(s, x, id);
    assert x in rows <==> x in Elems(Descendants(s, id)) + {id};
    hide WellFormed, Sound, Descendants, Reconcile, SeedsOf, TaskEvents, Forest.Subtree, InSubtree, Logged;
    ReconcileLogs(mid, Outside(SeedsOf(s, rows), Elems(rows)), done, x, action, note);
    TaskEventsLog(s, mid, s.tasks, rows, Deleted, Usual, x, action, note);
    LoggedBy(s, mid, SoftDeleteTask(s, id, done).value, x, action, note);
  }

  /** A skip logs `skipped` on the occurrence and `deleted` on its checklist. */
  lemma SkipLogs(s: State, id: int, done: Oracle, x: int, action: Action, note: Note)
    requires WellFormed(s) && Live(s, id) && x in s.tasks && SkipOccurrence(s, id, done).Ok?
    ensures Logged(s, SkipOccurrence(s, id, done).value.0, x, action, note)
            <==> note == Usual && ((x == id && action == SkippedAction) || (x != id && InSubtree(s, x, id) && action == Deleted))
  {
    CreateNextSpawned(s, id, done);
    var next := CreateNext(s, id, done).value.0;
    SweptKeeps(next, id, done);
    var swept := SoftDeleteDescendants(next, id, done).value;
    var t := SkipOccurrence(s, id, done).value.0;
    assert t == MarkSkipped(swept, id);
    OldSubtree(s, next, x, id);
    SubtreeIs(next, x, id);
    assert x in next.tasks && s.events <= next.events && !Logged(s, next, x, action, note) by {
      hide WellFormed, CreateNext;
    }
    SweepLogs(next, id, done, x, action, note);
    hide WellFormed, Sound, Descendants, CreateNext, SoftDeleteDescendants, SkipOccurrence, TaskEvents, Forest.Subtree, InSubtree, Logged;
    LoggedBy(s, next, swept, x, action, note);
    LastLog(swept, t, TaskEvent(swept.tasks[id].(deleted := true, skipped := true), id, SkippedAction, Usual), x, action, note);
    LoggedBy(s, swept, t, x, action, note);
  }

  lemma SweepLogs(s: State, id: int, done: Oracle, x: int, action: Action, note: Note)
    requires WellFormed(s) && id in s.tasks && x in s.tasks && SoftDeleteDescendants(s, id, done).Ok?
    ensures s.events <= SoftDeleteDescendants(s, id, done).value.events
    ensures Logged(s, SoftDeleteDescendants(s, id, done).value, x, action, note)
            <==> x != id && x in Forest.Subtree(LiveLinks(s.tasks), id) && action == Deleted && note == Usual
  {
    var rows := Descendants(s, id);
    var mid := Cascaded(s, rows, id);
    CascadedWellFormed(s, rows, id);
    SeedsExist(s, rows);
    assert x in rows <==> x in Elems(rows);
    hide WellFormed, Sound, Descendants, Reconcile, SeedsOf, TaskEvents, Forest.Subtree, Logged;
    ReconcileLogs(mid, Outside(SeedsOf(s, rows), Elems(rows) + {id}), done, x, action, note);
    TaskEventsLog(s, mid, s.tasks, rows, Deleted, Usual, x, action, note);
    LoggedBy(s, mid, SoftDeleteDescendants(s, id, done).value, x, action, note);
  }

  /** Trashing a project logs `deleted` on each live row of it, and last on the project. */
  lemma ProjectTrashLogs(s: State, p: int, done: Oracle, x: int, action: Action, note: Note)
    requires WellFormed(s) && p in s.projects && x in s.tasks && SoftDeleteProject(s, p, done).Ok?
    ensures var t := SoftDeleteProject(s, p, done).value;
            && (Logged(s, t, x, action, note) <==> Live(s, x) && s.tasks[x].project == p && action == Deleted && note == Usual)
            && t.events != [] && t.events[|t.events| - 1] == Event(Some(p), ProjectEntity, p, Deleted, Usual)
  {
    SweptSpawned(s, p, done);
    RunLog.DeleteUnfolds(s, p, done);
    var rows, mid := Sorted(LiveIn(s, p)), Swept(s, p);
    var seeds := Outside(SeedsOf(s, rows), LiveIn(s, p));
    assert x in rows <==> x in LiveIn(s, p);
    assert x in mid.tasks;
    hide WellFormed, Sound, Reconcile, SeedsOf, Outside, SoftDeleteProject, Sorted, BulkEvents, Logged;
    ReconcileLogs(mid, seeds, done, x, action, note);
    BulkEventsLog(s, mid, p, rows, Deleted, Usual, x, action, note);
    var settled := Reconcile(mid, seeds, done).value;
    LoggedBy(s, mid, settled, x, action, note);
    var t := SoftDeleteProject(s, p, done).value;
    LastLog(settled, t, ProjectEvent(p, Deleted), x, action, note);
    LoggedBy(s, settled, t, x, action, note);
  }

  /** Bringing a project back logs `restored` on each row that comes with it, or the move on each row left in the trash. */
  lemma ProjectRestoreLogs(s: State, p: int, withTasks: bool, done: Oracle, x: int, action: Action, note: Note)
    requires WellFormed(s) && p in s.projects && x in s.tasks && RestoreProject(s, p, withTasks, done).Ok?
    ensures var t := RestoreProject(s, p, withTasks, done).value.state;
            && (Logged(s, t, x, action, note) <==>
                  s.tasks[x].withProject == Some(p)
                  && if withTasks then s.tasks[x].deleted && action == Restored && note == Usual
                     else action == Updated && note == MovedToTasksTrash)
            && t.events != [] && t.events[|t.events| - 1] == Event(Some(p), ProjectEntity, p, Restored, Usual)
  {
    UnpackedWellFormed(s, p);
    ProjectUndo.BatchExists(s, p);
    RunLog.RestoreUnfolds(s, p, withTasks, done);
    var batch, mid, loose := Sorted(Archive(s, p)), Unpacked(s, p), Released(s, p);
    UnpackedLogs(s, p, x, action, note);
    var t := RestoreProject(s, p, withTasks, done).value.state;
    hide *;
    if withTasks {
      ReconcileLogs(mid, batch, done, x, action, note);
      LoggedBy(s, mid, Reconcile(mid, batch, done).value, x, action, note);
      ProjectLast(s, Reconcile(mid, batch, done).value, p, x, action, note);
    } else {
      ProjectLast(s, loose, p, x, action, note);
    }
  }

  lemma ProjectLast(s: State, mid: State, p: int, x: int, action: Action, note: Note)
    requires s.events <= mid.events
    ensures var t := LogProject(mid, p, Restored);
            && (Logged(s, t, x, action, note) <==> Logged(s, mid, x, action, note))
            && t.events != [] && t.events[|t.events| - 1] == Event(Some(p), ProjectEntity, p, Restored, Usual)
  {
    var t := LogProject(mid, p, Restored);
    hide Logged;
    LastLog(mid, t, ProjectEvent(p, Restored), x, action, note);
    LoggedBy(s, mid, t, x, action, note);
  }

  lemma UnpackedLogs(s: State, p: int, x: int, action: Action, note: Note)
    requires p in s.projects && x in s.tasks
    ensures var mid, loose := Unpacked(s, p), Released(s, p);
            && x in mid.tasks && s.events <= mid.events && s.events <= loose.events
            && (Logged(s, mid, x, action, note) <==>
                  s.tasks[x].deleted && s.tasks[x].withProject == Some(p) && action == Restored && note == Usual)
            && (Logged(s, loose, x, action, note) <==>
                  s.tasks[x].withProject == Some(p) && action == Updated && note == MovedToTasksTrash)
  {
    assert x in Sorted(Archive(s, p)) <==> x in Archive(s, p);
    assert x in Sorted(Stamps(s, p)) <==> x in Stamps(s, p);
    hide Sorted, BulkEvents, Logged;
    BulkEventsLog(s, Unpacked(s, p), p, Sorted(Archive(s, p)), Restored, Usual, x, action, note);
    BulkEventsLog(s, Released(s, p), p, Sorted(Stamps(s, p)), Updated, MovedToTasksTrash, x, action, note);
  }

  // ---- purges -------------------------------------------------------------------------------------

  /** An active edge between `x` and a row of `gone`, either way round. */
  ghost predicate Severed(s: State, x: int, gone: set<int>) {
    exists e :: e in s.edges && !e.deleted && ((e.task == x && e.blocker in gone) || (e.blocker == x && e.task in gone))
  }

  /**
   A purge logs `purged` on what it destroys, and on what survives that it lost a dependency or its
   parent, when it did.
   */
  lemma PurgeLogs(s: State, id: int, x: int, action: Action, note: Note)
    requires WellFormed(s) && id in s.tasks && x in s.tasks
    ensures var t, gone := PurgeTask(s, id), Doomed(s, id);
            Logged(s, t, x, action, note) <==>
              if x in gone then action == Purged && note == Usual
              else (action == DependencyRemoved && note == Usual && Severed(s, x, gone))
                   || (action == Updated && note == DetachedByPurge && s.tasks[x].parent.Some? && s.tasks[x].parent.value in gone)
  {
    var order, ids := PurgeOrder(s, id), Doomed(s, id);
    SeveredExist(s, ids);
    PurgeOrderHas(s, id, x);
    var cut, loose := SeveredDependents(s.edges, ids) + SeveredBlockers(s.edges, ids), Sorted(Detached(s.tasks, ids));
    assert x in loose <==> x in Detached(s.tasks, ids);
    SeveredOnes(s.edges, ids, x);
    var a := s.(events := s.events + TaskEvents(s.tasks, cut, DependencyRemoved, Usual));
    var b := a.(events := a.events + TaskEvents(s.tasks, loose, Updated, DetachedByPurge));
    var t := PurgeTask(s, id);
    assert t.events == b.events + TaskEvents(s.tasks, order, Purged, Usual);
    hide *;
    TaskEventsLog(s, a, s.tasks, cut, DependencyRemoved, Usual, x, action, note);
    TaskEventsLog(a, b, s.tasks, loose, Updated, DetachedByPurge, x, action, note);
    TaskEventsLog(b, t, s.tasks, order, Purged, Usual, x, action, note);
    LoggedBy(s, a, b, x, action, note);
    LoggedBy(s, b, t, x, action, note);
    SeveredIs(s, ids, x);
    DetachedIs(s, ids, x);
  }

  lemma PurgeOrderHas(s: State, id: int, x: int)
    requires WellFormed(s) && id in s.tasks
    ensures x in PurgeOrder(s, id) <==> x in Doomed(s, id)
    ensures forall y :: y in PurgeOrder(s, id) ==> y in s.tasks
  {
    DoomedExist(s, id);
    assert forall y :: y in PurgeOrder(s, id) <==> y in Elems(PurgeOrder(s, id));
    hide WellFormed, Doomed, PurgeOrder;
  }

  lemma SeveredIs(s: State, ids: set<int>, x: int)
    ensures Severed(s, x, ids) <==> exists e :: e in s.edges && Cuts(e, ids, x)
  {
  }

  lemma DetachedIs(s: State, ids: set<int>, x: int)
    ensures x in Detached(s.tasks, ids) <==> x in s.tasks && x !in ids && s.tasks[x].parent.Some? && s.tasks[x].parent.value in ids
  {
  }

  predicate Cuts(e: Edge, ids: set<int>, x: int) {
    !e.deleted && ((e.task == x && e.blocker in ids) || (e.blocker == x && e.task in ids))
  }

  lemma {:induction false} SeveredOnes(edges: seq<Edge>, ids: set<int>, x: int)
    ensures x in SeveredDependents(edges, ids) || x in SeveredBlockers(edges, ids)
            <==> x !in ids && exists e :: e in edges && Cuts(e, ids, x)
  {
    if edges != [] {
      var e := edges[0];
      SeveredOnes(edges[1..], ids, x);
      assert forall f :: f in edges <==> f == e || f in edges[1..];
      SeveredFirst(edges, ids, x);
      hide SeveredDependents, SeveredBlockers;
    }
  }

  lemma SeveredFirst(edges: seq<Edge>, ids: set<int>, x: int)
    requires edges != []
    ensures x in SeveredDependents(edges, ids) || x in SeveredBlockers(edges, ids)
            <==> (x !in ids && Cuts(edges[0], ids, x)) || x in SeveredDependents(edges[1..], ids) || x in SeveredBlockers(edges[1..], ids)
  {
    var e, a, b := edges[0], SeveredDependents(edges[1..], ids), SeveredBlockers(edges[1..], ids);
    assert SeveredDependents(edges, ids) == (if !e.deleted && e.blocker in ids && e.task !in ids then [e.task] else []) + a;
    assert SeveredBlockers(edges, ids) == (if !e.deleted && e.task in ids && e.blocker !in ids then [e.blocker] else []) + b;
    hide SeveredDependents, SeveredBlockers;
  }

  // ---- restores and their undos -------------------------------------------------------------------

  /** An un-skip logs `restored` on the live occurrence, `updated` on the other rows it moved, and the retirements. */
  lemma RewindLogs(s: State, id: int, done: Oracle, x: int, action: Action, note: Note)
    requires WellFormed(s) && Trashed(s, id) && IsUnskip(s, id) && Rewind(s, id, done).Ok? && x in s.tasks
    ensures var t, live := Rewind(s, id, done).value.state, Rewind(s, id, done).value.task;
            Logged(s, t, x, action, note) <==>
              || (x == live && action == Restored && note == Usual)
              || (x != live && InSubtree(s, x, live) && s.tasks[x].due != s.tasks[id].due && action == Updated && note == Usual)
              || ((x == id || (s.tasks[x].deleted && s.tasks[x].withTask == Some(id))) && action == Updated && note == SupersededNote)
  {
    var live, day := FirstFollower(s, id), s.tasks[id].due.value;
    var walk := ActiveWalk(s, live);
    ActiveRowsExist(s, live);
    WalkHas(s, live, x);
    var on := OnDay(s, Elems(walk), day);
    var moved, mid := MovedRows(s.tasks, walk, day), Superseded(on, id);
    RewoundWellFormed(s, id, Elems(walk), day);
    RetiredLogs(s, id, walk, day, x, action, note);
    var r := Rewind(s, id, done).value;
    var settled := Reconcile(mid, [live], done).value;
    ReconcileRows(mid, [live], done);
    var audited := settled.(events := settled.events + TaskEvents(settled.tasks, Without(moved, live), Updated, Usual));
    assert r.state == LogTask(audited, live, Restored) && r.task == live;
    assert x in moved <==> x in walk && s.tasks[x].due != Some(day);
    assert mid.tasks.Keys == s.tasks.Keys;
    hide *;
    assert x in mid.tasks.Keys && forall y :: y in Without(moved, live) ==> y in mid.tasks.Keys;
    ReconcileLogs(mid, [live], done, x, action, note);
    LoggedBy(s, mid, settled, x, action, note);
    TaskEventsLog(settled, audited, settled.tasks, Without(moved, live), Updated, Usual, x, action, note);
    LoggedBy(s, settled, audited, x, action, note);
    LastTaskLog(audited, live, Restored, x, action, note);
    LoggedBy(s, audited, r.state, x, action, note);
  }

  lemma LastTaskLog(s: State, id: int, a: Action, x: int, action: Action, note: Note)
    requires id in s.tasks
    ensures s.events <= LogTask(s, id, a).events
    ensures Logged(s, LogTask(s, id, a), x, action, note) <==> x == id && action == a && note == Usual
  {
    hide Logged;
    LastLog(s, LogTask(s, id, a), TaskEvent(s.tasks[id], id, a, Usual), x, action, note);
  }

  lemma WalkHas(s: State, live: int, x: int)
    requires WellFormed(s) && Live(s, live) && x in s.tasks
    ensures x in ActiveWalk(s, live) <==> InSubtree(s, x, live)
  {
    ActiveWalkShape(s, live);
    SubtreeIs(s, x, live);
    hide WellFormed, ActiveWalk, Forest.Subtree, InSubtree;
    assert x in ActiveWalk(s, live) <==> x in Elems(ActiveWalk(s, live));
  }

  lemma RetiredLogs(s: State, id: int, walk: seq<int>, day: Date, x: int, action: Action, note: Note)
    requires id in s.tasks && x in s.tasks
    ensures var mid := Superseded(OnDay(s, Elems(walk), day), id);
            && s.events <= mid.events
            && (Logged(s, mid, x, action, note) <==>
                  (x == id || (s.tasks[x].deleted && s.tasks[x].withTask == Some(id))) && action == Updated && note == SupersededNote)
  {
    var on := OnDay(s, Elems(walk), day);
    RetiredHas(s, id, Elems(walk), day, x);
    hide TaskEvents, Logged, SkipCascade, OnDay;
    TaskEventsLog(s, Superseded(on, id), on.tasks, SkipCascade(on, id), Updated, SupersededNote, x, action, note);
  }

  lemma RetiredHas(s: State, id: int, rows: set<int>, day: Date, x: int)
    requires id in s.tasks && x in s.tasks
    ensures var on := OnDay(s, rows, day);
            && on.events == s.events && id in on.tasks
            && (forall y :: y in SkipCascade(on, id) ==> y in on.tasks)
            && (x in SkipCascade(on, id) <==> x == id || (s.tasks[x].deleted && s.tasks[x].withTask == Some(id)))
  {
    var on := OnDay(s, rows, day);
    hide Sorted;
    assert x in SkipCascade(on, id) <==> x == id || x in Sorted(Stamped(on, id));
  }

  /** Undoing a restore in place logs `deleted` on what it puts back, and `skipped` on a root that had been skipped. */
  lemma RetrashLogs(s: State, r: Receipt, done: Oracle, x: int, action: Action, note: Note)
    requires WellFormed(s) && r.unskip.None? && UndoTaskRestore(s, r, done).Ok? && x in s.tasks
    ensures Logged(s, UndoTaskRestore(s, r, done).value, x, action, note)
            <==> x in r.restored && note == Usual && action == if x == r.task && r.skipped then SkippedAction else Deleted
  {
    RetrashedWellFormed(s, r);
    var rows, mid := Reversed(r.restored), Retrashed(s, r);
    var seeds := Outside(SeedsOf(s, rows), Elems(r.restored));
    assert x in mid.tasks;
    RetrashEventsLog(s, r, mid, rows, x, action, note);
    hide WellFormed, Sound, Reconcile, SeedsOf, Outside, Reversed, RetrashedRow, RetrashEvents, AcceptsPlain, BoundToRestore, Logged;
    ReconcileLogs(mid, seeds, done, x, action, note);
    LoggedBy(s, mid, UndoTaskRestore(s, r, done).value, x, action, note);
  }

  lemma RetrashEventsLog(s: State, r: Receipt, t: State, ids: seq<int>, x: int, action: Action, note: Note)
    requires (forall y :: y in ids ==> y in s.tasks) && t.events == s.events + RetrashEvents(s, r, ids)
    ensures Logged(s, t, x, action, note)
            <==> x in ids && note == Usual && action == if x == r.task && r.skipped then SkippedAction else Deleted
  {
    var log := RetrashEvents(s, r, ids);
    RetrashEventAt(s, r, ids);
    hide RetrashEvents;
    if Logged(s, t, x, action, note) {
      var i :| |s.events| <= i < |t.events| && Names(t.events[i], x, action, note);
      assert t.events[i] == log[i - |s.events|];
    }
    if x in ids {
      var k :| 0 <= k < |ids| && ids[k] == x;
      assert t.events[|s.events| + k] == log[k];
    }
  }

  lemma {:induction false} RetrashEventAt(s: State, r: Receipt, ids: seq<int>)
    requires forall y :: y in ids ==> y in s.tasks
    ensures var log := RetrashEvents(s, r, ids);
            forall k :: 0 <= k < |ids| ==>
              log[k].entity == TaskEntity && log[k].entityId == ids[k] && log[k].note == Usual
              && log[k].action == if ids[k] == r.task && r.skipped then SkippedAction else Deleted
  {
    if ids != [] {
      assert ids[0] in ids;
      RetrashEventAt(s, r, ids[1..]);
    }
  }

  // ---- the everyday writes ------------------------------------------------------------------------

  /** A new task is logged as created, and nothing else on the rows there were. */
  lemma CreateLogs(s: State, d: Edits.Draft, done: Oracle, x: int, action: Action, note: Note)
    requires WellFormed(s) && Edits.CreateTask(s, d, done).Ok? && (x in s.tasks || x == NextId(s.tasks.Keys))
    ensures Logged(s, Edits.CreateTask(s, d, done).value, x, action, note) <==> x == NextId(s.tasks.Keys) && action == Created && note == Usual
  {
    var id := NextId(s.tasks.Keys);
    assert id !in s.tasks.Keys;
    Edits.InsertedWellFormed(s, d);
    var mid := Edits.Inserted(s, Edits.DraftRow(s, d));
    hide WellFormed, Sound, Reconcile, Edits.NestingLevel, NextId, Logged;
    ReconcileLogs(mid, [id], done, x, action, note);
    LastLog(s, mid, TaskEvent(mid.tasks[id], id, Created, Usual), x, action, note);
    LoggedBy(s, mid, Edits.CreateTask(s, d, done).value, x, action, note);
  }

  /** What a settled write on one row logs on the rows there were: one event on that row, after the reconcile. */
  lemma SettledThenLog(s: State, mid: State, id: int, seeds: seq<int>, a: Action, t: State, done: Oracle, x: int, action: Action, note: Note)
    requires WellFormed(mid) && (forall q :: q in seeds ==> q in mid.tasks) && x in mid.tasks && id in mid.tasks && mid.events == s.events
    requires Reconcile(mid, seeds, done).Ok? && id in Reconcile(mid, seeds, done).value.tasks
    requires t == LogTask(Reconcile(mid, seeds, done).value, id, a)
    ensures Logged(s, t, x, action, note) <==> x == id && action == a && note == Usual
  {
    hide WellFormed, Reconcile, Logged;
    ReconcileLogs(mid, seeds, done, x, action, note);
    var settled := Reconcile(mid, seeds, done).value;
    NoLog(s, mid, x, action, note);
    LoggedBy(s, mid, settled, x, action, note);
    LastLog(settled, t, TaskEvent(settled.tasks[id], id, a, Usual), x, action, note);
    LoggedBy(s, settled, t, x, action, note);
  }

  /** Completing logs `completed` once, on the task, when it had no live subtasks and was not done already. */
  lemma DoneLogs(s: State, id: int, done: Oracle, x: int, action: Action, note: Note)
    requires WellFormed(s) && Live(s, id) && Edits.MarkDone(s, id, done).Ok? && x in s.tasks
    ensures Logged(s, Edits.MarkDone(s, id, done).value, x, action, note)
            <==> x == id && !HasLiveSubtask(s, id) && s.tasks[id].status != Done && action == Completed && note == Usual
  {
    assert Forest.Kids(LiveLinks(s.tasks), id) != {} <==> HasLiveSubtask(s, id) by {
      if HasLiveSubtask(s, id) {
        var c :| c in s.tasks && !s.tasks[c].deleted && s.tasks[c].parent == Some(id);
        assert c in Forest.Kids(LiveLinks(s.tasks), id);
      } else {
        forall c ensures c !in Forest.Kids(LiveLinks(s.tasks), id) {
          assert c in LiveLinks(s.tasks) && LiveLinks(s.tasks)[c] == id ==> HasLiveSubtask(s, id);
        }
      }
    }
    var mid := Edits.WithStatus(s, id, Done);
    SameShapeWellFormed(s, mid);
    ReconcileRows(mid, [id], done);
    hide WellFormed, Sound, Reconcile, Edits.Blocked, HasLiveSubtask, Logged;
    assert x in mid.tasks && id in mid.tasks;
    var t := Edits.MarkDone(s, id, done).value;
    if HasLiveSubtask(s, id) { NoLog(s, t, x, action, note); }
    else if s.tasks[id].status == Done { ReconcileLogs(s, [id], done, x, action, note); }
    else { SettledThenLog(s, mid, id, [id], Completed, t, done, x, action, note); }
  }

  lemma RefileLogs(s: State, id: int, to: Option<int>, done: Oracle, x: int, action: Action, note: Note)
    requires WellFormed(s) && Live(s, id) && Edits.Refile(s, id, to, done).Ok? && x in s.tasks
    ensures Logged(s, Edits.Refile(s, id, to, done).value, x, action, note)
            <==> x == id && s.tasks[id].project != (if to.Some? then to.value else 1) && action == Updated && note == Usual
  {
    var p := if to.Some? then to.value else GENERAL;
    Edits.GeneralLive(s);
    var t := Edits.Refile(s, id, to, done).value;
    if s.tasks[id].project == p {
      hide WellFormed, Sound, Reconcile, Logged, NextDue;
      NoLog(s, t, x, action, note);
    } else {
      Edits.FiledWellFormed(s, id, p);
      var mid := Edits.FiledIn(s, id, p);
      ReconcileRows(mid, [id], done);
      hide WellFormed, Sound, Reconcile, Logged, NextDue;
      assert x in mid.tasks && id in mid.tasks;
      SettledThenLog(s, mid, id, [id], Updated, t, done, x, action, note);
    }
  }

  lemma RecurLogs(s: State, id: int, repeat: Option<Interval>, due: Option<Date>, mint: string, done: Oracle, x: int, action: Action, note: Note)
    requires WellFormed(s) && Live(s, id) && (repeat.Some? ==> ValidInterval(repeat.value)) && x in s.tasks
    requires Edits.EditRecurrence(s, id, repeat, due, mint, done).Ok?
    ensures Logged(s, Edits.EditRecurrence(s, id, repeat, due, mint, done).value, x, action, note)
            <==> x == id && (s.tasks[id].repeat != repeat || s.tasks[id].due != due) && action == Updated && note == Usual
  {
    Edits.RecurringWellFormed(s, id, repeat, due, mint);
    var mid := Edits.Recurring(s, id, repeat, due, mint);
    ReconcileRows(mid, [id], done);
    hide WellFormed, Sound, Reconcile, Logged, NextDue, ValidInterval, FindLiveOn;
    assert x in mid.tasks && id in mid.tasks;
    var t := Edits.EditRecurrence(s, id, repeat, due, mint, done).value;
    if s.tasks[id].repeat == repeat && s.tasks[id].due == due { NoLog(s, t, x, action, note); }
    else { SettledThenLog(s, mid, id, [id], Updated, t, done, x, action, note); }
  }

  lemma DueLogs(s: State, id: int, due: Option<Date>, done: Oracle, x: int, action: Action, note: Note)
    requires WellFormed(s) && Live(s, id) && Runs.EditDue(s, id, due, done).Ok? && x in s.tasks
    ensures Logged(s, Runs.EditDue(s, id, due, done).value, x, action, note)
            <==> x == id && s.tasks[id].due != due && action == Updated && note == Usual
  {
    Runs.DatedWellFormed(s, id, due);
    var mid := Runs.Dated(s, id, due);
    ReconcileRows(mid, [id], done);
    hide WellFormed, Sound, Reconcile, Logged, NextDue, FindLiveOn;
    assert x in mid.tasks && id in mid.tasks;
    var t := Runs.EditDue(s, id, due, done).value;
    if s.tasks[id].due == due { NoLog(s, t, x, action, note); }
    else { SettledThenLog(s, mid, id, [id], Updated, t, done, x, action, note); }
  }

  lemma MoveLogs(s: State, id: int, parent: Option<int>, done: Oracle, x: int, action: Action, note: Note)
    requires WellFormed(s) && WaitRuns.NoDeadlock(s) && Live(s, id) && Reparenting.Reparent(s, id, parent, done).Ok? && x in s.tasks
    ensures Logged(s, Reparenting.Reparent(s, id, parent, done).value, x, action, note)
            <==> x == id && s.tasks[id].parent != parent && action == Updated && note == Usual
  {
    var t := Reparenting.Reparent(s, id, parent, done).value;
    if s.tasks[id].parent == parent {
      hide WellFormed, Sound, Reconcile, Logged, NextDue, WaitRuns.NoDeadlock, Reparenting.MoveRefused;
      NoLog(s, t, x, action, note);
    } else {
      Reparenting.MoveKeeps(s, id, parent);
      var mid, seeds := Reparenting.Under(s, id, parent), Reparenting.MoveSeeds(s, id, parent);
      ReconcileRows(mid, seeds, done);
      hide WellFormed, Sound, Reconcile, Logged, NextDue, WaitRuns.NoDeadlock, Reparenting.MoveRefused, Reparenting.MoveSeeds;
      assert x in mid.tasks && id in mid.tasks && mid.events == s.events;
      SettledThenLog(s, mid, id, seeds, Updated, t, done, x, action, note);
    }
  }

  lemma UnedgeLogs(s: State, at: nat, done: Oracle, x: int, action: Action, note: Note)
    requires WellFormed(s) && Edits.RemoveDependency(s, at, done).Ok? && x in s.tasks
    ensures at < |s.edges|
    ensures Logged(s, Edits.RemoveDependency(s, at, done).value, x, action, note)
            <==> x == s.edges[at].task && action == DependencyRemoved && note == Usual
  {
    Edits.UnedgedWellFormed(s, at);
    var mid, id := Edits.Unedged(s, at), s.edges[at].task;
    hide WellFormed, Sound, Reconcile, Logged;
    ReconcileLogs(mid, [id], done, x, action, note);
    LastLog(s, mid, TaskEvent(s.tasks[id], id, DependencyRemoved, Usual), x, action, note);
    LoggedBy(s, mid, Edits.RemoveDependency(s, at, done).value, x, action, note);
  }

  lemma EdgeLogs(s: State, task: int, blocker: int, done: Oracle, x: int, action: Action, note: Note)
    requires TaskDependencies.AddDependency(s, task, blocker, done).Ok?
    ensures Logged(s, TaskDependencies.AddDependency(s, task, blocker, done).value, x, action, note)
            <==> x == task && action == DependencyAdded && note == Usual
  {
    hide Logged;
    LastLog(s, TaskDependencies.AddDependency(s, task, blocker, done).value, TaskEvent(s.tasks[task], task, DependencyAdded, Usual), x, action, note);
  }
}
