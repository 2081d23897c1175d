/**
 Undoing a project restore: the sets it recomputes from the event log are the rows the restore
 returned or released, and the undo is the restore's exact inverse.
 */
module ProjectUndo {
  import opened Common
  import opened Store
  import opened TaskRecurrence
  import opened Tasks
  import opened Projects
  import opened Invariant
  import opened ProjectSteps
  import TaskTrash
  import RestoreUndo
  import Forest

  // ---- what an undo keeps --------------------------------------------------------------

  lemma RearchivedKeeps(s: State, r: ProjectReceipt)
    requires Consistent(s) && AcceptsProjectUndo(s, r)
    ensures Core(Rearchived(s, r)) && ArchivedBut(Rearchived(s, r), r.project)
  {
    hide LoggedIds, WindowStart;
    var t := Rearchived(s, r);
    OnlyTrashesKeeps(s, t);
    hide Core;
    forall x | x in t.tasks && t.tasks[x].withProject.Some?
      ensures ArchivedRow(t, t.tasks[x])
              || (t.tasks[x].withProject == Some(r.project) && t.tasks[x].deleted && t.tasks[x].project == r.project)
    {
      if s.tasks[x].withProject.Some? { assert ArchivedRow(s, s.tasks[x]); }
    }
  }

  lemma UndoProjectKeeps(s: State, r: ProjectReceipt, done: Oracle)
    requires Consistent(s)
    ensures WellFormed(s)
    ensures var undone := UndoProjectRestore(s, r, done);
            undone.Ok? ==> Consistent(undone.value)
  {
    CoreWellFormed(s);
    if AcceptsProjectUndo(s, r) {
      RearchivedWellFormed(s, r);
      RearchivedKeeps(s, r);
      hide Core, ArchivedBut, SoftDeleteProject, Rearchived, LoggedIds, WindowStart;
      SoftDeleteKeeps(Rearchived(s, r), r.project, done);
    }
  }

  // ---- what the log says -----------------------------------------------------------------

  /**
   A log some run later: every event is still there, and only purges of other projects have
   cleared references.
   */
  ghost predicate Extends(a: seq<Event>, b: seq<Event>, p: int) {
    |a| <= |b| && forall i :: 0 <= i < |a| ==> b[i] == a[i] || (a[i].project != Some(p) && b[i] == a[i].(project := None))
  }

  /** An event no restore of `p` wrote, and no delete of it. */
  predicate Other(e: Event, p: int) {
    Quiet(e, p) && !(e.entity == ProjectEntity && e.entityId == p && e.action == Deleted)
  }

  /** The log of one restore: the deleted project's clean feed, one event per row, the rest. */
  ghost predicate RestoreLog(s: State, p: int, ids: seq<int>, action: Action, note: Note, log: seq<Event>) {
    && s.events + BulkEvents(p, ids, action, note) <= log && |s.events| + |ids| < |log|
    && (forall i :: |s.events| + |ids| <= i < |log| ==> Other(log[i], p))
    && log[|log| - 1] == ProjectEvent(p, Restored)
  }

  lemma {:induction false} WindowStartSkips(events: seq<Event>, p: int, a: int, b: int)
    requires 1 <= a <= b <= |events| + 1
    requires forall i :: a - 1 <= i < b - 1 ==>
               !(events[i].entity == ProjectEntity && events[i].entityId == p && events[i].action == Deleted)
    ensures WindowStart(events, p, b) == WindowStart(events, p, a)
    decreases b
  {
    if a < b { WindowStartSkips(events, p, a, b - 1); }
  }

  lemma {:induction false} WindowStartExtends(a: seq<Event>, b: seq<Event>, p: int, before: int)
    requires Extends(a, b, p) && before <= |a| + 1
    ensures WindowStart(b, p, before) == WindowStart(a, p, before)
    decreases before
  {
    if before > 1 { WindowStartExtends(a, b, p, before - 1); }
  }

  lemma LoggedIdsExtend(a: seq<Event>, b: seq<Event>, p: int, after: nat, before: int, action: Action, note: Note)
    requires Extends(a, b, p) && before <= |a|
    ensures LoggedIds(b, p, after, before, action, note) == LoggedIds(a, p, after, before, action, note)
  {
    var x, y := LoggedIds(a, p, after, before, action, note), LoggedIds(b, p, after, before, action, note);
    forall id | id in x ensures id in y {
      var i :| 0 <= i < |a| && after <= i && i + 1 < before && RestoreShape(a[i], p, action, note) && a[i].entityId == id;
      assert RestoreShape(b[i], p, action, note);
    }
    forall id | id in y ensures id in x {
      var i :| 0 <= i < |b| && after <= i && i + 1 < before && RestoreShape(b[i], p, action, note) && b[i].entityId == id;
      assert RestoreShape(a[i], p, action, note);
    }
  }

  lemma RestoreWindow(s: State, p: int, ids: seq<int>, action: Action, note: Note, log: seq<Event>)
    requires RestoreLog(s, p, ids, action, note, log)
    ensures WindowStart(log, p, |log|) == LastDeleted(s.events, p)
  {
    assert s.events <= log;
    var bulk := BulkEvents(p, ids, action, note);
    forall i | |s.events| <= i < |s.events| + |ids| ensures log[i].entity == TaskEntity {
      assert log[i] == (s.events + bulk)[i];
    }
    WindowStartSkips(log, p, |s.events| + 1, |log|);
    WindowStartPrefix(s.events, log, p, |s.events| + 1);
  }

  /** The window of a restore holds exactly the events that restore wrote. */
  lemma WindowHolds(s: State, p: int, ids: seq<int>, action: Action, note: Note, log: seq<Event>)
    requires FeedClean(s.projects, s.events) && p in s.projects && s.projects[p].deleted
    requires RestoreLog(s, p, ids, action, note, log)
    requires (action, note) in {(Restored, Usual), (Updated, MovedToTasksTrash)}
    ensures var start := WindowStart(log, p, |log|);
            && LoggedIds(log, p, start, |log|, Restored, Usual) == (if action == Restored then Elems(ids) else {})
            && LoggedIds(log, p, start, |log|, Updated, MovedToTasksTrash) == (if action == Updated then Elems(ids) else {})
  {
    RestoreWindow(s, p, ids, action, note, log);
    var start := LastDeleted(s.events, p);
    var bulk := BulkEvents(p, ids, action, note);
    WindowStartGrows(s.events, p, |s.events| + 1, |s.events| + 1);
    hide FeedClean;
    forall i | start <= i < |log|
      ensures Quiet(log[i], p) || (|s.events| <= i < |s.events| + |ids| && log[i] == bulk[i - |s.events|])
    {
      if i < |s.events| {
        OldQuiet(s, p, i);
        assert log[i] == (s.events + bulk)[i];
      } else if i < |s.events| + |ids| {
        assert log[i] == (s.events + bulk)[i];
      }
    }
    forall x | x in Elems(ids) ensures x in LoggedIds(log, p, start, |log|, action, note) {
      var k :| 0 <= k < |ids| && ids[k] == x;
      assert log[|s.events| + k] == (s.events + bulk)[|s.events| + k];
      assert RestoreShape(log[|s.events| + k], p, action, note);
    }
    assert LoggedIds(log, p, start, |log|, action, note) == Elems(ids);
  }

  lemma OldQuiet(s: State, p: int, i: int)
    requires FeedClean(s.projects, s.events) && p in s.projects && s.projects[p].deleted
    requires LastDeleted(s.events, p) <= i < |s.events|
    ensures Quiet(s.events[i], p)
  {
  }

  /** The rows a restore of `p` returns, and those it releases to the Tasks trash. */
  function Returned(s: State, p: int, withTasks: bool): set<int> {
    if withTasks then Archive(s, p) else {}
  }

  function ReleasedRowsOf(s: State, p: int, withTasks: bool): set<int> {
    if withTasks then {} else Stamps(s, p)
  }

  ghost predicate RestoredProject(s: State, p: int, withTasks: bool, r: ProjectRestoration)
    requires p in s.projects
  {
    && r.receipt == ProjectReceipt(p, |r.state.events|)
    && (var mid := if withTasks then Unpacked(s, p) else Released(s, p);
        && (forall x :: x in mid.tasks ==> x in r.state.tasks && r.state.tasks[x] == mid.tasks[x])
        && (forall x :: x in r.state.tasks && x !in mid.tasks ==> !r.state.tasks[x].deleted)
        && r.state.projects == mid.projects && mid.edges <= r.state.edges
        && (!withTasks ==> r.state.tasks == mid.tasks))
    && (if withTasks then RestoreLog(s, p, Sorted(Archive(s, p)), Restored, Usual, r.state.events)
        else RestoreLog(s, p, Sorted(Stamps(s, p)), Updated, MovedToTasksTrash, r.state.events))
  }

  lemma SpawnedOther(a: State, b: State, p: int)
    requires Spawned(a, b)
    ensures forall i :: |a.events| <= i < |b.events| ==> Other(b.events[i], p)
    ensures forall x :: x in b.tasks && x !in a.tasks ==> !b.tasks[x].deleted
  {
    forall i | |a.events| <= i < |b.events| ensures Other(b.events[i], p) {
      assert SpawnEvent(a.tasks, b.events[i]);
    }
  }

  lemma RestoreLands(s: State, p: int, withTasks: bool, done: Oracle)
    requires Consistent(s) && p in s.projects && RestoreProject(s, p, withTasks, done).Ok?
    ensures RestoredProject(s, p, withTasks, RestoreProject(s, p, withTasks, done).value)
  {
    UnpackedWellFormed(s, p);
    if withTasks { UnpackedLands(s, p, done); } else {
      ReleasedLog(s, p);
      hide Consistent, WellFormed, Sound, Unpacked, Released, RestoreLog;
    }
  }

  lemma UnpackedLands(s: State, p: int, done: Oracle)
    requires Consistent(s) && p in s.projects && RestoreProject(s, p, true, done).Ok?
    ensures RestoredProject(s, p, true, RestoreProject(s, p, true, done).value)
  {
    UnpackedWellFormed(s, p);
    CoreWellFormed(s);
    hide Consistent, WellFormed, Sound, Reconcile, BatchConflict, Other, Unpacked, Released, RestoreLog;
    var mid, batch := Unpacked(s, p), Sorted(Archive(s, p));
    BatchExists(s, p);
    ReconcileSpawned(mid, batch, done);
    var settled := Reconcile(mid, batch, done).value;
    SpawnedOther(mid, settled, p);
    SpawnedLog(s, p, settled);
    SpawnedOld(mid, settled);
  }

  lemma BatchExists(s: State, p: int)
    requires p in s.projects
    ensures forall x :: x in Sorted(Archive(s, p)) ==> x in s.tasks && x in Unpacked(s, p).tasks
  {
  }

  lemma SpawnedOld(a: State, b: State)
    requires Spawned(a, b)
    ensures (forall x :: x in a.tasks ==> x in b.tasks && b.tasks[x] == a.tasks[x])
            && b.projects == a.projects && a.edges <= b.edges && a.events <= b.events
  {
  }

  lemma ReleasedLog(s: State, p: int)
    requires p in s.projects
    ensures RestoreLog(s, p, Sorted(Stamps(s, p)), Updated, MovedToTasksTrash, LogProject(Released(s, p), p, Restored).events)
  {
    hide Sorted;
  }

  lemma SpawnedLog(s: State, p: int, settled: State)
    requires p in s.projects && Unpacked(s, p).events <= settled.events
    requires forall i :: |Unpacked(s, p).events| <= i < |settled.events| ==> Other(settled.events[i], p)
    ensures RestoreLog(s, p, Sorted(Archive(s, p)), Restored, Usual, LogProject(settled, p, Restored).events)
  {
    hide Sorted;
  }

  /**
   The sets an undo recomputes from the log are exactly the rows the restore returned and the
   rows it released, however far the log has grown since.
   */
  lemma LogRecoversRestore(s: State, p: int, withTasks: bool, done: Oracle, later: seq<Event>)
    requires Consistent(s) && p in s.projects && s.projects[p].deleted && RestoreProject(s, p, withTasks, done).Ok?
    requires Extends(RestoreProject(s, p, withTasks, done).value.state.events, later, p)
    ensures var event := RestoreProject(s, p, withTasks, done).value.receipt.eventId;
            && event <= |later| + 1
            && var start := WindowStart(later, p, event);
            && LoggedIds(later, p, start, event, Restored, Usual) == Returned(s, p, withTasks)
            && LoggedIds(later, p, start, event, Updated, MovedToTasksTrash) == ReleasedRowsOf(s, p, withTasks)
  {
    RestoreLands(s, p, withTasks, done);
    var r := RestoreProject(s, p, withTasks, done).value;
    hide RestoreProject, WellFormed, Sound, UniqueSlots, FlatSeries, Filed, Archived, FeedClean, Unpacked, Released;
    var log, event := r.state.events, r.receipt.eventId;
    if withTasks {
      WindowHolds(s, p, Sorted(Archive(s, p)), Restored, Usual, log);
    } else {
      WindowHolds(s, p, Sorted(Stamps(s, p)), Updated, MovedToTasksTrash, log);
    }
    WindowStartExtends(log, later, p, event);
    var start := WindowStart(log, p, event);
    LoggedIdsExtend(log, later, p, start, event, Restored, Usual);
    LoggedIdsExtend(log, later, p, start, event, Updated, MovedToTasksTrash);
  }

  // ---- the undo as an inverse -----------------------------------------------------------

  /** Every live row of the restored project is one the restore returned. */
  predicate OnlyReturned(s: State, p: int, withTasks: bool, t: State) {
    forall x :: x in t.tasks && !t.tasks[x].deleted && t.tasks[x].project == p ==> x in Returned(s, p, withTasks)
  }

  /** The row a restore of `p` leaves, before recurrence adds any. */
  function RowAfter(s: State, p: int, withTasks: bool, x: int): Task
    requires x in s.tasks
  {
    var t := s.tasks[x];
    if t.withProject != Some(p) then t
    else if withTasks && t.deleted then t.(deleted := false, withProject := None)
    else if withTasks then t
    else t.(withProject := None)
  }

  lemma RowsAfter(s: State, p: int, withTasks: bool, r: ProjectRestoration)
    requires p in s.projects && RestoredProject(s, p, withTasks, r)
    ensures forall x :: x in s.tasks ==> x in r.state.tasks && r.state.tasks[x] == RowAfter(s, p, withTasks, x)
    ensures forall x :: x in r.state.tasks && x !in s.tasks ==> !r.state.tasks[x].deleted
    ensures r.state.projects == s.projects[p := s.projects[p].(deleted := false)]
    ensures !withTasks ==> forall x :: x in r.state.tasks ==> x in s.tasks
  {
    hide RestoreLog, Sorted, BulkEvents;
    var mid := if withTasks then Unpacked(s, p) else Released(s, p);
    forall x ensures x in mid.tasks <==> x in s.tasks {
    }
  }

  /** A stamped row of a consistent store: in the trash, in that project, and not live. */
  lemma StampIsArchived(s: State, x: int)
    requires Archived(s) && x in s.tasks && s.tasks[x].withProject.Some?
    ensures s.tasks[x].deleted && s.tasks[x].withProject == Some(s.tasks[x].project)
  {
    assert ArchivedRow(s, s.tasks[x]);
  }

  lemma NothingLiveIn(s: State, p: int)
    requires Filed(s) && p in s.projects && s.projects[p].deleted
    ensures forall x :: Live(s, x) ==> s.tasks[x].project != p
  {
    forall x | Live(s, x) ensures s.tasks[x].project != p {
      assert LiveProject(s, s.tasks[x].project);
    }
  }

  lemma ReturnedLive(s: State, p: int, withTasks: bool, r: ProjectRestoration)
    requires Consistent(s) && p in s.projects && s.projects[p].deleted && RestoredProject(s, p, withTasks, r)
    ensures LiveProject(r.state, p) && !r.state.projects[p].protected
    ensures BoundToProjectRestore(r.state, r.receipt)
    ensures LiveIn(r.state, p) == Returned(s, p, withTasks) <==> OnlyReturned(s, p, withTasks, r.state)
    ensures r.state.tasks.Keys == s.tasks.Keys ==> OnlyReturned(s, p, withTasks, r.state)
  {
    RestoreLogEnds(s, p, withTasks, r);
    RowsAfter(s, p, withTasks, r);
    NothingLiveIn(s, p);
    TrashedIsFree(s, p);
    hide WellFormed, Sound, UniqueSlots, FlatSeries, FeedClean, RestoredProject, Filed, LiveIn, Returned, OnlyReturned;
    assert LiveIn(r.state, p) >= Returned(s, p, withTasks) by { ReturnedAreLive(s, p, withTasks, r.state); }
    OnlyReturnedIff(s, p, withTasks, r.state);
    if r.state.tasks.Keys == s.tasks.Keys { NothingNew(s, p, withTasks, r.state); }
  }

  lemma TrashedIsFree(s: State, p: int)
    requires WellFormed(s) && p in s.projects && s.projects[p].deleted
    ensures !s.projects[p].protected
  {
    hide Forest.Acyclic;
  }

  lemma ReturnedAreLive(s: State, p: int, withTasks: bool, t: State)
    requires Archived(s) && forall x :: x in s.tasks ==> x in t.tasks && t.tasks[x] == RowAfter(s, p, withTasks, x)
    ensures LiveIn(t, p) >= Returned(s, p, withTasks)
  {
    forall x | x in Returned(s, p, withTasks) ensures x in LiveIn(t, p) {
      StampIsArchived(s, x);
    }
  }

  lemma OnlyReturnedIff(s: State, p: int, withTasks: bool, t: State)
    requires LiveIn(t, p) >= Returned(s, p, withTasks)
    ensures LiveIn(t, p) == Returned(s, p, withTasks) <==> OnlyReturned(s, p, withTasks, t)
  {
    if OnlyReturned(s, p, withTasks, t) {
      forall x | x in LiveIn(t, p) ensures x in Returned(s, p, withTasks) {
      }
    } else {
      var x :| x in t.tasks && !t.tasks[x].deleted && t.tasks[x].project == p && x !in Returned(s, p, withTasks);
      assert x in LiveIn(t, p);
    }
  }

  lemma NothingNew(s: State, p: int, withTasks: bool, t: State)
    requires t.tasks.Keys == s.tasks.Keys && forall x :: x in s.tasks ==> t.tasks[x] == RowAfter(s, p, withTasks, x)
    requires forall x :: Live(s, x) ==> s.tasks[x].project != p
    ensures OnlyReturned(s, p, withTasks, t)
  {
    forall x | x in t.tasks && !t.tasks[x].deleted && t.tasks[x].project == p ensures x in Returned(s, p, withTasks) {
      assert x in s.tasks.Keys;
      assert !Live(s, x);
    }
  }

  lemma RestoreLogEnds(s: State, p: int, withTasks: bool, r: ProjectRestoration)
    requires p in s.projects && RestoredProject(s, p, withTasks, r)
    ensures |r.state.events| > 0 && r.state.events[|r.state.events| - 1] == ProjectEvent(p, Restored)
  {
  }

  /** A receipt used at once is accepted exactly when nothing new was put in the project. */
  lemma UndoAcceptedIff(s: State, p: int, withTasks: bool, done: Oracle)
    requires Consistent(s) && p in s.projects && s.projects[p].deleted && RestoreProject(s, p, withTasks, done).Ok?
    ensures var r := RestoreProject(s, p, withTasks, done).value;
            AcceptsProjectUndo(r.state, r.receipt) <==> OnlyReturned(s, p, withTasks, r.state)
  {
    RestoreLands(s, p, withTasks, done);
    var r := RestoreProject(s, p, withTasks, done).value;
    ReturnedLive(s, p, withTasks, r);
    LogRecoversRestore(s, p, withTasks, done, r.state.events);
    hide RestoreProject, Consistent, OnlyReturned, LoggedIds, WindowStart, BoundToProjectRestore, Returned, LiveIn;
  }

  /** Rows, projects and edges are what they were. */
  ghost predicate BackTo(s: State, t: State) {
    t.tasks == s.tasks && t.projects == s.projects && t.edges == s.edges
  }

  /** The store between the two halves of the undo: released rows are archived again. */
  ghost predicate ArchivedAgain(s: State, p: int, withTasks: bool, u: State)
    requires p in s.projects
  {
    && u.tasks.Keys == s.tasks.Keys
    && (forall x :: x in s.tasks ==> u.tasks[x] == if withTasks then RowAfter(s, p, true, x) else s.tasks[x])
    && u.projects == s.projects[p := s.projects[p].(deleted := false)] && u.edges == s.edges
  }

  /**
   Undoing a project restore is its exact inverse in both modes, unless recurrence created rows
   in between.
   */
  lemma ProjectUndoIsInverse(s: State, p: int, withTasks: bool, done: Oracle)
    requires Consistent(s) && p in s.projects && s.projects[p].deleted && RestoreProject(s, p, withTasks, done).Ok?
    requires RestoreProject(s, p, withTasks, done).value.state.tasks.Keys == s.tasks.Keys
    ensures var r := RestoreProject(s, p, withTasks, done).value;
            && AcceptsProjectUndo(r.state, r.receipt) && WellFormed(r.state)
            && var undone := UndoProjectRestore(r.state, r.receipt, done);
            undone.Ok? && undone.value.tasks.Keys == s.tasks.Keys ==> BackTo(s, undone.value)
  {
    AcceptedAtOnce(s, p, withTasks, done);
    RearchivedAgain(s, p, withTasks, done);
    var r := RestoreProject(s, p, withTasks, done).value;
    RearchivedWellFormed(r.state, r.receipt);
    hide RestoreProject, Consistent, BoundToProjectRestore, LiveIn, AcceptsProjectUndo, Rearchived, SoftDeleteProject, LoggedIds,
         WindowStart, ArchivedAgain, WellFormed, Sound;
    var undone := UndoProjectRestore(r.state, r.receipt, done);
    if undone.Ok? && undone.value.tasks.Keys == s.tasks.Keys {
      var u := Rearchived(r.state, r.receipt);
      AgainHasProject(s, p, withTasks, u);
      DeletedRows(u, p, done);
      BackAgain(s, p, withTasks, u, undone.value);
    }
  }

  lemma AgainHasProject(s: State, p: int, withTasks: bool, u: State)
    requires p in s.projects && ArchivedAgain(s, p, withTasks, u)
    ensures p in u.projects
  {
  }

  lemma AcceptedAtOnce(s: State, p: int, withTasks: bool, done: Oracle)
    requires Consistent(s) && p in s.projects && s.projects[p].deleted && RestoreProject(s, p, withTasks, done).Ok?
    requires RestoreProject(s, p, withTasks, done).value.state.tasks.Keys == s.tasks.Keys
    ensures var r := RestoreProject(s, p, withTasks, done).value;
            AcceptsProjectUndo(r.state, r.receipt) && WellFormed(r.state) && r.receipt.project == p
            && r.receipt.eventId <= |r.state.events| + 1
  {
    var r := RestoreProject(s, p, withTasks, done).value;
    RestoreLands(s, p, withTasks, done);
    ReturnedLive(s, p, withTasks, r);
    UndoAcceptedIff(s, p, withTasks, done);
    RestoreProjectKeeps(s, p, withTasks, done);
    CoreWellFormed(r.state);
    hide Core, RestoreLog, Unpacked, Released;
  }

  lemma RearchivedAgain(s: State, p: int, withTasks: bool, done: Oracle)
    requires Consistent(s) && p in s.projects && s.projects[p].deleted && RestoreProject(s, p, withTasks, done).Ok?
    requires RestoreProject(s, p, withTasks, done).value.state.tasks.Keys == s.tasks.Keys
    ensures var r := RestoreProject(s, p, withTasks, done).value;
            r.receipt.eventId <= |r.state.events| + 1
            && ArchivedAgain(s, p, withTasks, Rearchived(r.state, r.receipt))
  {
    var r := RestoreProject(s, p, withTasks, done).value;
    RestoreLands(s, p, withTasks, done);
    RowsAfter(s, p, withTasks, r);
    RestoredEdges(s, p, withTasks, done);
    LogRecoversRestore(s, p, withTasks, done, r.state.events);
    hide RestoreProject, UniqueSlots, FlatSeries, FeedClean, Forest.Acyclic, LoggedIds, WindowStart, Filed, Archived, RestoreLog,
         Unpacked, Released;
    var u := Rearchived(r.state, r.receipt);
    forall x | x in s.tasks ensures u.tasks[x] == if withTasks then RowAfter(s, p, true, x) else s.tasks[x] {
      assert x in r.state.tasks.Keys;
      if s.tasks[x].withProject.Some? { StampIsArchived(s, x); }
    }
    assert u.tasks.Keys == r.state.tasks.Keys;
  }

  lemma RestoredEdges(s: State, p: int, withTasks: bool, done: Oracle)
    requires Consistent(s) && p in s.projects && RestoreProject(s, p, withTasks, done).Ok?
    requires RestoreProject(s, p, withTasks, done).value.state.tasks.Keys == s.tasks.Keys
    ensures RestoreProject(s, p, withTasks, done).value.state.edges == s.edges
  {
    UnpackedWellFormed(s, p);
    BatchExists(s, p);
    if withTasks {
      var mid, batch := Unpacked(s, p), Sorted(Archive(s, p));
      ReconcileSpawned(mid, batch, done);
      var settled := Reconcile(mid, batch, done).value;
      SpawnedEdges(mid, settled);
      UnpackedKeys(s, p);
      hide Consistent, WellFormed, Sound, Reconcile, BatchConflict, Unpacked, Archive, Spawned;
      NoNewEdges(mid, settled);
    } else {
      hide Consistent, WellFormed, Sound, Reconcile, BatchConflict, BulkEvents, Sorted;
    }
  }

  lemma UnpackedKeys(s: State, p: int)
    requires p in s.projects
    ensures Unpacked(s, p).tasks.Keys == s.tasks.Keys && Unpacked(s, p).edges == s.edges
  {
    hide BulkEvents, Sorted;
  }

  lemma SpawnedEdges(a: State, b: State)
    requires Spawned(a, b)
    ensures a.edges <= b.edges && forall i :: |a.edges| <= i < |b.edges| ==> b.edges[i].task !in a.tasks.Keys
  {
  }

  /** What a project delete leaves of the rows that were there. */
  ghost predicate DeletedFrom(s: State, p: int, t: State)
    requires p in s.projects
  {
    && t.projects == s.projects[p := s.projects[p].(deleted := true)] && s.edges <= t.edges
    && (forall i :: |s.edges| <= i < |t.edges| ==> t.edges[i].task !in s.tasks)
    && forall x :: x in s.tasks ==>
         && x in t.tasks
         && t.tasks[x] == if !s.tasks[x].deleted && s.tasks[x].project == p
                          then s.tasks[x].(deleted := true, withProject := Some(p)) else s.tasks[x]
  }

  lemma DeletedRows(s: State, p: int, done: Oracle)
    requires WellFormed(s) && p in s.projects && SoftDeleteProject(s, p, done).Ok?
    ensures var t := SoftDeleteProject(s, p, done).value;
            WellFormed(t) && DeletedFrom(s, p, t)
  {
    SweptSpawned(s, p, done);
    var seeds := Outside(SeedsOf(s, Sorted(LiveIn(s, p))), LiveIn(s, p));
    var settled := Reconcile(Swept(s, p), seeds, done).value;
    var t := SoftDeleteProject(s, p, done).value;
    SweptDeletedFrom(s, p, settled, t);
    hide WellFormed, Sound, Reconcile, Swept, Spawned, SeedsOf;
    assert t == LogProject(SetDeleted(settled, p, true), p, Deleted);
    DeletedWellFormed(settled, p);
  }

  lemma SweptDeletedFrom(s: State, p: int, settled: State, t: State)
    requires p in s.projects && Spawned(Swept(s, p), settled) && t == LogProject(SetDeleted(settled, p, true), p, Deleted)
    ensures DeletedFrom(s, p, t)
  {
    hide Sorted, BulkEvents, FreshRow, SpawnEvent, OnOpenSlot;
    forall x | x in s.tasks
      ensures x in t.tasks
      ensures t.tasks[x] == if !s.tasks[x].deleted && s.tasks[x].project == p
                            then s.tasks[x].(deleted := true, withProject := Some(p)) else s.tasks[x]
    {
      assert x in Swept(s, p).tasks;
    }
  }

  lemma DeletedWellFormed(s: State, p: int)
    requires WellFormed(s) && p in s.projects && !s.projects[p].protected
    ensures WellFormed(LogProject(SetDeleted(s, p, true), p, Deleted))
  {
    SetDeletedWellFormed(s, p, true);
    TaskTrash.LogKeepsWellFormed(SetDeleted(s, p, true), LogProject(SetDeleted(s, p, true), p, Deleted));
  }

  lemma BackAgain(s: State, p: int, withTasks: bool, u: State, t: State)
    requires Consistent(s) && p in s.projects && s.projects[p].deleted && ArchivedAgain(s, p, withTasks, u)
    requires p in u.projects && WellFormed(t) && DeletedFrom(u, p, t) && t.tasks.Keys == s.tasks.Keys
    ensures BackTo(s, t)
  {
    NothingLiveIn(s, p);
    NoNewEdges(u, t);
    hide UniqueSlots, FlatSeries, FeedClean, WellFormed, Sound, Filed, Archived;
    forall x | x in s.tasks ensures x in t.tasks.Keys && t.tasks[x] == s.tasks[x] {
      assert x in u.tasks.Keys;
      if s.tasks[x].withProject.Some? { StampIsArchived(s, x); }
    }
    assert t.tasks == s.tasks;
  }

  lemma NoNewEdges(a: State, b: State)
    requires WellFormed(b) && a.edges <= b.edges && a.tasks.Keys == b.tasks.Keys
    requires forall i :: |a.edges| <= i < |b.edges| ==> b.edges[i].task !in a.tasks.Keys
    ensures b.edges == a.edges
  {
    if |b.edges| > |a.edges| {
      EdgeEnds(b, |a.edges|);
      assert false;
    }
  }

  lemma EdgeEnds(s: State, i: int)
    requires WellFormed(s) && 0 <= i < |s.edges|
    ensures s.edges[i].task in s.tasks.Keys
  {
    hide Forest.Acyclic;
    assert s.edges[i] in s.edges;
  }
}
