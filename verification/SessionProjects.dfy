/**
 Trashing a project, restoring it and undoing that restore, as the services run
 (backend/app/services/projects.py).
 */
module SessionProjects {
  import opened Common
  import opened Calendar
  import opened Store
  import opened TaskRecurrence
  import opened Tasks
  import P = Projects
  import SessionRecurrence
  import SessionTasks
  import SessionUndo

  /** The rows reached so far are in the trash, stamped with the project. */
  function Archiving(s: State, p: int, rows: seq<int>): State
    requires forall x :: x in rows ==> x in s.tasks
  {
    s.(tasks := map x | x in s.tasks :: if x in rows then s.tasks[x].(deleted := true, withProject := Some(p)) else s.tasks[x])
  }

  lemma ArchiveOne(s: State, p: int, rows: seq<int>, x: int)
    requires (forall y :: y in rows ==> y in s.tasks) && x in s.tasks && x !in rows
    ensures var t := Archiving(s, p, rows);
            && x in t.tasks && t.tasks[x] == s.tasks[x] && t.edges == s.edges
            && Archiving(s, p, rows + [x]) == t.(tasks := t.tasks[x := t.tasks[x].(deleted := true, withProject := Some(p))])
  {
    var t, u := Archiving(s, p, rows), Archiving(s, p, rows + [x]);
    assert u.tasks == t.tasks[x := t.tasks[x].(deleted := true, withProject := Some(p))];
  }

  lemma ArchivedNone(s: State, p: int)
    ensures Archiving(s, p, []) == s
  {
    assert Archiving(s, p, []).tasks == s.tasks;
  }

  lemma ArchivedAll(s: State, p: int)
    ensures var rows := Sorted(P.LiveIn(s, p));
            && Distinct(rows) && (forall x :: x in rows ==> x in s.tasks) && Elems(rows) == P.LiveIn(s, p)
            && var t := Archiving(s, p, rows);
            && P.Swept(s, p) == t.(events := t.events + P.BulkEvents(p, rows, Deleted, Usual))
            && t.projects == s.projects
  {
    hide P.BulkEvents;
    var rows := Sorted(P.LiveIn(s, p));
    assert Archiving(s, p, rows).tasks == P.Swept(s, p).tasks;
  }

  /** The first loop of `soft_delete_project`. */
  method ArchiveRows(db: Database, p: int, rows: seq<int>) returns (seeds: seq<int>)
    requires Distinct(rows) && forall x :: x in rows ==> x in db.tasks
    modifies db`tasks
    ensures forall x :: x in rows ==> x in old(db.View()).tasks
    ensures db.View() == Archiving(old(db.View()), p, rows) && seeds == SeedsOf(old(db.View()), rows)
  {
    hide *;
    ghost var s := db.View();
    db.Fields();
    ArchivedNone(s, p);
    SessionUndo.NoSeeds(s);
    seeds := [];
    assert rows[..0] == [];
    for i := 0 to |rows|
      invariant forall x :: x in rows[..i] ==> x in s.tasks
      invariant db.View() == Archiving(s, p, rows[..i]) && seeds == SeedsOf(s, rows[..i])
    {
      var x := rows[i];
      assert rows[..i + 1] == rows[..i] + [x] && x in rows;
      SessionUndo.NotYet(rows, i);
      ArchiveOne(s, p, rows[..i], x);
      SessionTasks.SeedsSnoc(s, rows[..i], x);
      db.Fields();
      var t := db.tasks[x];
      db.tasks := db.tasks[x := t.(deleted := true, withProject := Some(p))];
      seeds := seeds + Dependents(db.edges, x) + (if t.parent.Some? then [t.parent.value] else []);
      db.Fields();
    }
    assert rows[..|rows|] == rows;
  }

  lemma SoftDeleteIs(s: State, p: int, done: Oracle)
    requires WellFormed(s) && p in s.projects
    ensures s.projects[p].protected ==> P.SoftDeleteProject(s, p, done) == Err(ProtectedProject)
    ensures !s.projects[p].protected ==>
              var external := Outside(SeedsOf(s, Sorted(P.LiveIn(s, p))), P.LiveIn(s, p));
              && WellFormed(P.Swept(s, p)) && (forall q :: q in external ==> q in P.Swept(s, p).tasks)
              && var settled := Reconcile(P.Swept(s, p), external, done);
              if settled.Err? then P.SoftDeleteProject(s, p, done) == Err(settled.error)
              else
                && p in settled.value.projects
                && P.SoftDeleteProject(s, p, done) == Ok(P.LogProject(P.SetDeleted(settled.value, p, true), p, Deleted))
  {
    P.SweptSpawned(s, p, done);
    hide WellFormed, Sound, P.Swept, Reconcile, SeedsOf, Outside;
  }

  lemma LogSetIs(s: State, p: int, deleted: bool, action: Action)
    requires p in s.projects
    ensures P.LogProject(P.SetDeleted(s, p, deleted), p, action)
         == s.(projects := s.projects[p := s.projects[p].(deleted := deleted)], events := s.events + [P.ProjectEvent(p, action)])
  {
  }

  /** `soft_delete_project`. */
  method SoftDeleteProject(db: Database, p: int, done: Oracle) returns (raised: Option<Error>)
    requires WellFormed(db.View()) && p in db.projects
    modifies db
    ensures var r := P.SoftDeleteProject(old(db.View()), p, done);
            raised == (if r.Err? then Some(r.error) else None) && (r.Ok? ==> db.View() == r.value)
  {
    hide *;
    ghost var s := db.View();
    db.Fields();
    SoftDeleteIs(s, p, done);
    if db.projects[p].protected { return Some(ProtectedProject); }
    ArchivedAll(s, p);
    var rows := Sorted(P.LiveIn(db.View(), p));
    var seeds := ArchiveRows(db, p, rows);
    db.Fields();
    db.events := db.events + P.BulkEvents(p, rows, Deleted, Usual);
    db.Fields();
    raised := SessionTasks.ReconcileOutside(db, Outside(seeds, Elems(rows)), done);
    if raised.Some? { return; }
    db.Fields();
    LogSetIs(db.View(), p, true, Deleted);
    db.projects := db.projects[p := db.projects[p].(deleted := true)];
    db.Log(P.ProjectEvent(p, Deleted));
    db.Fields();
  }

  // ---- restoring ------------------------------------------------------------------------------

  /** One row of the batch check. */
  lemma ConflictStep(s: State, batch: seq<int>, i: nat, claimed: P.Claims)
    requires i < |batch| && forall x :: x in batch[i..] ==> x in s.tasks
    ensures batch[i] in s.tasks && (forall x :: x in batch[i + 1..] ==> x in s.tasks)
    ensures var x := batch[i];
            var t := s.tasks[x];
            P.BatchConflict(s, batch[i..], claimed)
            == if t.series.None? || t.due.None? then P.BatchConflict(s, batch[i + 1..], claimed)
               else if (t.series.value, t.due.value) in claimed then Some(claimed[(t.series.value, t.due.value)])
               else if FindLiveOn(s, t.series.value, t.due.value, {x}).Some? then FindLiveOn(s, t.series.value, t.due.value, {x})
               else P.BatchConflict(s, batch[i + 1..], claimed[(t.series.value, t.due.value) := x])
  {
    hide FindLiveOn;
    assert batch[i..][0] == batch[i] && batch[i..][1..] == batch[i + 1..];
    assert batch[i] in batch[i..];
    assert forall x :: x in batch[i + 1..] ==> x in batch[i..];
  }

  lemma ConflictEnds(s: State, batch: seq<int>, claimed: P.Claims)
    ensures P.BatchConflict(s, batch[|batch|..], claimed) == None && batch[0..] == batch
  {
  }

  /** `_assert_no_occurrence_conflicts`. */
  method OccurrenceConflicts(db: Database, batch: seq<int>) returns (conflict: Option<int>)
    requires forall x :: x in batch ==> x in db.tasks
    ensures (forall x :: x in batch ==> x in db.View().tasks) && conflict == P.BatchConflict(db.View(), batch, map[])
  {
    hide *;
    db.Fields();
    var claimed: P.Claims := map[];
    ConflictEnds(db.View(), batch, claimed);
    for i := 0 to |batch|
      invariant forall x :: x in batch[i..] ==> x in db.View().tasks
      invariant P.BatchConflict(db.View(), batch[i..], claimed) == P.BatchConflict(db.View(), batch, map[])
    {
      ConflictStep(db.View(), batch, i, claimed);
      var t := db.tasks[batch[i]];
      if t.series.None? || t.due.None? { continue; }
      var slot := (t.series.value, t.due.value);
      if slot in claimed { return Some(claimed[slot]); }
      var live := FindLiveOn(db.View(), t.series.value, t.due.value, {batch[i]});
      if live.Some? { return live; }
      claimed := claimed[slot := batch[i]];
    }
    ConflictEnds(db.View(), batch, claimed);
    conflict := None;
  }

  /** The rows reached so far are live again, without their stamp. */
  function Unarchiving(s: State, rows: seq<int>): State
    requires forall x :: x in rows ==> x in s.tasks
  {
    s.(tasks := map x | x in s.tasks :: if x in rows then s.tasks[x].(deleted := false, withProject := None) else s.tasks[x])
  }

  lemma UnarchiveOne(s: State, rows: seq<int>, x: int)
    requires (forall y :: y in rows ==> y in s.tasks) && x in s.tasks && x !in rows
    ensures var t := Unarchiving(s, rows);
            && x in t.tasks && t.tasks[x] == s.tasks[x]
            && Unarchiving(s, rows + [x]) == t.(tasks := t.tasks[x := t.tasks[x].(deleted := false, withProject := None)])
  {
    var t, u := Unarchiving(s, rows), Unarchiving(s, rows + [x]);
    assert u.tasks == t.tasks[x := t.tasks[x].(deleted := false, withProject := None)];
  }

  lemma UnarchivedNone(s: State)
    ensures Unarchiving(s, []) == s
  {
    assert Unarchiving(s, []).tasks == s.tasks;
  }

  /** Both modes of a restore, up to the last event, against their specification. */
  lemma ModesAre(s: State, p: int)
    requires p in s.projects
    ensures var open := s.(projects := s.projects[p := s.projects[p].(deleted := false)]);
            var batch := Sorted(P.Archive(s, p));
            && Distinct(batch) && (forall x :: x in batch ==> x in s.tasks)
            && (var t := Unarchiving(open, batch);
                P.Unpacked(s, p) == t.(events := t.events + P.BulkEvents(p, batch, Restored, Usual)))
            && P.Released(s, p) == open.(tasks := Unstamped(s.tasks, p),
                                         events := s.events + P.BulkEvents(p, Sorted(P.Stamps(s, p)), Updated, MovedToTasksTrash))
  {
    hide P.BulkEvents;
    var open := s.(projects := s.projects[p := s.projects[p].(deleted := false)]);
    var batch := Sorted(P.Archive(s, p));
    assert Unarchiving(open, batch).tasks == P.Unpacked(s, p).tasks;
    assert Unstamped(s.tasks, p) == P.Released(s, p).tasks;
  }

  function Unstamped(tasks: map<int, Task>, p: int): map<int, Task> {
    map x | x in tasks :: if tasks[x].withProject == Some(p) then tasks[x].(withProject := None) else tasks[x]
  }

  /** The loop of a restore with tasks. */
  method UnarchiveRows(db: Database, rows: seq<int>)
    requires Distinct(rows) && forall x :: x in rows ==> x in db.tasks
    modifies db`tasks
    ensures (forall x :: x in rows ==> x in old(db.View()).tasks) && db.View() == Unarchiving(old(db.View()), rows)
  {
    hide *;
    ghost var s := db.View();
    db.Fields();
    UnarchivedNone(s);
    assert rows[..0] == [];
    for i := 0 to |rows|
      invariant (forall x :: x in rows[..i] ==> x in s.tasks) && db.View() == Unarchiving(s, rows[..i])
    {
      var x := rows[i];
      assert rows[..i + 1] == rows[..i] + [x] && x in rows;
      SessionUndo.NotYet(rows, i);
      UnarchiveOne(s, rows[..i], x);
      db.Fields();
      db.tasks := db.tasks[x := db.tasks[x].(deleted := false, withProject := None)];
      db.Fields();
    }
    assert rows[..|rows|] == rows;
  }

  lemma RestoreIs(s: State, p: int, withTasks: bool, done: Oracle)
    requires WellFormed(s) && p in s.projects
    ensures var batch := Sorted(P.Archive(s, p));
            && (forall x :: x in batch ==> x in s.tasks) && WellFormed(P.Unpacked(s, p))
            && (forall x :: x in batch ==> x in P.Unpacked(s, p).tasks)
            && P.RestoreProject(s, p, withTasks, done)
               == if withTasks then
                    var conflict := P.BatchConflict(s, batch, map[]);
                    if conflict.Some? then Err(OccurrenceConflict(conflict.value))
                    else
                      var settled := Reconcile(P.Unpacked(s, p), batch, done);
                      if settled.Err? then Err(settled.error)
                      else Ok(RestoreAnswer(P.LogProject(settled.value, p, Restored), p, |batch|))
                  else Ok(RestoreAnswer(P.LogProject(P.Released(s, p), p, Restored), p, 0))
  {
    P.UnpackedWellFormed(s, p);
    hide WellFormed, Sound, Reconcile, P.BatchConflict, P.Released;
  }

  /** A restore's answer: the store, the number of rows, and the receipt. */
  function RestoreAnswer(s: State, p: int, count: nat): P.ProjectRestoration {
    P.ProjectRestoration(s, count, P.ProjectReceipt(p, |s.events|))
  }

  lemma LogIs(s: State, p: int, action: Action)
    ensures P.LogProject(s, p, action) == s.(events := s.events + [P.ProjectEvent(p, action)])
  {
  }

  /** `restore_project_with_undo`. */
  method RestoreProject(db: Database, p: int, withTasks: bool, done: Oracle)
    returns (raised: Option<Error>, count: nat, receipt: P.ProjectReceipt)
    requires WellFormed(db.View()) && p in db.projects
    modifies db
    ensures var r := P.RestoreProject(old(db.View()), p, withTasks, done);
            && raised == (if r.Err? then Some(r.error) else None)
            && (r.Ok? ==> P.ProjectRestoration(db.View(), count, receipt) == r.value)
  {
    hide *;
    ghost var s := db.View();
    db.Fields();
    RestoreIs(s, p, withTasks, done);
    ModesAre(s, p);
    count, receipt := 0, P.ProjectReceipt(p, 0);
    var batch := Sorted(P.Archive(db.View(), p));
    if withTasks {
      var conflict := OccurrenceConflicts(db, batch);
      if conflict.Some? { return Some(OccurrenceConflict(conflict.value)), count, receipt; }
    }
    db.projects := db.projects[p := db.projects[p].(deleted := false)];
    db.Fields();
    if withTasks {
      UnarchiveRows(db, batch);
      db.Fields();
      db.events := db.events + P.BulkEvents(p, batch, Restored, Usual);
      db.Fields();
      var spawned: seq<int>;
      raised, spawned := SessionRecurrence.Reconcile(db, batch, done);
      if raised.Some? { return; }
      count := |batch|;
    } else {
      var unarchived := Sorted(P.Stamps(db.View(), p));
      SameStamps(s, db.View(), p);
      db.tasks := Unstamped(db.tasks, p);
      db.events := db.events + P.BulkEvents(p, unarchived, Updated, MovedToTasksTrash);
    }
    db.Fields();
    LogIs(db.View(), p, Restored);
    db.Log(P.ProjectEvent(p, Restored));
    db.Fields();
    receipt := P.ProjectReceipt(p, |db.events|);
    raised := None;
    AnswerIs(db.View(), p, count);
  }

  lemma AnswerIs(s: State, p: int, count: nat)
    ensures RestoreAnswer(s, p, count) == P.ProjectRestoration(s, count, P.ProjectReceipt(p, |s.events|))
  {
  }

  lemma SameStamps(s: State, t: State, p: int)
    requires t.tasks == s.tasks
    ensures P.Stamps(t, p) == P.Stamps(s, p)
  {
  }

  // ---- undoing -----------------------------------------------------------------------------------

  lemma UndoIs(s: State, r: P.ProjectReceipt, done: Oracle)
    requires WellFormed(s)
    ensures !P.AcceptsProjectUndo(s, r) ==> P.UndoProjectRestore(s, r, done) == Err(UndoConflict)
    ensures P.AcceptsProjectUndo(s, r) ==>
              && r.eventId <= |s.events| + 1 && WellFormed(P.Rearchived(s, r)) && r.project in P.Rearchived(s, r).projects
              && P.UndoProjectRestore(s, r, done) == P.SoftDeleteProject(P.Rearchived(s, r), r.project, done)
  {
    if P.AcceptsProjectUndo(s, r) { P.RearchivedWellFormed(s, r); }
    hide WellFormed, Sound, P.Rearchived, P.SoftDeleteProject, P.LoggedIds, P.WindowStart;
  }

  /** The window loop of `_restore_window_start`: the newest delete of the project before an event. */
  method RestoreWindowStart(db: Database, p: int, before: int) returns (start: nat)
    requires before <= |db.events| + 1
    ensures start == P.WindowStart(db.events, p, before)
  {
    var at := before;
    while at > 1
      invariant P.WindowStart(db.events, p, at) == P.WindowStart(db.events, p, before) && at <= before
    {
      var e := db.events[at - 2];
      if e.entity == ProjectEntity && e.entityId == p && e.action == Deleted { return at - 1; }
      at := at - 1;
    }
    start := 0;
  }

  /** Every row the log says the restore moved, if it is still in the trash and unarchived. */
  method RearchiveRows(db: Database, r: P.ProjectReceipt, ids: set<int>)
    requires r.eventId <= |db.events| + 1
    requires ids == P.LoggedIds(db.events, r.project, P.WindowStart(db.events, r.project, r.eventId), r.eventId, Updated,
                                MovedToTasksTrash)
    modifies db`tasks
    ensures old(r.eventId <= |db.View().events| + 1)
    ensures db.View() == P.Rearchived(old(db.View()), r)
  {
    hide P.LoggedIds, P.WindowStart;
    db.tasks := map x | x in db.tasks ::
      if x in ids && db.tasks[x].project == r.project && db.tasks[x].deleted && db.tasks[x].withProject.None?
      then db.tasks[x].(withProject := Some(r.project)) else db.tasks[x];
  }

  lemma AcceptsIs(s: State, r: P.ProjectReceipt)
    ensures P.AcceptsProjectUndo(s, r)
            <==> LiveProject(s, r.project) && !s.projects[r.project].protected && P.BoundToProjectRestore(s, r)
                 && r.eventId <= |s.events| + 1
                 && P.LoggedIds(s.events, r.project, P.WindowStart(s.events, r.project, r.eventId), r.eventId, Restored, Usual)
                    == P.LiveIn(s, r.project)
    ensures P.BoundToProjectRestore(s, r) ==> r.eventId <= |s.events|
    ensures LiveProject(s, r.project) ==> r.project in s.projects
  {
    hide P.LoggedIds, P.WindowStart, P.LiveIn;
  }

  /** `undo_project_restore`: both sets are read back from the log. */
  method UndoProjectRestore(db: Database, r: P.ProjectReceipt, done: Oracle) returns (raised: Option<Error>)
    requires WellFormed(db.View())
    modifies db
    ensures var u := P.UndoProjectRestore(old(db.View()), r, done);
            raised == (if u.Err? then Some(u.error) else None) && (u.Ok? ==> db.View() == u.value)
  {
    hide *;
    UndoIs(db.View(), r, done);
    AcceptsIs(db.View(), r);
    db.Fields();
    if !LiveProject(db.View(), r.project) || db.projects[r.project].protected { return Some(UndoConflict); }
    if !P.BoundToProjectRestore(db.View(), r) { return Some(UndoConflict); }
    var start := RestoreWindowStart(db, r.project, r.eventId);
    var restored := P.LoggedIds(db.events, r.project, start, r.eventId, Restored, Usual);
    if restored != P.LiveIn(db.View(), r.project) { return Some(UndoConflict); }
    var moved := P.LoggedIds(db.events, r.project, start, r.eventId, Updated, MovedToTasksTrash);
    RearchiveRows(db, r, moved);
    db.Fields();
    raised := SoftDeleteProject(db, r.project, done);
  }
}
