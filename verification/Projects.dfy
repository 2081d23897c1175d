/**
 Trashing a project with its tasks, restoring it, undoing that restore from the event log, and
 purging it (backend/app/services/projects.py).
 */
module Projects {
  import opened Common
  import opened Calendar
  import opened Store
  import opened TaskRecurrence
  import opened Tasks
  import TaskPurge
  import Forest

  function LiveIn(s: State, p: int): set<int> {
    set x | x in s.tasks && !s.tasks[x].deleted && s.tasks[x].project == p
  }

  function TrashedIn(s: State, p: int): set<int> {
    set x | x in s.tasks && s.tasks[x].deleted && s.tasks[x].project == p
  }

  /** The trashed rows stamped with the project when it was deleted. */
  function Archive(s: State, p: int): set<int> {
    set x | x in s.tasks && s.tasks[x].deleted && s.tasks[x].withProject == Some(p)
  }

  function ProjectEvent(p: int, action: Action): Event {
    Event(Some(p), ProjectEntity, p, action, Usual)
  }

  /** One bulk event per task on the project's own feed (`record_task_events`). */
  function BulkEvents(p: int, ids: seq<int>, action: Action, note: Note): (log: seq<Event>)
    ensures |log| == |ids|
    ensures forall i :: 0 <= i < |ids| ==> log[i] == Event(Some(p), TaskEntity, ids[i], action, note)
  {
    if ids == [] then [] else [Event(Some(p), TaskEntity, ids[0], action, note)] + BulkEvents(p, ids[1..], action, note)
  }

  // ---- trashing -------------------------------------------------------------------

  /** The project's live rows in the trash, each stamped with it; the project is still live. */
  function Swept(s: State, p: int): State {
    s.(tasks := map x | x in s.tasks ::
         if x in LiveIn(s, p) then s.tasks[x].(deleted := true, withProject := Some(p)) else s.tasks[x],
       events := s.events + BulkEvents(p, Sorted(LiveIn(s, p)), Deleted, Usual))
  }

  function SetDeleted(s: State, p: int, deleted: bool): State
    requires p in s.projects
  {
    s.(projects := s.projects[p := s.projects[p].(deleted := deleted)])
  }

  function LogProject(s: State, p: int, action: Action): State {
    s.(events := s.events + [ProjectEvent(p, action)])
  }

  lemma SweptWellFormed(s: State, p: int)
    requires WellFormed(s)
    ensures WellFormed(Swept(s, p))
    ensures forall q :: q in SeedsOf(s, Sorted(LiveIn(s, p))) ==> q in Swept(s, p).tasks
  {
    hide WellFormed, Sound, BulkEvents, Sorted, SeedsOf;
    assert forall x :: x in Sorted(LiveIn(s, p)) ==> x in LiveIn(s, p);
    SeedsExist(s, Sorted(LiveIn(s, p)));
    SameShapeWellFormed(s, Swept(s, p));
  }

  /** `soft_delete_project`. */
  ghost function SoftDeleteProject(s: State, p: int, done: Oracle): Result<State, Error>
    requires WellFormed(s) && p in s.projects
  {
    if s.projects[p].protected then Err(ProtectedProject) else
      SweptWellFormed(s, p);
      var rows := LiveIn(s, p);
      var settled :- Reconcile(Swept(s, p), Outside(SeedsOf(s, Sorted(rows)), rows), done);
      SweptSpawned(s, p, done);
      Ok(LogProject(SetDeleted(settled, p, true), p, Deleted))
  }

  lemma SweptSpawned(s: State, p: int, done: Oracle)
    requires WellFormed(s) && p in s.projects
    ensures WellFormed(Swept(s, p))
    ensures forall q :: q in Outside(SeedsOf(s, Sorted(LiveIn(s, p))), LiveIn(s, p)) ==> q in Swept(s, p).tasks
    ensures var r := Reconcile(Swept(s, p), Outside(SeedsOf(s, Sorted(LiveIn(s, p))), LiveIn(s, p)), done);
            r.Ok? ==> Spawned(Swept(s, p), r.value) && WellFormed(r.value) && p in r.value.projects
                      && (UniqueSlots(Swept(s, p)) ==> UniqueSlots(r.value))
  {
    SweptWellFormed(s, p);
    ReconcileSpawned(Swept(s, p), Outside(SeedsOf(s, Sorted(LiveIn(s, p))), LiveIn(s, p)), done);
  }

  // ---- restoring -------------------------------------------------------------------

  type Claims = map<(string, Date), int>

  /** `_assert_no_occurrence_conflicts`: the row whose slot is already taken, if there is one. */
  ghost function BatchConflict(s: State, batch: seq<int>, claimed: Claims): Option<int>
    requires forall x :: x in batch ==> x in s.tasks
  {
    if batch == [] then None else
      var x := batch[0];
      assert x in batch;
      var t := s.tasks[x];
      if t.series.None? || t.due.None? then BatchConflict(s, batch[1..], claimed) else
        var slot := (t.series.value, t.due.value);
        if slot in claimed then Some(claimed[slot])
        else
          var live := FindLiveOn(s, t.series.value, t.due.value, {x});
          if live.Some? then live else BatchConflict(s, batch[1..], claimed[slot := x])
  }

  datatype ProjectReceipt = ProjectReceipt(project: int, eventId: int)

  datatype ProjectRestoration = ProjectRestoration(state: State, count: nat, receipt: ProjectReceipt)

  /** The archived rows live again. */
  function Unpacked(s: State, p: int): State
    requires p in s.projects
  {
    SetDeleted(s, p, false).(
      tasks := map x | x in s.tasks ::
        if x in Archive(s, p) then s.tasks[x].(deleted := false, withProject := None) else s.tasks[x],
      events := s.events + BulkEvents(p, Sorted(Archive(s, p)), Restored, Usual))
  }

  function Stamps(s: State, p: int): set<int> {
    set x | x in s.tasks && s.tasks[x].withProject == Some(p)
  }

  /** The archived rows left in the Tasks trash, on their own. */
  function Released(s: State, p: int): State
    requires p in s.projects
  {
    SetDeleted(s, p, false).(
      tasks := map x | x in s.tasks ::
        if x in Stamps(s, p) then s.tasks[x].(withProject := None) else s.tasks[x],
      events := s.events + BulkEvents(p, Sorted(Stamps(s, p)), Updated, MovedToTasksTrash))
  }

  lemma SetDeletedWellFormed(s: State, p: int, deleted: bool)
    requires WellFormed(s) && p in s.projects && (s.projects[p].protected ==> !deleted)
    ensures WellFormed(SetDeleted(s, p, deleted))
  {
    hide Forest.Acyclic;
    var t := SetDeleted(s, p, deleted);
    forall x | x in t.tasks ensures RowWellFormed(t, t.tasks[x]) {
      assert RowWellFormed(s, s.tasks[x]);
    }
  }

  lemma UnpackedWellFormed(s: State, p: int)
    requires WellFormed(s) && p in s.projects
    ensures WellFormed(Unpacked(s, p)) && WellFormed(Released(s, p))
  {
    hide WellFormed, Sound, BulkEvents, Sorted;
    var t := SetDeleted(s, p, false);
    SetDeletedWellFormed(s, p, false);
    SameShapeWellFormed(t, Unpacked(s, p));
    SameShapeWellFormed(t, Released(s, p));
  }

  /** `restore_project_with_undo`. */
  ghost function RestoreProject(s: State, p: int, withTasks: bool, done: Oracle): Result<ProjectRestoration, Error>
    requires WellFormed(s) && p in s.projects
  {
    UnpackedWellFormed(s, p);
    var batch := Sorted(Archive(s, p));
    if withTasks then
      var conflict := BatchConflict(s, batch, map[]);
      if conflict.Some? then Err(OccurrenceConflict(conflict.value)) else
        var settled :- Reconcile(Unpacked(s, p), batch, done);
        var after := LogProject(settled, p, Restored);
        Ok(ProjectRestoration(after, |batch|, ProjectReceipt(p, |after.events|)))
    else
      var after := LogProject(Released(s, p), p, Restored);
      Ok(ProjectRestoration(after, 0, ProjectReceipt(p, |after.events|)))
  }

  // ---- undoing a project restore -----------------------------------------------------

  /** `_restore_window_start`: the project's newest `deleted` event before event `before`. */
  function WindowStart(events: seq<Event>, p: int, before: int): nat
    requires before <= |events| + 1
    decreases before
  {
    if before <= 1 then 0 else
      var e := events[before - 2];
      if e.entity == ProjectEntity && e.entityId == p && e.action == Deleted then before - 1
      else WindowStart(events, p, before - 1)
  }

  predicate RestoreShape(e: Event, p: int, action: Action, note: Note) {
    e.project == Some(p) && e.entity == TaskEntity && e.action == action && e.note == note
  }

  /** `_restore_task_ids`: the tasks one kind of event in `(after, before)` names. */
  function LoggedIds(events: seq<Event>, p: int, after: nat, before: int, action: Action, note: Note): set<int> {
    set i | 0 <= i < |events| && after <= i && i + 1 < before && RestoreShape(events[i], p, action, note)
      :: events[i].entityId
  }

  predicate BoundToProjectRestore(s: State, r: ProjectReceipt) {
    && 1 <= r.eventId <= |s.events|
    && var e := s.events[r.eventId - 1];
    && e.entity == ProjectEntity && e.entityId == r.project && e.action == Restored
    && !(exists i :: r.eventId <= i < |s.events| && s.events[i].entity == ProjectEntity
                     && s.events[i].entityId == r.project && s.events[i].action == Restored)
  }

  /** Everything `undo_project_restore` checks before it writes. */
  predicate AcceptsProjectUndo(s: State, r: ProjectReceipt) {
    && LiveProject(s, r.project) && !s.projects[r.project].protected
    && BoundToProjectRestore(s, r)
    && LoggedIds(s.events, r.project, WindowStart(s.events, r.project, r.eventId), r.eventId, Restored, Usual)
       == LiveIn(s, r.project)
  }

  /** The rows it archives again: those the restore moved to the Tasks trash and that are still there. */
  function Rearchived(s: State, r: ProjectReceipt): State
    requires r.eventId <= |s.events| + 1
  {
    var p := r.project;
    var ids := LoggedIds(s.events, p, WindowStart(s.events, p, r.eventId), r.eventId, Updated, MovedToTasksTrash);
    s.(tasks := map x | x in s.tasks ::
         if x in ids && s.tasks[x].project == p && s.tasks[x].deleted && s.tasks[x].withProject.None?
         then s.tasks[x].(withProject := Some(p)) else s.tasks[x])
  }

  lemma RearchivedWellFormed(s: State, r: ProjectReceipt)
    requires WellFormed(s) && r.eventId <= |s.events| + 1
    ensures WellFormed(Rearchived(s, r)) && Rearchived(s, r).projects == s.projects
  {
    SameShapeWellFormed(s, Rearchived(s, r));
  }

  /** `undo_project_restore`. */
  ghost function UndoProjectRestore(s: State, r: ProjectReceipt, done: Oracle): Result<State, Error>
    requires WellFormed(s)
  {
    if !AcceptsProjectUndo(s, r) then Err(UndoConflict) else
      RearchivedWellFormed(s, r);
      SoftDeleteProject(Rearchived(s, r), r.project, done)
  }

  // ---- the batch check ----------------------------------------------------------------

  /** The store once the whole batch is live again. */
  function BatchLive(s: State, batch: set<int>): State {
    s.(tasks := map x | x in s.tasks :: if x in batch then s.tasks[x].(deleted := false) else s.tasks[x])
  }

  /** The claims made so far are exactly the slots of the rows already checked. */
  ghost predicate ClaimsOf(s: State, checked: set<int>, claimed: Claims) {
    && (forall x :: x in checked ==> x in s.tasks)
    && (forall slot :: slot in claimed ==>
          claimed[slot] in checked && s.tasks[claimed[slot]].series == Some(slot.0) && s.tasks[claimed[slot]].due == Some(slot.1))
    && (forall x :: x in checked && s.tasks[x].series.Some? && s.tasks[x].due.Some? ==>
          (s.tasks[x].series.value, s.tasks[x].due.value) in claimed)
  }

  /** Restoring rows keeps the slots apart exactly when each takes a slot nobody else has. */
  lemma {:induction false} BatchConflictIff(s: State, checked: set<int>, batch: seq<int>, claimed: Claims)
    requires UniqueSlots(s) && ClaimsOf(s, checked, claimed) && Distinct(batch)
    requires forall x :: x in batch ==> Trashed(s, x) && x !in checked
    requires forall x :: x in checked ==> Trashed(s, x)
    requires UniqueSlots(BatchLive(s, checked))
    ensures forall x :: x in batch ==> x in s.tasks
    ensures BatchConflict(s, batch, claimed).None? <==> UniqueSlots(BatchLive(s, checked + Elems(batch)))
    decreases |batch|
  {
    if batch == [] {
      assert checked + Elems(batch) == checked;
    } else {
      var x := batch[0];
      assert x in batch;
      var t := s.tasks[x];
      var more := checked + {x};
      assert more + Elems(batch[1..]) == checked + Elems(batch) by {
        assert batch == [x] + batch[1..];
      }
      SlotTaken(s, checked, claimed, x);
      if t.series.None? || t.due.None? {
        BatchConflictIff(s, more, batch[1..], claimed);
      } else {
        var slot := (t.series.value, t.due.value);
        if slot in claimed || FindLiveOn(s, t.series.value, t.due.value, {x}).Some? {
          ClashStays(s, more, checked + Elems(batch));
        } else {
          BatchConflictIff(s, more, batch[1..], claimed[slot := x]);
        }
      }
    }
  }

  /** One more row keeps the slots apart exactly when its slot is unclaimed and empty. */
  lemma SlotTaken(s: State, checked: set<int>, claimed: Claims, x: int)
    requires UniqueSlots(s) && ClaimsOf(s, checked, claimed) && Trashed(s, x) && x !in checked
    requires (forall y :: y in checked ==> Trashed(s, y)) && UniqueSlots(BatchLive(s, checked))
    ensures var t := s.tasks[x];
            UniqueSlots(BatchLive(s, checked + {x}))
            <==> t.series.None? || t.due.None?
                 || ((t.series.value, t.due.value) !in claimed && FindLiveOn(s, t.series.value, t.due.value, {x}).None?)
  {
    var t := s.tasks[x];
    var before, after := BatchLive(s, checked), BatchLive(s, checked + {x});
    if t.series.Some? && t.due.Some? {
      var slot := (t.series.value, t.due.value);
      if slot in claimed {
        var y := claimed[slot];
        assert Live(after, x) && Live(after, y) && SameSlot(after.tasks[x], after.tasks[y]);
      } else if FindLiveOn(s, t.series.value, t.due.value, {x}).Some? {
        var y := FindLiveOn(s, t.series.value, t.due.value, {x}).value;
        assert Live(after, x) && Live(after, y) && SameSlot(after.tasks[x], after.tasks[y]);
      } else {
        forall y | Live(after, y) && (SameSlot(after.tasks[x], after.tasks[y]) || SameSlot(after.tasks[y], after.tasks[x]))
          ensures y == x
        {
          NobodyOn(s, t.series.value, t.due.value, x, y);
        }
        OneMoreLive(s, checked, x);
      }
    } else {
      OneMoreLive(s, checked, x);
    }
  }

  lemma NobodyOn(s: State, series: string, due: Date, x: int, y: int)
    requires FindLiveOn(s, series, due, {x}).None?
    ensures Live(s, y) && s.tasks[y].series == Some(series) && s.tasks[y].due == Some(due) ==> y == x
  {
    assert y in LiveOn(s, series, due) - {x} ==> LiveOn(s, series, due) - {x} != {};
  }

  lemma OneMoreLive(s: State, checked: set<int>, x: int)
    requires Trashed(s, x) && UniqueSlots(BatchLive(s, checked))
    requires var after := BatchLive(s, checked + {x});
             forall y :: Live(after, y) && (SameSlot(after.tasks[x], after.tasks[y]) || SameSlot(after.tasks[y], after.tasks[x]))
                         ==> y == x
    ensures UniqueSlots(BatchLive(s, checked + {x}))
  {
    var before, after := BatchLive(s, checked), BatchLive(s, checked + {x});
    forall y, z | Live(after, y) && Live(after, z) && SameSlot(after.tasks[y], after.tasks[z]) ensures y == z {
      if y != x && z != x {
        assert Live(before, y) && Live(before, z);
        assert before.tasks[y] == after.tasks[y] && before.tasks[z] == after.tasks[z];
      }
    }
  }

  lemma ClashStays(s: State, some: set<int>, more: set<int>)
    requires some <= more && !UniqueSlots(BatchLive(s, some))
    ensures !UniqueSlots(BatchLive(s, more))
  {
    var a, b := BatchLive(s, some), BatchLive(s, more);
    var y, z :| Live(a, y) && Live(a, z) && SameSlot(a.tasks[y], a.tasks[z]) && y != z;
    assert Live(b, y) && Live(b, z) && SameSlot(b.tasks[y], b.tasks[z]);
  }

  /**
   The check before a project restore passes if and only if bringing the whole archive back at
   once keeps at most one live row per (series, date).
   */
  lemma BatchCheckExact(s: State, p: int)
    requires UniqueSlots(s)
    ensures forall x :: x in Sorted(Archive(s, p)) ==> x in s.tasks
    ensures BatchConflict(s, Sorted(Archive(s, p)), map[]).None? <==> UniqueSlots(BatchLive(s, Archive(s, p)))
  {
    assert BatchLive(s, {}).tasks == s.tasks;
    assert UniqueSlots(BatchLive(s, {}));
    BatchConflictIff(s, {}, Sorted(Archive(s, p)), map[]);
    assert {} + Elems(Sorted(Archive(s, p))) == Archive(s, p);
  }
}
