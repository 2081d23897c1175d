/** The `superseded` mark: no service call but a restore sets it, and none but its undo clears it. */
module Marks {
  import opened Common
  import opened Store
  import opened TaskRecurrence
  import opened Tasks
  import opened TaskTrash
  import opened Projects
  import opened Invariant
  import opened ProjectPurge
  import opened Trash
  import opened Runs
  import Calendar
  import Guarantees
  import TaskPurge
  import TaskDependencies
  import TaskSteps
  import ProjectUndo
  import RunLog
  import RestoreUndo
  import Edits

  /** Rows may be added, none of them superseded; no other row's mark changes. */
  ghost predicate SameMarks(s: State, t: State) {
    && s.tasks.Keys <= t.tasks.Keys
    && forall x :: x in t.tasks ==> (t.tasks[x].superseded <==> x in s.tasks && s.tasks[x].superseded)
  }

  /** Rows may be gone; no mark of the others changes. */
  ghost predicate OnlyCut(s: State, t: State) {
    && t.tasks.Keys <= s.tasks.Keys
    && forall x :: x in t.tasks ==> x in s.tasks && t.tasks[x].superseded == s.tasks[x].superseded
  }

  ghost predicate KeepsMarks(s: State, r: Result<State, Error>) {
    r.Ok? ==> SameMarks(s, r.value)
  }

  lemma MarksTrans(a: State, b: State, c: State)
    requires SameMarks(a, b) && SameMarks(b, c)
    ensures SameMarks(a, c)
  {
  }

  lemma CutTrans(a: State, b: State, c: State)
    requires OnlyCut(a, b) && OnlyCut(b, c)
    ensures OnlyCut(a, c)
  {
    forall x | x in c.tasks.Keys ensures x in a.tasks && c.tasks[x].superseded == a.tasks[x].superseded {
      assert x in b.tasks.Keys;
    }
  }

  lemma ReconcileMarks(s: State, seeds: seq<int>, done: Oracle)
    requires WellFormed(s) && forall q :: q in seeds ==> q in s.tasks
    ensures KeepsMarks(s, Reconcile(s, seeds, done))
  {
    ReconcileSpawned(s, seeds, done);
    hide WellFormed, Sound, Reconcile, Spawned, SameMarks;
    var r := Reconcile(s, seeds, done);
    if r.Ok? { SpawnMarks(s, r.value); }
  }

  /** A change that retires nothing, then the reconcile of what it left. */
  lemma ThenReconcile(s: State, mid: State, seeds: seq<int>, done: Oracle)
    requires SameMarks(s, mid) && WellFormed(mid) && forall q :: q in seeds ==> q in mid.tasks
    ensures KeepsMarks(s, Reconcile(mid, seeds, done))
  {
    hide WellFormed, Sound, Reconcile, SameMarks;
    ReconcileMarks(mid, seeds, done);
    var r := Reconcile(mid, seeds, done);
    if r.Ok? { MarksTrans(s, mid, r.value); }
  }

  lemma CascadeMarks(s: State, rows: seq<int>, root: int)
    requires forall x :: x in rows ==> x in s.tasks
    ensures SameMarks(s, Cascaded(s, rows, root))
  {
  }

  lemma SweepMarks(s: State, rows: seq<int>, root: int, left: set<int>, done: Oracle)
    requires WellFormed(s) && forall x :: x in rows ==> x in s.tasks
    ensures var mid := Cascaded(s, rows, root);
            && WellFormed(mid) && (forall q :: q in Outside(SeedsOf(s, rows), left) ==> q in mid.tasks)
            && KeepsMarks(s, Reconcile(mid, Outside(SeedsOf(s, rows), left), done))
  {
    CascadedWellFormed(s, rows, root);
    SeedsExist(s, rows);
    CascadeMarks(s, rows, root);
    hide WellFormed, Sound, SeedsOf, Reconcile, SameMarks, KeepsMarks;
    ThenReconcile(s, Cascaded(s, rows, root), Outside(SeedsOf(s, rows), left), done);
  }

  lemma SoftDeleteMarks(s: State, id: int, done: Oracle)
    requires WellFormed(s) && id in s.tasks
    ensures KeepsMarks(s, SoftDeleteTask(s, id, done))
  {
    hide WellFormed, Sound, SeedsOf, Descendants, Reconcile, Cascaded, Outside, KeepsMarks;
    SweepMarks(s, Descendants(s, id) + [id], id, Elems(Descendants(s, id) + [id]), done);
  }

  lemma SkipMarks(s: State, id: int, done: Oracle)
    requires WellFormed(s) && Live(s, id)
    ensures SkipOccurrence(s, id, done).Ok? ==> SameMarks(s, SkipOccurrence(s, id, done).value.0)
  {
    if SkipOccurrence(s, id, done).Ok? {
      CreateNextSpawned(s, id, done);
      var next := CreateNext(s, id, done).value.0;
      SweptKeeps(next, id, done);
      var swept := SoftDeleteDescendants(next, id, done).value;
      assert SkipOccurrence(s, id, done).value.0 == MarkSkipped(swept, id);
      hide *;
      SpawnMarks(s, next);
      SweptRowsMarks(next, id, done);
      SkippedMarks(swept, id);
      MarksTrans(s, next, swept);
      MarksTrans(s, swept, MarkSkipped(swept, id));
    }
  }

  lemma SpawnMarks(s: State, t: State)
    requires Spawned(s, t)
    ensures SameMarks(s, t)
  {
    SpawnedKeys(s, t);
  }

  lemma SkippedMarks(s: State, id: int)
    requires id in s.tasks
    ensures SameMarks(s, MarkSkipped(s, id))
  {
  }

  lemma SweptRowsMarks(s: State, id: int, done: Oracle)
    requires WellFormed(s) && id in s.tasks && SoftDeleteDescendants(s, id, done).Ok?
    ensures SameMarks(s, SoftDeleteDescendants(s, id, done).value)
  {
    hide WellFormed, Sound, SoftDeleteDescendants, SameMarks;
    SweptMarks(s, id, done);
  }

  lemma SweptMarks(s: State, id: int, done: Oracle)
    requires WellFormed(s) && id in s.tasks
    ensures KeepsMarks(s, SoftDeleteDescendants(s, id, done))
  {
    hide WellFormed, Sound, SeedsOf, Descendants, Reconcile, Cascaded, Outside, KeepsMarks;
    SweepMarks(s, Descendants(s, id), id, Elems(Descendants(s, id)) + {id}, done);
  }

  lemma UndoMarks(s: State, r: Receipt, done: Oracle)
    requires WellFormed(s) && r.unskip.None?
    ensures KeepsMarks(s, UndoTaskRestore(s, r, done))
  {
    if Accepts(s, r) {
      RetrashedWellFormed(s, r);
      RetrashMarks(s, r);
      hide WellFormed, Sound, Reconcile, Accepts, SeedsOf, Reversed, Retrashed, SameMarks, KeepsMarks;
      ThenReconcile(s, Retrashed(s, r), Outside(SeedsOf(s, Reversed(r.restored)), Elems(r.restored)), done);
    }
  }

  lemma RetrashMarks(s: State, r: Receipt)
    requires forall x :: x in r.restored ==> x in s.tasks
    ensures SameMarks(s, Retrashed(s, r))
  {
    hide RetrashEvents;
  }

  /** Undoing an un-skip frees the row it had retired and that row's skip cascade, and no other. */
  ghost predicate Freed(s: State, t: State, rows: set<int>) {
    && t.tasks.Keys == s.tasks.Keys
    && forall x :: x in t.tasks ==> (t.tasks[x].superseded <==> s.tasks[x].superseded && x !in rows)
  }

  lemma UnrewoundMarks(s: State, u: Unskip)
    requires Trashed(s, u.superseded) && forall x :: x in PreviousMap(u.previous) ==> x in s.tasks
    ensures Freed(s, Unrewound(s, u), Elems(SkipCascade(s, u.superseded)))
  {
    RestoreUndo.UnrewoundKeys(s, u);
    hide PreviousMap, TaskEvents, SupersededOf, FirstNamed, Sorted;
    var previous := PreviousMap(u.previous);
    var moved := s.(tasks := map x | x in s.tasks :: if x in previous then s.tasks[x].(due := previous[x]) else s.tasks[x]);
    assert Stamped(moved, u.superseded) == Stamped(s, u.superseded);
    forall x | x in s.tasks
      ensures Unrewound(s, u).tasks[x].superseded <==> s.tasks[x].superseded && x !in SkipCascade(s, u.superseded)
    {
      assert x in SkipCascade(s, u.superseded) <==> x == u.superseded || x in Stamped(s, u.superseded);
    }
  }

  lemma UnskipUndoMarks(s: State, r: Receipt, done: Oracle)
    requires WellFormed(s) && r.unskip.Some? && UndoTaskRestore(s, r, done).Ok?
    ensures Freed(s, UndoTaskRestore(s, r, done).value, Elems(SkipCascade(s, r.unskip.value.superseded)))
  {
    RestoreUndo.PreviousInStore(s, r.task, r.unskip.value);
    UnrewoundMarks(s, r.unskip.value);
    hide WellFormed, Sound, Accepts, AcceptsUnskip, Unrewound, PreviousMap, Freed, SkipCascade;
  }

  lemma ProjectMarks(s: State, p: int, done: Oracle)
    requires WellFormed(s) && p in s.projects
    ensures KeepsMarks(s, SoftDeleteProject(s, p, done))
  {
    SweptWellFormed(s, p);
    SweptSpawned(s, p, done);
    RunLog.DeleteUnfolds(s, p, done);
    assert SameMarks(s, Swept(s, p)) by { ProjectSweptMarks(s, p); }
    var seeds := Outside(SeedsOf(s, Sorted(LiveIn(s, p))), LiveIn(s, p));
    var settled := Reconcile(Swept(s, p), seeds, done);
    hide WellFormed, Sound, Reconcile, Swept, SeedsOf, Outside, SoftDeleteProject, LiveIn, Sorted;
    ThenReconcile(s, Swept(s, p), seeds, done);
  }

  lemma ProjectSweptMarks(s: State, p: int)
    ensures SameMarks(s, Swept(s, p))
  {
    hide LiveIn, BulkEvents;
  }

  lemma ReopenMarks(s: State, p: int, withTasks: bool, done: Oracle)
    requires WellFormed(s) && p in s.projects
    ensures RestoreProject(s, p, withTasks, done).Ok? ==> SameMarks(s, RestoreProject(s, p, withTasks, done).value.state)
  {
    UnpackedWellFormed(s, p);
    ProjectUndo.BatchExists(s, p);
    RunLog.RestoreUnfolds(s, p, withTasks, done);
    UnpackedMarks(s, p);
    hide WellFormed, Sound, Reconcile, Unpacked, Released, Archive, Sorted, RestoreProject;
    ThenReconcile(s, Unpacked(s, p), Sorted(Archive(s, p)), done);
  }

  lemma UnpackedMarks(s: State, p: int)
    requires p in s.projects
    ensures SameMarks(s, Unpacked(s, p)) && SameMarks(s, Released(s, p))
  {
    hide Archive, Stamps, BulkEvents;
  }

  lemma UndoProjectMarks(s: State, r: ProjectReceipt, done: Oracle)
    requires WellFormed(s)
    ensures KeepsMarks(s, UndoProjectRestore(s, r, done))
  {
    if AcceptsProjectUndo(s, r) {
      RearchivedWellFormed(s, r);
      var mid := Rearchived(s, r);
      RearchivedMarks(s, r);
      hide WellFormed, Sound, SoftDeleteProject, LoggedIds, WindowStart, Rearchived, SameMarks;
      ProjectMarks(mid, r.project, done);
      var t := SoftDeleteProject(mid, r.project, done);
      if t.Ok? { MarksTrans(s, mid, t.value); }
    }
  }

  lemma RearchivedMarks(s: State, r: ProjectReceipt)
    requires r.eventId <= |s.events| + 1
    ensures SameMarks(s, Rearchived(s, r))
  {
    hide LoggedIds, WindowStart;
  }

  lemma PurgeMarks(s: State, id: int)
    requires WellFormed(s) && id in s.tasks
    ensures OnlyCut(s, TaskPurge.PurgeTask(s, id))
  {
    hide WellFormed, Sound, TaskPurge.PurgeTask, TaskPurge.Doomed;
  }

  lemma {:induction false} PurgeEachMarks(s: State, ids: seq<int>)
    requires WellFormed(s)
    ensures OnlyCut(s, PurgeEach(s, ids))
    decreases |ids|
  {
    hide WellFormed, Sound, TaskPurge.PurgeTask;
    if ids != [] {
      if Trashed(s, ids[0]) {
        TaskPurge.PurgeWellFormed(s, ids[0]);
        PurgeMarks(s, ids[0]);
        PurgeEachMarks(TaskPurge.PurgeTask(s, ids[0]), ids[1..]);
        CutTrans(s, TaskPurge.PurgeTask(s, ids[0]), PurgeEach(s, ids));
      } else {
        PurgeEachMarks(s, ids[1..]);
      }
    }
  }

  lemma PurgeProjectMarks(s: State, p: int)
    requires WellFormed(s) && p in s.projects && PurgeProject(s, p).Ok?
    ensures OnlyCut(s, PurgeProject(s, p).value)
  {
    var cleared := PurgeEach(s, Sorted(TrashedIn(s, p)));
    PurgeEachMarks(s, Sorted(TrashedIn(s, p)));
    WithoutMarks(cleared, p);
    hide WellFormed, Sound, PurgeEach, WithoutProject, OnlyCut;
    CutTrans(s, cleared, WithoutProject(cleared, p));
  }

  lemma WithoutMarks(s: State, p: int)
    ensures OnlyCut(s, WithoutProject(s, p))
  {
    hide Unlinked;
  }

  lemma {:induction false} PurgeProjectsMarks(s: State, ps: seq<int>)
    requires WellFormed(s) && PurgeProjects(s, ps).Ok?
    ensures OnlyCut(s, PurgeProjects(s, ps).value)
    decreases |ps|
  {
    if ps != [] {
      if ps[0] in s.projects && s.projects[ps[0]].deleted {
        PurgedWellFormed(s, ps[0]);
        hide WellFormed, Sound, PurgeProject, OnlyCut;
        PurgeProjectMarks(s, ps[0]);
        var next := PurgeProject(s, ps[0]).value;
        PurgeProjectsMarks(next, ps[1..]);
        CutTrans(s, next, PurgeProjects(next, ps[1..]).value);
      } else {
        PurgeProjectsMarks(s, ps[1..]);
      }
    }
  }

  lemma PurgeSelectedMarks(s: State, projectIds: seq<int>, taskIds: seq<int>)
    requires WellFormed(s) && PurgeSelected(s, projectIds, taskIds).Ok?
    ensures OnlyCut(s, PurgeSelected(s, projectIds, taskIds).value.0)
  {
    var ts, ps := TrashedIds(s, taskIds), PurgeableIds(s, projectIds);
    PurgeEachMarks(s, ts);
    var mid := PurgeEach(s, ts);
    hide WellFormed, Sound, PurgeEach, PurgeProjects, OnlyCut, TrashedIds, PurgeableIds, RemovedIds;
    PurgeProjectsMarks(mid, ps);
    CutTrans(s, mid, PurgeProjects(mid, ps).value);
  }

  lemma EmptyMarks(s: State)
    requires WellFormed(s) && EmptyTrash(s).Ok?
    ensures OnlyCut(s, EmptyTrash(s).value.0)
  {
    PurgeSelectedMarks(s, Sorted(set p | p in s.projects && s.projects[p].deleted), Sorted(TrashedTasks(s)));
    hide WellFormed, Sound, PurgeSelected, OnlyCut;
  }

  lemma EditDueMarks(s: State, id: int, due: Option<Calendar.Date>, done: Oracle)
    requires WellFormed(s) && Live(s, id)
    ensures KeepsMarks(s, EditDue(s, id, due, done))
  {
    DatedWellFormed(s, id, due);
    hide WellFormed, Sound, Reconcile, FindLiveOn;
    ThenReconcile(s, Dated(s, id, due), [id], done);
  }

  lemma RemoveMarks(s: State, at: nat, done: Oracle)
    requires WellFormed(s)
    ensures KeepsMarks(s, Edits.RemoveDependency(s, at, done))
  {
    if at < |s.edges| {
      Edits.UnedgedWellFormed(s, at);
      hide WellFormed, Sound, Reconcile;
      ThenReconcile(s, Edits.Unedged(s, at), [s.edges[at].task], done);
    }
  }

  lemma CreateMarks(s: State, draft: Edits.Draft, done: Oracle)
    requires WellFormed(s)
    ensures KeepsMarks(s, Edits.CreateTask(s, draft, done))
  {
    hide WellFormed, Sound, Reconcile, Edits.NestingLevel;
    if Edits.CreateTask(s, draft, done).Ok? {
      Edits.InsertedWellFormed(s, draft);
      assert NextId(s.tasks.Keys) !in s.tasks.Keys;
      ThenReconcile(s, Edits.Inserted(s, Edits.DraftRow(s, draft)), [NextId(s.tasks.Keys)], done);
    }
  }

  lemma DoneMarks(s: State, id: int, done: Oracle)
    requires WellFormed(s) && Live(s, id)
    ensures KeepsMarks(s, Edits.MarkDone(s, id, done))
  {
    SameShapeWellFormed(s, Edits.WithStatus(s, id, Done));
    hide WellFormed, Sound, Reconcile, Edits.Blocked;
    ReconcileMarks(s, [id], done);
    ThenReconcile(s, Edits.WithStatus(s, id, Done), [id], done);
  }

  lemma RefileMarks(s: State, id: int, to: Option<int>, done: Oracle)
    requires WellFormed(s) && Live(s, id)
    ensures KeepsMarks(s, Edits.Refile(s, id, to, done))
  {
    var p := if to.Some? then to.value else GENERAL;
    Edits.GeneralLive(s);
    if LiveProject(s, p) {
      Edits.FiledWellFormed(s, id, p);
      hide WellFormed, Sound, Reconcile;
      ThenReconcile(s, Edits.FiledIn(s, id, p), [id], done);
    }
  }

  lemma RecurMarks(s: State, id: int, repeat: Option<Calendar.Interval>, due: Option<Calendar.Date>, mint: string, done: Oracle)
    requires WellFormed(s) && Live(s, id) && (repeat.Some? ==> Calendar.ValidInterval(repeat.value))
    ensures KeepsMarks(s, Edits.EditRecurrence(s, id, repeat, due, mint, done))
  {
    Edits.RecurringWellFormed(s, id, repeat, due, mint);
    hide WellFormed, Sound, Reconcile, FindLiveOn, Calendar.NextDue;
    ThenReconcile(s, Edits.Recurring(s, id, repeat, due, mint), [id], done);
  }
}
