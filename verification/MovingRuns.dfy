/**
 The wait graph over runs in which tasks are moved below one another as well: every call keeps the
 store well formed on its own, so nothing of the joint invariant is needed.
 */
module MovingRuns {
  import opened Common
  import opened Calendar
  import opened Store
  import opened TaskRecurrence
  import opened Tasks
  import opened TaskTrash
  import opened Projects
  import opened ProjectPurge
  import opened Trash
  import opened Runs
  import opened WaitRuns
  import Edits
  import Reparenting
  import Guarantees
  import RestoreUndo
  import ProjectUndo
  import TaskPurge
  import TaskDependencies
  import TaskSteps
  import RunLog
  import Graph
  import Forest

  // ---- calls on a well-formed store -----------------------------------------------------------

  ghost predicate Sane(r: Result<State, Error>) {
    r.Ok? ==> WellFormed(r.value)
  }

  lemma SettledSane(s: State, seeds: seq<int>, done: Oracle)
    requires WellFormed(s) && forall q :: q in seeds ==> q in s.tasks
    ensures Sane(Reconcile(s, seeds, done))
  {
    ReconcileSpawned(s, seeds, done);
    hide WellFormed, Sound, Reconcile, Spawned;
  }

  lemma LoggedSane(s: State, t: State)
    requires WellFormed(s) && SameRows(s, t)
    ensures WellFormed(t)
  {
    LogKeepsWellFormed(s, t);
  }

  lemma SweepSane(s: State, rows: seq<int>, root: int, left: set<int>, done: Oracle)
    requires WellFormed(s) && forall x :: x in rows ==> x in s.tasks
    ensures var mid := Cascaded(s, rows, root);
            && WellFormed(mid) && (forall q :: q in Outside(SeedsOf(s, rows), left) ==> q in mid.tasks)
            && Sane(Reconcile(mid, Outside(SeedsOf(s, rows), left), done))
  {
    CascadedWellFormed(s, rows, root);
    SeedsExist(s, rows);
    hide WellFormed, Sound, SeedsOf, Reconcile, Sane;
    SettledSane(Cascaded(s, rows, root), Outside(SeedsOf(s, rows), left), done);
  }

  lemma TrashSane(s: State, id: int, done: Oracle)
    requires WellFormed(s) && id in s.tasks
    ensures Sane(SoftDeleteTask(s, id, done))
  {
    hide WellFormed, Sound, SeedsOf, Descendants, Reconcile, Cascaded, Outside, Sane;
    SweepSane(s, Descendants(s, id) + [id], id, Elems(Descendants(s, id) + [id]), done);
  }

  lemma SkipSane(s: State, id: int, done: Oracle)
    requires WellFormed(s) && Live(s, id)
    ensures SkipOccurrence(s, id, done).Ok? ==> WellFormed(SkipOccurrence(s, id, done).value.0)
  {
    if SkipOccurrence(s, id, done).Ok? {
      CreateNextSpawned(s, id, done);
      var next := CreateNext(s, id, done).value.0;
      SweptKeeps(next, id, done);
      var swept := SoftDeleteDescendants(next, id, done).value;
      assert SkipOccurrence(s, id, done).value.0 == MarkSkipped(swept, id);
      hide *;
      hide WellFormed;
      MarkSane(swept, id);
    }
  }

  lemma MarkSane(s: State, id: int)
    requires WellFormed(s) && id in s.tasks
    ensures WellFormed(MarkSkipped(s, id))
  {
    hide WellFormed, Sound;
    SameShapeWellFormed(s, MarkSkipped(s, id));
  }

  lemma SubtreeSane(s: State, id: int, done: Oracle)
    requires WellFormed(s) && Trashed(s, id)
    ensures RestoreSubtree(s, id, done).Ok? ==> WellFormed(RestoreSubtree(s, id, done).value.0)
  {
    if RestoreSubtree(s, id, done).Ok? {
      var root := RestoreTask(s, id, true, done).value;
      TaskSteps.RestoresTask(s, id, root);
      RestoreUndo.MarkedExist(root.state, id);
      var rest := RestoreMarked(root.state, Sorted(Marked(root.state, id)), done).value.0;
      var back := Sorted(set x | x in Marked(s, id) && Live(rest, x));
      hide WellFormed, Sound, RestoreTask, RestoreMarked, Reconcile, Marked, Pending, Restores;
      SettledSane(rest, [root.task] + back, done);
    }
  }

  lemma UndoSane(s: State, r: Receipt, done: Oracle)
    requires WellFormed(s)
    ensures Sane(UndoTaskRestore(s, r, done))
  {
    if Accepts(s, r) {
      if r.unskip.None? {
        RetrashedWellFormed(s, r);
        hide WellFormed, Sound, Reconcile, Accepts, SeedsOf, Reversed;
        SettledSane(Retrashed(s, r), Outside(SeedsOf(s, Reversed(r.restored)), Elems(r.restored)), done);
      } else {
        RestoreUndo.PreviousInStore(s, r.task, r.unskip.value);
        UnrewoundSane(s, r.unskip.value);
        hide WellFormed, Sound, Accepts, Unrewound, PreviousMap;
      }
    }
  }

  lemma UnrewoundSane(s: State, u: Unskip)
    requires WellFormed(s) && Trashed(s, u.superseded) && forall x :: x in PreviousMap(u.previous) ==> x in s.tasks
    ensures WellFormed(Unrewound(s, u))
  {
    UnrewoundShape(s, u);
    hide WellFormed, Sound, Unrewound;
    SameShapeWellFormed(s, Unrewound(s, u));
  }

  lemma UnrewoundShape(s: State, u: Unskip)
    requires Trashed(s, u.superseded) && forall x :: x in PreviousMap(u.previous) ==> x in s.tasks
    ensures SameShape(s, Unrewound(s, u))
  {
    hide PreviousMap, TaskEvents, SupersededOf, FirstNamed, Sorted;
  }

  lemma TrashProjectSane(s: State, p: int, done: Oracle)
    requires WellFormed(s) && p in s.projects
    ensures Sane(SoftDeleteProject(s, p, done))
  {
    SweptSpawned(s, p, done);
    RunLog.DeleteUnfolds(s, p, done);
    var settled := Reconcile(Swept(s, p), Outside(SeedsOf(s, Sorted(LiveIn(s, p))), LiveIn(s, p)), done);
    var r := SoftDeleteProject(s, p, done);
    if r.Ok? {
      Unprotected(s, p, done);
      hide WellFormed, Sound, Reconcile, Swept, SeedsOf, Outside, SoftDeleteProject, LiveIn, Sorted, Spawned, UniqueSlots;
      SetDeletedWellFormed(settled.value, p, true);
      LoggedSane(SetDeleted(settled.value, p, true), r.value);
    }
  }

  lemma Unprotected(s: State, p: int, done: Oracle)
    requires WellFormed(s) && p in s.projects && SoftDeleteProject(s, p, done).Ok?
    ensures WellFormed(Swept(s, p)) && forall q :: q in Outside(SeedsOf(s, Sorted(LiveIn(s, p))), LiveIn(s, p)) ==> q in Swept(s, p).tasks
    ensures var settled := Reconcile(Swept(s, p), Outside(SeedsOf(s, Sorted(LiveIn(s, p))), LiveIn(s, p)), done);
            settled.Ok? ==> p in settled.value.projects && !settled.value.projects[p].protected
  {
    SweptSpawned(s, p, done);
    hide WellFormed, Sound, Reconcile, SeedsOf, Outside, LiveIn, Sorted;
  }

  lemma ReopenSane(s: State, p: int, withTasks: bool, done: Oracle)
    requires WellFormed(s) && p in s.projects
    ensures RestoreProject(s, p, withTasks, done).Ok? ==> WellFormed(RestoreProject(s, p, withTasks, done).value.state)
  {
    UnpackedWellFormed(s, p);
    ProjectUndo.BatchExists(s, p);
    RunLog.RestoreUnfolds(s, p, withTasks, done);
    hide WellFormed, Sound, Reconcile, Unpacked, Released, Archive, Sorted, RestoreProject;
    SettledSane(Unpacked(s, p), Sorted(Archive(s, p)), done);
    var r := RestoreProject(s, p, withTasks, done);
    if r.Ok? {
      if withTasks { LoggedSane(Reconcile(Unpacked(s, p), Sorted(Archive(s, p)), done).value, r.value.state); }
      else { LoggedSane(Released(s, p), r.value.state); }
    }
  }

  lemma UndoProjectSane(s: State, r: ProjectReceipt, done: Oracle)
    requires WellFormed(s)
    ensures Sane(UndoProjectRestore(s, r, done))
  {
    if AcceptsProjectUndo(s, r) {
      RearchivedWellFormed(s, r);
      hide WellFormed, Sound, SoftDeleteProject, LoggedIds, WindowStart;
      TrashProjectSane(Rearchived(s, r), r.project, done);
    }
  }

  lemma DueSane(s: State, id: int, due: Option<Date>, done: Oracle)
    requires WellFormed(s) && Live(s, id)
    ensures Sane(EditDue(s, id, due, done))
  {
    DatedWellFormed(s, id, due);
    hide WellFormed, Sound, Reconcile, FindLiveOn;
    SettledSane(Dated(s, id, due), [id], done);
    var settled := Reconcile(Dated(s, id, due), [id], done);
    if EditDue(s, id, due, done).Ok? && s.tasks[id].due != due { LoggedSane(settled.value, EditDue(s, id, due, done).value); }
  }

  lemma AddEdgeSane(s: State, task: int, blocker: int, done: Oracle)
    requires WellFormed(s)
    ensures Sane(TaskDependencies.AddDependency(s, task, blocker, done))
  {
    hide TaskDependencies.WaitsOn, TaskDependencies.IsAncestor, EdgeArrows, Forest.Acyclic;
    var r := TaskDependencies.AddDependency(s, task, blocker, done);
    if r.Ok? {
      forall x | x in r.value.tasks ensures RowWellFormed(r.value, r.value.tasks[x]) {
        assert RowWellFormed(s, s.tasks[x]);
      }
    }
  }

  lemma EditSane(s: State, mid: State, id: int, action: Action, done: Oracle)
    requires WellFormed(mid) && id in mid.tasks
    ensures var settled := Reconcile(mid, [id], done);
            settled.Ok? ==> WellFormed(settled.value) && id in settled.value.tasks && WellFormed(LogTask(settled.value, id, action))
  {
    ReconcileSpawned(mid, [id], done);
    hide WellFormed, Sound, Reconcile;
    var settled := Reconcile(mid, [id], done);
    if settled.Ok? { LoggedSane(settled.value, LogTask(settled.value, id, action)); }
  }

  lemma CreateSane(s: State, draft: Edits.Draft, done: Oracle)
    requires WellFormed(s)
    ensures Sane(Edits.CreateTask(s, draft, done))
  {
    hide WellFormed, Sound, Reconcile, Edits.NestingLevel, Edits.DraftRow, Edits.Inserted;
    if Edits.CreateTask(s, draft, done).Ok? {
      Edits.InsertedWellFormed(s, draft);
      SettledSane(Edits.Inserted(s, Edits.DraftRow(s, draft)), [NextId(s.tasks.Keys)], done);
    }
  }

  lemma DoneSane(s: State, id: int, done: Oracle)
    requires WellFormed(s) && Live(s, id)
    ensures Sane(Edits.MarkDone(s, id, done))
  {
    var mid := Edits.WithStatus(s, id, Done);
    SameShapeWellFormed(s, mid);
    assert id in mid.tasks;
    hide WellFormed, Sound, Reconcile, Edits.Blocked, Edits.WithStatus, LogTask;
    SettledSane(s, [id], done);
    EditSane(s, mid, id, Completed, done);
  }

  lemma RefileSane(s: State, id: int, to: Option<int>, done: Oracle)
    requires WellFormed(s) && Live(s, id)
    ensures Sane(Edits.Refile(s, id, to, done))
  {
    var p := if to.Some? then to.value else GENERAL;
    Edits.GeneralLive(s);
    if LiveProject(s, p) {
      var mid := Edits.FiledIn(s, id, p);
      Edits.FiledWellFormed(s, id, p);
      assert id in mid.tasks;
      hide WellFormed, Sound, Reconcile, Edits.FiledIn, LogTask;
      EditSane(s, mid, id, Updated, done);
    }
  }

  lemma RemoveSane(s: State, at: nat, done: Oracle)
    requires WellFormed(s)
    ensures Sane(Edits.RemoveDependency(s, at, done))
  {
    if at < |s.edges| {
      Edits.UnedgedWellFormed(s, at);
      hide WellFormed, Sound, Reconcile;
      SettledSane(Edits.Unedged(s, at), [s.edges[at].task], done);
    }
  }

  lemma RecurSane(s: State, id: int, repeat: Option<Interval>, due: Option<Date>, mint: string, done: Oracle)
    requires WellFormed(s) && Live(s, id) && (repeat.Some? ==> ValidInterval(repeat.value))
    ensures Sane(Edits.EditRecurrence(s, id, repeat, due, mint, done))
  {
    Edits.RecurringWellFormed(s, id, repeat, due, mint);
    hide WellFormed, Sound, Reconcile, Edits.Recurring, FindLiveOn, NextDue, LogTask;
    EditSane(s, Edits.Recurring(s, id, repeat, due, mint), id, Updated, done);
  }

  /** Every call keeps a store well formed, whatever else holds of it. */
  lemma StepSane(s: State, step: Step, done: Oracle)
    requires WellFormed(s)
    ensures Sane(Attempt(s, step, done))
  {
    hide WellFormed, Sound, SoftDeleteTask, SkipOccurrence, Reconcile, RestoreTask, RestoreSubtree, UndoTaskRestore, TaskPurge.PurgeTask,
         SoftDeleteProject, RestoreProject, UndoProjectRestore, PurgeSelected, EmptyTrash, TaskDependencies.AddDependency, EditDue,
         Edits.RemoveDependency, Edits.CreateTask, Edits.MarkDone, Edits.Refile, Edits.EditRecurrence, Edits.Unused, Edits.NestsSeries;
    match step
    case TrashTask(id) => if Live(s, id) { TrashSane(s, id, done); }
    case Skip(id) => if Live(s, id) { SkipSane(s, id, done); }
    case ReconcileTasks(ids) => if forall q :: q in ids ==> q in s.tasks { SettledSane(s, ids, done); }
    case RestoreOne(id) =>
    case RestoreTree(id) => if Trashed(s, id) { SubtreeSane(s, id, done); }
    case UndoTask(receipt) => UndoSane(s, receipt, done);
    case PurgeOne(id) => if Trashed(s, id) { TaskPurge.PurgeWellFormed(s, id); }
    case TrashProject(p) => if LiveProject(s, p) { TrashProjectSane(s, p, done); }
    case ReopenProject(p, withTasks) => if p in s.projects && s.projects[p].deleted { ReopenSane(s, p, withTasks, done); }
    case UndoProject(receipt) => UndoProjectSane(s, receipt, done);
    case Purge(ps, ts) => SelectedSane(s, ps, ts);
    case Empty => EmptySane(s);
    case AddEdge(task, blocker) => AddEdgeSane(s, task, blocker, done);
    case RemoveEdge(at) => RemoveSane(s, at, done);
    case Create(draft) => CreateSane(s, draft, done);
    case Complete(id) => if Live(s, id) { DoneSane(s, id, done); }
    case Refile(id, to) => if Live(s, id) { RefileSane(s, id, to, done); }
    case Recur(id, repeat, due, mint) =>
      if Live(s, id) && MayRecur(s, id, repeat, mint) { RecurSane(s, id, repeat, due, mint, done); }
    case MoveDue(id, due) => if Live(s, id) { DueSane(s, id, due, done); }
  }

  lemma SelectedSane(s: State, ps: seq<int>, ts: seq<int>)
    requires WellFormed(s)
    ensures PurgeSelected(s, ps, ts).Ok? ==> WellFormed(PurgeSelected(s, ps, ts).value.0)
  {
    hide WellFormed, Sound, PurgeEach, PurgeProjects, RemovedIds, TrashedIds, PurgeableIds;
  }

  lemma EmptySane(s: State)
    requires WellFormed(s)
    ensures EmptyTrash(s).Ok? ==> WellFormed(EmptyTrash(s).value.0)
  {
    hide WellFormed, Sound, PurgeSelected;
    SelectedSane(s, Sorted(set p | p in s.projects && s.projects[p].deleted), Sorted(TrashedTasks(s)));
  }

  // ---- runs with moves ----------------------------------------------------------------------------

  /** Any call of the runs before, a move below another task or to the top, or any cadence at all. */
  datatype Call =
    | Service(step: Step)
    | Move(task: int, parent: Option<int>)
    | Repeat(task: int, repeat: Option<Interval>, due: Option<Date>, mint: string)

  ghost function Answer(s: State, call: Call, done: Oracle): Result<State, Error>
    requires WellFormed(s) && NoDeadlock(s)
  {
    match call
    case Service(step) => Attempt(s, step, done)
    case Move(id, parent) => if Live(s, id) then Reparenting.Reparent(s, id, parent, done) else Err(MissingTask)
    case Repeat(id, repeat, due, mint) =>
      if Live(s, id) && (repeat.Some? ==> ValidInterval(repeat.value)) then Edits.EditRecurrence(s, id, repeat, due, mint, done)
      else Err(MissingTask)
  }

  lemma CallKeeps(s: State, call: Call, done: Oracle)
    requires WellFormed(s) && NoDeadlock(s)
    ensures var r := Answer(s, call, done);
            r.Ok? ==> WellFormed(r.value) && NoDeadlock(r.value)
  {
    hide WellFormed, Sound, NoDeadlock, Attempt, Reparenting.Reparent, Edits.EditRecurrence, ValidInterval;
    match call
    case Service(step) =>
      StepSane(s, step, done);
      StepNoDeadlock(s, step, done);
    case Move(id, parent) => if Live(s, id) { Reparenting.ReparentExact(s, id, parent, done); }
    case Repeat(id, repeat, due, mint) =>
      if Live(s, id) && (repeat.Some? ==> ValidInterval(repeat.value)) {
        RecurSane(s, id, repeat, due, mint, done);
        RecurNoDeadlock(s, id, repeat, due, mint, done);
      }
  }

  /** The store after a run; a refused call leaves it alone. */
  ghost function RunCalls(s: State, calls: seq<Call>, done: Oracle): (t: State)
    requires WellFormed(s) && NoDeadlock(s)
    ensures WellFormed(t) && NoDeadlock(t)
    decreases |calls|
  {
    if calls == [] then s else
      CallKeeps(s, calls[0], done);
      var r := Answer(s, calls[0], done);
      RunCalls(if r.Ok? then r.value else s, calls[1..], done)
  }

  /**
   From a database without tasks, over any run of calls and moves: no task waits on itself, and no
   row hangs below itself.
   */
  lemma NothingEverWaitsOnItself(projects: map<int, Project>, events: seq<Event>, calls: seq<Call>, done: Oracle)
    requires Edits.NoneTrashed(projects)
    ensures var s := Edits.Started(projects, events);
            && WellFormed(s) && NoDeadlock(s)
            && var t := RunCalls(s, calls, done);
            Graph.NoCycle(WaitArrows(t)) && Forest.Acyclic(ParentLinks(t.tasks))
  {
    var s := Edits.Started(projects, events);
    Edits.StartedConsistent(projects, events);
    TaskSteps.ConsistentWellFormed(s);
    Guarantees.NoArrows(s);
    hide RunCalls, Edits.Started;
  }
}
