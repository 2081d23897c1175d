/**
 Whole runs of the task store: any sequence of service calls, each of which goes through or is
 refused and rolled back.
 */
module Runs {
  import opened Common
  import opened Calendar
  import opened Store
  import opened TaskRecurrence
  import opened Tasks
  import opened TaskTrash
  import opened Projects
  import opened Invariant
  import opened ProjectPurge
  import opened Trash
  import TaskPurge
  import TaskDependencies
  import TaskSteps
  import ProjectSteps
  import ProjectUndo
  import PurgeSteps
  import RestoreUndo
  import Edits

  datatype Step =
    | TrashTask(task: int)
    | Skip(task: int)
    | ReconcileTasks(tasks: seq<int>)
    | RestoreOne(task: int)
    | RestoreTree(task: int)
    | UndoTask(receipt: Receipt)
    | PurgeOne(task: int)
    | TrashProject(project: int)
    | ReopenProject(project: int, withTasks: bool)
    | UndoProject(projectReceipt: ProjectReceipt)
    | Purge(projects: seq<int>, tasks: seq<int>)
    | Empty
    | AddEdge(task: int, blocker: int)
    | RemoveEdge(edge: nat)
    | Create(draft: Edits.Draft)
    | Complete(task: int)
    | Refile(task: int, to: Option<int>)
    | Recur(task: int, repeat: Option<Interval>, due: Option<Date>, mint: string)
    | MoveDue(task: int, due: Option<Date>)

  /** What a call answers: the callers look the row up first, live or trashed as the call needs. */
  ghost function Attempt(s: State, step: Step, done: Oracle): Result<State, Error>
    requires WellFormed(s)
  {
    match step
    case TrashTask(id) => if Live(s, id) then SoftDeleteTask(s, id, done) else Err(MissingTask)
    case Skip(id) =>
      if !Live(s, id) then Err(MissingTask) else
        var r :- SkipOccurrence(s, id, done);
        Ok(r.0)
    case ReconcileTasks(ids) => if forall q :: q in ids ==> q in s.tasks then Reconcile(s, ids, done) else Err(MissingTask)
    case RestoreOne(id) =>
      if !Trashed(s, id) then Err(MissingTask) else
        var r :- RestoreTask(s, id, false, done);
        Ok(r.state)
    case RestoreTree(id) =>
      if !Trashed(s, id) then Err(MissingTask) else
        var r :- RestoreSubtree(s, id, done);
        Ok(r.0)
    case UndoTask(receipt) => UndoTaskRestore(s, receipt, done)
    case PurgeOne(id) => if Trashed(s, id) then Ok(TaskPurge.PurgeTask(s, id)) else Err(MissingTask)
    case TrashProject(p) => if LiveProject(s, p) then SoftDeleteProject(s, p, done) else Err(MissingTask)
    case ReopenProject(p, withTasks) =>
      if !(p in s.projects && s.projects[p].deleted) then Err(MissingTask) else
        var r :- RestoreProject(s, p, withTasks, done);
        Ok(r.state)
    case UndoProject(receipt) => UndoProjectRestore(s, receipt, done)
    case Purge(ps, ts) =>
      var r :- PurgeSelected(s, ps, ts);
      Ok(r.0)
    case Empty =>
      var r :- EmptyTrash(s);
      Ok(r.0)
    case AddEdge(task, blocker) => TaskDependencies.AddDependency(s, task, blocker, done)
    case RemoveEdge(at) => Edits.RemoveDependency(s, at, done)
    case Create(draft) => Edits.CreateTask(s, draft, done)
    case Complete(id) => if Live(s, id) then Edits.MarkDone(s, id, done) else Err(MissingTask)
    case Refile(id, to) => if Live(s, id) then Edits.Refile(s, id, to, done) else Err(MissingTask)
    case Recur(id, repeat, due, mint) =>
      if Live(s, id) && MayRecur(s, id, repeat, mint) then Edits.EditRecurrence(s, id, repeat, due, mint, done) else Err(RecurrenceError)
    case MoveDue(id, due) => if Live(s, id) then EditDue(s, id, due, done) else Err(MissingTask)
  }

  /**
   A cadence the schema admits, a series id that is new, and, what the service itself does not ask
   for, no series above or below the row.
   */
  ghost predicate MayRecur(s: State, id: int, repeat: Option<Interval>, mint: string) {
    && (repeat.Some? ==> ValidInterval(repeat.value)) && Edits.Unused(s, mint) && (repeat.None? || !Edits.NestsSeries(s, id))
  }

  function Dated(s: State, id: int, due: Option<Date>): State
    requires id in s.tasks
  {
    s.(tasks := s.tasks[id := s.tasks[id].(due := due)])
  }

  lemma DatedWellFormed(s: State, id: int, due: Option<Date>)
    requires WellFormed(s) && id in s.tasks
    ensures WellFormed(Dated(s, id, due))
  {
    SameShapeWellFormed(s, Dated(s, id, due));
  }

  /** `update_task` with a due date only, on this occurrence only. */
  ghost function EditDue(s: State, id: int, due: Option<Date>, done: Oracle): Result<State, Error>
    requires WellFormed(s) && Live(s, id)
  {
    var t := s.tasks[id];
    assert RowWellFormed(s, t);
    if t.repeat.Some? && due.None? then Err(RecurrenceError)
    else if t.repeat.Some? && NextDue(due.value, t.repeat.value).None? then Err(RecurrenceError)
    else if due.Some? && due != t.due && t.series.Some? && FindLiveOn(s, t.series.value, due.value, {id}).Some? then
      Err(OccurrenceConflict(FindLiveOn(s, t.series.value, due.value, {id}).value))
    else if t.due == due then Ok(s)
    else
      DatedWellFormed(s, id, due);
      var settled :- Reconcile(Dated(s, id, due), [id], done);
      ReconcileSpawned(Dated(s, id, due), [id], done);
      Ok(settled.(events := settled.events + [TaskEvent(settled.tasks[id], id, Updated, Usual)]))
  }

  lemma DatedKeeps(s: State, id: int, due: Option<Date>)
    requires Consistent(s) && Live(s, id)
    requires var t := s.tasks[id];
             due.Some? && t.series.Some? ==> FindLiveOn(s, t.series.value, due.value, {id}).None?
    ensures Consistent(Dated(s, id, due))
  {
    var t := Dated(s, id, due);
    hide WellFormed, Sound, FlatSeries, FeedClean, Filed, Archived, FindLiveOn;
    assert UniqueSlots(t) by {
      forall x, y | Live(t, x) && Live(t, y) && SameSlot(t.tasks[x], t.tasks[y]) ensures x == y {
        if x == id { NobodyOn(s, t.tasks[id].series.value, due.value, id, y); }
        else if y == id { NobodyOn(s, t.tasks[id].series.value, due.value, id, x); }
        else { assert Live(s, x) && Live(s, y) && SameSlot(s.tasks[x], s.tasks[y]); }
      }
    }
    DatedMoves(s, id, due);
    TaskSteps.OnlyMovesKeeps(s, t);
  }

  lemma DatedMoves(s: State, id: int, due: Option<Date>)
    requires id in s.tasks
    ensures TaskSteps.OnlyMoves(s, Dated(s, id, due)) && s.events <= Dated(s, id, due).events
  {
  }

  lemma EditDueKeeps(s: State, id: int, due: Option<Date>, done: Oracle)
    requires Consistent(s) && Live(s, id)
    ensures WellFormed(s)
    ensures EditDue(s, id, due, done).Ok? ==> Consistent(EditDue(s, id, due, done).value)
  {
    TaskSteps.ConsistentWellFormed(s);
    var t := s.tasks[id];
    if EditDue(s, id, due, done).Ok? && t.due != due {
      DatedKeeps(s, id, due);
      DatedWellFormed(s, id, due);
      hide Core, Archived, WellFormed, Sound, Dated, FindLiveOn, Reconcile;
      var mid := Dated(s, id, due);
      DatedMoves(s, id, due);
      ReconcileKeeps(mid, [id], done);
      var settled := Reconcile(mid, [id], done).value;
      LogUpdated(settled, id);
    }
  }

  lemma LogUpdated(s: State, id: int)
    requires Consistent(s) && id in s.tasks
    ensures Consistent(s.(events := s.events + [TaskEvent(s.tasks[id], id, Updated, Usual)]))
  {
    LogKeepsCore(s, s.(events := s.events + [TaskEvent(s.tasks[id], id, Updated, Usual)]));
    hide Core, Archived;
  }

  lemma AddEdgeKeeps(s: State, task: int, blocker: int, done: Oracle)
    requires Consistent(s)
    ensures var r := TaskDependencies.AddDependency(s, task, blocker, done);
            r.Ok? ==> Consistent(r.value)
  {
    hide TaskDependencies.WaitsOn, TaskDependencies.IsAncestor, EdgeArrows;
    var r := TaskDependencies.AddDependency(s, task, blocker, done);
    if r.Ok? {
      var t := r.value;
      assert WellFormed(t) by {
        hide Filed, UniqueSlots, FlatSeries, FeedClean, Archived;
        forall x | x in t.tasks ensures RowWellFormed(t, t.tasks[x]) {
          assert RowWellFormed(s, s.tasks[x]);
        }
      }
      FeedAppend(s.projects, s.events, t.events);
      hide WellFormed, Sound, FlatSeries, FeedClean;
      forall x | x in t.tasks && t.tasks[x].withProject.Some? ensures ArchivedRow(t, t.tasks[x]) {
        assert ArchivedRow(s, s.tasks[x]);
      }
      assert UniqueSlots(t) by { hide Filed, Archived; }
    }
  }

  /** Every call keeps the store consistent. */
  lemma StepKeeps(s: State, step: Step, done: Oracle)
    requires Consistent(s)
    ensures WellFormed(s)
    ensures Attempt(s, step, done).Ok? ==> Consistent(Attempt(s, step, done).value)
  {
    TaskSteps.ConsistentWellFormed(s);
    if OnTasks(step) {
      TaskStepKeeps(s, step, done);
    } else {
      OtherStepKeeps(s, step, done);
    }
  }

  predicate OnTasks(step: Step) {
    step.TrashTask? || step.Skip? || step.ReconcileTasks? || step.RestoreOne? || step.RestoreTree? || step.UndoTask? || step.PurgeOne?
  }

  lemma TaskStepKeeps(s: State, step: Step, done: Oracle)
    requires Consistent(s) && WellFormed(s) && OnTasks(step)
    ensures Attempt(s, step, done).Ok? ==> Consistent(Attempt(s, step, done).value)
  {
    hide Consistent, WellFormed, Sound, SoftDeleteTask, SkipOccurrence, Reconcile, RestoreTask, RestoreSubtree, UndoTaskRestore,
         TaskPurge.PurgeTask, SoftDeleteProject, RestoreProject, UndoProjectRestore, PurgeSelected, EmptyTrash,
         TaskDependencies.AddDependency, EditDue, Edits.RemoveDependency, Edits.CreateTask, Edits.MarkDone, Edits.Refile,
         Edits.EditRecurrence, Edits.Unused, Edits.NestsSeries;
    match step
    case TrashTask(id) => if Live(s, id) { TaskSteps.SoftDeleteTaskKeeps(s, id, done); }
    case Skip(id) => if Live(s, id) { TaskSteps.SkipKeeps(s, id, done); }
    case ReconcileTasks(ids) =>
      if forall q :: q in ids ==> q in s.tasks { TaskSteps.ReconcileConsistent(s, ids, done); }
    case RestoreOne(id) => if Trashed(s, id) { TaskSteps.RestoreKeeps(s, id, false, done); }
    case RestoreTree(id) => if Trashed(s, id) { TaskSteps.SubtreeKeeps(s, id, done); }
    case UndoTask(receipt) => TaskSteps.UndoKeeps(s, receipt, done);
    case PurgeOne(id) => if Trashed(s, id) { TaskSteps.PurgeKeeps(s, id); }
  }

  lemma OtherStepKeeps(s: State, step: Step, done: Oracle)
    requires Consistent(s) && WellFormed(s) && !OnTasks(step)
    ensures Attempt(s, step, done).Ok? ==> Consistent(Attempt(s, step, done).value)
  {
    hide Consistent, WellFormed, Sound, SoftDeleteTask, SkipOccurrence, Reconcile, RestoreTask, RestoreSubtree, UndoTaskRestore,
         TaskPurge.PurgeTask, SoftDeleteProject, RestoreProject, UndoProjectRestore, PurgeSelected, EmptyTrash,
         TaskDependencies.AddDependency, EditDue, Edits.RemoveDependency, Edits.CreateTask, Edits.MarkDone, Edits.Refile,
         Edits.EditRecurrence, Edits.Unused, Edits.NestsSeries;
    match step
    case TrashProject(p) => if LiveProject(s, p) { ProjectSteps.SoftDeleteProjectKeeps(s, p, done); }
    case ReopenProject(p, withTasks) =>
      if p in s.projects && s.projects[p].deleted { ProjectSteps.RestoreProjectKeeps(s, p, withTasks, done); }
    case UndoProject(receipt) => ProjectUndo.UndoProjectKeeps(s, receipt, done);
    case Purge(ps, ts) => PurgeReportsTasks(s, ps, ts);
    case Empty => EmptyTrashMatchesTotal(s);
    case AddEdge(task, blocker) => AddEdgeKeeps(s, task, blocker, done);
    case MoveDue(id, due) => if Live(s, id) { EditDueKeeps(s, id, due, done); }
    case RemoveEdge(at) => Edits.RemoveKeeps(s, at, done);
    case Create(draft) => Edits.CreateKeeps(s, draft, done);
    case Complete(id) => if Live(s, id) { Edits.DoneKeeps(s, id, done); }
    case Refile(id, to) => if Live(s, id) { Edits.RefileKeeps(s, id, to, done); }
    case Recur(id, repeat, due, mint) =>
      if Live(s, id) && MayRecur(s, id, repeat, mint) { Edits.RecurrenceKeeps(s, id, repeat, due, mint, done); }
  }

  /** The store after a run; a refused call leaves it alone. */
  ghost function Run(s: State, steps: seq<Step>, done: Oracle): (t: State)
    requires Consistent(s)
    ensures Consistent(t)
    decreases |steps|
  {
    if steps == [] then s else
      StepKeeps(s, steps[0], done);
      var r := Attempt(s, steps[0], done);
      Run(if r.Ok? then r.value else s, steps[1..], done)
  }
}
