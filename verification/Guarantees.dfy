/** What holds of every reachable store, and of every receipt over every run. */
module Guarantees {
  import opened Common
  import opened Calendar
  import opened Store
  import opened TaskRecurrence
  import opened Tasks
  import opened TaskTrash
  import opened Projects
  import opened Invariant
  import opened ProjectUndo
  import opened ProjectPurge
  import opened Runs
  import opened RunLog
  import PurgeSteps
  import TaskSteps
  import ProjectSteps
  import Forest
  import Edits
  import WaitRuns

  /** A trashed row is in the Tasks trash, retired by an un-skip, or archived under a trashed project. */
  predicate OnATrashList(s: State, x: int)
    requires x in s.tasks
  {
    var t := s.tasks[x];
    t.withProject.None? || t.superseded || (t.withProject.value in s.projects && s.projects[t.withProject.value].deleted)
  }

  /**
   A live task is filed in a live project, a series has at most one live row per date, no trashed
   task is stranded, and purging a trashed project goes through.
   */
  ghost predicate Guaranteed(t: State) {
    && (forall x :: Live(t, x) ==> LiveProject(t, t.tasks[x].project))
    && (forall x, y :: Live(t, x) && Live(t, y) && SameSlot(t.tasks[x], t.tasks[y]) ==> x == y)
    && (forall x :: Trashed(t, x) ==> OnATrashList(t, x))
    && WellFormed(t)
    && (forall p :: p in t.projects && t.projects[p].deleted ==> PurgeProject(t, p).Ok?)
  }

  /** Every store a run reaches from a consistent one. */
  lemma EveryReachableStore(s: State, steps: seq<Step>, done: Oracle)
    requires Consistent(s)
    ensures Guaranteed(Run(s, steps, done))
  {
    var t := Run(s, steps, done);
    TaskSteps.ConsistentWellFormed(t);
    forall p | p in t.projects && t.projects[p].deleted ensures PurgeProject(t, p).Ok? {
      PurgeSteps.PurgeProjectKeeps(t, p);
    }
    hide WellFormed, Sound, FlatSeries, FeedClean, Run, PurgeProject;
    forall x | Trashed(t, x) ensures OnATrashList(t, x) {
      if t.tasks[x].withProject.Some? { assert ArchivedRow(t, t.tasks[x]); }
    }
  }

  /** Every store a run reaches from a database that holds no task yet; nothing is assumed of it. */
  lemma FromTheStart(projects: map<int, Project>, events: seq<Event>, steps: seq<Step>, done: Oracle)
    requires Edits.NoneTrashed(projects)
    ensures Consistent(Edits.Started(projects, events))
    ensures Guaranteed(Run(Edits.Started(projects, events), steps, done))
    ensures WaitRuns.NoDeadlock(Run(Edits.Started(projects, events), steps, done))
  {
    Edits.StartedConsistent(projects, events);
    var s := Edits.Started(projects, events);
    NoArrows(s);
    hide Consistent, Guaranteed, WaitRuns.NoDeadlock, Edits.Started;
    EveryReachableStore(s, steps, done);
    WaitRuns.RunNeverDeadlocks(s, steps, done);
  }

  lemma NoArrows(s: State)
    requires WaitArrows(s) == {}
    ensures WaitRuns.NoDeadlock(s)
  {
    hide WaitArrows;
  }

  lemma RunKeepsLog(s: State, steps: seq<Step>, done: Oracle)
    requires Consistent(s)
    ensures LogKept(s.events, Run(s, steps, done).events)
  {
    RunAfter(s, steps, done);
    var t := Run(s, steps, done);
    TaskSteps.ConsistentWellFormed(t);
    GeneralStays(t);
    hide WellFormed, Sound, Consistent, Run;
    assert Extends(s.events, t.events, GENERAL);
  }

  lemma GeneralStays(s: State)
    requires WellFormed(s)
    ensures GENERAL in s.projects
  {
    hide Forest.Acyclic;
  }

  /** Over any run, a receipt of a restore in place that has been used is refused for ever. */
  lemma PlainReceiptNeverTwice(s: State, r: Receipt, steps: seq<Step>, done: Oracle)
    requires Consistent(s) && r.unskip.None?
    ensures WellFormed(s)
    ensures UndoTaskRestore(s, r, done).Ok? ==>
              && Consistent(UndoTaskRestore(s, r, done).value)
              && var later := Run(UndoTaskRestore(s, r, done).value, steps, done);
              WellFormed(later) && UndoTaskRestore(later, r, done) == Err(UndoConflict)
  {
    TaskSteps.ConsistentWellFormed(s);
    TaskSteps.UndoKeeps(s, r, done);
    hide WellFormed, Sound, Consistent, UndoTaskRestore, Run;
    if UndoTaskRestore(s, r, done).Ok? {
      var undone := UndoTaskRestore(s, r, done).value;
      var later := Run(undone, steps, done);
      TaskSteps.ConsistentWellFormed(later);
      RunKeepsLog(undone, steps, done);
      PlainReceiptWorksOnce(s, r, done, later);
    }
  }

  /**
   Whatever runs after a project restore, as long as the project is there, an undo recomputes
   from the log exactly the rows that restore returned and released.
   */
  lemma UndoSetsOverRuns(s: State, p: int, withTasks: bool, steps: seq<Step>, done: Oracle)
    requires Consistent(s) && p in s.projects && s.projects[p].deleted
    ensures WellFormed(s)
    ensures RestoreProject(s, p, withTasks, done).Ok? ==>
              && var r := RestoreProject(s, p, withTasks, done).value;
              && Consistent(r.state)
              && var later := Run(r.state, steps, done);
              p in later.projects ==>
                && r.receipt.eventId <= |later.events| + 1
                && var start := WindowStart(later.events, p, r.receipt.eventId);
                && LoggedIds(later.events, p, start, r.receipt.eventId, Restored, Usual) == Returned(s, p, withTasks)
                && LoggedIds(later.events, p, start, r.receipt.eventId, Updated, MovedToTasksTrash) == ReleasedRowsOf(s, p, withTasks)
  {
    TaskSteps.ConsistentWellFormed(s);
    ProjectSteps.RestoreProjectKeeps(s, p, withTasks, done);
    hide WellFormed, Sound, Consistent, Run, RestoreProject, LoggedIds, WindowStart, Returned, ReleasedRowsOf;
    if RestoreProject(s, p, withTasks, done).Ok? {
      var r := RestoreProject(s, p, withTasks, done).value;
      RunAfter(r.state, steps, done);
      if p in Run(r.state, steps, done).projects {
        LogRecoversRestore(s, p, withTasks, done, Run(r.state, steps, done).events);
      }
    }
  }

  // ---- a receipt that works twice -----------------------------------------------------------------

  /** Nothing is ever effectively done. */
  predicate Never(s: State, x: int) {
    false
  }

  lemma {:induction false} NeverWalk(s: State, queue: seq<int>, seen: set<int>, spawned: seq<int>, ids: set<int>)
    requires WellFormed(s) && Enclosed(s, ids) && forall q :: q in queue ==> q in ids
    ensures Walk(s, queue, seen, spawned, ids, Never).Ok? && Walk(s, queue, seen, spawned, ids, Never).value.state == s
    decreases |ids - seen|, |queue|
  {
    hide WellFormed, Sound, Enclosed, CreateNext, Dependents;
    if queue != [] {
      var id := queue[|queue| - 1];
      var rest := queue[..|queue| - 1];
      if id in seen { NeverWalk(s, rest, seen, spawned, ids); } else {
        SubsetSize(ids - (seen + {id}), ids - seen);
        assert id in ids - seen;
        if !Live(s, id) { NeverWalk(s, rest, seen + {id}, spawned, ids); } else {
          ClimbInside(s, id, ids);
          NeverWalk(s, rest + ClimbFrom(s.tasks[id]), seen + {id}, spawned, ids);
        }
      }
    }
  }

  lemma NeverReconciles(s: State, seeds: seq<int>)
    requires WellFormed(s) && forall q :: q in seeds ==> q in s.tasks
    ensures Reconcile(s, seeds, Never) == Ok(s)
  {
    AllEnclosed(s);
    NeverWalk(s, seeds, {}, [], s.tasks.Keys);
  }
}
