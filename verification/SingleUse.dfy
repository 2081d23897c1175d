/**
 How often an un-skip receipt can be spent: once, until a later restore retires again the row it
 put back, and then exactly when the dates have come back too.
 */
module SingleUse {
  import opened Common
  import opened Store
  import opened TaskRecurrence
  import opened TaskTrash
  import opened Invariant
  import opened Trash
  import opened Runs
  import opened Retirement
  import opened Marks
  import Guarantees
  import TaskPurge
  import TaskSteps
  import Projects
  import RestoreUndo
  import Edits

  predicate RestoresTasks(step: Step) {
    step.RestoreOne? || step.RestoreTree?
  }

  predicate UndoesUnskip(step: Step) {
    step.UndoTask? && step.receipt.unskip.Some?
  }

  /** The rows a call newly marks as superseded. */
  ghost function RetiredBy(s: State, step: Step, done: Oracle): set<int>
    requires WellFormed(s)
  {
    if Attempt(s, step, done).Err? then {} else
      match step
      case RestoreOne(id) => if s.tasks[id].superseded then {} else RetiredByRestore(s, id, done)
      case RestoreTree(id) => if s.tasks[id].superseded then {} else RetiredBySubtree(s, id, done)
      case _ => {}
  }

  /** The rows a call takes the mark from, undoing an un-skip, or destroys. */
  ghost function FreedBy(s: State, step: Step, done: Oracle): set<int>
    requires WellFormed(s)
  {
    var r := Attempt(s, step, done);
    if r.Err? then {}
    else if UndoesUnskip(step) then Elems(SkipCascade(s, step.receipt.unskip.value.superseded))
    else s.tasks.Keys - r.value.tasks.Keys
  }

  ghost predicate IsSuperseded(s: State, o: int) {
    o in s.tasks && s.tasks[o].superseded
  }

  /** One call, and the mark of every row. */
  ghost predicate MarksMove(s: State, t: State, retired: set<int>, freed: set<int>) {
    forall o :: IsSuperseded(t, o) <==> (IsSuperseded(s, o) && o !in freed) || o in retired
  }

  lemma SameMarksMove(s: State, t: State)
    requires SameMarks(s, t)
    ensures MarksMove(s, t, {}, s.tasks.Keys - t.tasks.Keys)
  {
    assert s.tasks.Keys - t.tasks.Keys == {};
    forall o ensures IsSuperseded(t, o) <==> IsSuperseded(s, o) {
      if o in s.tasks.Keys { assert o in t.tasks.Keys; }
    }
  }

  lemma CutMarksMove(s: State, t: State)
    requires OnlyCut(s, t)
    ensures MarksMove(s, t, {}, s.tasks.Keys - t.tasks.Keys)
  {
    forall o ensures IsSuperseded(t, o) <==> IsSuperseded(s, o) && o !in s.tasks.Keys - t.tasks.Keys {
      if o in t.tasks.Keys { assert o in s.tasks; }
    }
  }

  lemma FreedMarksMove(s: State, t: State, rows: set<int>)
    requires Freed(s, t, rows)
    ensures MarksMove(s, t, {}, rows)
  {
    forall o ensures IsSuperseded(t, o) <==> IsSuperseded(s, o) && o !in rows {
      if o in s.tasks.Keys { assert o in t.tasks.Keys; }
    }
  }

  lemma RetiredMarksMove(s: State, t: State, rows: set<int>)
    requires Retired(s, t, rows)
    ensures MarksMove(s, t, rows, s.tasks.Keys - t.tasks.Keys)
  {
    assert s.tasks.Keys - t.tasks.Keys == {};
    hide Fewer;
    forall o ensures IsSuperseded(t, o) <==> IsSuperseded(s, o) || o in rows {
      if o in s.tasks.Keys || o in rows { assert o in t.tasks.Keys; }
    }
  }

  lemma RestoreStep(s: State, step: Step, done: Oracle)
    requires WellFormed(s) && Attempt(s, step, done).Ok? && RestoresTasks(step)
    ensures MarksMove(s, Attempt(s, step, done).value, RetiredBy(s, step, done), FreedBy(s, step, done))
  {
    hide WellFormed, Sound, RestoreTask, RestoreSubtree, RetiredByRestore, RetiredBySubtree, MarksMove, Retired;
    var t := Attempt(s, step, done).value;
    match step
    case RestoreOne(id) =>
      RestoreRetires(s, id, false, done);
      RetiredMarksMove(s, t, RetiredByRestore(s, id, done));
    case RestoreTree(id) =>
      SubtreeRetires(s, id, done);
      RetiredMarksMove(s, t, RetiredBySubtree(s, id, done));
  }

  predicate Purges(step: Step) {
    step.PurgeOne? || step.Purge? || step.Empty?
  }

  lemma PurgeStep(s: State, step: Step, done: Oracle)
    requires WellFormed(s) && Attempt(s, step, done).Ok? && Purges(step)
    ensures OnlyCut(s, Attempt(s, step, done).value)
  {
    hide WellFormed, Sound, TaskPurge.PurgeTask, PurgeSelected, EmptyTrash, OnlyCut;
    match step
    case PurgeOne(id) => PurgeMarks(s, id);
    case Purge(ps, ts) => PurgeSelectedMarks(s, ps, ts);
    case Empty => EmptyMarks(s);
  }

  lemma OtherStep(s: State, step: Step, done: Oracle)
    requires WellFormed(s) && Attempt(s, step, done).Ok? && !RestoresTasks(step) && !Purges(step) && !UndoesUnskip(step)
    ensures SameMarks(s, Attempt(s, step, done).value)
  {
    hide WellFormed, Sound, Tasks.SoftDeleteTask, Tasks.SkipOccurrence, Reconcile, UndoTaskRestore, Projects.SoftDeleteProject, Projects.RestoreProject,
         Projects.UndoProjectRestore, EditDue, Edits.RemoveDependency, Edits.CreateTask, Edits.MarkDone, Edits.Refile,
         Edits.EditRecurrence, Edits.Unused, Edits.NestsSeries;
    match step
    case TrashTask(id) => SoftDeleteMarks(s, id, done);
    case Skip(id) => SkipMarks(s, id, done);
    case ReconcileTasks(ids) => ReconcileMarks(s, ids, done);
    case UndoTask(receipt) => UndoMarks(s, receipt, done);
    case TrashProject(p) => ProjectMarks(s, p, done);
    case ReopenProject(p, withTasks) => ReopenMarks(s, p, withTasks, done);
    case UndoProject(receipt) => UndoProjectMarks(s, receipt, done);
    case AddEdge(task, blocker) =>
    case RemoveEdge(at) => RemoveMarks(s, at, done);
    case Create(draft) => CreateMarks(s, draft, done);
    case Complete(id) => DoneMarks(s, id, done);
    case Refile(id, to) => RefileMarks(s, id, to, done);
    case Recur(id, repeat, due, mint) => RecurMarks(s, id, repeat, due, mint, done);
    case MoveDue(id, due) => EditDueMarks(s, id, due, done);
  }

  /** Only restoring a task marks a row, only undoing an un-skip frees one, and each exactly the rows named. */
  lemma StepRetires(s: State, step: Step, done: Oracle)
    requires WellFormed(s) && Attempt(s, step, done).Ok?
    ensures MarksMove(s, Attempt(s, step, done).value, RetiredBy(s, step, done), FreedBy(s, step, done))
  {
    var t := Attempt(s, step, done).value;
    hide WellFormed, Sound, Attempt, MarksMove, SkipCascade;
    if RestoresTasks(step) {
      RestoreStep(s, step, done);
    } else if Purges(step) {
      PurgeStep(s, step, done);
      CutMarksMove(s, t);
    } else if UndoesUnskip(step) {
      UndoIs(s, step.receipt, done);
      UnskipUndoMarks(s, step.receipt, done);
      FreedMarksMove(s, t, Elems(SkipCascade(s, step.receipt.unskip.value.superseded)));
    } else {
      OtherStep(s, step, done);
      SameMarksMove(s, t);
    }
  }

  lemma UndoIs(s: State, r: Receipt, done: Oracle)
    requires WellFormed(s)
    ensures Attempt(s, UndoTask(r), done) == UndoTaskRestore(s, r, done)
  {
    hide WellFormed, Sound, UndoTaskRestore;
  }

  // ---- over a run -----------------------------------------------------------------------------

  /** The store after one call of a run. */
  ghost function After(s: State, step: Step, done: Oracle): (t: State)
    requires Consistent(s)
    ensures Consistent(t)
  {
    StepKeeps(s, step, done);
    if Attempt(s, step, done).Ok? then Attempt(s, step, done).value else s
  }

  /** No call of the run frees or destroys the row. */
  ghost predicate StaysRetired(s: State, steps: seq<Step>, o: int, done: Oracle)
    requires Consistent(s)
    decreases |steps|
  {
    TaskSteps.ConsistentWellFormed(s);
    steps == [] || (o !in FreedBy(s, steps[0], done) && StaysRetired(After(s, steps[0], done), steps[1..], o, done))
  }

  /** Some restore of the run retires the row, and nothing after that frees or destroys it. */
  ghost predicate RetiredAgain(s: State, steps: seq<Step>, o: int, done: Oracle)
    requires Consistent(s)
    decreases |steps|
  {
    TaskSteps.ConsistentWellFormed(s);
    steps != []
    && var t := After(s, steps[0], done);
    (o in RetiredBy(s, steps[0], done) && StaysRetired(t, steps[1..], o, done)) || RetiredAgain(t, steps[1..], o, done)
  }

  lemma {:induction false} RunMarks(s: State, steps: seq<Step>, o: int, done: Oracle)
    requires Consistent(s)
    ensures IsSuperseded(Run(s, steps, done), o)
            <==> RetiredAgain(s, steps, o, done) || (IsSuperseded(s, o) && StaysRetired(s, steps, o, done))
    decreases |steps|
  {
    TaskSteps.ConsistentWellFormed(s);
    if steps != [] {
      StepKeeps(s, steps[0], done);
      var t := After(s, steps[0], done);
      assert Run(s, steps, done) == Run(t, steps[1..], done);
      StepMoves(s, steps[0], o, done);
      hide WellFormed, Sound, Consistent, Attempt, RetiredBy, FreedBy, IsSuperseded, After;
      RunMarks(t, steps[1..], o, done);
    }
  }

  lemma StepMoves(s: State, step: Step, o: int, done: Oracle)
    requires Consistent(s)
    ensures WellFormed(s)
    ensures IsSuperseded(After(s, step, done), o)
            <==> (IsSuperseded(s, o) && o !in FreedBy(s, step, done)) || o in RetiredBy(s, step, done)
  {
    TaskSteps.ConsistentWellFormed(s);
    StepKeeps(s, step, done);
    if Attempt(s, step, done).Ok? { StepRetires(s, step, done); }
    hide WellFormed, Sound, Consistent, Attempt, SkipCascade, IsSuperseded, RetiredByRestore, RetiredBySubtree;
  }

  /** No restore of the run starts from a row that endangers `o` in the store it starts from. */
  ghost predicate Spared(s: State, steps: seq<Step>, o: int, done: Oracle)
    requires Consistent(s)
    decreases |steps|
  {
    steps == [] || ((RestoresTasks(steps[0]) ==> !Endangers(s, steps[0].task, o)) && Spared(After(s, steps[0], done), steps[1..], o, done))
  }

  lemma {:induction false} SparedNotRetired(s: State, steps: seq<Step>, o: int, done: Oracle)
    requires Consistent(s) && Spared(s, steps, o, done)
    ensures !RetiredAgain(s, steps, o, done)
    decreases |steps|
  {
    TaskSteps.ConsistentWellFormed(s);
    if steps != [] {
      hide WellFormed, Sound, Consistent, RetiredBy, After, Endangers;
      if o in RetiredBy(s, steps[0], done) {
        RetiredEndangers(s, steps[0], o, done);
        assert false;
      }
      SparedNotRetired(After(s, steps[0], done), steps[1..], o, done);
    }
  }

  lemma RetiredEndangers(s: State, step: Step, o: int, done: Oracle)
    requires WellFormed(s) && o in RetiredBy(s, step, done)
    ensures RestoresTasks(step) && Endangers(s, step.task, o)
  {
    hide WellFormed, Sound, RestoreTask, RestoreSubtree, RetiredByRestore, RetiredBySubtree, Endangers;
    match step
    case RestoreOne(id) => RetiredInReach(s, id, done, o);
    case RestoreTree(id) => SubtreeInReach(s, id, done, o);
    case _ =>
  }

  /** Everything an un-skip's undo checks but the mark of the row it put back. */
  ghost predicate ChecksPass(s: State, r: Receipt)
    requires WellFormed(s) && r.unskip.Some?
  {
    var u, task := r.unskip.value, r.task;
    && BoundToRestore(s, r)
    && Live(s, task) && s.tasks[task].series.Some? && s.tasks[task].due == Some(u.skippedDue)
    && Trashed(s, u.superseded) && s.tasks[u.superseded].series == s.tasks[task].series
    && s.tasks[u.superseded].due == Some(u.skippedDue)
    && var previous, series := PreviousMap(u.previous), s.tasks[task].series.value;
    && task in previous && previous[task].Some?
    && (forall x :: x in previous ==> x in ActiveWalk(s, task) && x in s.tasks && s.tasks[x].due == Some(u.skippedDue))
    && FindLiveOn(s, series, previous[task].value, {task}).None?
    && !SkippedOn(s, series, u.skippedDue)
  }

  lemma AcceptedIff(s: State, r: Receipt, done: Oracle)
    requires WellFormed(s) && r.unskip.Some?
    ensures UndoTaskRestore(s, r, done).Ok? <==> IsSuperseded(s, r.unskip.value.superseded) && ChecksPass(s, r)
    ensures UndoTaskRestore(s, r, done).Err? ==> UndoTaskRestore(s, r, done) == Err(UndoConflict)
  {
    hide WellFormed, Sound, ActiveWalk, PreviousMap, FindLiveOn, SkippedOn, BoundToRestore, Unrewound;
    if Accepts(s, r) { RestoreUndo.PreviousInStore(s, r.task, r.unskip.value); }
  }

  /**
   A used un-skip receipt is accepted again after a run exactly when a restore of that run retired
   the same row again, nothing freed or destroyed it since, and the dates are as they were.
   */
  lemma SpentUnskipAcceptedIff(s: State, r: Receipt, steps: seq<Step>, done: Oracle)
    requires Consistent(s) && r.unskip.Some?
    ensures WellFormed(s)
    ensures UndoTaskRestore(s, r, done).Ok? ==>
              && var undone := UndoTaskRestore(s, r, done).value;
              && Consistent(undone)
              && var later := Run(undone, steps, done);
              WellFormed(later)
              && (UndoTaskRestore(later, r, done).Ok? <==>
                    RetiredAgain(undone, steps, r.unskip.value.superseded, done) && ChecksPass(later, r))
              && (UndoTaskRestore(later, r, done).Err? ==> UndoTaskRestore(later, r, done) == Err(UndoConflict))
  {
    TaskSteps.ConsistentWellFormed(s);
    TaskSteps.UndoKeeps(s, r, done);
    if UndoTaskRestore(s, r, done).Ok? {
      UsedFrees(s, r, done);
      var undone := UndoTaskRestore(s, r, done).value;
      hide WellFormed, Sound, Consistent, UndoTaskRestore, Run, RetiredAgain, StaysRetired, ChecksPass, IsSuperseded;
      var later := Run(undone, steps, done);
      TaskSteps.ConsistentWellFormed(later);
      RunMarks(undone, steps, r.unskip.value.superseded, done);
      AcceptedIff(later, r, done);
    }
  }

  lemma UsedFrees(s: State, r: Receipt, done: Oracle)
    requires WellFormed(s) && r.unskip.Some? && UndoTaskRestore(s, r, done).Ok?
    ensures !IsSuperseded(UndoTaskRestore(s, r, done).value, r.unskip.value.superseded)
  {
    UnskipUndoMarks(s, r, done);
    hide WellFormed, Sound, UndoTaskRestore;
    assert r.unskip.value.superseded in SkipCascade(s, r.unskip.value.superseded);
  }

  /**
   Over any run, a used receipt is refused: always for a restore in place, and for an un-skip as
   long as no restore in between starts from a row that endangers the one it put back.
   */
  lemma ReceiptOnceUntilARestore(s: State, r: Receipt, steps: seq<Step>, done: Oracle)
    requires Consistent(s)
    ensures WellFormed(s)
    ensures UndoTaskRestore(s, r, done).Ok? ==>
              && var undone := UndoTaskRestore(s, r, done).value;
              && Consistent(undone)
              && var later := Run(undone, steps, done);
              WellFormed(later)
              && (r.unskip.None? || Spared(undone, steps, r.unskip.value.superseded, done) ==>
                    UndoTaskRestore(later, r, done) == Err(UndoConflict))
  {
    if r.unskip.None? {
      hide WellFormed, Sound, Consistent, UndoTaskRestore, Run, Spared;
      Guarantees.PlainReceiptNeverTwice(s, r, steps, done);
    } else {
      hide WellFormed, Sound, Consistent, UndoTaskRestore, Run, Spared, RetiredAgain, ChecksPass;
      SpentUnskipAcceptedIff(s, r, steps, done);
      if UndoTaskRestore(s, r, done).Ok? {
        var undone, o := UndoTaskRestore(s, r, done).value, r.unskip.value.superseded;
        if Spared(undone, steps, o, done) { SparedNotRetired(undone, steps, o, done); }
      }
    }
  }
}
