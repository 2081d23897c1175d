/** The activity log over a run: it only grows, and only a purge touches what is in it. */
module RunLog {
  import opened Common
  import opened Store
  import opened TaskRecurrence
  import opened Tasks
  import opened TaskTrash
  import opened Projects
  import opened Invariant
  import opened ProjectPurge
  import opened ProjectUndo
  import opened Trash
  import opened Runs
  import Calendar
  import TaskPurge
  import TaskDependencies
  import TaskSteps
  import PurgeSteps
  import RestoreUndo
  import Edits

  /** `t` comes after `s`: nothing in the log is lost or reordered, and no project appears. */
  ghost predicate After(s: State, t: State) {
    t.projects.Keys <= s.projects.Keys && forall p :: p in t.projects ==> Extends(s.events, t.events, p)
  }

  lemma ExtendsTrans(a: seq<Event>, b: seq<Event>, c: seq<Event>, p: int)
    requires Extends(a, b, p) && Extends(b, c, p)
    ensures Extends(a, c, p)
  {
  }

  lemma AfterTrans(a: State, b: State, c: State)
    requires After(a, b) && After(b, c)
    ensures After(a, c)
  {
    forall p | p in c.projects ensures Extends(a.events, c.events, p) {
      assert p in b.projects.Keys;
      ExtendsTrans(a.events, b.events, c.events, p);
    }
  }

  lemma AppendIsAfter(s: State, t: State)
    requires s.events <= t.events && t.projects.Keys == s.projects.Keys
    ensures After(s, t)
  {
  }

  lemma SpawnAfter(s: State, t: State)
    requires Spawned(s, t)
    ensures s.events <= t.events && t.projects.Keys == s.projects.Keys
  {
  }

  /** What each call appends to: the log so far. */
  ghost predicate Appends(s: State, r: Result<State, Error>) {
    r.Ok? ==> s.events <= r.value.events && r.value.projects.Keys == s.projects.Keys
  }

  lemma ReconcileAppends(s: State, seeds: seq<int>, done: Oracle)
    requires WellFormed(s) && forall q :: q in seeds ==> q in s.tasks
    ensures Appends(s, Reconcile(s, seeds, done))
  {
    ReconcileSpawned(s, seeds, done);
    hide WellFormed, Sound, Reconcile;
  }

  /** A cascade, then the reconcile of what it left. */
  lemma SweepAppends(s: State, rows: seq<int>, root: int, left: set<int>, done: Oracle)
    requires WellFormed(s) && forall x :: x in rows ==> x in s.tasks
    ensures var mid := Cascaded(s, rows, root);
            && WellFormed(mid) && (forall q :: q in Outside(SeedsOf(s, rows), left) ==> q in mid.tasks)
            && Appends(s, Reconcile(mid, Outside(SeedsOf(s, rows), left), done))
  {
    CascadedWellFormed(s, rows, root);
    SeedsExist(s, rows);
    hide WellFormed, Sound, SeedsOf, Reconcile;
    ReconcileAppends(Cascaded(s, rows, root), Outside(SeedsOf(s, rows), left), done);
  }

  lemma SoftDeleteAppends(s: State, id: int, done: Oracle)
    requires WellFormed(s) && id in s.tasks
    ensures Appends(s, SoftDeleteTask(s, id, done))
  {
    hide WellFormed, Sound, SeedsOf, Descendants, Reconcile, Cascaded, Outside, Appends;
    SweepAppends(s, Descendants(s, id) + [id], id, Elems(Descendants(s, id) + [id]), done);
  }

  lemma SweepDescendantsAppends(s: State, id: int, done: Oracle)
    requires WellFormed(s) && id in s.tasks
    ensures Appends(s, SoftDeleteDescendants(s, id, done))
  {
    hide WellFormed, Sound, SeedsOf, Descendants, Reconcile, Cascaded, Outside, Appends;
    SweepAppends(s, Descendants(s, id), id, Elems(Descendants(s, id)) + {id}, done);
  }

  lemma SkipAppends(s: State, id: int, done: Oracle)
    requires WellFormed(s) && Live(s, id)
    ensures SkipOccurrence(s, id, done).Ok? ==> Appends(s, Ok(SkipOccurrence(s, id, done).value.0))
  {
    if SkipOccurrence(s, id, done).Ok? {
      CreateNextSpawned(s, id, done);
      hide WellFormed, Sound, CreateNext, SoftDeleteDescendants;
      var next := CreateNext(s, id, done).value.0;
      SweepDescendantsAppends(next, id, done);
      SweptKeeps(next, id, done);
    }
  }

  // ---- restores ---------------------------------------------------------------------------

  lemma RewindAppends(s: State, id: int, done: Oracle)
    requires WellFormed(s) && Trashed(s, id) && IsUnskip(s, id)
    ensures Rewind(s, id, done).Ok? ==> Appends(s, Ok(Rewind(s, id, done).value.state))
  {
    var live := FirstFollower(s, id);
    ActiveRowsExist(s, live);
    var rows, day := Elems(ActiveWalk(s, live)), s.tasks[id].due.value;
    RewoundWellFormed(s, id, rows, day);
    var mid := Superseded(OnDay(s, rows, day), id);
    assert s.events <= mid.events;
    hide WellFormed, Sound, ActiveWalk, Reconcile, FirstFollower, Superseded, OnDay, MovedRows, PreviousDues, LatestRestored;
    ReconcileAppends(mid, [live], done);
  }

  lemma {:induction false} RestoreAppends(s: State, id: int, deferred: bool, done: Oracle)
    requires WellFormed(s) && Trashed(s, id)
    ensures RestoreTask(s, id, deferred, done).Ok? ==> Appends(s, Ok(RestoreTask(s, id, deferred, done).value.state))
    decreases |Pending(s)|, 1, 0
  {
    hide WellFormed, Sound, Restores, PlainRestore, Rewind, Pending;
    if s.tasks[id].superseded {
    } else if IsUnskip(s, id) {
      RewindAppends(s, id, done);
    } else {
      PlainAppends(s, id, deferred, done);
    }
  }

  lemma {:induction false} PlainAppends(s: State, id: int, deferred: bool, done: Oracle)
    requires WellFormed(s) && Trashed(s, id) && !s.tasks[id].superseded
    ensures PlainRestore(s, id, deferred, done).Ok? ==> Appends(s, Ok(PlainRestore(s, id, deferred, done).value.state))
    decreases |Pending(s)|, 0, 0
  {
    hide WellFormed, Sound, Settle, Marked, Restores, Pending, LatestRestored, Sorted, RestoreMarked;
    var revived := ReviveRow(s, id);
    RevivedWellFormed(s, id);
    RevivedPending(s, id);
    RestoreUndo.MarkedExist(revived, id);
    var ids := Sorted(Marked(revived, id));
    MarkedAppends(revived, ids, done);
    if PlainRestore(s, id, deferred, done).Ok? {
      var back := if s.tasks[id].skipped then RestoreMarked(revived, ids, done).value else (revived, []);
      SettledKeeps(back.0, [id] + back.1, deferred, done);
      SpawnAfter(back.0, Settle(back.0, [id] + back.1, deferred, done).value);
    }
  }

  lemma {:induction false} MarkedAppends(s: State, ids: seq<int>, done: Oracle)
    requires WellFormed(s) && forall x :: x in ids ==> x in s.tasks
    ensures RestoreMarked(s, ids, done).Ok? ==> Appends(s, Ok(RestoreMarked(s, ids, done).value.0))
    decreases |Pending(s)|, 1, |ids|
  {
    hide WellFormed, Sound, RestoreTask, Restores, Pending;
    if ids != [] && RestoreMarked(s, ids, done).Ok? {
      var x := ids[0];
      assert x in ids;
      if x !in Pending(s) { MarkedAppends(s, ids[1..], done); } else {
        RestoreUndo.InPending(s, x);
        RestoreShrinks(s, x, true, done);
        RestoreAppends(s, x, true, done);
        MarkedAppends(RestoreTask(s, x, true, done).value.state, ids[1..], done);
      }
    }
  }

  lemma SubtreeAppends(s: State, id: int, done: Oracle)
    requires WellFormed(s) && Trashed(s, id)
    ensures RestoreSubtree(s, id, done).Ok? ==> Appends(s, Ok(RestoreSubtree(s, id, done).value.0))
  {
    hide WellFormed, Sound, RestoreTask, RestoreMarked, Reconcile, Marked, Pending, Restores;
    RestoreAppends(s, id, true, done);
    if RestoreSubtree(s, id, done).Ok? {
      var root := RestoreTask(s, id, true, done).value;
      TaskSteps.RestoresTask(s, id, root);
      RestoreUndo.MarkedExist(root.state, id);
      var ids := Sorted(Marked(root.state, id));
      MarkedAppends(root.state, ids, done);
      var rest := RestoreMarked(root.state, ids, done).value.0;
      var back := Sorted(set x | x in Marked(s, id) && Live(rest, x));
      ReconcileAppends(rest, [root.task] + back, done);
    }
  }

  lemma UndoAppends(s: State, r: Receipt, done: Oracle)
    requires WellFormed(s)
    ensures Appends(s, UndoTaskRestore(s, r, done))
  {
    if Accepts(s, r) {
      if r.unskip.None? {
        RetrashedWellFormed(s, r);
        hide WellFormed, Sound, Reconcile, Accepts, SeedsOf, Reversed;
        ReconcileAppends(Retrashed(s, r), Outside(SeedsOf(s, Reversed(r.restored)), Elems(r.restored)), done);
      } else {
        RestoreUndo.PreviousInStore(s, r.task, r.unskip.value);
        RestoreUndo.UnrewoundKeys(s, r.unskip.value);
        TaskSteps.UnrewoundLog(s, r.unskip.value);
        hide WellFormed, Sound, Accepts, AcceptsUnskip, Unrewound, PreviousMap;
      }
    }
  }

  // ---- projects -----------------------------------------------------------------------------

  lemma SoftDeleteProjectAppends(s: State, p: int, done: Oracle)
    requires WellFormed(s) && p in s.projects
    ensures Appends(s, SoftDeleteProject(s, p, done))
  {
    SweptWellFormed(s, p);
    SweptLog(s, p);
    SweptSpawned(s, p, done);
    DeleteUnfolds(s, p, done);
    var seeds := Outside(SeedsOf(s, Sorted(LiveIn(s, p))), LiveIn(s, p));
    var settled := Reconcile(Swept(s, p), seeds, done);
    if settled.Ok? { DeletedLog(settled.value, p); }
    hide WellFormed, Sound, Reconcile, Swept, SeedsOf, Outside, SoftDeleteProject, LiveIn, Sorted, LogProject, SetDeleted;
    ReconcileAppends(Swept(s, p), seeds, done);
  }

  lemma DeleteUnfolds(s: State, p: int, done: Oracle)
    requires WellFormed(s) && p in s.projects
    requires WellFormed(Swept(s, p))
    requires forall q :: q in Outside(SeedsOf(s, Sorted(LiveIn(s, p))), LiveIn(s, p)) ==> q in Swept(s, p).tasks
    ensures var settled := Reconcile(Swept(s, p), Outside(SeedsOf(s, Sorted(LiveIn(s, p))), LiveIn(s, p)), done);
            var r := SoftDeleteProject(s, p, done);
            r.Ok? ==> settled.Ok? && p in settled.value.projects && r.value == LogProject(SetDeleted(settled.value, p, true), p, Deleted)
  {
    SweptSpawned(s, p, done);
    hide WellFormed, Sound, Reconcile, Swept, SeedsOf, Outside, LiveIn, Sorted, LogProject, SetDeleted;
  }

  lemma DeletedLog(s: State, p: int)
    ensures p in s.projects ==>
              s.events <= LogProject(SetDeleted(s, p, true), p, Deleted).events
              && LogProject(SetDeleted(s, p, true), p, Deleted).projects.Keys == s.projects.Keys
  {
  }

  lemma SweptLog(s: State, p: int)
    requires WellFormed(s) && p in s.projects
    ensures s.events <= Swept(s, p).events && Swept(s, p).projects == s.projects
  {
    hide WellFormed, Sound, LiveIn;
  }

  lemma UnpackedLog(s: State, p: int)
    requires WellFormed(s) && p in s.projects
    ensures s.events <= Unpacked(s, p).events && Unpacked(s, p).projects.Keys == s.projects.Keys
    ensures s.events <= Released(s, p).events && Released(s, p).projects.Keys == s.projects.Keys
  {
    ProjectUndo.BatchExists(s, p);
    hide WellFormed, Sound, Archive;
  }

  lemma RestoreProjectAppends(s: State, p: int, withTasks: bool, done: Oracle)
    requires WellFormed(s) && p in s.projects
    ensures RestoreProject(s, p, withTasks, done).Ok? ==>
              Appends(s, Ok(RestoreProject(s, p, withTasks, done).value.state))
  {
    hide *;
    hide WellFormed;
    UnpackedWellFormed(s, p);
    UnpackedLog(s, p);
    ProjectUndo.BatchExists(s, p);
    RestoreUnfolds(s, p, withTasks, done);
    ReconcileAppends(Unpacked(s, p), Sorted(Archive(s, p)), done);
    var settled := Reconcile(Unpacked(s, p), Sorted(Archive(s, p)), done);
    if RestoreProject(s, p, withTasks, done).Ok? {
      var t := RestoreProject(s, p, withTasks, done).value.state;
      if withTasks {
        LogProjectAppends(settled.value, p);
        AppendsMore(s, Unpacked(s, p), settled, t);
      } else {
        LogProjectAppends(Released(s, p), p);
        AppendsTwo(s, Released(s, p), t);
      }
    }
  }

  lemma AppendsMore(s: State, mid: State, settled: Result<State, Error>, t: State)
    requires s.events <= mid.events && mid.projects.Keys == s.projects.Keys && settled.Ok? && Appends(mid, settled)
    requires settled.value.events <= t.events && t.projects == settled.value.projects
    ensures Appends(s, Ok(t))
  {
  }

  lemma AppendsTwo(s: State, mid: State, t: State)
    requires s.events <= mid.events && mid.projects.Keys == s.projects.Keys && mid.events <= t.events && t.projects == mid.projects
    ensures Appends(s, Ok(t))
  {
  }

  lemma RestoreUnfolds(s: State, p: int, withTasks: bool, done: Oracle)
    requires WellFormed(s) && p in s.projects
    requires WellFormed(Unpacked(s, p)) && forall q :: q in Sorted(Archive(s, p)) ==> q in Unpacked(s, p).tasks
    ensures var settled := Reconcile(Unpacked(s, p), Sorted(Archive(s, p)), done);
            var r := RestoreProject(s, p, withTasks, done);
            r.Ok? ==>
              if withTasks then settled.Ok? && r.value.state == LogProject(settled.value, p, Restored)
              else r.value.state == LogProject(Released(s, p), p, Restored)
  {
    hide WellFormed, Sound, Reconcile, Unpacked, Released, BatchConflict, Archive, LogProject, Sorted;
  }

  lemma LogProjectAppends(s: State, p: int)
    ensures s.events <= LogProject(s, p, Restored).events && LogProject(s, p, Restored).projects == s.projects
  {
  }

  lemma UndoProjectAppends(s: State, r: ProjectReceipt, done: Oracle)
    requires WellFormed(s)
    ensures Appends(s, UndoProjectRestore(s, r, done))
  {
    if AcceptsProjectUndo(s, r) {
      RearchivedWellFormed(s, r);
      hide WellFormed, Sound, SoftDeleteProject, LoggedIds, WindowStart;
      SoftDeleteProjectAppends(Rearchived(s, r), r.project, done);
    }
  }

  // ---- purges ----------------------------------------------------------------------------------

  lemma {:induction false} PurgeEachAppends(s: State, ids: seq<int>)
    requires WellFormed(s)
    ensures s.events <= PurgeEach(s, ids).events && PurgeEach(s, ids).projects == s.projects
    decreases |ids|
  {
    hide WellFormed, Sound, TaskPurge.PurgeTask;
    if ids != [] {
      if Trashed(s, ids[0]) {
        TaskPurge.PurgeWellFormed(s, ids[0]);
        PurgeEachAppends(TaskPurge.PurgeTask(s, ids[0]), ids[1..]);
      } else {
        PurgeEachAppends(s, ids[1..]);
      }
    }
  }

  lemma UnlinkedExtends(a: seq<Event>, b: seq<Event>, p: int, q: int)
    requires a <= b && p != q
    ensures Extends(a, Unlinked(b, p), q)
  {
    hide Unlinked;
    forall i | 0 <= i < |a|
      ensures Unlinked(b, p)[i] == a[i] || (a[i].project != Some(q) && Unlinked(b, p)[i] == a[i].(project := None))
    {
      assert a[i] == b[i];
    }
  }

  lemma WithoutAfter(s: State, p: int)
    ensures After(s, WithoutProject(s, p))
  {
    var t := WithoutProject(s, p);
    hide Unlinked, Extends;
    forall q | q in t.projects ensures Extends(s.events, t.events, q) {
      UnlinkedExtends(s.events, s.events + [ProjectEvent(p, Purged)], p, q);
    }
    forall q | q in t.projects.Keys ensures q in s.projects.Keys {
    }
  }

  lemma PurgeProjectAfter(s: State, p: int)
    requires WellFormed(s) && p in s.projects && PurgeProject(s, p).Ok?
    ensures After(s, PurgeProject(s, p).value)
  {
    var cleared := PurgeEach(s, Sorted(TrashedIn(s, p)));
    PurgeEachAppends(s, Sorted(TrashedIn(s, p)));
    AppendIsAfter(s, cleared);
    WithoutAfter(cleared, p);
    hide WellFormed, Sound, PurgeEach, After, WithoutProject;
    AfterTrans(s, cleared, WithoutProject(cleared, p));
  }

  lemma {:induction false} PurgeProjectsAfter(s: State, ps: seq<int>)
    requires WellFormed(s) && PurgeProjects(s, ps).Ok?
    ensures After(s, PurgeProjects(s, ps).value)
    decreases |ps|
  {
    if ps == [] {
      AppendIsAfter(s, s);
    } else if ps[0] in s.projects && s.projects[ps[0]].deleted {
      PurgedWellFormed(s, ps[0]);
      hide WellFormed, Sound, PurgeProject, After;
      PurgeProjectAfter(s, ps[0]);
      var next := PurgeProject(s, ps[0]).value;
      PurgeProjectsAfter(next, ps[1..]);
      AfterTrans(s, next, PurgeProjects(next, ps[1..]).value);
    } else {
      PurgeProjectsAfter(s, ps[1..]);
    }
  }

  lemma PurgeSelectedAfter(s: State, projectIds: seq<int>, taskIds: seq<int>)
    requires WellFormed(s) && PurgeSelected(s, projectIds, taskIds).Ok?
    ensures After(s, PurgeSelected(s, projectIds, taskIds).value.0)
  {
    var ts, ps := TrashedIds(s, taskIds), PurgeableIds(s, projectIds);
    PurgeEachAppends(s, ts);
    var mid := PurgeEach(s, ts);
    AppendIsAfter(s, mid);
    hide WellFormed, Sound, PurgeEach, PurgeProjects, After, TrashedIds, PurgeableIds, RemovedIds;
    PurgeProjectsAfter(mid, ps);
    AfterTrans(s, mid, PurgeProjects(mid, ps).value);
  }

  lemma EditDueAppends(s: State, id: int, due: Option<Calendar.Date>, done: Oracle)
    requires WellFormed(s) && Live(s, id)
    ensures Appends(s, EditDue(s, id, due, done))
  {
    DatedWellFormed(s, id, due);
    hide WellFormed, Sound, Reconcile, FindLiveOn;
    ReconcileAppends(Dated(s, id, due), [id], done);
  }

  lemma RemoveAppends(s: State, at: nat, done: Oracle)
    requires WellFormed(s)
    ensures Appends(s, Edits.RemoveDependency(s, at, done))
  {
    if at < |s.edges| {
      Edits.UnedgedWellFormed(s, at);
      hide WellFormed, Sound, Reconcile;
      ReconcileAppends(Edits.Unedged(s, at), [s.edges[at].task], done);
    }
  }

  lemma CreateAppends(s: State, draft: Edits.Draft, done: Oracle)
    requires WellFormed(s)
    ensures Appends(s, Edits.CreateTask(s, draft, done))
  {
    hide WellFormed, Sound, Reconcile, Edits.DraftRow, Edits.NestingLevel;
    if Edits.CreateTask(s, draft, done).Ok? {
      Edits.InsertedWellFormed(s, draft);
      ReconcileAppends(Edits.Inserted(s, Edits.DraftRow(s, draft)), [NextId(s.tasks.Keys)], done);
    }
  }

  lemma DoneAppends(s: State, id: int, done: Oracle)
    requires WellFormed(s) && Live(s, id)
    ensures Appends(s, Edits.MarkDone(s, id, done))
  {
    SameShapeWellFormed(s, Edits.WithStatus(s, id, Done));
    hide WellFormed, Sound, Reconcile, Edits.Blocked;
    ReconcileAppends(s, [id], done);
    ReconcileAppends(Edits.WithStatus(s, id, Done), [id], done);
  }

  lemma RefileAppends(s: State, id: int, to: Option<int>, done: Oracle)
    requires WellFormed(s) && Live(s, id)
    ensures Appends(s, Edits.Refile(s, id, to, done))
  {
    var p := if to.Some? then to.value else GENERAL;
    Edits.GeneralLive(s);
    if LiveProject(s, p) {
      Edits.FiledWellFormed(s, id, p);
      hide WellFormed, Sound, Reconcile;
      ReconcileAppends(Edits.FiledIn(s, id, p), [id], done);
    }
  }

  lemma RecurAppends(s: State, id: int, repeat: Option<Calendar.Interval>, due: Option<Calendar.Date>, mint: string, done: Oracle)
    requires WellFormed(s) && Live(s, id) && (repeat.Some? ==> Calendar.ValidInterval(repeat.value))
    ensures Appends(s, Edits.EditRecurrence(s, id, repeat, due, mint, done))
  {
    Edits.RecurringWellFormed(s, id, repeat, due, mint);
    hide WellFormed, Sound, Reconcile, FindLiveOn, Calendar.NextDue;
    ReconcileAppends(Edits.Recurring(s, id, repeat, due, mint), [id], done);
  }

  // ---- any call, any run --------------------------------------------------------------------------

  /** The edits of single rows and edges. */
  predicate OnRows(step: Step) {
    step.AddEdge? || step.RemoveEdge? || step.MoveDue? || step.Create? || step.Complete? || step.Refile? || step.Recur?
  }

  lemma StepAfter(s: State, step: Step, done: Oracle)
    requires WellFormed(s) && Attempt(s, step, done).Ok?
    ensures After(s, Attempt(s, step, done).value)
  {
    hide Attempt, After, WellFormed, Sound;
    if OnTasks(step) { TaskStepAfter(s, step, done); }
    else if OnRows(step) { RowStepAfter(s, step, done); }
    else { ProjectStepAfter(s, step, done); }
  }

  lemma TaskStepAfter(s: State, step: Step, done: Oracle)
    requires WellFormed(s) && Attempt(s, step, done).Ok? && OnTasks(step)
    ensures After(s, Attempt(s, step, done).value)
  {
    var t := Attempt(s, step, done).value;
    hide WellFormed, Sound, SoftDeleteTask, SkipOccurrence, Reconcile, RestoreTask, RestoreSubtree, UndoTaskRestore, TaskPurge.PurgeTask,
         After;
    match step
    case TrashTask(id) => SoftDeleteAppends(s, id, done); AppendIsAfter(s, t);
    case Skip(id) => SkipAppends(s, id, done); AppendIsAfter(s, t);
    case ReconcileTasks(ids) => ReconcileAppends(s, ids, done); AppendIsAfter(s, t);
    case RestoreOne(id) => RestoreAppends(s, id, false, done); AppendIsAfter(s, t);
    case RestoreTree(id) => SubtreeAppends(s, id, done); AppendIsAfter(s, t);
    case UndoTask(receipt) => UndoAppends(s, receipt, done); AppendIsAfter(s, t);
    case PurgeOne(id) => AppendIsAfter(s, t);
  }

  lemma ProjectStepAfter(s: State, step: Step, done: Oracle)
    requires WellFormed(s) && Attempt(s, step, done).Ok? && !OnTasks(step) && !OnRows(step)
    ensures After(s, Attempt(s, step, done).value)
  {
    var t := Attempt(s, step, done).value;
    hide WellFormed, Sound, SoftDeleteProject, RestoreProject, UndoProjectRestore, PurgeSelected, EmptyTrash, After;
    match step
    case TrashProject(p) => SoftDeleteProjectAppends(s, p, done); AppendIsAfter(s, t);
    case ReopenProject(p, withTasks) => RestoreProjectAppends(s, p, withTasks, done); AppendIsAfter(s, t);
    case UndoProject(receipt) => UndoProjectAppends(s, receipt, done); AppendIsAfter(s, t);
    case Purge(ps, ts) => PurgeSelectedAfter(s, ps, ts);
    case Empty => EmptyAfter(s);
  }

  lemma RowStepAfter(s: State, step: Step, done: Oracle)
    requires WellFormed(s) && Attempt(s, step, done).Ok? && OnRows(step)
    ensures After(s, Attempt(s, step, done).value)
  {
    var t := Attempt(s, step, done).value;
    hide WellFormed, Sound, After, EditDue, Edits.RemoveDependency, Edits.CreateTask, Edits.MarkDone, Edits.Refile, Edits.EditRecurrence;
    match step
    case AddEdge(task, blocker) => AppendIsAfter(s, t);
    case MoveDue(id, due) => EditDueAppends(s, id, due, done); AppendIsAfter(s, t);
    case RemoveEdge(at) => RemoveAppends(s, at, done); AppendIsAfter(s, t);
    case Create(draft) => CreateAppends(s, draft, done); AppendIsAfter(s, t);
    case Complete(id) => DoneAppends(s, id, done); AppendIsAfter(s, t);
    case Refile(id, to) => RefileAppends(s, id, to, done); AppendIsAfter(s, t);
    case Recur(id, repeat, due, mint) => RecurAppends(s, id, repeat, due, mint, done); AppendIsAfter(s, t);
  }

  lemma EmptyAfter(s: State)
    requires WellFormed(s) && EmptyTrash(s).Ok?
    ensures After(s, EmptyTrash(s).value.0)
  {
    PurgeSelectedAfter(s, Sorted(set p | p in s.projects && s.projects[p].deleted), Sorted(TrashedTasks(s)));
    hide WellFormed, Sound, PurgeSelected, After;
  }

  lemma {:induction false} RunAfter(s: State, steps: seq<Step>, done: Oracle)
    requires Consistent(s)
    ensures After(s, Run(s, steps, done))
    decreases |steps|
  {
    AppendIsAfter(s, s);
    TaskSteps.ConsistentWellFormed(s);
    hide WellFormed, Sound, Consistent, After, Attempt;
    if steps != [] {
      StepKeeps(s, steps[0], done);
      var r := Attempt(s, steps[0], done);
      if r.Ok? {
        StepAfter(s, steps[0], done);
        RunAfter(r.value, steps[1..], done);
        AfterTrans(s, r.value, Run(r.value, steps[1..], done));
      } else {
        RunAfter(s, steps[1..], done);
      }
    }
  }
}
