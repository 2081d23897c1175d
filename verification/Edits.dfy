/**
 The everyday writes of the task store: creating a task, completing one, filing one elsewhere and
 removing a dependency (backend/app/services/tasks.py, task_dependencies.py).
 */
module Edits {
  import opened Common
  import opened Calendar
  import opened Store
  import opened TaskRecurrence
  import opened Tasks
  import opened TaskTrash
  import opened Invariant
  import TaskSteps
  import Projects
  import Forest

  /** `MAX_SUBTASK_DEPTH`. */
  const MAX_SUBTASK_DEPTH := 50

  /** The rank of `TaskPriority.medium`. */
  const MEDIUM := 1

  /** What `create_task` is given; its project, if it names one, was looked up by the route. */
  datatype Draft = Draft(project: Option<int>, parent: Option<int>, content: Content, priority: Option<int>, status: Status, due: Option<Date>)

  /** `_nesting_level`: the active rows from `x` up. */
  function NestingLevel(tasks: map<int, Task>, x: int, seen: set<int>): nat
    decreases |tasks.Keys - seen|
  {
    if x !in tasks || tasks[x].deleted || x in seen then 0 else
      assert tasks.Keys - (seen + {x}) == (tasks.Keys - seen) - {x};
      1 + (if tasks[x].parent.Some? then NestingLevel(tasks, tasks[x].parent.value, seen + {x}) else 0)
  }

  /** The row a draft becomes: what it leaves open is the parent's, once. */
  function DraftRow(s: State, d: Draft): Task
    requires d.parent.Some? ==> d.parent.value in s.tasks
  {
    var project := if d.project.Some? then d.project.value else if d.parent.Some? then s.tasks[d.parent.value].project else GENERAL;
    var priority := if d.priority.Some? then d.priority.value
                    else if d.parent.Some? then s.tasks[d.parent.value].content.priority else MEDIUM;
    var due := if d.due.None? && d.parent.Some? then s.tasks[d.parent.value].due else d.due;
    Task(project, d.parent, d.content.(priority := priority), d.status, due, None, None, false, false, false, None, None)
  }

  function Inserted(s: State, t: Task): State {
    var id := NextId(s.tasks.Keys);
    LogTask(s.(tasks := s.tasks[id := t]), id, Created)
  }

  /** `create_task`. */
  ghost function CreateTask(s: State, d: Draft, done: Oracle): Result<State, Error>
    requires WellFormed(s)
  {
    if d.project.Some? && !LiveProject(s, d.project.value) then Err(MissingProject)
    else if d.parent.Some? && !Live(s, d.parent.value) then Err(MissingParent)
    else if d.parent.Some? && NestingLevel(s.tasks, d.parent.value, {}) >= MAX_SUBTASK_DEPTH then Err(TooDeep)
    else
      InsertedWellFormed(s, d);
      Reconcile(Inserted(s, DraftRow(s, d)), [NextId(s.tasks.Keys)], done)
  }

  /** `is_blocked`. */
  ghost predicate Blocked(s: State, id: int, done: Oracle) {
    exists e :: e in s.edges && !e.deleted && e.task == id && Live(s, e.blocker) && !done(s, e.blocker)
  }

  function WithStatus(s: State, id: int, status: Status): State
    requires id in s.tasks
  {
    s.(tasks := s.tasks[id := s.tasks[id].(status := status)])
  }

  /** `mark_done`: a parent is completed by its subtasks, anything else unless it is blocked. */
  ghost function MarkDone(s: State, id: int, done: Oracle): Result<State, Error>
    requires WellFormed(s) && Live(s, id)
  {
    if Forest.Kids(LiveLinks(s.tasks), id) != {} then (if done(s, id) then Ok(s) else Err(NotCompletable))
    else if s.tasks[id].status == Done then Reconcile(s, [id], done)
    else if Blocked(s, id, done) then Err(NotCompletable)
    else
      SameShapeWellFormed(s, WithStatus(s, id, Done));
      var settled :- Reconcile(WithStatus(s, id, Done), [id], done);
      ReconcileSpawned(WithStatus(s, id, Done), [id], done);
      Ok(LogTask(settled, id, Completed))
  }

  function FiledIn(s: State, id: int, project: int): State
    requires id in s.tasks
  {
    s.(tasks := s.tasks[id := s.tasks[id].(project := project)])
  }

  /** `update_task` with a project only; naming none files the task in General. */
  ghost function Refile(s: State, id: int, project: Option<int>, done: Oracle): Result<State, Error>
    requires WellFormed(s) && Live(s, id)
  {
    var t := s.tasks[id];
    var p := if project.Some? then project.value else GENERAL;
    if project.Some? && !LiveProject(s, p) then Err(MissingProject)
    else if t.repeat.Some? && t.due.None? then Err(RecurrenceError)
    else
      assert RowWellFormed(s, t);
      if t.repeat.Some? && NextDue(t.due.value, t.repeat.value).None? then Err(RecurrenceError)
      else if t.project == p then Ok(s)
      else
        FiledWellFormed(s, id, p);
        var settled :- Reconcile(FiledIn(s, id, p), [id], done);
        ReconcileSpawned(FiledIn(s, id, p), [id], done);
        Ok(LogTask(settled, id, Updated))
  }

  /** The row on its new cadence and date; the first cadence it is given mints its series id. */
  function RecurringRow(t: Task, repeat: Option<Interval>, due: Option<Date>, mint: string): Task {
    t.(repeat := repeat, due := due, series := if repeat.Some? && t.series.None? then Some(mint) else t.series)
  }

  function Recurring(s: State, id: int, repeat: Option<Interval>, due: Option<Date>, mint: string): State
    requires id in s.tasks
  {
    s.(tasks := s.tasks[id := RecurringRow(s.tasks[id], repeat, due, mint)])
  }

  /** `update_task` with a cadence and a due date, on this occurrence only. */
  ghost function EditRecurrence(s: State, id: int, repeat: Option<Interval>, due: Option<Date>, mint: string, done: Oracle): Result<State, Error>
    requires WellFormed(s) && Live(s, id) && (repeat.Some? ==> ValidInterval(repeat.value))
  {
    var t := s.tasks[id];
    if repeat.Some? && due.None? then Err(RecurrenceError)
    else if repeat.Some? && NextDue(due.value, repeat.value).None? then Err(RecurrenceError)
    else if due.Some? && due != t.due && t.series.Some? && FindLiveOn(s, t.series.value, due.value, {id}).Some? then
      Err(OccurrenceConflict(FindLiveOn(s, t.series.value, due.value, {id}).value))
    else if t.repeat == repeat && t.due == due then Ok(s)
    else
      RecurringWellFormed(s, id, repeat, due, mint);
      var settled :- Reconcile(Recurring(s, id, repeat, due, mint), [id], done);
      ReconcileSpawned(Recurring(s, id, repeat, due, mint), [id], done);
      Ok(LogTask(settled, id, Updated))
  }

  /** No row has the minted id: it is a new UUID. */
  predicate Unused(s: State, mint: string) {
    forall x :: x in s.tasks ==> s.tasks[x].series != Some(mint)
  }

  /** Giving the row its first cadence would put one series above or below another. */
  ghost predicate NestsSeries(s: State, id: int) {
    id in s.tasks && s.tasks[id].series.None?
    && exists y :: y in s.tasks && y != id && s.tasks[y].series.Some?
                   && (Forest.Reaches(ParentLinks(s.tasks), id, y) || Forest.Reaches(ParentLinks(s.tasks), y, id))
  }

  /** The edge soft-deleted, and the event on its dependent. */
  function Unedged(s: State, at: nat): State
    requires at < |s.edges| && s.edges[at].task in s.tasks
  {
    LogTask(s.(edges := s.edges[at := s.edges[at].(deleted := true)]), s.edges[at].task, DependencyRemoved)
  }

  /** `remove_dependency` of the active edge at `at`. */
  ghost function RemoveDependency(s: State, at: nat, done: Oracle): Result<State, Error>
    requires WellFormed(s)
  {
    if at >= |s.edges| || s.edges[at].deleted then Err(MissingTask) else
      UnedgedWellFormed(s, at);
      Reconcile(Unedged(s, at), [s.edges[at].task], done)
  }

  // ---- sound stores -----------------------------------------------------------------------------

  /** A row nobody points at closes no cycle. */
  lemma LeafAcyclic(up: Forest.Links, x: int, p: int)
    requires Forest.Acyclic(up) && x !in up && x != p && forall z :: z in up ==> up[z] != x
    ensures Forest.Acyclic(up[x := p])
  {
    var all := up[x := p];
    forall z, k: nat | k > 0 ensures !Forest.Climbs(all, z, k, z) {
      assert Forest.OffCycle(up, z);
      if Forest.Climbs(all, z, k, z) {
        if z == x {
          NeverBack(all, x, p, k - 1);
        } else {
          Bypassed(up, x, p, z, k, z);
        }
        assert false;
      }
    }
  }

  lemma {:induction false} NeverBack(all: Forest.Links, x: int, y: int, k: nat)
    requires y != x && forall z :: z in all ==> all[z] != x
    ensures !Forest.Climbs(all, y, k, x)
    decreases k
  {
    if k > 0 && y in all { NeverBack(all, x, all[y], k - 1); }
  }

  lemma {:induction false} Bypassed(up: Forest.Links, x: int, p: int, y: int, k: nat, z: int)
    requires y != x && (forall w :: w in up ==> up[w] != x) && Forest.Climbs(up[x := p], y, k, z)
    ensures Forest.Climbs(up, y, k, z)
    decreases k
  {
    if k > 0 { Bypassed(up, x, p, up[y], k - 1, z); }
  }

  /** What a new row must be for the store to take it. */
  ghost predicate Fileable(s: State, t: Task) {
    && t.project in s.projects && t.repeat.None? && t.series.None? && !t.deleted && !t.superseded && t.withProject.None? && t.withTask.None?
    && (t.parent.Some? ==> t.parent.value in s.tasks)
  }

  lemma InsertedLinks(s: State, t: Task)
    requires WellFormed(s) && Fileable(s, t)
    ensures var id := NextId(s.tasks.Keys);
            && id !in s.tasks && id !in ParentLinks(s.tasks) && (forall z :: z in ParentLinks(s.tasks) ==> ParentLinks(s.tasks)[z] in s.tasks)
            && ParentLinks(Inserted(s, t).tasks)
               == (if t.parent.Some? then ParentLinks(s.tasks)[id := t.parent.value] else ParentLinks(s.tasks))
  {
    hide Forest.Acyclic;
    var id := NextId(s.tasks.Keys);
    assert id !in s.tasks.Keys;
    forall z | z in ParentLinks(s.tasks) ensures ParentLinks(s.tasks)[z] in s.tasks {
      assert RowWellFormed(s, s.tasks[z]);
    }
    var links := if t.parent.Some? then ParentLinks(s.tasks)[id := t.parent.value] else ParentLinks(s.tasks);
    assert ParentLinks(Inserted(s, t).tasks) == links;
  }

  lemma InsertedIsWellFormed(s: State, t: Task)
    requires WellFormed(s) && Fileable(s, t)
    ensures WellFormed(Inserted(s, t)) && NextId(s.tasks.Keys) in Inserted(s, t).tasks
  {
    InsertedLinks(s, t);
    var id, u := NextId(s.tasks.Keys), Inserted(s, t);
    if t.parent.Some? { LeafAcyclic(ParentLinks(s.tasks), id, t.parent.value); }
    hide Forest.Acyclic, ParentLinks;
    forall x | x in u.tasks ensures RowWellFormed(u, u.tasks[x]) {
      if x != id { assert RowWellFormed(s, s.tasks[x]); }
    }
  }

  lemma DraftFileable(s: State, d: Draft)
    requires WellFormed(s) && (d.project.Some? ==> LiveProject(s, d.project.value)) && (d.parent.Some? ==> Live(s, d.parent.value))
    ensures Fileable(s, DraftRow(s, d))
  {
    hide Forest.Acyclic;
    if d.parent.Some? { assert RowWellFormed(s, s.tasks[d.parent.value]); }
  }

  lemma InsertedWellFormed(s: State, d: Draft)
    requires WellFormed(s) && (d.project.Some? ==> LiveProject(s, d.project.value)) && (d.parent.Some? ==> Live(s, d.parent.value))
    ensures WellFormed(Inserted(s, DraftRow(s, d))) && NextId(s.tasks.Keys) in Inserted(s, DraftRow(s, d)).tasks
  {
    DraftFileable(s, d);
    hide WellFormed, Sound, Inserted, DraftRow, Fileable;
    InsertedIsWellFormed(s, DraftRow(s, d));
  }

  lemma FiledWellFormed(s: State, id: int, p: int)
    requires WellFormed(s) && id in s.tasks && p in s.projects
    ensures WellFormed(FiledIn(s, id, p))
  {
    var t := FiledIn(s, id, p);
    hide Forest.Acyclic;
    assert ParentLinks(t.tasks) == ParentLinks(s.tasks);
    forall x | x in t.tasks ensures RowWellFormed(t, t.tasks[x]) {
      assert RowWellFormed(s, s.tasks[x]);
    }
  }

  lemma RecurringWellFormed(s: State, id: int, repeat: Option<Interval>, due: Option<Date>, mint: string)
    requires WellFormed(s) && id in s.tasks && (repeat.Some? ==> ValidInterval(repeat.value))
    ensures WellFormed(Recurring(s, id, repeat, due, mint)) && id in Recurring(s, id, repeat, due, mint).tasks
  {
    var t := Recurring(s, id, repeat, due, mint);
    hide Forest.Acyclic, ValidInterval;
    assert ParentLinks(t.tasks) == ParentLinks(s.tasks);
    forall x | x in t.tasks ensures RowWellFormed(t, t.tasks[x]) {
      assert RowWellFormed(s, s.tasks[x]);
    }
  }

  lemma UnedgedWellFormed(s: State, at: nat)
    requires WellFormed(s) && at < |s.edges|
    ensures s.edges[at].task in s.tasks && WellFormed(Unedged(s, at))
  {
    hide Forest.Acyclic;
    assert s.edges[at] in s.edges;
    var t := Unedged(s, at);
    forall x | x in t.tasks ensures RowWellFormed(t, t.tasks[x]) {
      assert RowWellFormed(s, s.tasks[x]);
    }
    forall e | e in t.edges ensures e.task in t.tasks && e.blocker in t.tasks {
      var k :| 0 <= k < |t.edges| && t.edges[k] == e;
      assert s.edges[k] in s.edges;
    }
  }

  // ---- what a reconcile and a last event add ------------------------------------------------------

  /** The calls here end in a reconcile, and some in one more event on the row. */
  lemma ThenLogKeeps(s: State, id: int, action: Action)
    requires Consistent(s) && id in s.tasks && action != Restored
    ensures Consistent(LogTask(s, id, action))
  {
    LogKeepsCore(s, LogTask(s, id, action));
    hide Core, Archived;
  }

  lemma SettledConsistent(mid: State, id: int, done: Oracle)
    requires Consistent(mid) && id in mid.tasks
    ensures WellFormed(mid)
    ensures var r := Reconcile(mid, [id], done);
            r.Ok? ==> Consistent(r.value) && id in r.value.tasks
  {
    TaskSteps.ConsistentWellFormed(mid);
    ReconcileSpawned(mid, [id], done);
    hide WellFormed, Sound, Consistent, Reconcile;
    TaskSteps.ReconcileConsistent(mid, [id], done);
  }

  // ---- the invariant ---------------------------------------------------------------------------

  lemma InsertedFlat(s: State, t: Task)
    requires WellFormed(s) && Fileable(s, t) && FlatSeries(s.tasks)
    ensures FlatSeries(Inserted(s, t).tasks)
  {
    InsertedLinks(s, t);
    var id, u := NextId(s.tasks.Keys), Inserted(s, t);
    var up := ParentLinks(s.tasks);
    hide WellFormed, Sound, ParentLinks;
    forall x, y | x in u.tasks && y in u.tasks && x != y && u.tasks[x].series.Some? && u.tasks[y].series.Some?
      ensures !Forest.Reaches(ParentLinks(u.tasks), x, y)
    {
      if Forest.Reaches(ParentLinks(u.tasks), x, y) {
        var k: nat :| Forest.Climbs(ParentLinks(u.tasks), x, k, y);
        assert x != id && y != id;
        if t.parent.Some? { Bypassed(up, id, t.parent.value, x, k, y); }
        FlatPair(s.tasks, x, y, k);
        assert false;
      }
    }
  }

  lemma InsertedKeeps(s: State, t: Task)
    requires Consistent(s) && Fileable(s, t) && LiveProject(s, t.project)
    ensures Consistent(Inserted(s, t))
  {
    TaskSteps.ConsistentWellFormed(s);
    InsertedIsWellFormed(s, t);
    InsertedFlat(s, t);
    var id, u := NextId(s.tasks.Keys), Inserted(s, t);
    assert id !in s.tasks.Keys;
    FeedAppend(s.projects, s.events, u.events);
    hide WellFormed, Sound, FlatSeries, FeedClean;
    forall x | Live(u, x) ensures LiveProject(u, u.tasks[x].project) {
      if x != id { assert Live(s, x); }
    }
    forall x, y | Live(u, x) && Live(u, y) && SameSlot(u.tasks[x], u.tasks[y]) ensures x == y {
      assert x != id && y != id && Live(s, x) && Live(s, y) && SameSlot(s.tasks[x], s.tasks[y]);
    }
    forall x | x in u.tasks && u.tasks[x].withProject.Some? ensures ArchivedRow(u, u.tasks[x]) {
      assert ArchivedRow(s, s.tasks[x]);
    }
  }

  lemma DraftLive(s: State, d: Draft)
    requires Consistent(s) && (d.project.Some? ==> LiveProject(s, d.project.value)) && (d.parent.Some? ==> Live(s, d.parent.value))
    ensures LiveProject(s, DraftRow(s, d).project)
  {
    hide UniqueSlots, FlatSeries, FeedClean, Archived, Forest.Acyclic;
    if d.parent.Some? { assert LiveProject(s, s.tasks[d.parent.value].project); }
  }

  lemma CreateKeeps(s: State, d: Draft, done: Oracle)
    requires Consistent(s)
    ensures WellFormed(s)
    ensures TaskSteps.Keeps(CreateTask(s, d, done))
  {
    TaskSteps.ConsistentWellFormed(s);
    hide WellFormed, Sound, Consistent, Inserted, DraftRow, Fileable, Reconcile, NestingLevel;
    if (d.project.Some? ==> LiveProject(s, d.project.value)) && (d.parent.Some? ==> Live(s, d.parent.value)) {
      DraftFileable(s, d);
      DraftLive(s, d);
      InsertedKeeps(s, DraftRow(s, d));
      InsertedWellFormed(s, d);
      SettledConsistent(Inserted(s, DraftRow(s, d)), NextId(s.tasks.Keys), done);
    }
  }

  lemma DoneKeeps(s: State, id: int, done: Oracle)
    requires Consistent(s) && Live(s, id)
    ensures WellFormed(s)
    ensures TaskSteps.Keeps(MarkDone(s, id, done))
  {
    TaskSteps.ConsistentWellFormed(s);
    StatusKeeps(s, id);
    SameShapeWellFormed(s, WithStatus(s, id, Done));
    hide WellFormed, Sound, Consistent, WithStatus, Reconcile, Blocked, LogTask;
    var mid := WithStatus(s, id, Done);
    SettledConsistent(s, id, done);
    SettledConsistent(mid, id, done);
    if Reconcile(mid, [id], done).Ok? { ThenLogKeeps(Reconcile(mid, [id], done).value, id, Completed); }
  }

  lemma StatusKeeps(s: State, id: int)
    requires Consistent(s) && id in s.tasks
    ensures id in WithStatus(s, id, Done).tasks && Consistent(WithStatus(s, id, Done))
  {
    var t := WithStatus(s, id, Done);
    assert TaskSteps.OnlyMoves(s, t);
    assert UniqueSlots(t) by {
      hide WellFormed, Sound, FlatSeries, FeedClean, Filed, Archived;
      forall x, y | Live(t, x) && Live(t, y) && SameSlot(t.tasks[x], t.tasks[y]) ensures x == y {
        assert Live(s, x) && Live(s, y) && SameSlot(s.tasks[x], s.tasks[y]);
      }
    }
    hide Consistent;
    TaskSteps.OnlyMovesKeeps(s, t);
  }

  lemma FiledKeeps(s: State, id: int, p: int)
    requires Consistent(s) && Live(s, id) && LiveProject(s, p)
    ensures id in FiledIn(s, id, p).tasks && Consistent(FiledIn(s, id, p))
  {
    TaskSteps.ConsistentWellFormed(s);
    FiledWellFormed(s, id, p);
    var t := FiledIn(s, id, p);
    SameParentsFlat(s.tasks, t.tasks);
    hide WellFormed, Sound, FlatSeries, FeedClean;
    forall x | Live(t, x) ensures LiveProject(t, t.tasks[x].project) {
      assert Live(s, x);
    }
    forall x, y | Live(t, x) && Live(t, y) && SameSlot(t.tasks[x], t.tasks[y]) ensures x == y {
      assert Live(s, x) && Live(s, y) && SameSlot(s.tasks[x], s.tasks[y]);
    }
    forall x | x in t.tasks && t.tasks[x].withProject.Some? ensures ArchivedRow(t, t.tasks[x]) {
      assert ArchivedRow(s, s.tasks[x]);
    }
  }

  lemma RefileKeeps(s: State, id: int, project: Option<int>, done: Oracle)
    requires Consistent(s) && Live(s, id)
    ensures WellFormed(s)
    ensures TaskSteps.Keeps(Refile(s, id, project, done))
  {
    TaskSteps.ConsistentWellFormed(s);
    GeneralLive(s);
    hide WellFormed, Sound, Consistent, FiledIn, Reconcile, LogTask;
    var p := if project.Some? then project.value else GENERAL;
    if LiveProject(s, p) {
      FiledKeeps(s, id, p);
      FiledWellFormed(s, id, p);
      var mid := FiledIn(s, id, p);
      SettledConsistent(mid, id, done);
      if Reconcile(mid, [id], done).Ok? { ThenLogKeeps(Reconcile(mid, [id], done).value, id, Updated); }
    }
  }

  /** Minting a series keeps series from nesting exactly when none is above or below the row already. */
  lemma MintFlatIff(s: State, id: int, repeat: Option<Interval>, due: Option<Date>, mint: string)
    requires id in s.tasks && FlatSeries(s.tasks)
    ensures FlatSeries(Recurring(s, id, repeat, due, mint).tasks) <==> repeat.None? || !NestsSeries(s, id)
  {
    var t := Recurring(s, id, repeat, due, mint);
    var up := ParentLinks(s.tasks);
    assert ParentLinks(t.tasks) == up;
    hide ParentLinks, Forest.Reaches;
    if repeat.Some? && NestsSeries(s, id) {
      var y :| y in s.tasks && y != id && s.tasks[y].series.Some? && (Forest.Reaches(up, id, y) || Forest.Reaches(up, y, id));
      assert t.tasks[y] == s.tasks[y] && t.tasks[id].series.Some?;
    } else {
      forall x, y | x in t.tasks && y in t.tasks && x != y && t.tasks[x].series.Some? && t.tasks[y].series.Some?
        ensures !Forest.Reaches(up, x, y)
      {
        if s.tasks[x].series.None? { assert x == id && s.tasks[y].series.Some?; }
        else if s.tasks[y].series.None? { assert y == id; }
      }
    }
  }

  lemma RecurringUnique(s: State, id: int, repeat: Option<Interval>, due: Option<Date>, mint: string)
    requires UniqueSlots(s) && Live(s, id) && Unused(s, mint)
    requires var t := s.tasks[id];
             due.Some? && due != t.due && t.series.Some? ==> FindLiveOn(s, t.series.value, due.value, {id}).None?
    ensures UniqueSlots(Recurring(s, id, repeat, due, mint))
  {
    var t := Recurring(s, id, repeat, due, mint);
    hide FindLiveOn;
    forall x, y | Live(t, x) && Live(t, y) && SameSlot(t.tasks[x], t.tasks[y]) ensures x == y {
      if x == id { SlotElsewhere(s, id, repeat, due, mint, y); }
      else if y == id { SlotElsewhere(s, id, repeat, due, mint, x); }
      else { assert Live(s, x) && Live(s, y) && SameSlot(s.tasks[x], s.tasks[y]); }
    }
  }

  /** No other live row is in the slot the row moves to. */
  lemma SlotElsewhere(s: State, id: int, repeat: Option<Interval>, due: Option<Date>, mint: string, y: int)
    requires UniqueSlots(s) && Live(s, id) && Unused(s, mint)
    requires var t := s.tasks[id];
             due.Some? && due != t.due && t.series.Some? ==> FindLiveOn(s, t.series.value, due.value, {id}).None?
    ensures Live(s, y) && y != id ==> !SameSlot(RecurringRow(s.tasks[id], repeat, due, mint), s.tasks[y])
  {
    hide FindLiveOn;
    if Live(s, y) {
      assert SameSlot(s.tasks[id], s.tasks[y]) ==> id == y;
      if s.tasks[id].series.Some? && due.Some? && due != s.tasks[id].due {
        Projects.NobodyOn(s, s.tasks[id].series.value, due.value, id, y);
      }
    }
  }

  lemma RecurringKeeps(s: State, id: int, repeat: Option<Interval>, due: Option<Date>, mint: string)
    requires Consistent(s) && Live(s, id) && Unused(s, mint) && (repeat.None? || !NestsSeries(s, id))
    requires repeat.Some? ==> ValidInterval(repeat.value)
    requires var t := s.tasks[id];
             due.Some? && due != t.due && t.series.Some? ==> FindLiveOn(s, t.series.value, due.value, {id}).None?
    ensures id in Recurring(s, id, repeat, due, mint).tasks && Consistent(Recurring(s, id, repeat, due, mint))
  {
    TaskSteps.ConsistentWellFormed(s);
    RecurringWellFormed(s, id, repeat, due, mint);
    RecurringUnique(s, id, repeat, due, mint);
    MintFlatIff(s, id, repeat, due, mint);
    var t := Recurring(s, id, repeat, due, mint);
    hide WellFormed, Sound, FlatSeries, FeedClean, UniqueSlots, FindLiveOn, NestsSeries, Unused, ValidInterval;
    forall x | Live(t, x) ensures LiveProject(t, t.tasks[x].project) {
      assert Live(s, x);
    }
    forall x | x in t.tasks && t.tasks[x].withProject.Some? ensures ArchivedRow(t, t.tasks[x]) {
      assert ArchivedRow(s, s.tasks[x]);
    }
  }

  lemma RecurrenceKeeps(s: State, id: int, repeat: Option<Interval>, due: Option<Date>, mint: string, done: Oracle)
    requires Consistent(s) && Live(s, id) && Unused(s, mint) && (repeat.None? || !NestsSeries(s, id))
    requires repeat.Some? ==> ValidInterval(repeat.value)
    ensures WellFormed(s)
    ensures TaskSteps.Keeps(EditRecurrence(s, id, repeat, due, mint, done))
  {
    TaskSteps.ConsistentWellFormed(s);
    RecurringWellFormed(s, id, repeat, due, mint);
    hide WellFormed, Sound, Consistent, Recurring, Reconcile, LogTask, FindLiveOn, NestsSeries, Unused, NextDue;
    if EditRecurrence(s, id, repeat, due, mint, done).Ok? && !(s.tasks[id].repeat == repeat && s.tasks[id].due == due) {
      RecurringKeeps(s, id, repeat, due, mint);
      var mid := Recurring(s, id, repeat, due, mint);
      SettledConsistent(mid, id, done);
      ThenLogKeeps(Reconcile(mid, [id], done).value, id, Updated);
    }
  }

  lemma GeneralLive(s: State)
    requires WellFormed(s)
    ensures LiveProject(s, GENERAL)
  {
    hide Forest.Acyclic;
  }

  lemma UnedgedKeeps(s: State, at: nat)
    requires Consistent(s) && at < |s.edges|
    ensures s.edges[at].task in s.tasks && Consistent(Unedged(s, at))
  {
    TaskSteps.ConsistentWellFormed(s);
    UnedgedWellFormed(s, at);
    var t := Unedged(s, at);
    FeedAppend(s.projects, s.events, t.events);
    hide WellFormed, Sound, FlatSeries, FeedClean;
    forall x | x in t.tasks && t.tasks[x].withProject.Some? ensures ArchivedRow(t, t.tasks[x]) {
      assert ArchivedRow(s, s.tasks[x]);
    }
    assert UniqueSlots(t) by { hide Filed, Archived; }
  }

  lemma RemoveKeeps(s: State, at: nat, done: Oracle)
    requires Consistent(s)
    ensures WellFormed(s)
    ensures TaskSteps.Keeps(RemoveDependency(s, at, done))
  {
    TaskSteps.ConsistentWellFormed(s);
    if at < |s.edges| {
      UnedgedKeeps(s, at);
      UnedgedWellFormed(s, at);
      hide WellFormed, Sound, Consistent, Reconcile;
      SettledConsistent(Unedged(s, at), s.edges[at].task, done);
    }
  }

  // ---- the first store --------------------------------------------------------------------------

  /** A store before its first task: General and whatever other projects were made, none of them trashed. */
  function Started(projects: map<int, Project>, events: seq<Event>): State {
    State(map[], projects, [], events)
  }

  predicate NoneTrashed(projects: map<int, Project>) {
    GENERAL in projects && projects[GENERAL].protected && forall p :: p in projects ==> !projects[p].deleted
  }

  lemma StartedConsistent(projects: map<int, Project>, events: seq<Event>)
    requires NoneTrashed(projects)
    ensures Consistent(Started(projects, events)) && WaitArrows(Started(projects, events)) == {}
  {
    var s := Started(projects, events);
    var none: Forest.Links := map[];
    assert ParentLinks(s.tasks) == none;
    forall x, k: nat | k > 0 ensures !Forest.Climbs(none, x, k, x) {
    }
    assert Forest.Acyclic(none);
    hide Forest.Acyclic;
    assert WellFormed(s);
  }
}
