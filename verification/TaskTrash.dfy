/**
 Restoring trashed tasks, undoing a restore from its receipt, and purging
 (backend/app/services/task_trash.py).
 */
module TaskTrash {
  import opened Common
  import opened Calendar
  import opened Store
  import opened TaskRecurrence
  import opened Tasks
  import Forest

  // ---- receipts ---------------------------------------------------------------

  datatype Rescheduled = Rescheduled(task: int, due: Option<Date>)

  datatype Unskip = Unskip(skippedDue: Date, superseded: int, previous: seq<Rescheduled>)

  /** What one restore changed; it comes back from the client, so any value is possible. */
  datatype Receipt = Receipt(
    task: int,
    eventId: int,
    restored: seq<int>,
    skipped: bool,
    priorRoot: Option<int>,
    unskip: Option<Unskip>)

  /** Id of the newest `restored` event of a task: 0 when there is none. */
  function LatestRestored(events: seq<Event>, task: int): nat {
    if events == [] then 0 else
      var e := events[|events| - 1];
      if e.entity == TaskEntity && e.entityId == task && e.action == Restored then |events|
      else LatestRestored(events[..|events| - 1], task)
  }

  // ---- restoring ----------------------------------------------------------------

  /** Later active occurrences of the same series, on the row's date or after. */
  function Followers(s: State, id: int): set<int>
    requires id in s.tasks && s.tasks[id].series.Some? && s.tasks[id].due.Some?
  {
    set x | x in s.tasks && !s.tasks[x].deleted && x != id && s.tasks[x].series == s.tasks[id].series
            && s.tasks[x].due.Some? && s.tasks[x].due.value >= s.tasks[id].due.value
  }

  function Dues(s: State, ids: set<int>): set<int>
    requires forall x :: x in ids ==> x in s.tasks && s.tasks[x].due.Some?
  {
    set x | x in ids :: s.tasks[x].due.value as int
  }

  /** Those of them on one date. */
  function FollowersOn(s: State, id: int, day: int): set<int>
    requires id in s.tasks && s.tasks[id].series.Some? && s.tasks[id].due.Some?
  {
    set x | x in Followers(s, id) && s.tasks[x].due.value as int == day
  }

  lemma EarliestExists(s: State, id: int)
    requires id in s.tasks && s.tasks[id].series.Some? && s.tasks[id].due.Some? && Followers(s, id) != {}
    ensures Dues(s, Followers(s, id)) != {} && FollowersOn(s, id, Least(Dues(s, Followers(s, id)))) != {}
    ensures forall y :: y in Followers(s, id) ==> s.tasks[y].due.value as int in Dues(s, Followers(s, id))
  {
    var all := Followers(s, id);
    var dues := Dues(s, all);
    var z := Any(all);
    assert s.tasks[z].due.value as int in dues;
    var w :| w in all && s.tasks[w].due.value as int == Least(dues);
    assert w in FollowersOn(s, id, Least(dues));
  }

  /** The earliest of them, the lowest id first. */
  function FirstFollower(s: State, id: int): (x: int)
    requires id in s.tasks && s.tasks[id].series.Some? && s.tasks[id].due.Some? && Followers(s, id) != {}
    ensures x in Followers(s, id)
    ensures forall y :: y in Followers(s, id) ==> s.tasks[x].due.value <= s.tasks[y].due.value
  {
    EarliestExists(s, id);
    Least(FollowersOn(s, id, Least(Dues(s, Followers(s, id)))))
  }

  /** The trashed rows `root`'s own cascade stamped. */
  function Stamped(s: State, root: int): set<int> {
    set x | x in s.tasks && s.tasks[x].deleted && s.tasks[x].withTask == Some(root)
  }

  /** `_skip_cascade`: the root, then those rows in id order. */
  function SkipCascade(s: State, root: int): seq<int> {
    [root] + Sorted(Stamped(s, root))
  }

  /** `_marked_descendant_ids`: those of them no un-skip has superseded. */
  function Marked(s: State, root: int): set<int> {
    set x | x in s.tasks && s.tasks[x].deleted && s.tasks[x].withTask == Some(root) && !s.tasks[x].superseded
  }

  /** The rows of a walk a move to `day` changes, in walk order. */
  function MovedRows(tasks: map<int, Task>, walk: seq<int>, day: Date): (moved: seq<int>)
    requires forall x :: x in walk ==> x in tasks
    ensures forall x :: x in moved <==> x in walk && tasks[x].due != Some(day)
    ensures Distinct(walk) ==> Distinct(moved)
    ensures walk != [] ==> walk[0] in walk && walk[0] in tasks
    ensures walk != [] && tasks[walk[0]].due != Some(day) ==> moved != [] && moved[0] == walk[0]
  {
    if walk == [] then [] else
      var x := walk[0];
      assert x in walk;
      var rest := MovedRows(tasks, walk[1..], day);
      assert forall y :: y in walk <==> y == x || y in walk[1..];
      if tasks[x].due != Some(day) then [x] + rest else rest
  }

  function PreviousDues(tasks: map<int, Task>, moved: seq<int>): (previous: seq<Rescheduled>)
    requires forall x :: x in moved ==> x in tasks
    ensures |previous| == |moved|
    ensures forall i :: 0 <= i < |moved| ==>
              moved[i] in moved && moved[i] in tasks && previous[i] == Rescheduled(moved[i], tasks[moved[i]].due)
  {
    if moved == [] then [] else
      var x := moved[0];
      assert x in moved;
      [Rescheduled(x, tasks[x].due)] + PreviousDues(tasks, moved[1..])
  }

  /** `reschedule_occurrence`: every row of the active subtree on `day`. */
  function OnDay(s: State, rows: set<int>, day: Date): State {
    s.(tasks := map x | x in s.tasks :: if x in rows then s.tasks[x].(due := Some(day)) else s.tasks[x])
  }

  /** `_supersede`: the skipped row and what its skip stamped are retired, still in the trash. */
  function Superseded(s: State, id: int): State
    requires id in s.tasks
  {
    var cascade := SkipCascade(s, id);
    s.(tasks := map x | x in s.tasks ::
         var t := if x in cascade then s.tasks[x].(superseded := true) else s.tasks[x];
         if x == id then t.(skipped := false) else t,
       events := s.events + TaskEvents(s.tasks, cascade, Updated, SupersededNote))
  }

  /** The row an individual restore brings back: live, out of every cascade, in a live project. */
  function Revived(s: State, t: Task): Task {
    t.(deleted := false, skipped := false, withTask := None, withProject := None,
       project := if LiveProject(s, t.project) then t.project else GENERAL)
  }

  /** The rows a restore could still bring back. */
  function Pending(s: State): set<int> {
    set x | x in s.tasks && s.tasks[x].deleted && !s.tasks[x].superseded
  }

  datatype Restoration = Restoration(state: State, task: int, receipt: Receipt)

  predicate IsUnskip(s: State, id: int)
    requires id in s.tasks
  {
    var t := s.tasks[id];
    t.skipped && t.series.Some? && t.due.Some? && Followers(s, id) != {}
  }

  /** The un-skip rewind: the live follower takes the skipped date, the skipped row is retired. */
  ghost function Rewind(s: State, id: int, done: Oracle): Result<Restoration, Error>
    requires WellFormed(s) && Trashed(s, id) && IsUnskip(s, id)
  {
    var day := s.tasks[id].due.value;
    var live := FirstFollower(s, id);
    var walk := ActiveWalk(s, live);
    ActiveRowsExist(s, live);
    var moved := MovedRows(s.tasks, walk, day);
    var rewound := Superseded(OnDay(s, Elems(walk), day), id);
    RewoundWellFormed(s, id, Elems(walk), day);
    var settled :- Reconcile(rewound, [live], done);
    ReconcileSpawned(rewound, [live], done);
    var audited := settled.(events := settled.events
                                      + TaskEvents(settled.tasks, Without(moved, live), Updated, Usual));
    var after := LogTask(audited, live, Restored);
    Ok(Restoration(after, live,
                   Receipt(live, LatestRestored(after.events, live), [], false, None,
                           Some(Unskip(day, id, PreviousDues(s.tasks, moved))))))
  }

  function Without(s: seq<int>, x: int): (r: seq<int>)
    ensures forall y :: y in r <==> y in s && y != x
  {
    if s == [] then [] else (if s[0] == x then [] else [s[0]]) + Without(s[1..], x)
  }

  lemma ActiveRowsExist(s: State, root: int)
    requires WellFormed(s) && Live(s, root)
    ensures forall x :: x in ActiveWalk(s, root) ==> Live(s, x)
    ensures Distinct(ActiveWalk(s, root))
  {
    ActiveWalkShape(s, root);
    hide WellFormed, Sound, ActiveWalk, Forest.Subtree, Forest.ParentsFirst;
  }

  lemma RewoundWellFormed(s: State, id: int, rows: set<int>, day: Date)
    requires WellFormed(s) && id in s.tasks
    ensures WellFormed(Superseded(OnDay(s, rows, day), id))
  {
    hide WellFormed, Sound, TaskEvents;
    var mid := OnDay(s, rows, day);
    SameShapeWellFormed(s, mid);
    SameShapeWellFormed(mid, Superseded(mid, id));
  }

  function ReviveRow(s: State, id: int): State
    requires id in s.tasks
  {
    s.(tasks := s.tasks[id := Revived(s, s.tasks[id])])
  }

  lemma RevivedWellFormed(s: State, id: int)
    requires WellFormed(s) && id in s.tasks
    ensures WellFormed(ReviveRow(s, id))
  {
    SameShapeWellFormed(s, ReviveRow(s, id));
  }

  /** `restore_task_with_undo`. */
  ghost function RestoreTask(s: State, id: int, deferred: bool, done: Oracle): (r: Result<Restoration, Error>)
    requires WellFormed(s) && Trashed(s, id)
    ensures r.Ok? ==> Restores(s, id, r.value)
    decreases |Pending(s)|, 1, 0
  {
    var t := s.tasks[id];
    if t.superseded then Err(SupersededTask)
    else if IsUnskip(s, id) then
      RewindKeeps(s, id, done);
      Rewind(s, id, done)
    else if t.series.Some? && t.due.Some? && FindLiveOn(s, t.series.value, t.due.value, {id}).Some? then
      Err(OccurrenceConflict(FindLiveOn(s, t.series.value, t.due.value, {id}).value))
    else PlainRestore(s, id, deferred, done)
  }

  /** What a restore leaves for the next one: a sound store, and strictly less to restore. */
  ghost predicate Restores(s: State, id: int, r: Restoration) {
    && WellFormed(r.state) && s.tasks.Keys <= r.state.tasks.Keys
    && Pending(r.state) <= Pending(s) - {id}
    && r.task in r.state.tasks
  }

  /** The restore in place; a row that was skipped brings its skip's cascade back with it. */
  ghost function PlainRestore(s: State, id: int, deferred: bool, done: Oracle): (r: Result<Restoration, Error>)
    requires WellFormed(s) && Trashed(s, id) && !s.tasks[id].superseded
    ensures r.Ok? ==> Restores(s, id, r.value)
    decreases |Pending(s)|, 0, 0
  {
    var t := s.tasks[id];
    var revived := ReviveRow(s, id);
    RevivedWellFormed(s, id);
    RevivedPending(s, id);
    var back :- if t.skipped then RestoreMarked(revived, Sorted(Marked(revived, id)), done) else Ok((revived, []));
    var restored := [id] + back.1;
    SettledKeeps(back.0, restored, deferred, done);
    var settled :- Settle(back.0, restored, deferred, done);
    var after := LogTask(settled, id, Restored);
    LogKeepsWellFormed(settled, after);
    Ok(Restoration(after, id,
                   Receipt(id, LatestRestored(after.events, id), restored, t.skipped, t.withTask, None)))
  }

  /** The reconcile at the end of a restore, unless the caller will run it. */
  ghost function Settle(s: State, seeds: seq<int>, deferred: bool, done: Oracle): Result<State, Error>
    requires WellFormed(s) && forall x :: x in seeds ==> x in s.tasks
  {
    if deferred then Ok(s) else Reconcile(s, seeds, done)
  }

  /** `_restore_marked_descendants` over the ids its query returned. */
  ghost function RestoreMarked(s: State, ids: seq<int>, done: Oracle): (r: Result<(State, seq<int>), Error>)
    requires WellFormed(s) && forall x :: x in ids ==> x in s.tasks
    ensures r.Ok? ==> WellFormed(r.value.0) && s.tasks.Keys <= r.value.0.tasks.Keys
    ensures r.Ok? ==> Pending(r.value.0) <= Pending(s)
    ensures r.Ok? ==> forall x :: x in r.value.1 ==> x in r.value.0.tasks && x in ids
    decreases |Pending(s)|, 1, |ids|
  {
    if ids == [] then Ok((s, [])) else
      var x := ids[0];
      assert x in ids;
      if x !in Pending(s) then RestoreMarked(s, ids[1..], done) else
        var first :- RestoreTask(s, x, true, done);
        assert x in Pending(s) && Pending(first.state) <= Pending(s) - {x};
        SubsetSize(Pending(first.state), Pending(s));
        var rest :- RestoreMarked(first.state, ids[1..], done);
        Ok((rest.0, [x] + rest.1))
  }

  lemma RestoreShrinks(s: State, id: int, deferred: bool, done: Oracle)
    requires WellFormed(s) && id in Pending(s) && RestoreTask(s, id, deferred, done).Ok?
    ensures var after := RestoreTask(s, id, deferred, done).value.state;
            && WellFormed(after) && (forall x :: x in s.tasks ==> x in after.tasks)
            && Pending(after) <= Pending(s) - {id} && |Pending(after)| < |Pending(s)|
  {
    var after := RestoreTask(s, id, deferred, done).value.state;
    hide WellFormed, Sound, RestoreTask, Pending;
    SubsetSize(Pending(after), Pending(s));
  }

  lemma RewindKeeps(s: State, id: int, done: Oracle)
    requires WellFormed(s) && Trashed(s, id) && IsUnskip(s, id) && !s.tasks[id].superseded
    ensures Rewind(s, id, done).Ok? ==> Restores(s, id, Rewind(s, id, done).value)
  {
    var live := FirstFollower(s, id);
    var rows := Elems(ActiveWalk(s, live));
    var day := s.tasks[id].due.value;
    var mid := Superseded(OnDay(s, rows, day), id);
    hide *;
    hide WellFormed;
    RewoundPending(s, id, rows, day);
    RewindSettles(s, id, done);
    ReconcileSpawned(mid, [live], done);
    var r := Rewind(s, id, done);
    if r.Ok? {
      var settled := Reconcile(mid, [live], done).value;
      LogKeepsWellFormed(settled, r.value.state);
      SpawnPending(mid, settled);
      SamePending(settled, r.value.state);
      SpawnedKeys(mid, settled);
      StillRestores(s, id, mid, settled, r.value);
    }
  }

  /** The rewind reconciles the retired and moved rows and only logs after that. */
  lemma RewindSettles(s: State, id: int, done: Oracle)
    requires WellFormed(s) && Trashed(s, id) && IsUnskip(s, id)
    ensures var live := FirstFollower(s, id);
            var day := s.tasks[id].due.value;
            var mid := Superseded(OnDay(s, Elems(ActiveWalk(s, live)), day), id);
            && Live(s, live) && WellFormed(mid) && live in mid.tasks
            && (Rewind(s, id, done).Ok? ==>
                  && Reconcile(mid, [live], done).Ok?
                  && SameRows(Reconcile(mid, [live], done).value, Rewind(s, id, done).value.state)
                  && Rewind(s, id, done).value.task == live)
  {
    var live := FirstFollower(s, id);
    ActiveRowsExist(s, live);
    RewoundWellFormed(s, id, Elems(ActiveWalk(s, live)), s.tasks[id].due.value);
    hide WellFormed, Sound, ActiveWalk, Reconcile, FirstFollower, Superseded, OnDay, MovedRows, TaskEvents, Live;
  }

  ghost predicate SameRows(s: State, t: State) {
    t.tasks == s.tasks && t.projects == s.projects && t.edges == s.edges
  }

  lemma SpawnedKeys(s: State, t: State)
    requires Spawned(s, t)
    ensures s.tasks.Keys <= t.tasks.Keys
  {
    forall x | x in s.tasks.Keys ensures x in t.tasks.Keys { assert x in s.tasks; }
  }

  lemma StillRestores(s: State, id: int, mid: State, settled: State, r: Restoration)
    requires WellFormed(r.state) && SameRows(settled, r.state) && mid.tasks.Keys <= settled.tasks.Keys
    requires mid.tasks.Keys == s.tasks.Keys && r.task in mid.tasks
    requires Pending(mid) <= Pending(s) - {id} && Pending(settled) == Pending(mid) && Pending(r.state) == Pending(settled)
    ensures Restores(s, id, r)
  {
    hide WellFormed, Pending;
  }

  lemma SamePending(s: State, t: State)
    requires t.tasks == s.tasks
    ensures Pending(t) == Pending(s)
  {
  }

  lemma RewoundPending(s: State, id: int, rows: set<int>, day: Date)
    requires id in s.tasks
    ensures var mid := Superseded(OnDay(s, rows, day), id);
            Pending(mid) <= Pending(s) - {id} && mid.tasks.Keys == s.tasks.Keys
  {
    var mid := Superseded(OnDay(s, rows, day), id);
    assert id in SkipCascade(OnDay(s, rows, day), id);
    forall x | x in Pending(mid) ensures x in Pending(s) - {id} {
    }
  }

  lemma LogKeepsWellFormed(s: State, t: State)
    requires WellFormed(s) && t.tasks == s.tasks && t.projects == s.projects && t.edges == s.edges
    ensures WellFormed(t)
  {
    forall x | x in t.tasks ensures RowWellFormed(t, t.tasks[x]) {
      assert RowWellFormed(s, s.tasks[x]);
    }
  }

  lemma SpawnPending(s: State, t: State)
    requires Spawned(s, t)
    ensures Pending(t) == Pending(s)
  {
    forall x ensures x in Pending(t) <==> x in Pending(s) {
      if x in s.tasks { assert t.tasks[x] == s.tasks[x]; }
    }
  }

  lemma RevivedPending(s: State, id: int)
    requires Trashed(s, id) && !s.tasks[id].superseded
    ensures Pending(ReviveRow(s, id)) == Pending(s) - {id}
    ensures |Pending(ReviveRow(s, id))| < |Pending(s)|
    ensures ReviveRow(s, id).tasks.Keys == s.tasks.Keys
  {
    assert id in Pending(s);
    SubsetSize(Pending(ReviveRow(s, id)), Pending(s));
  }

  lemma SettledKeeps(s: State, seeds: seq<int>, deferred: bool, done: Oracle)
    requires WellFormed(s) && forall x :: x in seeds ==> x in s.tasks
    ensures var r := Settle(s, seeds, deferred, done);
            r.Ok? ==> WellFormed(r.value) && Spawned(s, r.value) && s.tasks.Keys <= r.value.tasks.Keys
                      && Pending(r.value) == Pending(s)
  {
    SpawnedRefl(s);
    ReconcileSpawned(s, seeds, done);
    hide Reconcile, WellFormed, Sound, Pending;
    var r := Settle(s, seeds, deferred, done);
    if r.Ok? {
      SpawnPending(s, r.value);
      forall x | x in s.tasks ensures x in r.value.tasks {
      }
    }
  }

  /** `restore_task_subtree`: the row and exactly what its delete took, reconciled once. */
  ghost function RestoreSubtree(s: State, id: int, done: Oracle): Result<(State, int, nat), Error>
    requires WellFormed(s) && Trashed(s, id)
  {
    var marked := Marked(s, id);
    var root :- RestoreTask(s, id, true, done);
    var rest :- RestoreMarked(root.state, Sorted(Marked(root.state, id)), done);
    var back := Sorted(set x | x in marked && Live(rest.0, x));
    var settled :- Reconcile(rest.0, [root.task] + back, done);
    Ok((settled, root.task, |back|))
  }

  // ---- undoing a restore ----------------------------------------------------------

  /** Whether a task event newer than `eventId` names one of `ids`. */
  predicate TouchedAfter(events: seq<Event>, ids: set<int>, eventId: int) {
    exists i :: 0 <= i < |events| && eventId <= i && events[i].entity == TaskEntity && events[i].entityId in ids
  }

  predicate RestoredAfter(events: seq<Event>, task: int, eventId: int) {
    exists i :: 0 <= i < |events| && eventId <= i && events[i].entity == TaskEntity && events[i].entityId == task
                && events[i].action == Restored
  }

  /** `_check_restore_event`: the receipt is bound to its root's newest `restored` event. */
  predicate BoundToRestore(s: State, r: Receipt) {
    && 1 <= r.eventId <= |s.events|
    && var e := s.events[r.eventId - 1];
    && e.entity == TaskEntity && e.entityId == r.task && e.action == Restored
    && !RestoredAfter(s.events, r.task, r.eventId)
  }

  /** The due date a receipt gives each row; a row named twice keeps the last. */
  function PreviousMap(previous: seq<Rescheduled>): (m: map<int, Option<Date>>)
    ensures forall x :: x in m ==> Rescheduled(x, m[x]) in previous
    ensures forall p :: p in previous ==> p.task in m
  {
    if previous == [] then map[] else
      var p := previous[|previous| - 1];
      assert previous == previous[..|previous| - 1] + [p];
      PreviousMap(previous[..|previous| - 1])[p.task := p.due]
  }

  /** Its keys in the order they were first named. */
  function FirstNamed(previous: seq<Rescheduled>): (keys: seq<int>)
    ensures forall x :: x in keys <==> exists p :: p in previous && p.task == x
  {
    if previous == [] then [] else
      var p := previous[|previous| - 1];
      assert previous == previous[..|previous| - 1] + [p];
      var keys := FirstNamed(previous[..|previous| - 1]);
      if p.task in keys then keys else keys + [p.task]
  }

  ghost predicate AcceptsPlain(s: State, r: Receipt) {
    && r.restored != [] && r.restored[0] == r.task && Distinct(r.restored)
    && (forall x :: x in r.restored ==> Live(s, x))
    && !TouchedAfter(s.events, Elems(r.restored), r.eventId)
  }

  ghost predicate AcceptsUnskip(s: State, task: int, u: Unskip)
    requires WellFormed(s)
  {
    && Live(s, task) && s.tasks[task].series.Some? && s.tasks[task].due == Some(u.skippedDue)
    && Trashed(s, u.superseded) && s.tasks[u.superseded].superseded
    && s.tasks[u.superseded].series == s.tasks[task].series && s.tasks[u.superseded].due == Some(u.skippedDue)
    && var previous, series := PreviousMap(u.previous), s.tasks[task].series.value;
    && task in previous && previous[task].Some?
    && (forall x :: x in previous ==> x in ActiveWalk(s, task) && x in s.tasks && s.tasks[x].due == Some(u.skippedDue))
    && FindLiveOn(s, series, previous[task].value, {task}).None?
    && !SkippedOn(s, series, u.skippedDue)
  }

  /** Everything `undo_task_restore` checks before it writes. */
  ghost predicate Accepts(s: State, r: Receipt)
    requires WellFormed(s)
  {
    && BoundToRestore(s, r)
    && if r.unskip.Some? then AcceptsUnskip(s, r.task, r.unskip.value) else AcceptsPlain(s, r)
  }

  function Reversed(s: seq<int>): (r: seq<int>)
    ensures forall x :: x in r <==> x in s
  {
    if s == [] then [] else Reversed(s[1..]) + [s[0]]
  }

  /** The rows a plain undo writes: exactly the receipt's, back in the trash. */
  function RetrashedRow(s: State, r: Receipt, x: int): Task
    requires x in s.tasks
  {
    var t := s.tasks[x];
    if x == r.task then
      var prior := if r.priorRoot.Some? && (Trashed(s, r.priorRoot.value) || r.priorRoot.value in r.restored)
                   then r.priorRoot else None;
      t.(deleted := true, withTask := prior, skipped := r.skipped || t.skipped)
    else t.(deleted := true, withTask := Some(r.task))
  }

  function RetrashEvents(s: State, r: Receipt, ids: seq<int>): (log: seq<Event>)
    requires forall x :: x in ids ==> x in s.tasks
    ensures |log| == |ids|
    ensures forall i :: 0 <= i < |log| ==> log[i].entity == TaskEntity && log[i].entityId == ids[i]
  {
    if ids == [] then [] else
      var x := ids[0];
      assert x in ids;
      [TaskEvent(s.tasks[x], x, if x == r.task && r.skipped then SkippedAction else Deleted, Usual)]
      + RetrashEvents(s, r, ids[1..])
  }

  /** `_retrash_restored`, before its reconcile. */
  function Retrashed(s: State, r: Receipt): State
    requires forall x :: x in r.restored ==> x in s.tasks
  {
    s.(tasks := map x | x in s.tasks :: if x in r.restored then RetrashedRow(s, r, x) else s.tasks[x],
       events := s.events + RetrashEvents(s, r, Reversed(r.restored)))
  }

  lemma RetrashedWellFormed(s: State, r: Receipt)
    requires WellFormed(s) && forall x :: x in r.restored ==> x in s.tasks
    ensures WellFormed(Retrashed(s, r))
    ensures forall q :: q in SeedsOf(s, Reversed(r.restored)) ==> q in Retrashed(s, r).tasks
  {
    SeedsExist(s, Reversed(r.restored));
    SameShapeWellFormed(s, Retrashed(s, r));
  }

  function UnsupersededRow(s: State, original: int, x: int): Task
    requires x in s.tasks
  {
    var t := s.tasks[x];
    if x == original then t.(superseded := false, skipped := t.deleted)
    else if x in Stamped(s, original) then t.(superseded := false)
    else t
  }

  function SupersededOf(s: State, ids: seq<int>): (r: seq<int>)
    requires forall x :: x in ids ==> x in s.tasks
    ensures forall x :: x in r ==> x in ids
  {
    if ids == [] then [] else
      var x := ids[0];
      assert x in ids;
      (if s.tasks[x].superseded then [x] else []) + SupersededOf(s, ids[1..])
  }

  /** `_undo_unskip`: the rewound rows move back and the original is the skipped occurrence again. */
  function Unrewound(s: State, u: Unskip): State
    requires Trashed(s, u.superseded) && forall x :: x in PreviousMap(u.previous) ==> x in s.tasks
  {
    var previous := PreviousMap(u.previous);
    var moved := s.(tasks := map x | x in s.tasks :: if x in previous then s.tasks[x].(due := previous[x]) else s.tasks[x]);
    assert forall x :: x in FirstNamed(u.previous) ==> x in moved.tasks;
    var back := SupersededOf(moved, Sorted(Stamped(moved, u.superseded)));
    var freed := moved.(tasks := map x | x in moved.tasks :: UnsupersededRow(moved, u.superseded, x),
                        events := moved.events
                                  + TaskEvents(moved.tasks, FirstNamed(u.previous), Updated, Usual)
                                  + TaskEvents(moved.tasks, back, Updated, BackNote));
    LogTask(freed, u.superseded, SkippedAction)
  }

  /** `undo_task_restore`. */
  ghost function UndoTaskRestore(s: State, r: Receipt, done: Oracle): Result<State, Error>
    requires WellFormed(s)
  {
    if !Accepts(s, r) then Err(UndoConflict)
    else if r.unskip.Some? then Ok(Unrewound(s, r.unskip.value))
    else
      RetrashedWellFormed(s, r);
      Reconcile(Retrashed(s, r), Outside(SeedsOf(s, Reversed(r.restored)), Elems(r.restored)), done)
  }

  // ---- what an undo may touch, and how often -----------------------------------------

  /** The rows a receipt names, and for an un-skip the rows its skip had stamped. */
  ghost function Named(s: State, r: Receipt): set<int> {
    if r.unskip.Some? then
      PreviousMap(r.unskip.value.previous).Keys + {r.unskip.value.superseded} + Stamped(s, r.unskip.value.superseded)
    else Elems(r.restored)
  }

  /** No row outside the receipt changes, whatever receipt is replayed on whatever store. */
  lemma UndoTouchesOnlyItsReceipt(s: State, r: Receipt, done: Oracle, x: int)
    requires WellFormed(s) && UndoTaskRestore(s, r, done).Ok?
    requires x in s.tasks && x !in Named(s, r)
    ensures var after := UndoTaskRestore(s, r, done).value;
            x in after.tasks && after.tasks[x] == s.tasks[x]
  {
    if r.unskip.None? {
      RetrashedWellFormed(s, r);
      hide Accepts, WellFormed, Sound, RetrashedRow, RetrashEvents;
      ReconcileSpawned(Retrashed(s, r), Outside(SeedsOf(s, Reversed(r.restored)), Elems(r.restored)), done);
      assert Retrashed(s, r).tasks[x] == s.tasks[x];
    }
  }

  /** A later log: nothing is lost, though a purge may have cleared a project reference. */
  ghost predicate LogKept(a: seq<Event>, b: seq<Event>) {
    |a| <= |b| && forall i :: 0 <= i < |a| ==> b[i].(project := None) == a[i].(project := None)
  }

  /**
   A spent receipt of a restore in place never works again, whatever happens to the store:
   undoing it logged an event on its root.
   */
  lemma PlainReceiptWorksOnce(s: State, r: Receipt, done: Oracle, later: State)
    requires WellFormed(s) && WellFormed(later) && r.unskip.None?
    requires UndoTaskRestore(s, r, done).Ok? && LogKept(UndoTaskRestore(s, r, done).value.events, later.events)
    ensures UndoTaskRestore(later, r, done) == Err(UndoConflict)
  {
    RetrashedWellFormed(s, r);
    var mid := Retrashed(s, r);
    ReconcileSpawned(mid, Outside(SeedsOf(s, Reversed(r.restored)), Elems(r.restored)), done);
    hide WellFormed, Sound, Reconcile, RetrashedRow, Reversed, RetrashEvents;
    assert r.task in r.restored;
    assert r.task in Reversed(r.restored);
    var i :| 0 <= i < |Reversed(r.restored)| && Reversed(r.restored)[i] == r.task;
    var log := RetrashEvents(s, r, Reversed(r.restored));
    var k := |s.events| + i;
    assert mid.events[k] == log[i];
    var undone := UndoTaskRestore(s, r, done).value;
    assert undone.events[k] == log[i];
    assert later.events[k].(project := None) == log[i].(project := None);
    assert TouchedAfter(later.events, Elems(r.restored), r.eventId);
  }
}
