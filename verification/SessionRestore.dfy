/**
 Restoring trashed tasks and undoing a restore, as the services run
 (backend/app/services/task_trash.py, `reschedule_occurrence`).
 */
module SessionRestore {
  import opened Common
  import opened Calendar
  import opened Store
  import opened TaskRecurrence
  import opened Tasks
  import opened TaskTrash
  import SessionPurge
  import SessionRecurrence
  import SessionTasks
  import Forest

  // ---- moving an occurrence -----------------------------------------------------------

  /** `MovedRows`, without its guarantees. */
  function Changed(tasks: map<int, Task>, walk: seq<int>, day: Date): seq<int> {
    if walk == [] then [] else
      (if walk[0] in tasks && tasks[walk[0]].due != Some(day) then [walk[0]] else []) + Changed(tasks, walk[1..], day)
  }

  lemma {:induction false} ChangedConcat(tasks: map<int, Task>, a: seq<int>, b: seq<int>, day: Date)
    ensures Changed(tasks, a + b, day) == Changed(tasks, a, day) + Changed(tasks, b, day)
  {
    if a == [] {
      assert a + b == b;
    } else {
      assert (a + b)[1..] == a[1..] + b && (a + b)[0] == a[0];
      ChangedConcat(tasks, a[1..], b, day);
    }
  }

  lemma {:induction false} MovedIsChanged(tasks: map<int, Task>, walk: seq<int>, day: Date)
    requires forall x :: x in walk ==> x in tasks
    ensures MovedRows(tasks, walk, day) == Changed(tasks, walk, day)
    decreases |walk|
  {
    if walk != [] {
      assert walk[0] in walk && forall x :: x in walk[1..] ==> x in walk;
      MovedIsChanged(tasks, walk[1..], day);
    }
  }

  lemma MovedConcat(tasks: map<int, Task>, a: seq<int>, b: seq<int>, day: Date)
    requires forall x :: x in a + b ==> x in tasks
    ensures (forall x :: x in a ==> x in tasks) && (forall x :: x in b ==> x in tasks)
    ensures MovedRows(tasks, a + b, day) == MovedRows(tasks, a, day) + MovedRows(tasks, b, day)
  {
    assert forall x :: x in a || x in b ==> x in a + b;
    ChangedConcat(tasks, a, b, day);
    MovedIsChanged(tasks, a + b, day);
    MovedIsChanged(tasks, a, day);
    MovedIsChanged(tasks, b, day);
  }

  /** The first `k` rows of the walk are on their day. */
  ghost predicate Moving(s: State, order: seq<int>, k: nat, day: Date, t: State) {
    k <= |order| && Distinct(order) && (forall x :: x in order ==> x in s.tasks) && t == OnDay(s, Elems(order[..k]), day)
  }

  lemma MoveOne(s: State, order: seq<int>, k: nat, day: Date, t: State)
    requires Moving(s, order, k, day, t) && k < |order|
    ensures var x := order[k];
            && x in t.tasks && x in s.tasks && t.tasks[x] == s.tasks[x]
            && Moving(s, order, k + 1, day, t.(tasks := t.tasks[x := t.tasks[x].(due := Some(day))]))
            && (t.tasks[x].due == Some(day) ==> Moving(s, order, k + 1, day, t))
            && MovedRows(s.tasks, [x], day) == if s.tasks[x].due != Some(day) then [x] else []
  {
    var x := order[k];
    assert x in order && order[..k + 1] == order[..k] + [x];
    assert Elems(order[..k + 1]) == Elems(order[..k]) + {x};
    var u := OnDay(s, Elems(order[..k + 1]), day);
    assert u.tasks == t.tasks[x := t.tasks[x].(due := Some(day))];
    if t.tasks[x].due == Some(day) { assert u.tasks == t.tasks; }
    assert MovedRows(s.tasks, [x][1..], day) == [];
  }

  lemma SameLinks(s: State, order: seq<int>, k: nat, day: Date, t: State)
    requires Moving(s, order, k, day, t)
    ensures LiveLinks(t.tasks) == LiveLinks(s.tasks) && k <= |order|
  {
    var a, b := LiveLinks(s.tasks), LiveLinks(t.tasks);
    forall x ensures x in a <==> x in b {
    }
    assert a.Keys == b.Keys;
  }

  lemma PreWalkOf(up: Forest.Links, id: int)
    requires Forest.OffCycle(up, id)
    ensures forall c :: c in Sorted(Forest.Kids(up, id)) ==> c in Forest.Kids(up, id)
    ensures Forest.PreOrder(up, id) == [id] + Forest.PreOrderAll(up, id, Sorted(Forest.Kids(up, id)))
  {
    hide Forest.OffCycle;
  }

  lemma FirstOfWalk(up: Forest.Links, id: int, order: seq<int>, at: nat, rest: seq<int>)
    requires at <= |order| && [id] + rest <= order[at..]
    ensures at < |order| && order[at] == id && rest <= order[at + 1..]
  {
    SessionTasks.PrefixSplit([id], rest, order[at..]);
    assert order[at..][0] == id && order[at..][1..] == order[at + 1..];
  }

  lemma NextPreWalk(up: Forest.Links, id: int, children: seq<int>, order: seq<int>, at: nat)
    requires Forest.OffCycle(up, id) && children != [] && (forall c :: c in children ==> c in Forest.Kids(up, id))
    requires at <= |order| && Forest.PreOrderAll(up, id, children) <= order[at..]
    ensures var c := children[0];
            && Forest.OffCycle(up, c) && |Forest.Subtree(up, c)| < |Forest.Subtree(up, id)|
            && Forest.PreOrder(up, c) <= order[at..]
            && (forall d :: d in children[1..] ==> d in Forest.Kids(up, id))
            && var m := |Forest.PreOrder(up, c)|;
            && at + m <= |order| && Forest.PreOrderAll(up, id, children[1..]) <= order[at + m..]
            && Forest.PreOrderAll(up, id, children) == Forest.PreOrder(up, c) + Forest.PreOrderAll(up, id, children[1..])
  {
    var c := children[0];
    assert c in children;
    Forest.KidSubtree(up, c, id);
    Forest.KidOffCycle(up, c, id);
    hide Forest.OffCycle, Forest.Subtree, Forest.Kids, Forest.PreOrder;
    SessionTasks.PrefixSplit(Forest.PreOrder(up, c), Forest.PreOrderAll(up, id, children[1..]), order[at..]);
    var m := |Forest.PreOrder(up, c)|;
    assert order[at..][m..] == order[at + m..];
  }

  lemma NoPreWalk(up: Forest.Links, id: int)
    requires Forest.OffCycle(up, id)
    ensures Forest.PreOrderAll(up, id, []) == []
  {
  }

  lemma WalkRowsExist(s: State, order: seq<int>, at: nat, walk: seq<int>)
    requires at <= |order| && walk <= order[at..] && forall x :: x in order ==> x in s.tasks
    ensures forall x :: x in walk ==> x in s.tasks
  {
    forall x | x in walk ensures x in s.tasks {
      var i :| 0 <= i < |walk| && walk[i] == x;
      assert order[at..][i] == x;
      assert order[at + i] in order;
    }
  }

  /** `reschedule_occurrence`: the whole active subtree, answering the rows it really changed. */
  method Reschedule(db: Database, id: int, day: Date, ghost s: State, ghost order: seq<int>, ghost k: nat)
    returns (changed: seq<int>)
    requires Moving(s, order, k, day, db.View())
    requires Forest.OffCycle(LiveLinks(s.tasks), id) && Forest.PreOrder(LiveLinks(s.tasks), id) <= order[k..]
    modifies db`tasks
    ensures forall x :: x in Forest.PreOrder(LiveLinks(s.tasks), id) ==> x in s.tasks
    ensures Moving(s, order, k + |Forest.PreOrder(LiveLinks(s.tasks), id)|, day, db.View())
    ensures changed == MovedRows(s.tasks, Forest.PreOrder(LiveLinks(s.tasks), id), day)
    decreases |Forest.Subtree(LiveLinks(s.tasks), id)|
  {
    hide *;
    ghost var up := LiveLinks(s.tasks);
    ghost var all := Sorted(Forest.Kids(up, id));
    PreWalkOf(up, id);
    SameLinks(s, order, k, day, db.View());
    FirstOfWalk(up, id, order, k, Forest.PreOrderAll(up, id, all));
    MovingRows(s, order, k, day, db.View(), Forest.PreOrder(up, id));
    MoveOne(s, order, k, day, db.View());
    db.Fields();
    changed := [];
    if db.tasks[id].due != Some(day) {
      db.tasks := db.tasks[id := db.tasks[id].(due := Some(day))];
      changed := [id];
    }
    db.Fields();
    SameLinks(s, order, k + 1, day, db.View());
    var children := SessionRecurrence.Subtasks(db.tasks, id);
    ghost var walked := [id];
    ghost var at: nat := k + 1;
    assert children[0..] == children;
    for i := 0 to |children|
      invariant forall c :: c in children[i..] ==> c in Forest.Kids(up, id)
      invariant at <= |order| && at == k + |walked| && Forest.PreOrderAll(up, id, children[i..]) <= order[at..]
      invariant walked + Forest.PreOrderAll(up, id, children[i..]) == Forest.PreOrder(up, id)
      invariant Moving(s, order, at, day, db.View())
      invariant (forall x :: x in walked ==> x in s.tasks) && changed == MovedRows(s.tasks, walked, day)
    {
      var child := children[i];
      assert children[i..][0] == child && children[i..][1..] == children[i + 1..];
      NextPreWalk(up, id, children[i..], order, at);
      var below := Reschedule(db, child, day, s, order, at);
      MovedConcat(s.tasks, walked, Forest.PreOrder(up, child), day);
      changed := changed + below;
      at := at + |Forest.PreOrder(up, child)|;
      walked := walked + Forest.PreOrder(up, child);
    }
    assert children[|children|..] == [];
    NoPreWalk(up, id);
    assert walked + [] == walked;
  }

  lemma MovingRows(s: State, order: seq<int>, k: nat, day: Date, t: State, walk: seq<int>)
    requires Moving(s, order, k, day, t) && walk <= order[k..]
    ensures forall x :: x in walk ==> x in s.tasks
  {
    WalkRowsExist(s, order, k, walk);
  }

  // ---- retiring the skipped row ---------------------------------------------------------

  /** The first rows of the cascade are superseded, each recorded. */
  function Retired(s: State, rows: seq<int>): State
    requires forall x :: x in rows ==> x in s.tasks
  {
    s.(tasks := map x | x in s.tasks :: if x in rows then s.tasks[x].(superseded := true) else s.tasks[x],
       events := s.events + TaskEvents(s.tasks, rows, Updated, SupersededNote))
  }

  lemma RetireOne(s: State, rows: seq<int>, x: int)
    requires (forall y :: y in rows ==> y in s.tasks) && x in s.tasks
    ensures var t := Retired(s, rows);
            && x in t.tasks
            && var row := t.tasks[x].(superseded := true);
               Retired(s, rows + [x])
               == t.(tasks := t.tasks[x := row], events := t.events + [TaskEvent(row, x, Updated, SupersededNote)])
  {
    SessionPurge.TaskEventsSnoc(s.tasks, rows, x, Updated, SupersededNote);
    hide TaskEvents, TaskEvent;
    var t, u := Retired(s, rows), Retired(s, rows + [x]);
    var row := t.tasks[x].(superseded := true);
    assert TaskEvent(row, x, Updated, SupersededNote) == TaskEvent(s.tasks[x], x, Updated, SupersededNote) by {
      SameProjectEvent(row, s.tasks[x], x);
    }
    var v := t.tasks[x := row];
    forall y | y in s.tasks ensures u.tasks[y] == v[y] {
      assert y in rows + [x] <==> y in rows || y == x;
    }
    assert u.tasks == v;
  }

  lemma SameProjectEvent(a: Task, b: Task, id: int)
    requires a.project == b.project
    ensures TaskEvent(a, id, Updated, SupersededNote) == TaskEvent(b, id, Updated, SupersededNote)
  {
  }

  lemma RetiredNone(s: State)
    ensures Retired(s, []) == s
  {
    assert Retired(s, []).tasks == s.tasks;
  }

  lemma CascadeExists(s: State, id: int)
    requires id in s.tasks
    ensures forall x :: x in SkipCascade(s, id) ==> x in s.tasks
  {
  }

  lemma RetiredAll(s: State, id: int)
    requires id in s.tasks
    ensures forall x :: x in SkipCascade(s, id) ==> x in s.tasks
    ensures var t := Retired(s, SkipCascade(s, id));
            id in t.tasks && Superseded(s, id) == t.(tasks := t.tasks[id := t.tasks[id].(skipped := false)])
  {
    hide Sorted, TaskEvents;
    CascadeExists(s, id);
    var t, u := Retired(s, SkipCascade(s, id)), Superseded(s, id);
    assert u.tasks == t.tasks[id := t.tasks[id].(skipped := false)];
  }

  /** `_supersede`. */
  method Supersede(db: Database, id: int)
    requires id in db.tasks
    modifies db`tasks, db`events
    ensures db.View() == Superseded(old(db.View()), id)
  {
    hide *;
    ghost var s := db.View();
    db.Fields();
    RetiredAll(s, id);
    RetiredNone(s);
    var cascade := SkipCascade(db.View(), id);
    assert cascade[..0] == [];
    for i := 0 to |cascade|
      invariant forall x :: x in cascade[..i] ==> x in s.tasks
      invariant db.View() == Retired(s, cascade[..i])
    {
      var x := cascade[i];
      assert cascade[..i + 1] == cascade[..i] + [x];
      RetireOne(s, cascade[..i], x);
      db.Fields();
      db.tasks := db.tasks[x := db.tasks[x].(superseded := true)];
      db.Log(TaskEvent(db.tasks[x], x, Updated, SupersededNote));
      db.Fields();
    }
    assert cascade[..|cascade|] == cascade;
    db.Fields();
    db.tasks := db.tasks[id := db.tasks[id].(skipped := false)];
    db.Fields();
  }

  // ---- the rewind --------------------------------------------------------------------------

  lemma RewindFacts(s: State, id: int)
    requires WellFormed(s) && Trashed(s, id) && IsUnskip(s, id)
    ensures id in s.tasks && s.tasks[id].due.Some?
    ensures var day, live := s.tasks[id].due.value, FirstFollower(s, id);
            var walk := ActiveWalk(s, live);
            && Forest.OffCycle(LiveLinks(s.tasks), live) && walk == Forest.PreOrder(LiveLinks(s.tasks), live) && walk <= walk[0..]
            && Moving(s, walk, 0, day, s) && live in s.tasks
            && (forall x :: x in walk ==> x in s.tasks)
            && WellFormed(Superseded(OnDay(s, Elems(walk), day), id)) && id in OnDay(s, Elems(walk), day).tasks
            && live in Superseded(OnDay(s, Elems(walk), day), id).tasks
  {
    var day, live := s.tasks[id].due.value, FirstFollower(s, id);
    ActiveRowsExist(s, live);
    LiveLinksOffCycle(s, live);
    var walk := ActiveWalk(s, live);
    RewoundWellFormed(s, id, Elems(walk), day);
    hide WellFormed, Sound, ActiveWalk, Forest.OffCycle;
    assert walk[..0] == [] && walk[0..] == walk;
    assert OnDay(s, {}, day).tasks == s.tasks;
    assert Elems(walk[..0]) == {};
  }

  lemma MovedAll(s: State, walk: seq<int>, day: Date, t: State)
    requires Moving(s, walk, 0 + |walk|, day, t)
    ensures t == OnDay(s, Elems(walk), day)
  {
    assert walk[..|walk|] == walk;
  }

  /** The dates the rewind is about to overwrite, row by row as they were. */
  function Before(before: map<int, Option<Date>>, ids: seq<int>): seq<Rescheduled>
    requires forall x :: x in ids ==> x in before
  {
    if ids == [] then [] else
      var x := ids[0];
      assert x in ids;
      [Rescheduled(x, before[x])] + Before(before, ids[1..])
  }

  lemma {:induction false} BeforeIs(tasks: map<int, Task>, before: map<int, Option<Date>>, ids: seq<int>)
    requires forall x :: x in ids ==> x in tasks && x in before && before[x] == tasks[x].due
    ensures Before(before, ids) == PreviousDues(tasks, ids)
  {
    if ids != [] {
      var x := ids[0];
      assert x in ids;
      BeforeIs(tasks, before, ids[1..]);
    }
  }

  lemma MovedInWalk(tasks: map<int, Task>, walk: seq<int>, day: Date)
    requires forall x :: x in walk ==> x in tasks
    ensures forall x :: x in MovedRows(tasks, walk, day) ==> x in walk
  {
  }

  lemma AfterRewind(s: State, settled: State, live: int, ids: seq<int>)
    requires WellFormed(s) && Spawned(s, settled) && live in s.tasks && forall x :: x in ids ==> x in s.tasks
    ensures live in settled.tasks && forall x :: x in Without(ids, live) ==> x in settled.tasks
  {
  }

  lemma RewindIs(s: State, id: int, done: Oracle)
    requires WellFormed(s) && Trashed(s, id) && IsUnskip(s, id)
    ensures var day, live := s.tasks[id].due.value, FirstFollower(s, id);
            var walk := ActiveWalk(s, live);
            && (forall x :: x in walk ==> x in s.tasks) && live in s.tasks
            && var rewound := Superseded(OnDay(s, Elems(walk), day), id);
            && WellFormed(rewound) && live in rewound.tasks
            && var moved := MovedRows(s.tasks, walk, day);
            var settled := Reconcile(rewound, [live], done);
            if settled.Err? then Rewind(s, id, done) == Err(settled.error)
            else
              && live in settled.value.tasks && (forall x :: x in Without(moved, live) ==> x in settled.value.tasks)
              && var log := TaskEvents(settled.value.tasks, Without(moved, live), Updated, Usual);
              var after := LogTask(settled.value.(events := settled.value.events + log), live, Restored);
              Rewind(s, id, done)
              == Ok(Restoration(after, live, Receipt(live, LatestRestored(after.events, live), [], false, None,
                                                     Some(Unskip(day, id, PreviousDues(s.tasks, moved))))))
  {
    RewindFacts(s, id);
    var day, live := s.tasks[id].due.value, FirstFollower(s, id);
    var walk := ActiveWalk(s, live);
    var rewound := Superseded(OnDay(s, Elems(walk), day), id);
    ReconcileSpawned(rewound, [live], done);
    hide WellFormed, Sound, ActiveWalk, FirstFollower, Superseded, OnDay, Reconcile, MovedRows, PreviousDues, LatestRestored, Moving,
         Forest.OffCycle, Forest.PreOrder;
    var settled := Reconcile(rewound, [live], done);
    if settled.Ok? {
      SameIdsThere(s, id, Elems(walk), day);
      MovedExists(s.tasks, walk, day);
      AfterRewind(rewound, settled.value, live, MovedRows(s.tasks, walk, day));
    }
  }

  lemma SameIdsThere(s: State, id: int, rows: set<int>, day: Date)
    requires id in s.tasks
    ensures forall x :: x in s.tasks ==> x in Superseded(OnDay(s, rows, day), id).tasks
  {
    hide SkipCascade, TaskEvents;
  }

  lemma MovedExists(tasks: map<int, Task>, walk: seq<int>, day: Date)
    requires forall x :: x in walk ==> x in tasks
    ensures forall x :: x in MovedRows(tasks, walk, day) ==> x in tasks
  {
  }

  /** `_active_subtree`. */
  method ActiveSubtree(db: Database, id: int) returns (rows: seq<int>)
    requires Forest.OffCycle(LiveLinks(db.tasks), id)
    ensures rows == Forest.PreOrder(LiveLinks(db.tasks), id)
    decreases |Forest.Subtree(LiveLinks(db.tasks), id)|
  {
    hide *;
    ghost var up := LiveLinks(db.tasks);
    PreWalkOf(up, id);
    var children := SessionRecurrence.Subtasks(db.tasks, id);
    rows := [id];
    assert children[0..] == children;
    ghost var order := Forest.PreOrder(up, id);
    FirstOfWalk(up, id, order, 0, Forest.PreOrderAll(up, id, children));
    for i := 0 to |children|
      invariant forall c :: c in children[i..] ==> c in Forest.Kids(up, id)
      invariant |rows| <= |order| && Forest.PreOrderAll(up, id, children[i..]) <= order[|rows|..]
      invariant rows + Forest.PreOrderAll(up, id, children[i..]) == order
    {
      assert children[i..][0] == children[i] && children[i..][1..] == children[i + 1..];
      NextPreWalk(up, id, children[i..], order, |rows|);
      ghost var was, rest := rows, Forest.PreOrderAll(up, id, children[i + 1..]);
      var below := ActiveSubtree(db, children[i]);
      rows := rows + below;
      assert was + (below + rest) == rows + rest;
    }
    assert children[|children|..] == [];
    NoPreWalk(up, id);
    assert rows + [] == rows;
  }

  /** The un-skip branch of `restore_task_with_undo`. */
  method RewindLive(db: Database, id: int, done: Oracle) returns (raised: Option<Error>, task: int, receipt: Receipt)
    requires WellFormed(db.View()) && Trashed(db.View(), id) && IsUnskip(db.View(), id)
    modifies db
    ensures var r := Rewind(old(db.View()), id, done);
            raised == (if r.Err? then Some(r.error) else None) && (r.Ok? ==> Restoration(db.View(), task, receipt) == r.value)
  {
    hide *;
    ghost var s := db.View();
    db.Fields();
    RewindFacts(s, id);
    RewindIs(s, id, done);
    UnskipHasFollower(s, id);
    var day := db.tasks[id].due.value;
    var live := FirstFollower(db.View(), id);
    task, receipt := live, Receipt(live, 0, [], false, None, None);
    ghost var walk := ActiveWalk(s, live);
    var subtree := ActiveSubtree(db, live);
    var before := map x | x in subtree && x in db.tasks :: db.tasks[x].due;
    var rewound := Reschedule(db, live, day, s, walk, 0);
    MovedAll(s, walk, day, db.View());
    MovedInWalk(s.tasks, walk, day);
    db.Fields();
    Supersede(db, id);
    db.Fields();
    var spawned: seq<int>;
    raised, spawned := SessionRecurrence.Reconcile(db, [live], done);
    if raised.Some? { return; }
    db.Fields();
    SessionPurge.LogTasks(db, Without(rewound, live), Updated, Usual);
    db.Fields();
    LogIs(db.View(), live);
    db.Log(TaskEvent(db.tasks[live], live, Restored, Usual));
    db.Fields();
    BeforeIs(s.tasks, before, rewound);
    receipt := Receipt(live, LatestRestored(db.events, live), [], false, None, Some(Unskip(day, id, Before(before, rewound))));
  }

  lemma UnskipHasFollower(s: State, id: int)
    requires Trashed(s, id) && IsUnskip(s, id)
    ensures id in s.tasks && s.tasks[id].series.Some? && s.tasks[id].due.Some? && Followers(s, id) != {}
  {
  }

  lemma LogIs(s: State, id: int)
    requires id in s.tasks
    ensures LogTask(s, id, Restored) == s.(events := s.events + [TaskEvent(s.tasks[id], id, Restored, Usual)])
  {
  }

  // ---- restoring --------------------------------------------------------------------------

  function Prefixed(back: seq<int>, r: Result<(State, seq<int>), Error>): Result<(State, seq<int>), Error> {
    if r.Err? then r else Ok((r.value.0, back + r.value.1))
  }

  /** One row of the marked descendants, case by case. */
  lemma MarkedStep(s: State, ids: seq<int>, i: nat, back: seq<int>, done: Oracle)
    requires WellFormed(s) && i < |ids| && forall x :: x in ids[i..] ==> x in s.tasks
    ensures var x := ids[i];
            && (forall y :: y in ids[i + 1..] ==> y in s.tasks)
            && if !(x in s.tasks && s.tasks[x].deleted && !s.tasks[x].superseded) then
                 Prefixed(back, RestoreMarked(s, ids[i..], done)) == Prefixed(back, RestoreMarked(s, ids[i + 1..], done))
               else
                 && Trashed(s, x)
                 && var first := RestoreTask(s, x, true, done);
                    if first.Err? then Prefixed(back, RestoreMarked(s, ids[i..], done)) == Err(first.error)
                    else
                      && WellFormed(first.value.state) && (forall y :: y in ids[i + 1..] ==> y in first.value.state.tasks)
                      && Pending(first.value.state) <= Pending(s) && |Pending(first.value.state)| < |Pending(s)|
                      && Prefixed(back, RestoreMarked(s, ids[i..], done))
                         == Prefixed(back + [x], RestoreMarked(first.value.state, ids[i + 1..], done))
  {
    var x := ids[i];
    assert ids[i..][0] == x && ids[i..][1..] == ids[i + 1..];
    assert forall y :: y in ids[i + 1..] ==> y in ids[i..];
    hide RestoreTask, WellFormed, Sound;
    if x in s.tasks && s.tasks[x].deleted && !s.tasks[x].superseded {
      var first := RestoreTask(s, x, true, done);
      if first.Ok? {
        RestoreShrinks(s, x, true, done);
        var rest := RestoreMarked(first.value.state, ids[i + 1..], done);
        if rest.Ok? {
          assert back + ([x] + rest.value.1) == back + [x] + rest.value.1;
        }
      }
    }
  }

  lemma MarkedEnds(s: State, ids: seq<int>, back: seq<int>, done: Oracle)
    requires WellFormed(s) && forall x :: x in ids ==> x in s.tasks
    ensures Prefixed(back, RestoreMarked(s, ids[|ids|..], done)) == Ok((s, back))
    ensures ids[0..] == ids && Prefixed([], RestoreMarked(s, ids, done)) == RestoreMarked(s, ids, done)
  {
    hide WellFormed, Sound, RestoreTask;
    var r := RestoreMarked(s, ids, done);
    if r.Ok? { assert [] + r.value.1 == r.value.1; }
    assert back + [] == back;
  }

  lemma ReviveIs(s: State, id: int)
    requires id in s.tasks
    ensures ReviveRow(s, id) == s.(tasks := s.tasks[id := Revived(s, s.tasks[id])])
  {
  }

  /** The fields a restore in place rewrites, one after the other. */
  method Revive(db: Database, id: int)
    requires id in db.tasks
    modifies db`tasks
    ensures db.View() == ReviveRow(old(db.View()), id)
  {
    var t := db.tasks[id];
    if !LiveProject(db.View(), t.project) { t := t.(project := GENERAL); }
    t := t.(withProject := None, withTask := None);
    t := t.(skipped := false);
    t := t.(deleted := false);
    db.tasks := db.tasks[id := t];
  }

  /** The restore in place, case by case. */
  lemma PlainIs(s: State, id: int, deferred: bool, done: Oracle)
    requires WellFormed(s) && Trashed(s, id) && !s.tasks[id].superseded
    ensures var t, revived := s.tasks[id], ReviveRow(s, id);
            && WellFormed(revived) && id in revived.tasks && |Pending(revived)| < |Pending(s)|
            && (forall x :: x in Sorted(Marked(revived, id)) ==> x in revived.tasks)
            && var back := if t.skipped then RestoreMarked(revived, Sorted(Marked(revived, id)), done) else Ok((revived, []));
            if back.Err? then PlainRestore(s, id, deferred, done) == Err(back.error)
            else
              && WellFormed(back.value.0) && (forall x :: x in [id] + back.value.1 ==> x in back.value.0.tasks)
              && var settled := Settle(back.value.0, [id] + back.value.1, deferred, done);
              if settled.Err? then PlainRestore(s, id, deferred, done) == Err(settled.error)
              else
                && id in settled.value.tasks
                && var after := LogTask(settled.value, id, Restored);
                PlainRestore(s, id, deferred, done)
                == Ok(Restoration(after, id, Receipt(id, LatestRestored(after.events, id), [id] + back.value.1, t.skipped, t.withTask,
                                                     None)))
  {
    var t, revived := s.tasks[id], ReviveRow(s, id);
    RevivedWellFormed(s, id);
    RevivedPending(s, id);
    MarkedThere(revived, id);
    hide WellFormed, Sound, ReviveRow, RestoreMarked, Settle, LatestRestored, Marked, Pending, Restores;
    var back := if t.skipped then RestoreMarked(revived, Sorted(Marked(revived, id)), done) else Ok((revived, []));
    if back.Ok? { SettledKeeps(back.value.0, [id] + back.value.1, deferred, done); }
  }

  lemma MarkedThere(s: State, id: int)
    ensures forall x :: x in Sorted(Marked(s, id)) ==> x in s.tasks
  {
  }

  /** A restore, case by case. */
  lemma RestoreIs(s: State, id: int, deferred: bool, done: Oracle)
    requires WellFormed(s) && Trashed(s, id)
    ensures id in s.tasks
    ensures var t := s.tasks[id];
            RestoreTask(s, id, deferred, done)
            == if t.superseded then Err(SupersededTask)
               else if IsUnskip(s, id) then Rewind(s, id, done)
               else if t.series.Some? && t.due.Some? && FindLiveOn(s, t.series.value, t.due.value, {id}).Some? then
                 Err(OccurrenceConflict(FindLiveOn(s, t.series.value, t.due.value, {id}).value))
               else PlainRestore(s, id, deferred, done)
  {
    hide WellFormed, Sound, Rewind, PlainRestore, IsUnskip, FindLiveOn;
  }

  /** `restore_task_with_undo`. */
  method RestoreTaskWithUndo(db: Database, id: int, deferred: bool, done: Oracle)
    returns (raised: Option<Error>, task: int, receipt: Receipt)
    requires WellFormed(db.View()) && Trashed(db.View(), id)
    modifies db
    ensures var r := RestoreTask(old(db.View()), id, deferred, done);
            raised == (if r.Err? then Some(r.error) else None) && (r.Ok? ==> Restoration(db.View(), task, receipt) == r.value)
    decreases |Pending(db.View())|, 1, 0
  {
    hide *;
    RestoreIs(db.View(), id, deferred, done);
    db.Fields();
    var t := db.tasks[id];
    task, receipt := id, Receipt(id, 0, [], false, None, None);
    if t.superseded { return Some(SupersededTask), task, receipt; }
    if IsUnskip(db.View(), id) {
      raised, task, receipt := RewindLive(db, id, done);
      return;
    }
    if t.series.Some? && t.due.Some? {
      var conflict := FindLiveOn(db.View(), t.series.value, t.due.value, {id});
      if conflict.Some? { return Some(OccurrenceConflict(conflict.value)), task, receipt; }
    }
    PlainIs(db.View(), id, deferred, done);
    Revive(db, id);
    db.Fields();
    var restored := [id];
    if t.skipped {
      var back: seq<int>;
      raised, back := RestoreMarkedDescendants(db, id, done);
      if raised.Some? { return; }
      restored := [id] + back;
    } else {
      assert [id] + [] == [id];
    }
    db.Fields();
    raised := SettleRows(db, restored, deferred, done);
    if raised.Some? { return; }
    db.Fields();
    LogIs(db.View(), id);
    db.Log(TaskEvent(db.tasks[id], id, Restored, Usual));
    db.Fields();
    receipt := Receipt(id, LatestRestored(db.events, id), restored, t.skipped, t.withTask, None);
  }

  /** The reconcile that ends a restore, unless the caller will run it. */
  method SettleRows(db: Database, seeds: seq<int>, deferred: bool, done: Oracle) returns (raised: Option<Error>)
    requires WellFormed(db.View()) && forall x :: x in seeds ==> x in db.tasks
    modifies db
    ensures var r := Settle(old(db.View()), seeds, deferred, done);
            raised == (if r.Err? then Some(r.error) else None) && (r.Ok? ==> db.View() == r.value)
  {
    hide WellFormed, Sound, Reconcile;
    raised := None;
    if !deferred {
      var spawned: seq<int>;
      raised, spawned := SessionRecurrence.Reconcile(db, seeds, done);
    }
  }

  /** `_restore_marked_descendants`. */
  method RestoreMarkedDescendants(db: Database, root: int, done: Oracle) returns (raised: Option<Error>, back: seq<int>)
    requires WellFormed(db.View())
    modifies db
    ensures forall x :: x in Sorted(Marked(old(db.View()), root)) ==> x in old(db.View()).tasks
    ensures var r := RestoreMarked(old(db.View()), Sorted(Marked(old(db.View()), root)), done);
            raised == (if r.Err? then Some(r.error) else None) && (r.Ok? ==> (db.View(), back) == r.value && WellFormed(db.View()))
    decreases |Pending(db.View())|, 2, 0
  {
    hide *;
    ghost var s := db.View();
    MarkedThere(s, root);
    var ids := Sorted(Marked(db.View(), root));
    back := [];
    MarkedEnds(s, ids, back, done);
    for i := 0 to |ids|
      invariant WellFormed(db.View()) && |Pending(db.View())| <= |Pending(s)|
      invariant forall x :: x in ids[i..] ==> x in db.View().tasks
      invariant Prefixed(back, RestoreMarked(db.View(), ids[i..], done)) == RestoreMarked(s, ids, done)
    {
      var x := ids[i];
      MarkedStep(db.View(), ids, i, back, done);
      db.Fields();
      if x in db.tasks && db.tasks[x].deleted && !db.tasks[x].superseded {
        var task: int, receipt: Receipt;
        raised, task, receipt := RestoreTaskWithUndo(db, x, true, done);
        if raised.Some? { return; }
        back := back + [x];
      }
    }
    MarkedEnds(db.View(), [], back, done);
    assert ids[|ids|..] == [];
    raised := None;
  }
}
