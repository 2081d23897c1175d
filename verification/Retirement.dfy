/**
 Which rows a restore retires: those of the un-skips it performs, on its own row or on a skipped
 row that its cascade brings along (backend/app/services/task_trash.py, `_supersede`).
 */
module Retirement {
  import opened Common
  import opened Calendar
  import opened Store
  import opened TaskRecurrence
  import opened Tasks
  import opened TaskTrash
  import Marks
  import RestoreUndo
  import SessionRestore
  import TaskSteps
  import Forest

  // ---- the rows, call by call -----------------------------------------------------------------

  /** The rows `restore_task_with_undo` of `id` retires. */
  ghost function RetiredByRestore(s: State, id: int, done: Oracle): set<int>
    requires WellFormed(s) && Trashed(s, id) && !s.tasks[id].superseded
    decreases |Pending(s)|, 1, 0
  {
    if IsUnskip(s, id) then Elems(SkipCascade(s, id))
    else if s.tasks[id].skipped then RetiredByCascade(s, id, done)
    else {}
  }

  /** Those of a skipped row restored in place: what its own cascade holds may be skipped too. */
  ghost function RetiredByCascade(s: State, id: int, done: Oracle): set<int>
    requires WellFormed(s) && Trashed(s, id) && !s.tasks[id].superseded
    decreases |Pending(s)|, 0, 0
  {
    RevivedWellFormed(s, id);
    RevivedPending(s, id);
    RestoreUndo.MarkedExist(ReviveRow(s, id), id);
    RetiredByMarked(ReviveRow(s, id), Sorted(Marked(ReviveRow(s, id), id)), done)
  }

  ghost function RetiredByMarked(s: State, ids: seq<int>, done: Oracle): set<int>
    requires WellFormed(s) && forall x :: x in ids ==> x in s.tasks
    decreases |Pending(s)|, 1, |ids|
  {
    if ids == [] then {} else
      var x := ids[0];
      assert x in ids;
      RestoreUndo.InPending(s, x);
      if x !in Pending(s) then RetiredByMarked(s, ids[1..], done)
      else if RestoreTask(s, x, true, done).Err? then {}
      else
        RestoreShrinks(s, x, true, done);
        RetiredByRestore(s, x, done) + RetiredByMarked(RestoreTask(s, x, true, done).value.state, ids[1..], done)
  }

  /** Those of `restore_task_subtree`. */
  ghost function RetiredBySubtree(s: State, id: int, done: Oracle): set<int>
    requires WellFormed(s) && Trashed(s, id) && !s.tasks[id].superseded
  {
    if RestoreTask(s, id, true, done).Err? then {} else
      var root := RestoreTask(s, id, true, done).value;
      TaskSteps.RestoresTask(s, id, root);
      RestoreUndo.MarkedExist(root.state, id);
      RetiredByRestore(s, id, done) + RetiredByMarked(root.state, Sorted(Marked(root.state, id)), done)
  }

  // ---- what a restore does to the marks ---------------------------------------------------------

  /** Exactly `rows` are newly marked; rows may be added, none of them trashed or marked. */
  ghost predicate Retired(s: State, t: State, rows: set<int>) {
    && s.tasks.Keys <= t.tasks.Keys && rows <= t.tasks.Keys
    && (forall x :: x in t.tasks ==> (t.tasks[x].superseded <==> (x in s.tasks && s.tasks[x].superseded) || x in rows))
    && Fewer(s, t)
  }

  /** What is in the trash afterwards was there before, under the same cascade, marked or untouched. */
  ghost predicate Fewer(s: State, t: State) {
    forall x :: Trashed(t, x) ==>
      Trashed(s, x) && t.tasks[x].withTask == s.tasks[x].withTask && (t.tasks[x].superseded || t.tasks[x] == s.tasks[x])
  }

  lemma RetiredTrans(a: State, b: State, c: State, first: set<int>, second: set<int>)
    requires Retired(a, b, first) && Retired(b, c, second)
    ensures Retired(a, c, first + second)
  {
    forall x | Trashed(c, x)
      ensures Trashed(a, x) && c.tasks[x].withTask == a.tasks[x].withTask && (c.tasks[x].superseded || c.tasks[x] == a.tasks[x])
    {
      assert Trashed(b, x);
    }
    forall x | x in c.tasks
      ensures c.tasks[x].superseded <==> (x in a.tasks && a.tasks[x].superseded) || x in first + second
    {
      if x in a.tasks || x in first { assert x in b.tasks.Keys; }
    }
  }

  lemma RetiredRefl(s: State)
    ensures Retired(s, s, {})
  {
  }

  lemma SpawnRetires(s: State, t: State)
    requires Spawned(s, t)
    ensures Retired(s, t, {})
  {
    SpawnedKeys(s, t);
  }

  lemma SameRowsRetire(s: State, t: State)
    requires t.tasks == s.tasks
    ensures Retired(s, t, {})
  {
  }

  lemma ReviveRetires(s: State, id: int)
    requires Trashed(s, id)
    ensures Retired(s, ReviveRow(s, id), {})
  {
  }

  lemma SettleRetires(s: State, seeds: seq<int>, deferred: bool, done: Oracle)
    requires WellFormed(s) && (forall x :: x in seeds ==> x in s.tasks) && Settle(s, seeds, deferred, done).Ok?
    ensures Retired(s, Settle(s, seeds, deferred, done).value, {})
  {
    SettledKeeps(s, seeds, deferred, done);
    hide WellFormed, Sound, Settle, Spawned, Retired, Pending;
    SpawnRetires(s, Settle(s, seeds, deferred, done).value);
  }

  lemma RewoundRetires(s: State, id: int, walk: seq<int>, day: Date)
    requires Trashed(s, id) && forall x :: x in walk ==> Live(s, x)
    ensures Retired(s, Superseded(OnDay(s, Elems(walk), day), id), Elems(SkipCascade(s, id)))
  {
    RestoreUndo.RewoundRows(s, id, walk, day);
    CascadeIs(s, id);
    hide *;
    RowsRetire(s, id, walk, day, Superseded(OnDay(s, Elems(walk), day), id), Elems(SkipCascade(s, id)));
  }

  lemma CascadeIs(s: State, id: int)
    requires Trashed(s, id)
    ensures forall x :: x in Elems(SkipCascade(s, id)) <==> x == id || x in Stamped(s, id)
    ensures forall x :: x in Elems(SkipCascade(s, id)) ==> Trashed(s, x)
  {
  }

  lemma RowsRetire(s: State, id: int, walk: seq<int>, day: Date, t: State, rows: set<int>)
    requires t.tasks.Keys == s.tasks.Keys && (forall x :: x in walk ==> Live(s, x)) && Trashed(s, id)
    requires forall x :: x in s.tasks ==> t.tasks[x] == RestoreUndo.RewoundRow(s, id, walk, day, x)
    requires forall x :: x in rows <==> x == id || x in Stamped(s, id)
    requires forall x :: x in rows ==> Trashed(s, x)
    ensures Retired(s, t, rows)
  {
    hide Stamped;
    forall x | x in t.tasks.Keys ensures t.tasks[x] == RestoreUndo.RewoundRow(s, id, walk, day, x) && x in s.tasks {
    }
    forall x | x in rows ensures x in t.tasks.Keys {
      assert x in s.tasks.Keys;
    }
  }

  lemma RewindRetires(s: State, id: int, done: Oracle)
    requires WellFormed(s) && Trashed(s, id) && IsUnskip(s, id) && Rewind(s, id, done).Ok?
    ensures Retired(s, Rewind(s, id, done).value.state, Elems(SkipCascade(s, id)))
  {
    hide *;
    hide WellFormed;
    InStore(s, id);
    SessionRestore.UnskipHasFollower(s, id);
    SessionRestore.RewindFacts(s, id);
    RewindSettles(s, id, done);
    var live, day, rows := FirstFollower(s, id), s.tasks[id].due.value, Elems(SkipCascade(s, id));
    var walk := ActiveWalk(s, live);
    var mid := Superseded(OnDay(s, Elems(walk), day), id);
    var settled, t := Reconcile(mid, [live], done).value, Rewind(s, id, done).value.state;
    ActiveRowsExist(s, live);
    RewoundRetires(s, id, walk, day);
    ReconcileSpawned(mid, [live], done);
    SpawnRetires(mid, settled);
    SettledRows(settled, t);
    ThreeRetired(s, mid, settled, t, rows, {});
    assert rows + {} == rows;
  }

  lemma SettledRows(s: State, t: State)
    requires SameRows(s, t)
    ensures Retired(s, t, {})
  {
  }

  /** A restore newly marks exactly the rows of the un-skips it performs. */
  lemma {:induction false} RestoreRetires(s: State, id: int, deferred: bool, done: Oracle)
    requires WellFormed(s) && Trashed(s, id) && RestoreTask(s, id, deferred, done).Ok?
    ensures !s.tasks[id].superseded
    ensures Retired(s, RestoreTask(s, id, deferred, done).value.state, RetiredByRestore(s, id, done))
    decreases |Pending(s)|, 1, 0
  {
    SessionRestore.RestoreIs(s, id, deferred, done);
    hide WellFormed, Sound, Retired, Rewind, PlainRestore, RestoreTask, IsUnskip, SkipCascade, RetiredByCascade, Restores, Pending;
    if IsUnskip(s, id) {
      RewindRetires(s, id, done);
    } else {
      PlainRetires(s, id, deferred, done);
    }
  }

  lemma {:induction false} PlainRetires(s: State, id: int, deferred: bool, done: Oracle)
    requires WellFormed(s) && Trashed(s, id) && !s.tasks[id].superseded && PlainRestore(s, id, deferred, done).Ok?
    ensures Retired(s, PlainRestore(s, id, deferred, done).value.state,
                    if s.tasks[id].skipped then RetiredByCascade(s, id, done) else {})
    decreases |Pending(s)|, 0, 0
  {
    hide *;
    hide WellFormed;
    SessionRestore.PlainIs(s, id, deferred, done);
    InStore(s, id);
    var revived := ReviveRow(s, id);
    var ids := Sorted(Marked(revived, id));
    var skipped := s.tasks[id].skipped;
    var back := if skipped then RestoreMarked(revived, ids, done).value else (revived, []);
    var settled := Settle(back.0, [id] + back.1, deferred, done).value;
    var after := PlainRestore(s, id, deferred, done).value.state;
    var rows := if skipped then RetiredByCascade(s, id, done) else {};
    if skipped { CascadeRows(s, id, done); }
    ReviveRetires(s, id);
    if skipped { MarkedRetires(revived, ids, done); } else { RetiredRefl(revived); }
    SettleRetires(back.0, [id] + back.1, deferred, done);
    LogRetires(settled, id);
    FourRetired(s, revived, back.0, settled, after, rows);
  }

  lemma InStore(s: State, id: int)
    requires Trashed(s, id)
    ensures id in s.tasks
  {
  }

  lemma CascadeRows(s: State, id: int, done: Oracle)
    requires WellFormed(s) && Trashed(s, id) && !s.tasks[id].superseded
    ensures var revived := ReviveRow(s, id);
            && WellFormed(revived) && (forall x :: x in Sorted(Marked(revived, id)) ==> x in revived.tasks)
            && RetiredByCascade(s, id, done) == RetiredByMarked(revived, Sorted(Marked(revived, id)), done)
  {
    RevivedWellFormed(s, id);
    RestoreUndo.MarkedExist(ReviveRow(s, id), id);
    hide WellFormed, Sound, ReviveRow, Sorted, Marked, RetiredByMarked, Pending;
  }

  lemma LogRetires(s: State, id: int)
    requires id in s.tasks
    ensures Retired(s, LogTask(s, id, Restored), {})
  {
  }

  lemma FourRetired(a: State, b: State, c: State, d: State, e: State, rows: set<int>)
    requires Retired(a, b, {}) && Retired(b, c, rows) && Retired(c, d, {}) && Retired(d, e, {})
    ensures Retired(a, e, rows)
  {
    hide Retired;
    RetiredTrans(a, b, c, {}, rows);
    RetiredTrans(a, c, d, {} + rows, {});
    RetiredTrans(a, d, e, {} + rows + {}, {});
    assert {} + rows + {} + {} == rows;
  }

  lemma {:induction false} MarkedRetires(s: State, ids: seq<int>, done: Oracle)
    requires WellFormed(s) && (forall x :: x in ids ==> x in s.tasks) && RestoreMarked(s, ids, done).Ok?
    ensures Retired(s, RestoreMarked(s, ids, done).value.0, RetiredByMarked(s, ids, done))
    decreases |Pending(s)|, 1, |ids|
  {
    RetiredRefl(s);
    hide WellFormed, Sound, Retired, RestoreTask, Restores, Pending, RetiredByRestore;
    if ids != [] {
      var x := ids[0];
      assert x in ids;
      RestoreUndo.InPending(s, x);
      if x !in Pending(s) { MarkedRetires(s, ids[1..], done); } else {
        RestoreShrinks(s, x, true, done);
        RestoreRetires(s, x, true, done);
        var next := RestoreTask(s, x, true, done).value.state;
        MarkedRetires(next, ids[1..], done);
        RetiredTrans(s, next, RestoreMarked(next, ids[1..], done).value.0, RetiredByRestore(s, x, done),
                     RetiredByMarked(next, ids[1..], done));
      }
    }
  }

  /** The same for `restore_task_subtree`. */
  lemma SubtreeRetires(s: State, id: int, done: Oracle)
    requires WellFormed(s) && Trashed(s, id) && RestoreSubtree(s, id, done).Ok?
    ensures !s.tasks[id].superseded
    ensures Retired(s, RestoreSubtree(s, id, done).value.0, RetiredBySubtree(s, id, done))
  {
    hide WellFormed, Sound, Retired, RestoreTask, RestoreMarked, Reconcile, Marked, Pending, Restores, RetiredByRestore, RetiredByMarked;
    RestoreRetires(s, id, true, done);
    var root := RestoreTask(s, id, true, done).value;
    TaskSteps.RestoresTask(s, id, root);
    RestoreUndo.MarkedExist(root.state, id);
    var ids := Sorted(Marked(root.state, id));
    MarkedRetires(root.state, ids, done);
    var rest := RestoreMarked(root.state, ids, done).value.0;
    var back := Sorted(set x | x in Marked(s, id) && Live(rest, x));
    ReconcileSpawned(rest, [root.task] + back, done);
    var t := RestoreSubtree(s, id, done).value.0;
    SpawnRetires(rest, t);
    ThreeRetired(s, root.state, rest, t, RetiredByRestore(s, id, done), RetiredByMarked(root.state, ids, done));
  }

  lemma ThreeRetired(a: State, b: State, c: State, d: State, first: set<int>, second: set<int>)
    requires Retired(a, b, first) && Retired(b, c, second) && Retired(c, d, {})
    ensures Retired(a, d, first + second)
  {
    hide Retired;
    RetiredTrans(a, b, c, first, second);
    RetiredTrans(a, c, d, first + second, {});
    assert first + second + {} == first + second;
  }

  // ---- where those rows are ---------------------------------------------------------------------

  /** From a trashed row to the root of the cascade that trashed it. */
  function CascadeLinks(s: State): Forest.Links {
    map x | x in s.tasks && s.tasks[x].deleted && s.tasks[x].withTask.Some? :: s.tasks[x].withTask.value
  }

  /**
   What a caller can read before restoring `id`: a skipped occurrence at `id` or in the cascades
   below it is the row `o`, or trashed `o` with it.
   */
  ghost predicate Endangers(s: State, id: int, o: int) {
    exists x :: SkippedRow(s, x) && Forest.Reaches(CascadeLinks(s), x, id) && (o == x || o in Stamped(s, x))
  }

  predicate SkippedRow(s: State, x: int) {
    Trashed(s, x) && s.tasks[x].skipped && !s.tasks[x].superseded && s.tasks[x].series.Some? && s.tasks[x].due.Some?
  }

  ghost predicate EndangersOne(s: State, ids: set<int>, o: int) {
    exists r :: r in ids && Endangers(s, r, o)
  }

  lemma {:induction false} FewerClimb(s: State, t: State, x: int, k: nat, y: int)
    requires Fewer(s, t) && Forest.Climbs(CascadeLinks(t), x, k, y)
    ensures Forest.Climbs(CascadeLinks(s), x, k, y)
    decreases k
  {
    if k > 0 {
      assert Trashed(t, x);
      FewerClimb(s, t, t.tasks[x].withTask.value, k - 1, y);
    }
  }

  lemma FewerEndangers(s: State, t: State, id: int, o: int)
    requires Fewer(s, t) && Endangers(t, id, o)
    ensures Endangers(s, id, o)
  {
    var x :| SkippedRow(t, x) && Forest.Reaches(CascadeLinks(t), x, id) && (o == x || o in Stamped(t, x));
    var k: nat :| Forest.Climbs(CascadeLinks(t), x, k, id);
    FewerClimb(s, t, x, k, id);
    assert Trashed(t, x);
    assert SkippedRow(s, x);
    if o != x { assert Trashed(t, o); }
  }

  lemma StampedEndangers(s: State, id: int, r: int, o: int)
    requires r in Stamped(s, id) && Endangers(s, r, o)
    ensures Endangers(s, id, o)
  {
    var x :| SkippedRow(s, x) && Forest.Reaches(CascadeLinks(s), x, r) && (o == x || o in Stamped(s, x));
    Forest.ReachesSelf(CascadeLinks(s), id);
    Forest.ReachesStep(CascadeLinks(s), r, id);
    Forest.ReachesTrans(CascadeLinks(s), x, r, id);
  }

  lemma UnskipEndangers(s: State, id: int, o: int)
    requires Trashed(s, id) && !s.tasks[id].superseded && IsUnskip(s, id) && o in SkipCascade(s, id)
    ensures Endangers(s, id, o)
  {
    Forest.ReachesSelf(CascadeLinks(s), id);
    assert SkippedRow(s, id);
    assert o == id || o in Stamped(s, id);
  }

  /** Only rows the restored one endangers are retired. */
  lemma {:induction false} RetiredInReach(s: State, id: int, done: Oracle, o: int)
    requires WellFormed(s) && Trashed(s, id) && !s.tasks[id].superseded && o in RetiredByRestore(s, id, done)
    ensures Endangers(s, id, o)
    decreases |Pending(s)|, 1, 0
  {
    hide WellFormed, Sound, IsUnskip, SkipCascade, Endangers, RetiredByCascade, Pending;
    if IsUnskip(s, id) { UnskipEndangers(s, id, o); } else { CascadeInReach(s, id, done, o); }
  }

  lemma {:induction false} CascadeInReach(s: State, id: int, done: Oracle, o: int)
    requires WellFormed(s) && Trashed(s, id) && !s.tasks[id].superseded && o in RetiredByCascade(s, id, done)
    ensures Endangers(s, id, o) && EndangersBelow(s, id, o)
    decreases |Pending(s)|, 0, 0
  {
    var revived := ReviveRow(s, id);
    RevivedWellFormed(s, id);
    RevivedPending(s, id);
    RestoreUndo.MarkedExist(revived, id);
    ReviveRetires(s, id);
    var ids := Sorted(Marked(revived, id));
    MarkedStamped(s, id, revived);
    hide WellFormed, Sound, Endangers, EndangersBelow, Pending, Marked, Stamped, RetiredByMarked, Fewer, Revived;
    var r := MarkedInReach(revived, ids, done, o);
    BelowStamped(s, revived, id, r, o);
  }

  /** A skipped row of the cascade other than its root is `o`, or trashed `o` with it. */
  ghost predicate EndangersBelow(s: State, id: int, o: int) {
    exists x :: x != id && SkippedRow(s, x) && Forest.Reaches(CascadeLinks(s), x, id) && (o == x || o in Stamped(s, x))
  }

  lemma BelowStamped(s: State, t: State, id: int, r: int, o: int)
    requires Fewer(s, t) && Endangers(t, r, o) && r in Stamped(s, id) && !Trashed(t, id)
    ensures Endangers(s, id, o) && EndangersBelow(s, id, o)
  {
    var x :| SkippedRow(t, x) && Forest.Reaches(CascadeLinks(t), x, r) && (o == x || o in Stamped(t, x));
    var k: nat :| Forest.Climbs(CascadeLinks(t), x, k, r);
    FewerClimb(s, t, x, k, r);
    assert Trashed(t, x);
    assert SkippedRow(s, x);
    if o != x { assert Trashed(t, o); }
    Forest.ReachesSelf(CascadeLinks(s), id);
    Forest.ReachesStep(CascadeLinks(s), r, id);
    Forest.ReachesTrans(CascadeLinks(s), x, r, id);
  }

  /** When nothing else under `id` is skipped: exactly its own un-skip retires anything, and exactly its cascade. */
  lemma RetiresIff(s: State, id: int, done: Oracle, o: int)
    requires WellFormed(s) && Trashed(s, id) && !s.tasks[id].superseded
    requires forall x :: SkippedRow(s, x) && Forest.Reaches(CascadeLinks(s), x, id) ==> x == id
    ensures o in RetiredByRestore(s, id, done) <==> IsUnskip(s, id) && (o == id || o in Stamped(s, id))
  {
    assert o in SkipCascade(s, id) <==> o == id || o in Stamped(s, id);
    hide WellFormed, Sound, IsUnskip, SkipCascade, RetiredByCascade, CascadeLinks, SkippedRow, Stamped, Forest.Reaches;
    if !IsUnskip(s, id) && o in RetiredByRestore(s, id, done) {
      CascadeInReach(s, id, done, o);
      assert false;
    }
  }

  lemma MarkedStamped(s: State, id: int, t: State)
    requires Fewer(s, t)
    ensures forall x :: x in Sorted(Marked(t, id)) ==> x in Stamped(s, id)
  {
    forall x | x in Sorted(Marked(t, id)) ensures x in Stamped(s, id) {
      assert Trashed(t, x);
    }
  }

  lemma {:induction false} MarkedInReach(s: State, ids: seq<int>, done: Oracle, o: int) returns (r: int)
    requires WellFormed(s) && (forall x :: x in ids ==> x in s.tasks) && o in RetiredByMarked(s, ids, done)
    ensures r in ids && Endangers(s, r, o)
    decreases |Pending(s)|, 1, |ids|
  {
    hide WellFormed, Sound, RestoreTask, Restores, Pending, RetiredByRestore, Endangers, Fewer;
    var x := ids[0];
    assert x in ids;
    RestoreUndo.InPending(s, x);
    if x !in Pending(s) { r := MarkedInReach(s, ids[1..], done, o); } else {
      RestoreShrinks(s, x, true, done);
      RestoreRetires(s, x, true, done);
      var next := RestoreTask(s, x, true, done).value.state;
      if o in RetiredByRestore(s, x, done) {
        RetiredInReach(s, x, done, o);
        r := x;
      } else {
        r := MarkedInReach(next, ids[1..], done, o);
        FewerEndangers(s, next, r, o);
      }
    }
  }

  lemma SubtreeInReach(s: State, id: int, done: Oracle, o: int)
    requires WellFormed(s) && Trashed(s, id) && !s.tasks[id].superseded && o in RetiredBySubtree(s, id, done)
    ensures Endangers(s, id, o)
  {
    hide WellFormed, Sound, RestoreTask, Marked, Stamped, RetiredByRestore, RetiredByMarked, Endangers, Fewer;
    var root := RestoreTask(s, id, true, done).value;
    RestoreRetires(s, id, true, done);
    if o in RetiredByRestore(s, id, done) {
      RetiredInReach(s, id, done, o);
    } else {
      TaskSteps.RestoresTask(s, id, root);
      RestoreUndo.MarkedExist(root.state, id);
      MarkedStamped(s, id, root.state);
      var r := MarkedInReach(root.state, Sorted(Marked(root.state, id)), done, o);
      FewerEndangers(s, root.state, r, o);
      StampedEndangers(s, id, r, o);
    }
  }
}
