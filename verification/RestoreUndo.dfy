/**
 Undoing a task restore is its exact inverse, and exactly when
 (backend/app/services/task_trash.py, `restore_task_with_undo` and `undo_task_restore`).
 */
module RestoreUndo {
  import opened Common
  import opened Calendar
  import opened Store
  import opened TaskRecurrence
  import opened Tasks
  import opened TaskTrash
  import Forest

  /** Every row the first store had stands in the second exactly as it did. */
  ghost predicate RowsBack(before: State, after: State) {
    forall x :: x in before.tasks ==> x in after.tasks && after.tasks[x] == before.tasks[x]
  }

  // ---- how far a restore can move a row ------------------------------------------

  /** A live row only changes its date; a trashed one is kept, brought back, or superseded. */
  predicate RowProgress(t: Task, u: Task) {
    if !t.deleted then u == t.(due := u.due)
    else
      || u == t
      || (!u.deleted && !u.skipped && u.withTask.None? && u.withProject.None?)
      || (u.deleted && u.superseded && u == t.(superseded := true, skipped := u.skipped))
  }

  ghost predicate Progress(a: State, b: State) {
    a.projects == b.projects && forall x :: x in a.tasks ==> x in b.tasks && RowProgress(a.tasks[x], b.tasks[x])
  }

  lemma ProgressTrans(a: State, b: State, c: State)
    requires Progress(a, b) && Progress(b, c)
    ensures Progress(a, c)
  {
    forall x | x in a.tasks ensures x in c.tasks && RowProgress(a.tasks[x], c.tasks[x]) {
      assert RowProgress(b.tasks[x], c.tasks[x]);
    }
  }

  lemma SpawnIsProgress(a: State, b: State)
    requires Spawned(a, b)
    ensures Progress(a, b)
  {
  }

  lemma SameTasksProgress(a: State, b: State)
    requires a.tasks == b.tasks && a.projects == b.projects
    ensures Progress(a, b)
  {
  }

  ghost predicate MovesOn(s: State, r: Result<Restoration, Error>) {
    r.Ok? ==> Progress(s, r.value.state)
  }

  lemma RewindProgress(s: State, id: int, done: Oracle)
    requires WellFormed(s) && Trashed(s, id) && IsUnskip(s, id)
    ensures MovesOn(s, Rewind(s, id, done))
  {
    var live := FirstFollower(s, id);
    var walk, day := ActiveWalk(s, live), s.tasks[id].due.value;
    var mid := Superseded(OnDay(s, Elems(walk), day), id);
    hide *;
    hide WellFormed;
    ActiveRowsExist(s, live);
    RewindSettles(s, id, done);
    RewoundProgress(s, id, walk, day);
    ReconcileSpawned(mid, [live], done);
    var r := Rewind(s, id, done);
    if r.Ok? {
      var settled := Reconcile(mid, [live], done).value;
      SpawnIsProgress(mid, settled);
      SettledProgress(settled, r.value.state);
      ProgressTrans(s, mid, settled);
      ProgressTrans(s, settled, r.value.state);
      MovesOnIs(s, r);
    }
    NoMove(s, r);
  }

  lemma SettledProgress(s: State, t: State)
    requires SameRows(s, t)
    ensures Progress(s, t)
  {
  }

  lemma MovesOnIs(s: State, r: Result<Restoration, Error>)
    requires r.Ok? && Progress(s, r.value.state)
    ensures MovesOn(s, r)
  {
  }

  lemma NoMove(s: State, r: Result<Restoration, Error>)
    ensures r.Err? ==> MovesOn(s, r)
  {
  }

  lemma RewoundProgress(s: State, id: int, walk: seq<int>, day: Date)
    requires Trashed(s, id) && forall x :: x in walk ==> Live(s, x)
    ensures Progress(s, Superseded(OnDay(s, Elems(walk), day), id))
  {
    var mid := OnDay(s, Elems(walk), day);
    var after := Superseded(mid, id);
    hide TaskEvents, Sorted;
    forall x | x in s.tasks ensures x in after.tasks && RowProgress(s.tasks[x], after.tasks[x]) {
      assert x in SkipCascade(mid, id) ==> x == id || x in Stamped(mid, id);
    }
  }

  lemma {:induction false} RestoreProgress(s: State, id: int, deferred: bool, done: Oracle)
    requires WellFormed(s) && Trashed(s, id)
    ensures MovesOn(s, RestoreTask(s, id, deferred, done))
    decreases |Pending(s)|, 1, 0
  {
    hide WellFormed, Sound, Progress, Rewind, PlainRestore;
    if !s.tasks[id].superseded {
      if IsUnskip(s, id) { RewindProgress(s, id, done); } else { PlainProgress(s, id, deferred, done); }
    }
  }

  lemma {:induction false} PlainProgress(s: State, id: int, deferred: bool, done: Oracle)
    requires WellFormed(s) && Trashed(s, id) && !s.tasks[id].superseded
    ensures MovesOn(s, PlainRestore(s, id, deferred, done))
    decreases |Pending(s)|, 0, 0
  {
    hide WellFormed, Sound, Progress, Settle, ReviveRow, Marked, Restores, Pending, LatestRestored, Sorted, RestoreMarked;
    var revived := ReviveRow(s, id);
    ReviveProgress(s, id);
    RevivedWellFormed(s, id);
    RevivedPending(s, id);
    var ids := Sorted(Marked(revived, id));
    MarkedExist(revived, id);
    MarkedProgress(revived, ids, done);
    SameTasksProgress(revived, revived);
    var r := PlainRestore(s, id, deferred, done);
    if r.Ok? {
      var back := if s.tasks[id].skipped then RestoreMarked(revived, ids, done).value else (revived, []);
      PlainTail(s, revived, back.0, [id] + back.1, deferred, done, r.value.state);
    }
  }

  lemma PlainTail(s: State, revived: State, back: State, seeds: seq<int>, deferred: bool, done: Oracle, after: State)
    requires Progress(s, revived) && Progress(revived, back)
    requires WellFormed(back) && (forall x :: x in seeds ==> x in back.tasks)
    requires Settle(back, seeds, deferred, done).Ok?
    requires after.tasks == Settle(back, seeds, deferred, done).value.tasks
    requires after.projects == Settle(back, seeds, deferred, done).value.projects
    ensures Progress(s, after)
  {
    SettledKeeps(back, seeds, deferred, done);
    hide WellFormed, Sound, Progress, Settle;
    var settled := Settle(back, seeds, deferred, done).value;
    SpawnIsProgress(back, settled);
    SameTasksProgress(settled, after);
    ProgressTrans(s, revived, back);
    ProgressTrans(s, back, settled);
    ProgressTrans(s, settled, after);
  }

  lemma MarkedExist(s: State, id: int)
    ensures forall x :: x in Sorted(Marked(s, id)) ==> x in s.tasks
  {
  }

  lemma ReviveProgress(s: State, id: int)
    requires Trashed(s, id)
    ensures Progress(s, ReviveRow(s, id))
  {
  }

  lemma {:induction false} MarkedProgress(s: State, ids: seq<int>, done: Oracle)
    requires WellFormed(s) && (forall x :: x in ids ==> x in s.tasks)
    ensures var r := RestoreMarked(s, ids, done);
            r.Ok? ==> Progress(s, r.value.0) && forall x :: x in ids ==> x !in Pending(r.value.0)
    decreases |Pending(s)|, 1, |ids|
  {
    SameTasksProgress(s, s);
    hide WellFormed, Sound, Progress, RestoreTask, Restores, Pending;
    if ids != [] && RestoreMarked(s, ids, done).Ok? {
      var x := ids[0];
      assert x in ids;
      assert ids == [x] + ids[1..];
      if x !in Pending(s) { MarkedProgress(s, ids[1..], done); } else {
        InPending(s, x);
        var first := RestoreTask(s, x, true, done).value;
        RestoreShrinks(s, x, true, done);
        RestoreProgress(s, x, true, done);
        MarkedProgress(first.state, ids[1..], done);
        ProgressTrans(s, first.state, RestoreMarked(first.state, ids[1..], done).value.0);
      }
    }
  }

  lemma InPending(s: State, x: int)
    ensures x in Pending(s) <==> Trashed(s, x) && !s.tasks[x].superseded
  {
  }

  // ---- the restore in place ------------------------------------------------------

  /** `s` with every row of `ids` revived. */
  function ReviveAll(s: State, ids: set<int>): map<int, Task> {
    map x | x in s.tasks :: if x in ids then Revived(s, s.tasks[x]) else s.tasks[x]
  }

  /** A cascade without skips in it comes back as it went: each row revived, no other touched. */
  lemma {:induction false} MarkedPlain(s: State, ids: seq<int>, done: Oracle)
    requires WellFormed(s) && Distinct(ids)
    requires forall x :: x in ids ==> x in Pending(s) && !s.tasks[x].skipped
    ensures (forall x :: x in ids ==> x in s.tasks)
    ensures var r := RestoreMarked(s, ids, done);
            r.Ok? ==> r.value.0.tasks == ReviveAll(s, Elems(ids)) && r.value.1 == ids && r.value.0.projects == s.projects
    decreases |ids|
  {
    if ids == [] {
      assert ReviveAll(s, {}) == s.tasks;
    } else {
      var x := ids[0];
      assert x in ids;
      InPending(s, x);
      var first := RestoreTask(s, x, true, done);
      if first.Ok? {
        PlainStep(s, x, done);
        var next := first.value.state;
        forall y | y in ids[1..] ensures y in Pending(next) && !next.tasks[y].skipped {
          assert y in ids;
          InPending(s, y);
          InPending(next, y);
        }
        MarkedPlain(next, ids[1..], done);
        hide RestoreTask, WellFormed, Sound, Restores;
        ReviveSplit(s, next, x, ids);
      }
    }
  }

  lemma PlainStep(s: State, x: int, done: Oracle)
    requires WellFormed(s) && Trashed(s, x) && !s.tasks[x].superseded && !s.tasks[x].skipped
    ensures RestoreTask(s, x, true, done).Ok? ==>
              var r := RestoreTask(s, x, true, done).value;
              r.state.tasks == s.tasks[x := Revived(s, s.tasks[x])] && r.state.projects == s.projects
  {
    hide WellFormed, Sound, Restores, Pending, LatestRestored, RestoreMarked;
  }

  lemma ReviveSplit(s: State, next: State, x: int, ids: seq<int>)
    requires ids != [] && ids[0] == x && x in s.tasks
    requires next.tasks == s.tasks[x := Revived(s, s.tasks[x])] && next.projects == s.projects
    requires Distinct(ids)
    ensures ReviveAll(next, Elems(ids[1..])) == ReviveAll(s, Elems(ids))
  {
    assert x !in ids[1..];
    forall y ensures y in Elems(ids) <==> y == x || y in Elems(ids[1..]) {
    }
  }

  /** The rows an in-place restore brings back: the row, and its skip's cascade if it was skipped. */
  function CascadeOf(s: State, id: int): set<int>
    requires id in s.tasks
  {
    if s.tasks[id].skipped then Marked(ReviveRow(s, id), id) else {}
  }

  /** What a caller can read off the trash before restoring `id` in place. */
  ghost predicate UndoableInPlace(s: State, id: int)
    requires id in s.tasks
  {
    && (forall x :: x in CascadeOf(s, id) + {id} ==>
          x in s.tasks && LiveProject(s, s.tasks[x].project) && s.tasks[x].withProject.None?)
    && (forall x :: x in CascadeOf(s, id) ==> !s.tasks[x].skipped)
    && (s.tasks[id].withTask.Some? ==> Trashed(s, s.tasks[id].withTask.value))
  }

  lemma CascadeRows(s: State, id: int)
    requires Trashed(s, id)
    ensures id !in CascadeOf(s, id)
    ensures forall x :: x in CascadeOf(s, id) ==>
              x in s.tasks && s.tasks[x].deleted && !s.tasks[x].superseded && s.tasks[x].withTask == Some(id)
              && x in Pending(ReviveRow(s, id)) && ReviveRow(s, id).tasks[x] == s.tasks[x]
  {
  }

  /** Where a restore in place leaves the old rows, and what its receipt says. */
  ghost predicate InPlaceOutcome(s: State, id: int, r: Restoration)
    requires id in s.tasks
  {
    && (forall x :: x in s.tasks ==>
          x in r.state.tasks && r.state.tasks[x] == ReviveAll(s, CascadeOf(s, id) + {id})[x])
    && (forall x :: x in r.state.tasks && x !in s.tasks ==> !r.state.tasks[x].deleted)
    && r.receipt == Receipt(id, |r.state.events|, [id] + Sorted(CascadeOf(s, id)),
                            s.tasks[id].skipped, s.tasks[id].withTask, None)
    && id in r.state.tasks && |r.state.events| > 0
    && r.state.events[|r.state.events| - 1] == TaskEvent(r.state.tasks[id], id, Restored, Usual)
  }

  lemma PlainOutcome(s: State, id: int, deferred: bool, done: Oracle)
    requires WellFormed(s) && Trashed(s, id) && !s.tasks[id].superseded
    requires forall x :: x in CascadeOf(s, id) ==> x in s.tasks && !s.tasks[x].skipped
    ensures PlainRestore(s, id, deferred, done).Ok? ==> InPlaceOutcome(s, id, PlainRestore(s, id, deferred, done).value)
  {
    hide WellFormed, Sound, Restores, Pending, Settle, RestoreMarked, Marked, InPlaceOutcome;
    CascadeRows(s, id);
    var revived := ReviveRow(s, id);
    RevivedWellFormed(s, id);
    RevivedPending(s, id);
    var ids := Sorted(CascadeOf(s, id));
    assert Elems(ids) == CascadeOf(s, id);
    MarkedPlain(revived, ids, done);
    ReviveNone(revived);
    ReviveBoth(s, id);
    var r := PlainRestore(s, id, deferred, done);
    if r.Ok? {
      var back := if s.tasks[id].skipped then RestoreMarked(revived, ids, done).value else (revived, []);
      SettledKeeps(back.0, [id] + ids, deferred, done);
      SettledOutcome(s, id, back.0, Settle(back.0, [id] + ids, deferred, done).value, r.value);
    }
  }

  lemma ReviveNone(s: State)
    ensures ReviveAll(s, {}) == s.tasks
  {
  }

  lemma ReviveBoth(s: State, id: int)
    requires Trashed(s, id)
    ensures ReviveAll(ReviveRow(s, id), CascadeOf(s, id)) == ReviveAll(s, CascadeOf(s, id) + {id})
  {
    CascadeRows(s, id);
    hide CascadeOf;
    var a, b := ReviveAll(ReviveRow(s, id), CascadeOf(s, id)), ReviveAll(s, CascadeOf(s, id) + {id});
    assert a.Keys == s.tasks.Keys && b.Keys == s.tasks.Keys;
    forall x | x in s.tasks ensures a[x] == b[x] {
    }
  }

  lemma SettledOutcome(s: State, id: int, back: State, settled: State, r: Restoration)
    requires Trashed(s, id) && Spawned(back, settled)
    requires back.tasks == ReviveAll(s, CascadeOf(s, id) + {id}) && id in settled.tasks
    requires r.state == LogTask(settled, id, Restored)
    requires r.receipt == Receipt(id, LatestRestored(r.state.events, id), [id] + Sorted(CascadeOf(s, id)),
                                  s.tasks[id].skipped, s.tasks[id].withTask, None)
    ensures InPlaceOutcome(s, id, r)
  {
    hide CascadeOf;
    var rows := ReviveAll(s, CascadeOf(s, id) + {id});
    assert rows.Keys == s.tasks.Keys;
    forall x | x in s.tasks ensures x in r.state.tasks && r.state.tasks[x] == rows[x] {
      assert x in rows.Keys;
      assert x in back.tasks;
    }
    forall x | x in r.state.tasks && x !in s.tasks ensures !r.state.tasks[x].deleted {
      assert x !in rows.Keys;
      assert x !in back.tasks;
    }
  }

  lemma AcceptedAtOnce(t: State, r: Receipt)
    requires WellFormed(t) && r.unskip.None?
    requires r.restored != [] && r.restored[0] == r.task && Distinct(r.restored) && forall x :: x in r.restored ==> Live(t, x)
    requires r.eventId == |t.events| > 0 && r.task in t.tasks
    requires t.events[|t.events| - 1] == TaskEvent(t.tasks[r.task], r.task, Restored, Usual)
    ensures Accepts(t, r)
  {
    hide WellFormed, Sound;
  }

  ghost predicate UndoneFrom(s: State, t: State, r: Receipt, after: State) {
    forall x :: x in s.tasks ==>
      x in after.tasks && x in t.tasks
      && after.tasks[x] == if x in r.restored then RetrashedRow(t, r, x) else t.tasks[x]
  }

  /** The rows of an accepted undo of a restore in place, up to freshly spawned ones. */
  lemma UndoneRows(s: State, t: State, r: Receipt, done: Oracle)
    requires WellFormed(t) && r.unskip.None? && (forall x :: x in s.tasks ==> x in t.tasks)
    requires UndoTaskRestore(t, r, done).Ok?
    ensures UndoneFrom(s, t, r, UndoTaskRestore(t, r, done).value)
  {
    RetrashedWellFormed(t, r);
    var mid := Retrashed(t, r);
    ReconcileSpawned(mid, Outside(SeedsOf(t, Reversed(r.restored)), Elems(r.restored)), done);
    hide WellFormed, Sound, RetrashedRow, RetrashEvents, Reconcile, Accepts;
    var after := UndoTaskRestore(t, r, done).value;
    forall x | x in s.tasks ensures x in after.tasks && after.tasks[x] == mid.tasks[x] {
      assert x in mid.tasks;
    }
  }

  /** Row by row: the undo of a restore in place gives the row back exactly when it was clean. */
  lemma RetrashedRowBack(s: State, id: int, t: State, r: Receipt, x: int)
    requires Trashed(s, id) && x in CascadeOf(s, id) + {id}
    requires x in s.tasks && x in t.tasks && t.tasks[x] == Revived(s, s.tasks[x])
    requires r.task == id && r.skipped == s.tasks[id].skipped && r.priorRoot == s.tasks[id].withTask
    requires LiveProject(s, GENERAL)
    requires x != id ==> !s.tasks[x].skipped && s.tasks[x].deleted && s.tasks[x].withTask == Some(id)
    ensures RetrashedRow(t, r, x) == s.tasks[x]
       <==> LiveProject(s, s.tasks[x].project) && s.tasks[x].withProject.None?
            && (x == id && s.tasks[id].withTask.Some? ==>
                  Trashed(t, s.tasks[id].withTask.value) || s.tasks[id].withTask.value in r.restored)
  {
  }

  lemma GeneralIsLive(s: State)
    requires WellFormed(s)
    ensures LiveProject(s, GENERAL)
  {
  }

  /**
   Undoing a restore in place straight away puts every row of the store back exactly as it was,
   if and only if the trash looked as it does in normal use: the rows coming back were filed in
   live projects and not archived with one, none of the cascade was itself a skip, and the
   cascade the row had gone with is still in the trash. Rows that reconciling spawned stay.
   */
  lemma UndoInPlaceIff(s: State, id: int, deferred: bool, done: Oracle)
    requires WellFormed(s) && Trashed(s, id) && !s.tasks[id].superseded
    requires PlainRestore(s, id, deferred, done).Ok?
    ensures var r := PlainRestore(s, id, deferred, done).value;
            var undone := UndoTaskRestore(r.state, r.receipt, done);
            && (UndoableInPlace(s, id) ==> Accepts(r.state, r.receipt))
            && (undone.Ok? ==> (RowsBack(s, undone.value) <==> UndoableInPlace(s, id)))
  {
    CascadeRows(s, id);
    GeneralIsLive(s);
    if x :| x in CascadeOf(s, id) && s.tasks[x].skipped {
      NestedSkipNotUndone(s, id, deferred, done, x);
    } else {
      PlainOutcome(s, id, deferred, done);
      var r := PlainRestore(s, id, deferred, done).value;
      hide WellFormed, Sound, PlainRestore, Restores, Accepts, UndoTaskRestore, RetrashedRow, InPlaceOutcome;
      CleanCascadeUndone(s, id, r, done);
    }
  }

  lemma CleanCascadeUndone(s: State, id: int, r: Restoration, done: Oracle)
    requires Trashed(s, id) && LiveProject(s, GENERAL) && WellFormed(r.state) && InPlaceOutcome(s, id, r)
    requires forall x :: x in CascadeOf(s, id) ==> x in s.tasks && !s.tasks[x].skipped
    ensures Accepts(r.state, r.receipt)
    ensures var undone := UndoTaskRestore(r.state, r.receipt, done);
            undone.Ok? ==> (RowsBack(s, undone.value) <==> UndoableInPlace(s, id))
  {
    hide WellFormed, Sound, Accepts, RetrashedRow, UndoTaskRestore, CascadeOf, RowsBack, UndoableInPlace, RowByRow;
    CascadeRows(s, id);
    assert forall x :: x in r.receipt.restored <==> x in CascadeOf(s, id) + {id};
    AcceptedAtOnce(r.state, r.receipt);
    if UndoTaskRestore(r.state, r.receipt, done).Ok? {
      UndoneRowByRow(s, id, r, done);
      BackIff(s, id, UndoTaskRestore(r.state, r.receipt, done).value);
    }
  }

  predicate CleanRow(s: State, id: int, x: int)
    requires id in s.tasks && x in s.tasks
  {
    LiveProject(s, s.tasks[x].project) && s.tasks[x].withProject.None?
    && (x == id && s.tasks[id].withTask.Some? ==> Trashed(s, s.tasks[id].withTask.value))
  }

  /** A row of the restore is back exactly when it was clean; every other row is back. */
  ghost predicate RowByRow(s: State, id: int, after: State)
    requires id in s.tasks
  {
    && (forall x :: x in CascadeOf(s, id) + {id} ==>
          x in s.tasks && x in after.tasks && (after.tasks[x] == s.tasks[x] <==> CleanRow(s, id, x)))
    && (forall x :: x in s.tasks && x !in CascadeOf(s, id) + {id} ==>
          x in after.tasks && after.tasks[x] == s.tasks[x])
  }

  lemma UndoneRowByRow(s: State, id: int, r: Restoration, done: Oracle)
    requires Trashed(s, id) && LiveProject(s, GENERAL) && WellFormed(r.state) && InPlaceOutcome(s, id, r)
    requires forall x :: x in CascadeOf(s, id) ==> x in s.tasks && !s.tasks[x].skipped
    requires UndoTaskRestore(r.state, r.receipt, done).Ok?
    ensures RowByRow(s, id, UndoTaskRestore(r.state, r.receipt, done).value)
  {
    hide WellFormed, Sound, Accepts, RetrashedRow, UndoTaskRestore, CascadeOf, UndoneFrom, InPlaceOutcome;
    CascadeRows(s, id);
    PriorRootTrashed(s, id, r);
    var after := UndoTaskRestore(r.state, r.receipt, done).value;
    AllRowsKept(s, id, r);
    UndoneRows(s, r.state, r.receipt, done);
    forall x | x in CascadeOf(s, id) + {id}
      ensures x in s.tasks && x in after.tasks && (after.tasks[x] == s.tasks[x] <==> CleanRow(s, id, x))
    {
      RestoredRowUndone(s, id, r, after, x);
    }
    forall x | x in s.tasks && x !in CascadeOf(s, id) + {id}
      ensures x in after.tasks && after.tasks[x] == s.tasks[x]
    {
      OtherRowUndone(s, id, r, after, x);
    }
  }

  lemma AllRowsKept(s: State, id: int, r: Restoration)
    requires id in s.tasks && InPlaceOutcome(s, id, r)
    ensures r.receipt.unskip.None? && forall x :: x in s.tasks ==> x in r.state.tasks
  {
    hide CascadeOf;
  }

  lemma RestoredRowUndone(s: State, id: int, r: Restoration, after: State, x: int)
    requires Trashed(s, id) && LiveProject(s, GENERAL) && InPlaceOutcome(s, id, r) && UndoneFrom(s, r.state, r.receipt, after)
    requires x in CascadeOf(s, id) + {id}
    requires x != id ==> x in s.tasks && !s.tasks[x].skipped
    ensures x in s.tasks && x in after.tasks && (after.tasks[x] == s.tasks[x] <==> CleanRow(s, id, x))
  {
    CascadeRows(s, id);
    PriorRootTrashed(s, id, r);
    hide CascadeOf, RetrashedRow;
    RetrashedRowBack(s, id, r.state, r.receipt, x);
    assert x in r.receipt.restored;
  }

  lemma OtherRowUndone(s: State, id: int, r: Restoration, after: State, x: int)
    requires Trashed(s, id) && InPlaceOutcome(s, id, r) && UndoneFrom(s, r.state, r.receipt, after)
    requires x in s.tasks && x !in CascadeOf(s, id) + {id}
    ensures x in after.tasks && after.tasks[x] == s.tasks[x]
  {
    hide CascadeOf, RetrashedRow;
    assert x !in r.receipt.restored;
  }

  lemma BackIff(s: State, id: int, after: State)
    requires id in s.tasks && RowByRow(s, id, after)
    requires forall x :: x in CascadeOf(s, id) ==> x in s.tasks && !s.tasks[x].skipped
    ensures RowsBack(s, after) <==> UndoableInPlace(s, id)
  {
    hide CascadeOf;
    assert id in CascadeOf(s, id) + {id};
  }

  lemma PriorRootTrashed(s: State, id: int, r: Restoration)
    requires Trashed(s, id) && InPlaceOutcome(s, id, r)
    ensures s.tasks[id].withTask.Some? ==>
              var prior := s.tasks[id].withTask.value;
              Trashed(r.state, prior) || prior in r.receipt.restored <==> Trashed(s, prior)
  {
    CascadeRows(s, id);
    hide CascadeOf;
    if s.tasks[id].withTask.Some? {
      var prior: int := s.tasks[id].withTask.value;
      if prior in s.tasks {
        assert r.state.tasks[prior] == ReviveAll(s, CascadeOf(s, id) + {id})[prior];
      }
    }
  }

  /** A skipped row inside the cascade cannot come back as it was: its skip is gone, or it is superseded. */
  lemma NestedSkipNotUndone(s: State, id: int, deferred: bool, done: Oracle, x: int)
    requires WellFormed(s) && Trashed(s, id) && !s.tasks[id].superseded
    requires x in CascadeOf(s, id) && x in s.tasks && s.tasks[x].skipped
    requires PlainRestore(s, id, deferred, done).Ok?
    ensures var r := PlainRestore(s, id, deferred, done).value;
            var undone := UndoTaskRestore(r.state, r.receipt, done);
            undone.Ok? ==> !RowsBack(s, undone.value)
  {
    CascadeRows(s, id);
    NestedProgress(s, id, deferred, done, x);
    var r := PlainRestore(s, id, deferred, done).value;
    hide WellFormed, Sound, PlainRestore, Restores, CascadeOf;
    var undone := UndoTaskRestore(r.state, r.receipt, done);
    if undone.Ok? {
      UndoneRows(s, r.state, r.receipt, done);
      hide UndoTaskRestore;
      assert undone.value.tasks[x] != s.tasks[x];
    }
  }

  lemma NestedProgress(s: State, id: int, deferred: bool, done: Oracle, x: int)
    requires WellFormed(s) && Trashed(s, id) && !s.tasks[id].superseded
    requires x in CascadeOf(s, id) && x in s.tasks && s.tasks[x].skipped
    requires PlainRestore(s, id, deferred, done).Ok?
    ensures var r := PlainRestore(s, id, deferred, done).value;
            && r.receipt.task == id && r.receipt.unskip.None? && x != id
            && (forall y :: y in s.tasks ==> y in r.state.tasks)
            && RowProgress(s.tasks[x], r.state.tasks[x])
            && !(Trashed(r.state, x) && !r.state.tasks[x].superseded)
  {
    hide WellFormed, Sound, Restores, Pending, Progress, Settle, RestoreMarked, Spawned, LatestRestored;
    CascadeRows(s, id);
    var revived := ReviveRow(s, id);
    RevivedWellFormed(s, id);
    RevivedPending(s, id);
    var ids := Sorted(CascadeOf(s, id));
    assert x in ids;
    MarkedProgress(revived, ids, done);
    var back := RestoreMarked(revived, ids, done).value;
    var r := PlainRestore(s, id, deferred, done).value;
    SettledKeeps(back.0, [id] + back.1, deferred, done);
    var settled := Settle(back.0, [id] + back.1, deferred, done).value;
    SpawnIsProgress(back.0, settled);
    ProgressTrans(revived, back.0, settled);
    assert settled.tasks == r.state.tasks;
    forall y | y in s.tasks ensures y in r.state.tasks {
      ProgressOf(revived, settled, y);
    }
    ProgressOf(revived, settled, x);
    SamePending(settled, r.state);
    InPending(r.state, x);
  }

  lemma ProgressOf(a: State, b: State, x: int)
    requires Progress(a, b) && x in a.tasks
    ensures x in b.tasks && RowProgress(a.tasks[x], b.tasks[x])
  {
  }

  // ---- the un-skip rewind ----------------------------------------------------------

  /** A row after the rewind of `id` onto `day`, where `walk` is the live occurrence's subtree. */
  function RewoundRow(s: State, id: int, walk: seq<int>, day: Date, x: int): Task
    requires x in s.tasks
  {
    var t := if x in walk then s.tasks[x].(due := Some(day)) else s.tasks[x];
    var u := if x == id || x in Stamped(s, id) then t.(superseded := true) else t;
    if x == id then u.(skipped := false) else u
  }

  lemma RewoundRows(s: State, id: int, walk: seq<int>, day: Date)
    requires Trashed(s, id) && forall x :: x in walk ==> Live(s, x)
    ensures var mid := Superseded(OnDay(s, Elems(walk), day), id);
            mid.tasks.Keys == s.tasks.Keys
            && (forall x :: x in s.tasks ==> mid.tasks[x] == RewoundRow(s, id, walk, day, x))
            && LiveLinks(mid.tasks) == LiveLinks(s.tasks)
            && Stamped(mid, id) == Stamped(s, id)
  {
    hide TaskEvents, Sorted;
    var on := OnDay(s, Elems(walk), day);
    var mid := Superseded(on, id);
    assert Stamped(on, id) == Stamped(s, id);
    assert forall x :: x in SkipCascade(on, id) <==> x == id || x in Stamped(on, id);
    forall x | x in s.tasks ensures mid.tasks[x] == RewoundRow(s, id, walk, day, x) {
    }
    assert LiveLinks(mid.tasks).Keys == LiveLinks(s.tasks).Keys;
  }

  lemma {:induction false} PreviousMapOf(previous: seq<Rescheduled>, x: int)
    requires forall i, j :: 0 <= i < j < |previous| ==> previous[i].task != previous[j].task
    ensures x in PreviousMap(previous) <==> exists i :: 0 <= i < |previous| && previous[i].task == x
    ensures forall i :: 0 <= i < |previous| && previous[i].task == x ==>
              x in PreviousMap(previous) && PreviousMap(previous)[x] == previous[i].due
  {
    if previous != [] {
      var rest, p := previous[..|previous| - 1], previous[|previous| - 1];
      PreviousMapOf(rest, x);
      forall i | 0 <= i < |previous| && previous[i].task == x
        ensures x in PreviousMap(previous) && PreviousMap(previous)[x] == previous[i].due
      {
        if i < |rest| { assert rest[i] == previous[i]; }
      }
    }
  }

  /** The receipt's dates are exactly the dates the rewind overwrote. */
  lemma ReceiptDates(tasks: map<int, Task>, walk: seq<int>, day: Date)
    requires Distinct(walk) && forall x :: x in walk ==> x in tasks
    ensures var previous := PreviousMap(PreviousDues(tasks, MovedRows(tasks, walk, day)));
            forall x :: (x in previous <==> x in walk && tasks[x].due != Some(day))
                        && (x in previous ==> previous[x] == tasks[x].due)
  {
    var moved := MovedRows(tasks, walk, day);
    var dues := PreviousDues(tasks, moved);
    hide MovedRows, PreviousMap;
    forall i, j | 0 <= i < j < |dues| ensures dues[i].task != dues[j].task {
      assert moved[i] != moved[j];
    }
    forall x
      ensures x in PreviousMap(dues) <==> x in walk && tasks[x].due != Some(day)
      ensures x in PreviousMap(dues) ==> PreviousMap(dues)[x] == tasks[x].due
    {
      PreviousMapOf(dues, x);
      if x in moved {
        var i :| 0 <= i < |moved| && moved[i] == x;
        assert dues[i].task == x;
      }
    }
  }

  /** What a caller can read off the series before un-skipping `id`. */
  ghost predicate UndoableUnskip(s: State, id: int)
    requires WellFormed(s) && Trashed(s, id) && IsUnskip(s, id)
  {
    var live := FirstFollower(s, id);
    && s.tasks[live].due != s.tasks[id].due
    && forall x :: x in s.tasks && x != id && s.tasks[x].skipped && s.tasks[x].series == s.tasks[id].series ==>
         s.tasks[x].due != s.tasks[id].due && x !in ActiveWalk(s, live)
  }

  /** Nothing the skip stamped had been superseded before. */
  ghost predicate FreshCascade(s: State, id: int) {
    forall x :: x in Stamped(s, id) && x != id ==> !s.tasks[x].superseded
  }

  /** The store an un-skip leaves when its reconcile spawns nothing. */
  ghost predicate RewindOutcome(s: State, id: int, live: int, walk: seq<int>, day: Date, t: State) {
    && t.tasks.Keys == s.tasks.Keys && Trashed(s, id) && s.tasks[id].due == Some(day) && s.tasks[id].series.Some?
    && (forall x :: x in s.tasks ==> t.tasks[x] == RewoundRow(s, id, walk, day, x))
    && LiveLinks(t.tasks) == LiveLinks(s.tasks)
    && (forall x :: x in walk ==> Live(s, x)) && Distinct(walk) && live in walk
    && s.tasks[live].series == s.tasks[id].series && s.tasks[live].due.Some?
  }

  lemma SlotFreeAfterRewind(s: State, id: int, live: int, walk: seq<int>, day: Date, t: State)
    requires RewindOutcome(s, id, live, walk, day, t) && UniqueSlots(s) && s.tasks[live].due != Some(day)
    ensures FindLiveOn(t, s.tasks[id].series.value, s.tasks[live].due.value, {live}).None?
  {
    var series, target := s.tasks[id].series.value, s.tasks[live].due.value;
    forall x | x in LiveOn(t, series, target) ensures x == live {
      assert x in s.tasks.Keys;
      assert t.tasks[x] == RewoundRow(s, id, walk, day, x);
      assert x !in walk;
      assert SameSlot(s.tasks[x], s.tasks[live]);
    }
    assert LiveOn(t, series, target) - {live} == {};
  }

  lemma SkippedAfterRewind(s: State, id: int, live: int, walk: seq<int>, day: Date, t: State)
    requires RewindOutcome(s, id, live, walk, day, t)
    ensures !SkippedOn(t, s.tasks[id].series.value, day)
       <==> forall x :: x in s.tasks && x != id && s.tasks[x].skipped && s.tasks[x].series == s.tasks[id].series ==>
              s.tasks[x].due != Some(day) && x !in walk
  {
    forall x | x in s.tasks
      ensures x in t.tasks
              && (t.tasks[x].skipped && t.tasks[x].due == Some(day)
                  <==> x != id && s.tasks[x].skipped && (s.tasks[x].due == Some(day) || x in walk))
    {
      assert x in t.tasks.Keys;
      assert t.tasks[x] == RewoundRow(s, id, walk, day, x);
    }
    assert forall x :: x in t.tasks ==> x in s.tasks.Keys;
    if SkippedOn(t, s.tasks[id].series.value, day) {
      var x :| x in t.tasks && t.tasks[x].series == s.tasks[id].series && t.tasks[x].due == Some(day) && t.tasks[x].skipped;
      assert x in s.tasks;
      assert t.tasks[x] == RewoundRow(s, id, walk, day, x);
    }
    if x :| x in s.tasks && x != id && s.tasks[x].skipped && s.tasks[x].series == s.tasks[id].series
            && !(s.tasks[x].due != Some(day) && x !in walk)
    {
      assert t.tasks[x] == RewoundRow(s, id, walk, day, x);
      assert x in t.tasks && t.tasks[x].skipped && t.tasks[x].due == Some(day);
    }
  }

  lemma UnskipAcceptedIff(s: State, id: int, live: int, walk: seq<int>, day: Date, t: State, u: Unskip)
    requires RewindOutcome(s, id, live, walk, day, t) && WellFormed(t) && UniqueSlots(s)
    requires ActiveWalk(t, live) == walk
    requires u == Unskip(day, id, PreviousDues(s.tasks, MovedRows(s.tasks, walk, day)))
    ensures AcceptsUnskip(t, live, u)
       <==> s.tasks[live].due != Some(day)
            && forall x :: x in s.tasks && x != id && s.tasks[x].skipped && s.tasks[x].series == s.tasks[id].series ==>
                 s.tasks[x].due != Some(day) && x !in walk
  {
    hide WellFormed, Sound, ActiveWalk, UniqueSlots, MovedRows, PreviousDues, PreviousMap;
    ReceiptDates(s.tasks, walk, day);
    SkippedAfterRewind(s, id, live, walk, day, t);
    if s.tasks[live].due != Some(day) { SlotFreeAfterRewind(s, id, live, walk, day, t); }
    hide SkippedOn, FindLiveOn;
    assert t.tasks[live] == RewoundRow(s, id, walk, day, live);
    assert t.tasks[id] == RewoundRow(s, id, walk, day, id);
    assert live in t.tasks.Keys && id in t.tasks.Keys;
    forall x | x in walk ensures x in t.tasks && t.tasks[x].due == Some(day) {
      assert x in s.tasks && t.tasks[x] == RewoundRow(s, id, walk, day, x);
      assert x in t.tasks.Keys;
    }
  }

  /** The rows of an undone un-skip, one by one. */
  lemma UnrewoundRow(s: State, id: int, live: int, walk: seq<int>, day: Date, t: State, u: Unskip, x: int)
    requires RewindOutcome(s, id, live, walk, day, t) && s.tasks[id].skipped && !s.tasks[id].superseded
    requires u == Unskip(day, id, PreviousDues(s.tasks, MovedRows(s.tasks, walk, day)))
    requires x in s.tasks
    requires forall y :: y in PreviousMap(u.previous) ==> y in t.tasks
    ensures Trashed(t, id) && x in Unrewound(t, u).tasks
    ensures Unrewound(t, u).tasks[x]
         == if x in Stamped(s, id) && x != id then s.tasks[x].(superseded := false) else s.tasks[x]
  {
    hide MovedRows, PreviousDues, PreviousMap, TaskEvents, SupersededOf, FirstNamed, Sorted;
    ReceiptDates(s.tasks, walk, day);
    assert t.tasks[id] == RewoundRow(s, id, walk, day, id);
    assert t.tasks[x] == RewoundRow(s, id, walk, day, x);
    assert x in t.tasks.Keys && id in t.tasks.Keys;
    var previous := PreviousMap(u.previous);
    var moved := t.(tasks := map y | y in t.tasks :: if y in previous then t.tasks[y].(due := previous[y]) else t.tasks[y]);
    assert moved.tasks[x] == if x in previous then t.tasks[x].(due := previous[x]) else t.tasks[x];
    assert Unrewound(t, u).tasks[x] == UnsupersededRow(moved, id, x);
    assert x in Stamped(moved, id) <==> x in Stamped(s, id);
  }

  /** An accepted undo of an un-skip gives every row back exactly when its cascade was fresh. */
  ghost predicate InverseIffFresh(s: State, id: int, undone: Result<State, Error>) {
    && undone.Ok? && undone.value.projects == s.projects
    && (undone.value.tasks == s.tasks <==> FreshCascade(s, id))
  }

  /**
   Undoing an un-skip rewind straight away, when reconciling spawned nothing. It is accepted
   exactly when the rewind had moved the live occurrence at all and no other row of the series
   reads as skipped on the date; and an accepted undo is the exact inverse on every row exactly
   when no row of the skipped cascade had been superseded before.
   */
  lemma UndoUnskipIff(s: State, id: int, done: Oracle)
    requires WellFormed(s) && Trashed(s, id) && IsUnskip(s, id) && !s.tasks[id].superseded && UniqueSlots(s)
    requires Rewind(s, id, done).Ok? && Rewind(s, id, done).value.state.tasks.Keys == s.tasks.Keys
    ensures var r := Rewind(s, id, done).value;
            && WellFormed(r.state)
            && (Accepts(r.state, r.receipt) <==> UndoableUnskip(s, id))
            && (Accepts(r.state, r.receipt) ==> InverseIffFresh(s, id, UndoTaskRestore(r.state, r.receipt, done)))
  {
    RewindKeeps(s, id, done);
    RewindLands(s, id, done);
    var r := Rewind(s, id, done).value;
    hide WellFormed, Sound, Rewind, Restores, RewindOutcome, AcceptsUnskip, UniqueSlots, InverseIffFresh, UndoTaskRestore;
    UnskipAcceptance(s, id, r);
    if Accepts(r.state, r.receipt) { UnskipInverse(s, id, r, done); }
  }

  /** Where an un-skip lands when its reconcile spawns nothing, and what its receipt says. */
  ghost predicate RewindResult(s: State, id: int, r: Restoration)
    requires WellFormed(s) && Trashed(s, id) && IsUnskip(s, id)
  {
    var live := FirstFollower(s, id);
    var walk, day := ActiveWalk(s, live), s.tasks[id].due.value;
    && RewindOutcome(s, id, live, walk, day, r.state) && r.state.projects == s.projects
    && BoundToRestore(r.state, r.receipt) && r.receipt.task == live
    && r.receipt.unskip == Some(Unskip(day, id, PreviousDues(s.tasks, MovedRows(s.tasks, walk, day))))
  }

  lemma UnskipAcceptance(s: State, id: int, r: Restoration)
    requires WellFormed(s) && Trashed(s, id) && IsUnskip(s, id) && UniqueSlots(s)
    requires WellFormed(r.state) && RewindResult(s, id, r)
    ensures Accepts(r.state, r.receipt) <==> UndoableUnskip(s, id)
  {
    hide WellFormed, Sound, ActiveWalk, RewindOutcome, FirstFollower, AcceptsUnskip, UniqueSlots, MovedRows, PreviousDues, BoundToRestore;
    var live := FirstFollower(s, id);
    var walk, day := ActiveWalk(s, live), s.tasks[id].due.value;
    RewindLinks(s, id, live, walk, day, r.state);
    SameWalk(s, r.state, live);
    UnskipAcceptedIff(s, id, live, walk, day, r.state, r.receipt.unskip.value);
  }

  lemma RewindLinks(s: State, id: int, live: int, walk: seq<int>, day: Date, t: State)
    requires RewindOutcome(s, id, live, walk, day, t)
    ensures LiveLinks(t.tasks) == LiveLinks(s.tasks) && t.tasks.Keys == s.tasks.Keys
    ensures live in s.tasks
  {
  }

  lemma UnskipInverse(s: State, id: int, r: Restoration, done: Oracle)
    requires WellFormed(s) && Trashed(s, id) && IsUnskip(s, id) && !s.tasks[id].superseded
    requires WellFormed(r.state) && RewindResult(s, id, r) && Accepts(r.state, r.receipt)
    ensures InverseIffFresh(s, id, UndoTaskRestore(r.state, r.receipt, done))
  {
    hide WellFormed, Sound, ActiveWalk, RewindOutcome, FirstFollower, AcceptsUnskip, MovedRows, PreviousDues, BoundToRestore, Unrewound,
         RewoundRow, Stamped, FreshCascade, PreviousMap;
    var live := FirstFollower(s, id);
    var walk, day := ActiveWalk(s, live), s.tasks[id].due.value;
    var u := r.receipt.unskip.value;
    RewindLinks(s, id, live, walk, day, r.state);
    PreviousInStore(r.state, live, u);
    var after := Unrewound(r.state, u);
    assert UndoTaskRestore(r.state, r.receipt, done) == Ok(after);
    hide UndoTaskRestore, Accepts;
    forall x | x in s.tasks
      ensures x in after.tasks
              && after.tasks[x] == if x in Stamped(s, id) && x != id then s.tasks[x].(superseded := false) else s.tasks[x]
    {
      UnrewoundRow(s, id, live, walk, day, r.state, u, x);
    }
    UnrewoundKeys(r.state, u);
    BackFromUnskip(s, id, after);
  }

  lemma PreviousInStore(t: State, live: int, u: Unskip)
    requires WellFormed(t) && AcceptsUnskip(t, live, u)
    ensures Trashed(t, u.superseded) && forall y :: y in PreviousMap(u.previous) ==> y in t.tasks
  {
    hide WellFormed, Sound, ActiveWalk, SkippedOn, FindLiveOn;
  }

  lemma UnrewoundKeys(t: State, u: Unskip)
    requires Trashed(t, u.superseded) && forall y :: y in PreviousMap(u.previous) ==> y in t.tasks
    ensures Unrewound(t, u).tasks.Keys == t.tasks.Keys && Unrewound(t, u).projects == t.projects
  {
    hide PreviousMap, TaskEvents, SupersededOf, FirstNamed, Sorted, UnsupersededRow;
  }

  lemma BackFromUnskip(s: State, id: int, after: State)
    requires after.tasks.Keys == s.tasks.Keys
    requires forall x :: x in s.tasks ==>
               x in after.tasks
               && after.tasks[x] == if x in Stamped(s, id) && x != id then s.tasks[x].(superseded := false) else s.tasks[x]
    ensures after.tasks == s.tasks <==> FreshCascade(s, id)
  {
    if after.tasks == s.tasks {
      forall x | x in Stamped(s, id) && x != id ensures !s.tasks[x].superseded {
        assert after.tasks[x] == s.tasks[x];
        assert x in s.tasks && s.tasks[x].(superseded := false) == s.tasks[x];
      }
    }
    if FreshCascade(s, id) {
      forall x | x in s.tasks ensures x in after.tasks && after.tasks[x] == s.tasks[x] {
        if x in Stamped(s, id) && x != id { assert !s.tasks[x].superseded; }
      }
      assert after.tasks == s.tasks;
    }
  }

  lemma SameWalk(s: State, t: State, live: int)
    requires WellFormed(s) && WellFormed(t) && LiveLinks(t.tasks) == LiveLinks(s.tasks)
    ensures ActiveWalk(t, live) == ActiveWalk(s, live)
  {
    hide WellFormed, Sound;
  }

  lemma RewindLands(s: State, id: int, done: Oracle)
    requires WellFormed(s) && Trashed(s, id) && IsUnskip(s, id) && !s.tasks[id].superseded
    requires Rewind(s, id, done).Ok? && Rewind(s, id, done).value.state.tasks.Keys == s.tasks.Keys
    ensures RewindResult(s, id, Rewind(s, id, done).value)
  {
    hide WellFormed, Sound, ActiveWalk, Reconcile, FirstFollower, MovedRows, PreviousDues, TaskEvents, RewoundRow, LiveLinks,
         Superseded, RewindOutcome;
    var live := FirstFollower(s, id);
    ActiveRowsExist(s, live);
    var walk, day := ActiveWalk(s, live), s.tasks[id].due.value;
    var mid := Superseded(OnDay(s, Elems(walk), day), id);
    RewoundWellFormed(s, id, Elems(walk), day);
    RewoundRows(s, id, walk, day);
    ReconcileSpawned(mid, [live], done);
    var r := Rewind(s, id, done).value;
    var settled := Reconcile(mid, [live], done).value;
    assert r.state.tasks == settled.tasks;
    SpawnedNothing(mid, settled);
    assert live in walk;
    OutcomeOf(s, id, live, walk, day, r.state);
    SupersededProjects(s, id, Elems(walk), day);
  }

  lemma SupersededProjects(s: State, id: int, rows: set<int>, day: Date)
    requires id in s.tasks
    ensures Superseded(OnDay(s, rows, day), id).projects == s.projects
  {
  }

  lemma OutcomeOf(s: State, id: int, live: int, walk: seq<int>, day: Date, t: State)
    requires Trashed(s, id) && s.tasks[id].series.Some? && s.tasks[id].due == Some(day)
    requires (forall x :: x in walk ==> Live(s, x)) && Distinct(walk) && live in walk && live in Followers(s, id)
    requires t.tasks == Superseded(OnDay(s, Elems(walk), day), id).tasks
    ensures RewindOutcome(s, id, live, walk, day, t)
  {
    RewoundRows(s, id, walk, day);
    hide Superseded, OnDay, RewoundRow, LiveLinks;
  }

  lemma SpawnedNothing(a: State, b: State)
    requires Spawned(a, b) && b.tasks.Keys == a.tasks.Keys
    ensures b.tasks == a.tasks && b.projects == a.projects
  {
    forall x | x in b.tasks ensures x in a.tasks && b.tasks[x] == a.tasks[x] {
      assert x in b.tasks.Keys;
    }
  }
}
