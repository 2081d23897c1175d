/**
 What a restore brings back and what its undo takes away again, row by row and field by field
 (backend/app/services/task_trash.py, backend/app/services/projects.py).
 */
module UndoEffects {
  import opened Common
  import opened Calendar
  import opened Store
  import opened TaskRecurrence
  import opened Tasks
  import opened TaskTrash
  import opened Projects
  import opened RestoreUndo
  import opened Effects
  import RunLog
  import Forest

  // ---- restoring ----------------------------------------------------------------------------------

  /** A row back in use: live, of no cascade and no archive, filed where it was if that project is live. */
  predicate BackAs(s: State, t: Task, u: Task) {
    u == t.(deleted := false, skipped := false, withTask := None, withProject := None,
            project := if t.project in s.projects && !s.projects[t.project].deleted then t.project else 1)
  }

  /** A trashed row the delete or skip of `id` took along, and no un-skip has retired. */
  predicate TakenBy(s: State, x: int, id: int) {
    x in s.tasks && s.tasks[x].deleted && s.tasks[x].withTask == Some(id) && !s.tasks[x].superseded
  }

  /**
   A restore in place brings back the row, and with a skipped row what its skip took; no other row
   changes. The receipt names exactly the rows that came back and the event the restore ended with.
   */
  lemma RestoredRows(s: State, id: int, done: Oracle, x: int)
    requires WellFormed(s) && Trashed(s, id) && !s.tasks[id].superseded && x in s.tasks
    requires s.tasks[id].skipped ==> forall y :: TakenBy(s, y, id) && y != id ==> !s.tasks[y].skipped
    requires PlainRestore(s, id, false, done).Ok?
    ensures var t, r := PlainRestore(s, id, false, done).value.state, PlainRestore(s, id, false, done).value.receipt;
            var back := x == id || (s.tasks[id].skipped && TakenBy(s, x, id));
            && x in t.tasks && (if back then BackAs(s, s.tasks[x], t.tasks[x]) else t.tasks[x] == s.tasks[x])
            && (x in r.restored <==> back) && r.task == id && r.eventId == |t.events| && r.skipped == s.tasks[id].skipped
            && r.priorRoot == s.tasks[id].withTask && r.unskip.None?
  {
    CascadeIs(s, id, x);
    assert forall y :: y in CascadeOf(s, id) ==> y in s.tasks && !s.tasks[y].skipped by {
      forall y | y in CascadeOf(s, id) ensures y in s.tasks && !s.tasks[y].skipped {
        CascadeIs(s, id, y);
      }
    }
    PlainOutcome(s, id, false, done);
    assert x in Sorted(CascadeOf(s, id)) <==> x in CascadeOf(s, id);
    hide WellFormed, Sound, PlainRestore, Restores, CascadeOf, Sorted, TakenBy;
  }

  lemma CascadeIs(s: State, id: int, x: int)
    requires Trashed(s, id)
    ensures x in CascadeOf(s, id) <==> s.tasks[id].skipped && TakenBy(s, x, id) && x != id
  {
  }

  /** Restoring a subtree brings back the row and what its delete took, nothing else, and counts what it took. */
  lemma SubtreeRows(s: State, id: int, done: Oracle, x: int)
    requires WellFormed(s) && Trashed(s, id) && !IsUnskip(s, id) && x in s.tasks
    requires forall y :: TakenBy(s, y, id) && y != id ==> !s.tasks[y].skipped
    requires s.tasks[id].withTask != Some(id) && RestoreSubtree(s, id, done).Ok?
    ensures var r := RestoreSubtree(s, id, done).value;
            && x in r.0.tasks && r.1 == id
            && (if x == id || TakenBy(s, x, id) then BackAs(s, s.tasks[x], r.0.tasks[x]) else r.0.tasks[x] == s.tasks[x])
            && r.2 == |set y | y in s.tasks && TakenBy(s, y, id)|
  {
    var root := RestoreTask(s, id, true, done);
    assert !s.tasks[id].superseded && root == PlainRestore(s, id, true, done);
    forall y ensures y in CascadeOf(s, id) <==> s.tasks[id].skipped && TakenBy(s, y, id) && y != id { CascadeIs(s, id, y); }
    RootRows(s, id, done);
    var mid := root.value.state;
    var rest := RestoreMarked(mid, Sorted(Marked(mid, id)), done);
    MarkedAfterRoot(s, id, mid);
    forall y | y in Sorted(Marked(mid, id)) ensures y in Pending(mid) && !mid.tasks[y].skipped {
      InPending(mid, y);
    }
    MarkedPlain(mid, Sorted(Marked(mid, id)), done);
    SubtreeTail(s, id, mid, rest.value.0, done, x);
  }

  /** The root's own restore, which leaves the reconcile to the caller. */
  lemma RootRows(s: State, id: int, done: Oracle)
    requires WellFormed(s) && Trashed(s, id) && !s.tasks[id].superseded
    requires forall y :: y in CascadeOf(s, id) ==> y in s.tasks && !s.tasks[y].skipped
    requires PlainRestore(s, id, true, done).Ok?
    ensures var r := PlainRestore(s, id, true, done).value;
            WellFormed(r.state) && r.state.tasks == ReviveAll(s, CascadeOf(s, id) + {id}) && r.state.projects == s.projects && r.task == id
  {
    hide WellFormed, Sound, Pending, RestoreMarked, Marked;
    CascadeRows(s, id);
    var revived := ReviveRow(s, id);
    RevivedWellFormed(s, id);
    RevivedPending(s, id);
    var ids := Sorted(CascadeOf(s, id));
    assert Elems(ids) == CascadeOf(s, id);
    MarkedPlain(revived, ids, done);
    ReviveNone(revived);
    ReviveBoth(s, id);
  }

  lemma MarkedAfterRoot(s: State, id: int, mid: State)
    requires Trashed(s, id) && s.tasks[id].withTask != Some(id)
    requires forall y :: y in CascadeOf(s, id) <==> s.tasks[id].skipped && TakenBy(s, y, id) && y != id
    requires forall y :: TakenBy(s, y, id) && y != id ==> !s.tasks[y].skipped
    requires mid.tasks == ReviveAll(s, CascadeOf(s, id) + {id})
    ensures forall y :: y in Marked(mid, id) <==> !s.tasks[id].skipped && TakenBy(s, y, id) && y != id
    ensures forall y :: y in Marked(mid, id) ==> Trashed(mid, y) && !mid.tasks[y].superseded && mid.tasks[y] == s.tasks[y] && !mid.tasks[y].skipped
  {
    hide CascadeOf;
    assert mid.tasks.Keys == s.tasks.Keys;
    forall y ensures y in Marked(mid, id) <==> !s.tasks[id].skipped && TakenBy(s, y, id) && y != id {
      if y in s.tasks { assert y in mid.tasks.Keys; }
    }
  }

  lemma SubtreeTail(s: State, id: int, mid: State, rest: State, done: Oracle, x: int)
    requires WellFormed(s) && Trashed(s, id) && s.tasks[id].withTask != Some(id) && x in s.tasks
    requires RestoreTask(s, id, true, done).Ok? && mid == RestoreTask(s, id, true, done).value.state && RestoreTask(s, id, true, done).value.task == id
    requires forall y :: y in CascadeOf(s, id) <==> s.tasks[id].skipped && TakenBy(s, y, id) && y != id
    requires mid.tasks == ReviveAll(s, CascadeOf(s, id) + {id}) && mid.projects == s.projects
    requires forall y :: y in Marked(mid, id) <==> !s.tasks[id].skipped && TakenBy(s, y, id) && y != id
    requires RestoreMarked(mid, Sorted(Marked(mid, id)), done).Ok? && rest == RestoreMarked(mid, Sorted(Marked(mid, id)), done).value.0
    requires rest.tasks == ReviveAll(mid, Elems(Sorted(Marked(mid, id)))) && RestoreSubtree(s, id, done).Ok?
    ensures var r := RestoreSubtree(s, id, done).value;
            && x in r.0.tasks && r.1 == id
            && (if x == id || TakenBy(s, x, id) then BackAs(s, s.tasks[x], r.0.tasks[x]) else r.0.tasks[x] == s.tasks[x])
            && r.2 == |set y | y in s.tasks && TakenBy(s, y, id)|
  {
    hide *;
    RestAll(s, id, mid, rest);
    TookLive(s, id, rest);
    TookIs(s, id, rest);
    SubtreeUnfolds(s, id, mid, rest, done);
    ReconcileRows(rest, [id] + Sorted(set y | y in s.tasks && TakenBy(s, y, id)), done);
    SortedSize(set y | y in s.tasks && TakenBy(s, y, id));
  }

  lemma TookLive(s: State, id: int, rest: State)
    requires forall y :: y in s.tasks ==>
               && y in rest.tasks
               && (if y == id || TakenBy(s, y, id) then BackAs(s, s.tasks[y], rest.tasks[y]) else rest.tasks[y] == s.tasks[y])
    ensures forall y :: y in Marked(s, id) && Live(rest, y) <==> y in s.tasks && TakenBy(s, y, id)
  {
  }

  lemma TookIs(s: State, id: int, rest: State)
    requires forall y :: y in Marked(s, id) && Live(rest, y) <==> y in s.tasks && TakenBy(s, y, id)
    ensures (set y | y in Marked(s, id) && Live(rest, y)) == set y | y in s.tasks && TakenBy(s, y, id)
  {
    hide Marked, Live, TakenBy;
  }

  lemma SubtreeUnfolds(s: State, id: int, mid: State, rest: State, done: Oracle)
    requires WellFormed(s) && Trashed(s, id) && RestoreTask(s, id, true, done).Ok?
    requires mid == RestoreTask(s, id, true, done).value.state && RestoreTask(s, id, true, done).value.task == id
    requires RestoreMarked(mid, Sorted(Marked(mid, id)), done).Ok? && rest == RestoreMarked(mid, Sorted(Marked(mid, id)), done).value.0
    requires RestoreSubtree(s, id, done).Ok?
    ensures var back := Sorted(set y | y in Marked(s, id) && Live(rest, y));
            && WellFormed(rest) && (forall q :: q in [id] + back ==> q in rest.tasks) && Reconcile(rest, [id] + back, done).Ok?
            && RestoreSubtree(s, id, done).value == (Reconcile(rest, [id] + back, done).value, id, |back|)
  {
    hide WellFormed, Sound, Reconcile, RestoreMarked, RestoreTask, Marked;
    assert forall y :: y in mid.tasks ==> y in rest.tasks;
  }

  lemma RestAll(s: State, id: int, mid: State, rest: State)
    requires Trashed(s, id) && s.tasks[id].withTask != Some(id)
    requires forall y :: y in CascadeOf(s, id) <==> s.tasks[id].skipped && TakenBy(s, y, id) && y != id
    requires mid.tasks == ReviveAll(s, CascadeOf(s, id) + {id}) && mid.projects == s.projects
    requires forall y :: y in Marked(mid, id) <==> !s.tasks[id].skipped && TakenBy(s, y, id) && y != id
    requires rest.tasks == ReviveAll(mid, Elems(Sorted(Marked(mid, id))))
    ensures forall y :: y in s.tasks ==>
              && y in rest.tasks
              && (if y == id || TakenBy(s, y, id) then BackAs(s, s.tasks[y], rest.tasks[y]) else rest.tasks[y] == s.tasks[y])
  {
    hide CascadeOf, Sorted, Marked, TakenBy, BackAs, ReviveAll;
    forall y | y in s.tasks
      ensures y in rest.tasks
      ensures if y == id || TakenBy(s, y, id) then BackAs(s, s.tasks[y], rest.tasks[y]) else rest.tasks[y] == s.tasks[y]
    {
      assert y in Elems(Sorted(Marked(mid, id))) <==> y in Marked(mid, id);
      RestOne(s, mid, rest, CascadeOf(s, id) + {id}, Elems(Sorted(Marked(mid, id))), y);
    }
  }

  /** Two batches brought back one after the other leave a row as one of them, or neither, does. */
  lemma RestOne(s: State, mid: State, rest: State, first: set<int>, second: set<int>, y: int)
    requires y in s.tasks && mid.tasks == ReviveAll(s, first) && mid.projects == s.projects && rest.tasks == ReviveAll(mid, second)
    requires y !in first || y !in second
    ensures y in rest.tasks && if y in first || y in second then BackAs(s, s.tasks[y], rest.tasks[y]) else rest.tasks[y] == s.tasks[y]
  {
  }

  lemma SortedSize(s: set<int>)
    ensures |Sorted(s)| == |s|
    decreases |s|
  {
    if s != {} { SortedSize(s - {Least(s)}); }
  }

  // ---- undoing ------------------------------------------------------------------------------------

  /** The receipt is of the newest `restored` event of its task. */
  ghost predicate OfNewestRestore(s: State, r: Receipt) {
    && 1 <= r.eventId <= |s.events|
    && s.events[r.eventId - 1].entity == TaskEntity && s.events[r.eventId - 1].entityId == r.task && s.events[r.eventId - 1].action == Restored
    && forall i :: r.eventId <= i < |s.events| && s.events[i].entity == TaskEntity && s.events[i].entityId == r.task ==> s.events[i].action != Restored
  }

  /** Nothing happened since to the rows the restore brought back, and they are all still live. */
  ghost predicate Untouched(s: State, r: Receipt) {
    && |r.restored| > 0 && r.restored[0] == r.task && (forall i, j :: 0 <= i < j < |r.restored| ==> r.restored[i] != r.restored[j])
    && (forall x :: x in r.restored ==> x in s.tasks && !s.tasks[x].deleted)
    && forall i :: 0 <= i < |s.events| && r.eventId <= i && s.events[i].entity == TaskEntity ==> s.events[i].entityId !in r.restored
  }

  /** An undo of a restore in place is refused for exactly these reasons; past them only the roll-forward can fail it. */
  lemma PlainUndoAcceptedIff(s: State, r: Receipt, done: Oracle)
    requires WellFormed(s) && r.unskip.None?
    ensures !(OfNewestRestore(s, r) && Untouched(s, r)) ==> UndoTaskRestore(s, r, done) == Err(UndoConflict)
    ensures OfNewestRestore(s, r) && Untouched(s, r) ==>
              Accepts(s, r) && (UndoTaskRestore(s, r, done).Ok? ==> forall x :: x in s.tasks ==> x in UndoTaskRestore(s, r, done).value.tasks)
  {
    assert BoundToRestore(s, r) <==> OfNewestRestore(s, r);
    TouchedIs(s, r);
    assert AcceptsPlain(s, r) <==> Untouched(s, r) by { hide TouchedAfter; }
    hide BoundToRestore, AcceptsPlain, OfNewestRestore, Untouched;
    if Accepts(s, r) {
      RetrashedWellFormed(s, r) by { assert AcceptsPlain(s, r); AllLive(s, r); }
      AllLive(s, r);
      ReconcileRows(Retrashed(s, r), Outside(SeedsOf(s, Reversed(r.restored)), Elems(r.restored)), done);
      hide WellFormed, Reconcile, SeedsOf, Outside, RetrashedRow, RetrashEvents;
      assert forall x :: x in s.tasks ==> x in Retrashed(s, r).tasks;
    }
  }

  lemma AllLive(s: State, r: Receipt)
    requires AcceptsPlain(s, r)
    ensures forall x :: x in r.restored ==> x in s.tasks
  {
  }

  lemma TouchedIs(s: State, r: Receipt)
    ensures TouchedAfter(s.events, Elems(r.restored), r.eventId)
            <==> exists i :: 0 <= i < |s.events| && r.eventId <= i && s.events[i].entity == TaskEntity && s.events[i].entityId in r.restored
  {
  }

  /** Undoing a restore in place puts back exactly the rows of the receipt, and on the root what it was stamped and skipped as. */
  lemma RetrashedRows(s: State, r: Receipt, done: Oracle, x: int)
    requires WellFormed(s) && r.unskip.None? && x in s.tasks && UndoTaskRestore(s, r, done).Ok?
    ensures var t := UndoTaskRestore(s, r, done).value;
            && x in t.tasks
            && (x !in r.restored ==> t.tasks[x] == s.tasks[x])
            && (x in r.restored && x != r.task ==> t.tasks[x] == s.tasks[x].(deleted := true, withTask := Some(r.task)))
            && (x in r.restored && x == r.task ==>
                  t.tasks[x] == s.tasks[x].(
                    deleted := true,
                    skipped := r.skipped || s.tasks[x].skipped,
                    withTask := if r.priorRoot.Some? && (Trashed(s, r.priorRoot.value) || r.priorRoot.value in r.restored) then r.priorRoot else None))
  {
    AllLive(s, r) by { assert Accepts(s, r); }
    RetrashedWellFormed(s, r);
    ReconcileRows(Retrashed(s, r), Outside(SeedsOf(s, Reversed(r.restored)), Elems(r.restored)), done);
    hide WellFormed, Reconcile, SeedsOf, Outside, RetrashEvents, Accepts, Reversed;
    assert x in Retrashed(s, r).tasks;
  }

  /** The last entry of the receipt for a row is the one that counts. */
  ghost predicate LastEntry(previous: seq<Rescheduled>, x: int, due: Option<Date>) {
    exists i :: 0 <= i < |previous| && previous[i] == Rescheduled(x, due) && forall j :: i < j < |previous| ==> previous[j].task != x
  }

  ghost predicate Listed(previous: seq<Rescheduled>, x: int) {
    exists i :: 0 <= i < |previous| && previous[i].task == x
  }

  lemma {:induction false} EntryIs(previous: seq<Rescheduled>, x: int)
    ensures x in PreviousMap(previous) <==> Listed(previous, x)
    ensures x in PreviousMap(previous) ==> LastEntry(previous, x, PreviousMap(previous)[x])
  {
    if previous != [] {
      var n := |previous| - 1;
      EntryIs(previous[..n], x);
      OneMoreEntry(previous[..n], previous[n], x);
      assert previous == previous[..n] + [previous[n]];
      hide Listed, LastEntry;
    }
  }

  lemma OneMoreEntry(rest: seq<Rescheduled>, p: Rescheduled, x: int)
    ensures Listed(rest + [p], x) <==> p.task == x || Listed(rest, x)
    ensures p.task == x ==> LastEntry(rest + [p], x, p.due)
    ensures forall due :: p.task != x && LastEntry(rest, x, due) ==> LastEntry(rest + [p], x, due)
  {
    var all := rest + [p];
    assert all[|rest|] == p;
    if Listed(all, x) && p.task != x {
      var i :| 0 <= i < |all| && all[i].task == x;
      assert rest[i].task == x;
    }
    if Listed(rest, x) {
      var i :| 0 <= i < |rest| && rest[i].task == x;
      assert all[i].task == x;
    }
    if p.task == x { assert all[|rest|] == Rescheduled(x, p.due); }
    forall due | p.task != x && LastEntry(rest, x, due) ensures LastEntry(all, x, due) {
      var k :| 0 <= k < |rest| && rest[k] == Rescheduled(x, due) && forall j :: k < j < |rest| ==> rest[j].task != x;
      assert all[k] == Rescheduled(x, due);
    }
  }

  /** The occurrence still stands on the skipped date, with every listed row, and may go back where the receipt says it was. */
  ghost predicate StillRewound(s: State, task: int, u: Unskip) {
    && task in s.tasks && !s.tasks[task].deleted && s.tasks[task].series.Some? && s.tasks[task].due == Some(u.skippedDue)
    && u.superseded in s.tasks && s.tasks[u.superseded].deleted && s.tasks[u.superseded].superseded
    && s.tasks[u.superseded].series == s.tasks[task].series && s.tasks[u.superseded].due == Some(u.skippedDue)
    && (forall x :: Listed(u.previous, x) ==> InSubtree(s, x, task) && x in s.tasks && s.tasks[x].due == Some(u.skippedDue))
    && (exists d: Date :: LastEntry(u.previous, task, Some(d)) && NoOtherOn(s, task, d))
    && forall x :: x in s.tasks && s.tasks[x].series == s.tasks[task].series && s.tasks[x].due == Some(u.skippedDue) ==> !s.tasks[x].skipped
  }

  ghost predicate NoOtherOn(s: State, task: int, d: Date)
    requires task in s.tasks
  {
    forall x :: x in s.tasks && x != task && s.tasks[x].series == s.tasks[task].series && s.tasks[x].due == Some(d) ==> s.tasks[x].deleted
  }

  /** An undo of an un-skip is refused exactly when the receipt is not of the newest restore or something moved since. */
  lemma UnskipUndoAcceptedIff(s: State, r: Receipt, done: Oracle)
    requires WellFormed(s) && r.unskip.Some?
    ensures UndoTaskRestore(s, r, done).Ok? <==> OfNewestRestore(s, r) && StillRewound(s, r.task, r.unskip.value)
    ensures UndoTaskRestore(s, r, done).Err? ==> UndoTaskRestore(s, r, done) == Err(UndoConflict)
  {
    assert BoundToRestore(s, r) <==> OfNewestRestore(s, r);
    StillRewoundIff(s, r.task, r.unskip.value);
    hide BoundToRestore, OfNewestRestore, WellFormed, Unrewound, AcceptsUnskip, StillRewound;
  }

  lemma StillRewoundIff(s: State, task: int, u: Unskip)
    requires WellFormed(s)
    ensures AcceptsUnskip(s, task, u) <==> StillRewound(s, task, u)
  {
    if Live(s, task) && s.tasks[task].series.Some? {
      forall x ensures x in PreviousMap(u.previous) <==> Listed(u.previous, x) { EntryIs(u.previous, x); }
      EntryIs(u.previous, task);
      ListedBelow(s, task, u);
      GoesBackIff(s, task, u);
    }
    hide WellFormed, ActiveWalk, PreviousMap, LastEntry, Listed, InSubtree, NoOtherOn, FindLiveOn;
  }

  lemma ListedBelow(s: State, task: int, u: Unskip)
    requires WellFormed(s) && Live(s, task)
    ensures forall x :: x in s.tasks ==> (x in ActiveWalk(s, task) <==> InSubtree(s, x, task))
  {
    ActiveWalkShape(s, task);
    hide WellFormed, ActiveWalk, Forest.Subtree, InSubtree;
    forall x | x in s.tasks ensures x in ActiveWalk(s, task) <==> InSubtree(s, x, task) {
      SubtreeIs(s, x, task);
      assert x in ActiveWalk(s, task) <==> x in Elems(ActiveWalk(s, task));
    }
  }

  /** The receipt's own date for the occurrence is free, in the check's words and in the store's. */
  lemma GoesBackIff(s: State, task: int, u: Unskip)
    requires task in s.tasks && s.tasks[task].series.Some?
    ensures (exists d: Date :: LastEntry(u.previous, task, Some(d)) && NoOtherOn(s, task, d))
            <==> var previous := PreviousMap(u.previous);
                 task in previous && previous[task].Some? && FindLiveOn(s, s.tasks[task].series.value, previous[task].value, {task}).None?
  {
    var previous := PreviousMap(u.previous);
    EntryIs(u.previous, task);
    if d: Date :| LastEntry(u.previous, task, Some(d)) && NoOtherOn(s, task, d) {
      LastEntryOnce(u.previous, task, Some(d));
      FreeIs(s, task, d);
    }
    if task in previous && previous[task].Some? { FreeIs(s, task, previous[task].value); }
  }

  lemma LastEntryOnce(previous: seq<Rescheduled>, x: int, due: Option<Date>)
    requires LastEntry(previous, x, due)
    ensures x in PreviousMap(previous) && PreviousMap(previous)[x] == due
  {
    EntryIs(previous, x);
    var i :| 0 <= i < |previous| && previous[i] == Rescheduled(x, due) && forall j :: i < j < |previous| ==> previous[j].task != x;
    assert Listed(previous, x);
  }

  lemma FreeIs(s: State, task: int, d: Date)
    requires task in s.tasks && s.tasks[task].series.Some?
    ensures NoOtherOn(s, task, d) <==> FindLiveOn(s, s.tasks[task].series.value, d, {task}).None?
  {
    var rows := LiveOn(s, s.tasks[task].series.value, d) - {task};
    if NoOtherOn(s, task, d) {
      forall x ensures x !in rows {
      }
      assert rows == {};
    } else {
      var x :| x in s.tasks && x != task && s.tasks[x].series == s.tasks[task].series && s.tasks[x].due == Some(d) && !s.tasks[x].deleted;
      assert x in rows;
    }
  }

  /**
   Undoing an un-skip gives every listed row its last listed date and frees the skipped row, which is
   a skip again, and what its skip took; no other row changes and no project or edge does.
   */
  lemma UnskipUndoneRows(s: State, r: Receipt, done: Oracle, x: int)
    requires WellFormed(s) && r.unskip.Some? && x in s.tasks && UndoTaskRestore(s, r, done).Ok?
    ensures var t, u := UndoTaskRestore(s, r, done).value, r.unskip.value;
            && t.projects == s.projects && t.edges == s.edges && t.tasks.Keys == s.tasks.Keys && x in t.tasks
            && (Listed(u.previous, x) ==> t.tasks[x] == s.tasks[x].(due := t.tasks[x].due) && LastEntry(u.previous, x, t.tasks[x].due))
            && (x == u.superseded ==> t.tasks[x] == s.tasks[x].(superseded := false, skipped := true))
            && (x != u.superseded && s.tasks[x].deleted && s.tasks[x].withTask == Some(u.superseded) ==> t.tasks[x] == s.tasks[x].(superseded := false))
            && (!Listed(u.previous, x) && x != u.superseded && !(s.tasks[x].deleted && s.tasks[x].withTask == Some(u.superseded)) ==>
                  t.tasks[x] == s.tasks[x])
  {
    var u := r.unskip.value;
    EntryIs(u.previous, x);
    assert AcceptsUnskip(s, r.task, u);
    PreviousLive(s, r.task, u);
    hide WellFormed, AcceptsUnskip, PreviousMap, TaskEvents, Sorted, SupersededOf, FirstNamed, LastEntry, Listed;
  }

  lemma PreviousLive(s: State, task: int, u: Unskip)
    requires WellFormed(s) && AcceptsUnskip(s, task, u)
    ensures Trashed(s, u.superseded)
    ensures forall y :: y in PreviousMap(u.previous) ==> Live(s, y)
  {
    ActiveRowsExist(s, task);
    hide WellFormed, ActiveWalk, PreviousMap;
  }

  /** The project's own restore named `x` as moved to the Tasks trash, and the project was not trashed in between. */
  ghost predicate MovedOut(s: State, r: ProjectReceipt, x: int) {
    exists i :: && 0 <= i < |s.events| && i + 1 < r.eventId
                && s.events[i] == Event(Some(r.project), TaskEntity, x, Updated, MovedToTasksTrash)
                && forall j :: i <= j < |s.events| && j + 1 < r.eventId ==>
                     !(s.events[j].entity == ProjectEntity && s.events[j].entityId == r.project && s.events[j].action == Deleted)
  }

  /**
   Undoing a project's restore archives again its live rows and those rows the restore had moved out
   that are still in the trash, filed in it and of no archive; no other row changes.
   */
  lemma ProjectUndoneRows(s: State, r: ProjectReceipt, done: Oracle, x: int)
    requires WellFormed(s) && x in s.tasks && UndoProjectRestore(s, r, done).Ok?
    ensures var t := UndoProjectRestore(s, r, done).value;
            && x in t.tasks && r.project in s.projects && t.projects == s.projects[r.project := s.projects[r.project].(deleted := true)]
            && (!s.tasks[x].deleted && s.tasks[x].project == r.project ==> t.tasks[x] == s.tasks[x].(deleted := true, withProject := Some(r.project)))
            && (s.tasks[x].deleted && s.tasks[x].project == r.project && s.tasks[x].withProject.None? && MovedOut(s, r, x) ==>
                  t.tasks[x] == s.tasks[x].(withProject := Some(r.project)))
            && (s.tasks[x].deleted && !(s.tasks[x].project == r.project && s.tasks[x].withProject.None? && MovedOut(s, r, x)) ==>
                  t.tasks[x] == s.tasks[x])
            && (s.tasks[x].project != r.project ==> t.tasks[x] == s.tasks[x])
  {
    assert AcceptsProjectUndo(s, r);
    RearchivedWellFormed(s, r);
    MovedOutIs(s, r, x);
    var mid := Rearchived(s, r);
    hide WellFormed, AcceptsProjectUndo, LoggedIds, WindowStart, SoftDeleteProject, MovedOut;
    assert x in mid.tasks && LiveProject(mid, r.project);
    ProjectTrashRows(mid, r.project, done, x);
  }

  lemma MovedOutIs(s: State, r: ProjectReceipt, x: int)
    requires 1 <= r.eventId <= |s.events|
    ensures MovedOut(s, r, x)
            <==> x in LoggedIds(s.events, r.project, WindowStart(s.events, r.project, r.eventId), r.eventId, Updated, MovedToTasksTrash)
  {
    var p, start := r.project, WindowStart(s.events, r.project, r.eventId);
    WindowIs(s.events, p, r.eventId);
    hide WindowStart;
    if MovedOut(s, r, x) {
      var i :| && 0 <= i < |s.events| && i + 1 < r.eventId && s.events[i] == Event(Some(p), TaskEntity, x, Updated, MovedToTasksTrash)
               && forall j :: i <= j < |s.events| && j + 1 < r.eventId ==>
                    !(s.events[j].entity == ProjectEntity && s.events[j].entityId == p && s.events[j].action == Deleted);
      assert start <= i;
      assert RestoreShape(s.events[i], p, Updated, MovedToTasksTrash);
    }
  }

  /** The window starts right behind the project's newest `deleted` event before the receipt's. */
  lemma {:induction false} WindowIs(events: seq<Event>, p: int, before: int)
    requires before <= |events| + 1
    ensures var start := WindowStart(events, p, before);
            && (forall j :: start <= j < |events| && j + 1 < before ==>
                  !(events[j].entity == ProjectEntity && events[j].entityId == p && events[j].action == Deleted))
            && (start > 0 ==> start < before && start <= |events|
                              && events[start - 1].entity == ProjectEntity && events[start - 1].entityId == p && events[start - 1].action == Deleted)
    decreases before
  {
    if before > 1 {
      var e := events[before - 2];
      if !(e.entity == ProjectEntity && e.entityId == p && e.action == Deleted) { WindowIs(events, p, before - 1); }
    }
  }
}
