/**
 Restoring a whole subtree and undoing a restore from its receipt, as the services run
 (backend/app/services/task_trash.py).
 */
module SessionUndo {
  import opened Common
  import opened Calendar
  import opened Store
  import opened TaskRecurrence
  import opened Tasks
  import opened TaskTrash
  import RestoreUndo
  import SessionPurge
  import SessionRecurrence
  import SessionRestore
  import SessionTasks
  import Forest

  // ---- the subtree --------------------------------------------------------------------------

  lemma SubtreeIs(s: State, id: int, done: Oracle)
    requires WellFormed(s) && Trashed(s, id)
    ensures var root := RestoreTask(s, id, true, done);
            if root.Err? then RestoreSubtree(s, id, done) == Err(root.error)
            else
              && WellFormed(root.value.state) && (forall x :: x in Sorted(Marked(root.value.state, id)) ==> x in root.value.state.tasks)
              && var rest := RestoreMarked(root.value.state, Sorted(Marked(root.value.state, id)), done);
              if rest.Err? then RestoreSubtree(s, id, done) == Err(rest.error)
              else
                var back := Sorted(set x | x in Marked(s, id) && Live(rest.value.0, x));
                && WellFormed(rest.value.0) && (forall q :: q in [root.value.task] + back ==> q in rest.value.0.tasks)
                && var settled := Reconcile(rest.value.0, [root.value.task] + back, done);
                RestoreSubtree(s, id, done)
                == if settled.Err? then Err(settled.error) else Ok((settled.value, root.value.task, |back|))
  {
    hide WellFormed, Sound, RestoreTask, RestoreMarked, Reconcile, Marked, Pending;
    var root := RestoreTask(s, id, true, done);
    if root.Ok? {
      RestoreUndo.MarkedExist(root.value.state, id);
      RootThere(s, id, root.value);
    }
  }

  lemma RootThere(s: State, id: int, r: Restoration)
    requires Restores(s, id, r)
    ensures WellFormed(r.state) && r.task in r.state.tasks
  {
  }

  /** `restore_task_subtree`. */
  method RestoreTaskSubtree(db: Database, id: int, done: Oracle) returns (raised: Option<Error>, root: int, count: nat)
    requires WellFormed(db.View()) && Trashed(db.View(), id)
    modifies db
    ensures var r := RestoreSubtree(old(db.View()), id, done);
            raised == (if r.Err? then Some(r.error) else None) && (r.Ok? ==> (db.View(), root, count) == r.value)
  {
    hide *;
    SubtreeIs(db.View(), id, done);
    var marked := Marked(db.View(), id);
    var receipt: Receipt;
    count := 0;
    raised, root, receipt := SessionRestore.RestoreTaskWithUndo(db, id, true, done);
    if raised.Some? { return; }
    var ids: seq<int>;
    raised, ids := SessionRestore.RestoreMarkedDescendants(db, id, done);
    if raised.Some? { return; }
    db.Fields();
    var back := Sorted(set x | x in marked && Live(db.View(), x));
    var spawned: seq<int>;
    raised, spawned := SessionRecurrence.Reconcile(db, [root] + back, done);
    count := |back|;
  }

  // ---- putting restored rows back -------------------------------------------------------------

  /** The rows reached so far are in the trash again, all but the root under its marker. */
  function Retrashing(s: State, r: Receipt, rows: seq<int>): State
    requires forall x :: x in rows ==> x in s.tasks
  {
    s.(tasks := map x | x in s.tasks ::
         if x !in rows then s.tasks[x]
         else if x == r.task then s.tasks[x].(deleted := true)
         else s.tasks[x].(deleted := true, withTask := Some(r.task)))
  }

  lemma RetrashOne(s: State, r: Receipt, rows: seq<int>, x: int)
    requires (forall y :: y in rows ==> y in s.tasks) && x in s.tasks && x !in rows
    ensures var t := Retrashing(s, r, rows);
            && x in t.tasks && t.tasks[x] == s.tasks[x] && t.edges == s.edges
            && var row := if x == r.task then t.tasks[x] else t.tasks[x].(withTask := Some(r.task));
            Retrashing(s, r, rows + [x]) == t.(tasks := t.tasks[x := row.(deleted := true)])
  {
    var t, u := Retrashing(s, r, rows), Retrashing(s, r, rows + [x]);
    var row := if x == r.task then t.tasks[x] else t.tasks[x].(withTask := Some(r.task));
    assert u.tasks == t.tasks[x := row.(deleted := true)];
  }

  lemma RetrashNone(s: State, r: Receipt)
    ensures Retrashing(s, r, []) == s
  {
    assert Retrashing(s, r, []).tasks == s.tasks;
  }

  lemma {:induction false} ReversedDistinct(s: seq<int>)
    requires Distinct(s)
    ensures Distinct(Reversed(s))
  {
    if s != [] {
      ReversedDistinct(s[1..]);
      assert s[0] !in s[1..];
    }
  }

  /** The last writes on the root complete the rows of the undo. */
  lemma RetrashAll(s: State, r: Receipt)
    requires (forall x :: x in r.restored ==> x in s.tasks) && r.task in r.restored
    ensures forall x :: x in Reversed(r.restored) ==> x in s.tasks
    ensures var t := Retrashing(s, r, Reversed(r.restored));
            && r.task in t.tasks
            && var prior := if r.priorRoot.Some? && Trashed(t, r.priorRoot.value) then r.priorRoot else None;
            var row := t.tasks[r.task].(withTask := prior);
            Retrashed(s, r).tasks == t.tasks[r.task := if r.skipped then row.(skipped := true) else row]
  {
    var t := Retrashing(s, r, Reversed(r.restored));
    var prior := if r.priorRoot.Some? && Trashed(t, r.priorRoot.value) then r.priorRoot else None;
    var row := t.tasks[r.task].(withTask := prior);
    var done, u := Retrashed(s, r).tasks, t.tasks[r.task := if r.skipped then row.(skipped := true) else row];
    hide Reversed;
    forall x | x in s.tasks ensures done[x] == u[x] {
      assert x in Reversed(r.restored) <==> x in r.restored;
    }
    assert done.Keys == u.Keys;
  }

  lemma {:induction false} RetrashEventsSnoc(s: State, r: Receipt, ids: seq<int>, x: int)
    requires (forall y :: y in ids ==> y in s.tasks) && x in s.tasks
    ensures RetrashEvents(s, r, ids + [x])
         == RetrashEvents(s, r, ids)
            + [TaskEvent(s.tasks[x], x, if x == r.task && r.skipped then SkippedAction else Deleted, Usual)]
  {
    if ids == [] {
      assert ids + [x] == [x];
      assert RetrashEvents(s, r, [x][1..]) == [];
    } else {
      var y := ids[0];
      assert y in ids;
      assert (ids + [x])[0] == y && (ids + [x])[1..] == ids[1..] + [x];
      RetrashEventsSnoc(s, r, ids[1..], x);
    }
  }

  lemma RetrashedParts(s: State, r: Receipt)
    requires forall x :: x in r.restored ==> x in s.tasks
    ensures forall x :: x in Reversed(r.restored) ==> x in s.tasks
    ensures var t := Retrashed(s, r);
            && t.projects == s.projects && t.edges == s.edges
            && t.events == s.events + RetrashEvents(s, r, Reversed(r.restored))
            && (forall x :: x in s.tasks ==> x in t.tasks && t.tasks[x].project == s.tasks[x].project)
  {
  }

  /** The first loop of `_retrash_restored`, checklist rows before the root. */
  method TrashReversed(db: Database, r: Receipt) returns (seeds: seq<int>)
    requires Distinct(r.restored) && forall x :: x in r.restored ==> x in db.tasks
    modifies db`tasks
    ensures (forall x :: x in Reversed(r.restored) ==> x in old(db.View()).tasks)
    ensures db.View() == Retrashing(old(db.View()), r, Reversed(r.restored))
    ensures seeds == SeedsOf(old(db.View()), Reversed(r.restored))
  {
    hide *;
    ghost var s := db.View();
    db.Fields();
    var rows := Reversed(r.restored);
    ReversedDistinct(r.restored);
    assert forall x :: x in rows ==> x in s.tasks;
    RetrashNone(s, r);
    NoSeeds(s);
    seeds := [];
    assert rows[..0] == [];
    for i := 0 to |rows|
      invariant forall x :: x in rows[..i] ==> x in s.tasks
      invariant db.View() == Retrashing(s, r, rows[..i])
      invariant seeds == SeedsOf(s, rows[..i])
    {
      var x := rows[i];
      assert rows[..i + 1] == rows[..i] + [x] && x in rows;
      NotYet(rows, i);
      RetrashOne(s, r, rows[..i], x);
      SessionTasks.SeedsSnoc(s, rows[..i], x);
      db.Fields();
      var row := db.tasks[x];
      if x != r.task { row := row.(withTask := Some(r.task)); }
      row := row.(deleted := true);
      seeds := seeds + Dependents(db.edges, x) + (if row.parent.Some? then [row.parent.value] else []);
      db.tasks := db.tasks[x := row];
      db.Fields();
    }
    assert rows[..|rows|] == rows;
  }

  lemma NotYet(rows: seq<int>, i: nat)
    requires Distinct(rows) && i < |rows|
    ensures rows[i] !in rows[..i]
  {
  }

  lemma NoSeeds(s: State)
    ensures SeedsOf(s, []) == []
  {
  }

  /** The second loop: one event per row. */
  method LogReversed(db: Database, r: Receipt, ghost s: State)
    requires (forall x :: x in r.restored ==> x in s.tasks && x in db.tasks && db.tasks[x].project == s.tasks[x].project)
    modifies db`events
    ensures (forall x :: x in Reversed(r.restored) ==> x in s.tasks)
    ensures db.events == old(db.events) + RetrashEvents(s, r, Reversed(r.restored))
  {
    hide RetrashEvents;
    var rows := Reversed(r.restored);
    hide Reversed;
    assert forall x :: x in rows ==> x in r.restored;
    assert rows[..0] == [];
    NoRetrashEvents(s, r);
    for i := 0 to |rows|
      invariant forall x :: x in rows[..i] ==> x in s.tasks
      invariant db.events == old(db.events) + RetrashEvents(s, r, rows[..i])
    {
      var x := rows[i];
      assert rows[..i + 1] == rows[..i] + [x] && x in rows;
      RetrashEventsSnoc(s, r, rows[..i], x);
      db.Log(TaskEvent(db.tasks[x], x, if x == r.task && r.skipped then SkippedAction else Deleted, Usual));
    }
    assert rows[..|rows|] == rows;
  }

  lemma NoRetrashEvents(s: State, r: Receipt)
    ensures RetrashEvents(s, r, []) == []
  {
  }

  /** `_retrash_restored`. */
  method RetrashRestored(db: Database, r: Receipt, done: Oracle) returns (raised: Option<Error>)
    requires WellFormed(db.View()) && Distinct(r.restored) && r.task in r.restored && forall x :: x in r.restored ==> x in db.tasks
    modifies db
    ensures WellFormed(Retrashed(old(db.View()), r)) && (forall x :: x in Reversed(r.restored) ==> x in old(db.View()).tasks)
    ensures forall q :: q in SeedsOf(old(db.View()), Reversed(r.restored)) ==> q in Retrashed(old(db.View()), r).tasks
    ensures var s := old(db.View());
            var u := Reconcile(Retrashed(s, r), Outside(SeedsOf(s, Reversed(r.restored)), Elems(r.restored)), done);
            raised == (if u.Err? then Some(u.error) else None) && (u.Ok? ==> db.View() == u.value)
  {
    hide *;
    ghost var s := db.View();
    db.Fields();
    RetrashAll(s, r);
    RetrashedParts(s, r);
    RetrashedWellFormed(s, r);
    var seeds := TrashReversed(db, r);
    db.Fields();
    RetrashingFields(s, r, Reversed(r.restored));
    PriorOf(db, r);
    var prior := if r.priorRoot.Some? && Trashed(db.View(), r.priorRoot.value) then r.priorRoot else None;
    var row := db.tasks[r.task].(withTask := prior);
    if r.skipped { row := row.(skipped := true); }
    db.tasks := db.tasks[r.task := row];
    LogReversed(db, r, s);
    db.Fields();
    raised := SessionTasks.ReconcileOutside(db, Outside(seeds, Elems(r.restored)), done);
  }

  lemma RetrashingFields(s: State, r: Receipt, rows: seq<int>)
    requires forall x :: x in rows ==> x in s.tasks
    ensures var t := Retrashing(s, r, rows);
            t.projects == s.projects && t.edges == s.edges && t.events == s.events
  {
  }

  lemma PriorOf(db: Database, r: Receipt)
    ensures r.priorRoot.Some? ==> (Trashed(db.View(), r.priorRoot.value)
                                   <==> r.priorRoot.value in db.tasks && db.tasks[r.priorRoot.value].deleted)
  {
  }

  // ---- moving a rewound series back -------------------------------------------------------------

  function DatedBack(s: State, previous: map<int, Option<Date>>): State {
    s.(tasks := map x | x in s.tasks :: if x in previous then s.tasks[x].(due := previous[x]) else s.tasks[x])
  }

  /** The first rows of the cascade are no longer superseded; those that were have it recorded. */
  function Freed(s: State, rows: seq<int>): State
    requires forall x :: x in rows ==> x in s.tasks
  {
    s.(tasks := map x | x in s.tasks :: if x in rows then s.tasks[x].(superseded := false) else s.tasks[x],
       events := s.events + TaskEvents(s.tasks, SupersededOf(s, rows), Updated, BackNote))
  }

  lemma {:induction false} SupersededSnoc(s: State, ids: seq<int>, x: int)
    requires (forall y :: y in ids ==> y in s.tasks) && x in s.tasks
    ensures SupersededOf(s, ids + [x]) == SupersededOf(s, ids) + (if s.tasks[x].superseded then [x] else [])
  {
    if ids == [] {
      assert ids + [x] == [x];
      assert SupersededOf(s, [x][1..]) == [];
    } else {
      var y := ids[0];
      assert y in ids;
      assert (ids + [x])[0] == y && (ids + [x])[1..] == ids[1..] + [x];
      SupersededSnoc(s, ids[1..], x);
    }
  }

  lemma FreedRow(s: State, rows: seq<int>, x: int)
    requires (forall y :: y in rows ==> y in s.tasks) && x in s.tasks && x !in rows
    ensures var t := Freed(s, rows);
            && x in t.tasks && t.tasks[x] == s.tasks[x]
            && Freed(s, rows + [x]).tasks == t.tasks[x := s.tasks[x].(superseded := false)]
  {
    hide TaskEvents, SupersededOf;
    var t, u := Freed(s, rows), Freed(s, rows + [x]);
    var v := t.tasks[x := s.tasks[x].(superseded := false)];
    forall y | y in s.tasks ensures u.tasks[y] == v[y] {
      assert y in rows + [x] <==> y in rows || y == x;
    }
    assert u.tasks == v;
  }

  lemma FreedLog(s: State, rows: seq<int>, x: int)
    requires (forall y :: y in rows ==> y in s.tasks) && x in s.tasks
    ensures Freed(s, rows + [x]).events
         == Freed(s, rows).events + (if s.tasks[x].superseded then [TaskEvent(s.tasks[x], x, Updated, BackNote)] else [])
  {
    SupersededSnoc(s, rows, x);
    var back := SupersededOf(s, rows);
    if s.tasks[x].superseded { SessionPurge.TaskEventsSnoc(s.tasks, back, x, Updated, BackNote); } else { assert back + [] == back; }
    hide TaskEvents, SupersededOf;
  }

  lemma FreeOne(s: State, rows: seq<int>, x: int)
    requires (forall y :: y in rows ==> y in s.tasks) && x in s.tasks && x !in rows
    ensures var t := Freed(s, rows);
            && x in t.tasks && t.tasks[x] == s.tasks[x]
            && (!t.tasks[x].superseded ==> Freed(s, rows + [x]) == t)
            && var row := t.tasks[x].(superseded := false);
            (t.tasks[x].superseded ==>
               Freed(s, rows + [x]) == t.(tasks := t.tasks[x := row], events := t.events + [TaskEvent(row, x, Updated, BackNote)]))
  {
    FreedRow(s, rows, x);
    FreedLog(s, rows, x);
    FreedRest(s, rows);
    FreedRest(s, rows + [x]);
    hide Freed;
    var t, u := Freed(s, rows), Freed(s, rows + [x]);
    if !t.tasks[x].superseded { assert u.tasks == t.tasks; }
  }

  lemma FreedRest(s: State, rows: seq<int>)
    requires forall y :: y in rows ==> y in s.tasks
    ensures Freed(s, rows).projects == s.projects && Freed(s, rows).edges == s.edges
  {
  }

  lemma FreedNone(s: State)
    ensures Freed(s, []) == s
  {
    assert Freed(s, []).tasks == s.tasks;
    assert SupersededOf(s, []) == [];
  }

  /** The loop over the cascade of the original, which is not in it. */
  method FreeCascade(db: Database, rows: seq<int>)
    requires Distinct(rows) && forall x :: x in rows ==> x in db.tasks
    modifies db`tasks, db`events
    ensures forall x :: x in rows ==> x in old(db.View()).tasks
    ensures db.View() == Freed(old(db.View()), rows)
  {
    hide *;
    ghost var s := db.View();
    db.Fields();
    FreedNone(s);
    assert rows[..0] == [];
    for i := 0 to |rows|
      invariant forall x :: x in rows[..i] ==> x in s.tasks
      invariant db.View() == Freed(s, rows[..i])
    {
      var x := rows[i];
      assert rows[..i + 1] == rows[..i] + [x] && x in rows;
      NotYet(rows, i);
      FreeOne(s, rows[..i], x);
      db.Fields();
      if !db.tasks[x].superseded { continue; }
      db.tasks := db.tasks[x := db.tasks[x].(superseded := false)];
      db.Log(TaskEvent(db.tasks[x], x, Updated, BackNote));
      db.Fields();
    }
    assert rows[..|rows|] == rows;
  }

  lemma CascadeFacts(s: State, u: Unskip)
    requires Trashed(s, u.superseded) && forall x :: x in PreviousMap(u.previous) ==> x in s.tasks
    ensures var moved := DatedBack(s, PreviousMap(u.previous));
            && (forall x :: x in FirstNamed(u.previous) ==> x in s.tasks && x in moved.tasks)
            && moved.projects == s.projects && moved.edges == s.edges && moved.events == s.events
            && (forall x :: x in s.tasks ==> x in moved.tasks && moved.tasks[x].project == s.tasks[x].project)
            && var logged := moved.(events := moved.events + TaskEvents(moved.tasks, FirstNamed(u.previous), Updated, Usual));
            && Distinct(Sorted(Stamped(logged, u.superseded)) )
            && (forall x :: x in Sorted(Stamped(logged, u.superseded)) ==> x in logged.tasks)
  {
    hide TaskEvents;
    forall x | x in FirstNamed(u.previous) ensures x in s.tasks {
      var p :| p in u.previous && p.task == x;
    }
  }

  /** Everything but the last event of an un-skip's undo. */
  lemma UnrewoundIs(s: State, u: Unskip)
    requires Trashed(s, u.superseded) && forall x :: x in PreviousMap(u.previous) ==> x in s.tasks
    ensures var moved := DatedBack(s, PreviousMap(u.previous));
            && (forall x :: x in FirstNamed(u.previous) ==> x in moved.tasks)
            && var logged := moved.(events := moved.events + TaskEvents(moved.tasks, FirstNamed(u.previous), Updated, Usual));
            var rows := Sorted(Stamped(logged, u.superseded));
            && (forall x :: x in rows ==> x in logged.tasks)
            && var freed := Freed(logged, rows);
            && u.superseded in freed.tasks
            && var row := freed.tasks[u.superseded].(superseded := false, skipped := freed.tasks[u.superseded].deleted);
            Unrewound(s, u)
            == freed.(tasks := freed.tasks[u.superseded := row],
                      events := freed.events + [TaskEvent(row, u.superseded, SkippedAction, Usual)])
  {
    CascadeFacts(s, u);
    var moved := DatedBack(s, PreviousMap(u.previous));
    var logged := moved.(events := moved.events + TaskEvents(moved.tasks, FirstNamed(u.previous), Updated, Usual));
    SameStamps(moved, logged, u.superseded);
    var rows := Sorted(Stamped(moved, u.superseded));
    SameSuperseded(moved, logged, rows);
    hide TaskEvents, SupersededOf, PreviousMap, FirstNamed, Sorted;
    var freed := Freed(logged, rows);
    var row := freed.tasks[u.superseded].(superseded := false, skipped := freed.tasks[u.superseded].deleted);
    FreedTasks(moved, freed.tasks, rows, u.superseded, Unrewound(s, u).tasks);
  }

  lemma SameStamps(s: State, t: State, root: int)
    requires t.tasks == s.tasks
    ensures Stamped(t, root) == Stamped(s, root)
  {
  }

  lemma {:induction false} SameSuperseded(s: State, t: State, ids: seq<int>)
    requires t.tasks == s.tasks && forall x :: x in ids ==> x in s.tasks
    ensures SupersededOf(t, ids) == SupersededOf(s, ids)
  {
    if ids != [] {
      var x := ids[0];
      assert x in ids;
      SameSuperseded(s, t, ids[1..]);
    }
  }

  lemma FreedTasks(moved: State, freed: map<int, Task>, rows: seq<int>, original: int, after: map<int, Task>)
    requires original in moved.tasks && (forall x :: x in rows <==> x in Stamped(moved, original))
    requires freed == map x | x in moved.tasks :: if x in rows then moved.tasks[x].(superseded := false) else moved.tasks[x]
    requires after == map x | x in moved.tasks :: UnsupersededRow(moved, original, x)
    ensures var t := freed[original];
            after == freed[original := t.(superseded := false, skipped := t.deleted)]
  {
    var u := freed[original := freed[original].(superseded := false, skipped := freed[original].deleted)];
    forall x | x in moved.tasks ensures after[x] == u[x] {
    }
    assert after.Keys == u.Keys;
  }

  /** The writes of `_undo_unskip`, once its checks have passed. */
  method MoveBack(db: Database, unskip: Unskip)
    requires Trashed(db.View(), unskip.superseded) && forall x :: x in PreviousMap(unskip.previous) ==> x in db.tasks
    modifies db`tasks, db`events
    ensures Trashed(old(db.View()), unskip.superseded)
    ensures forall x :: x in PreviousMap(unskip.previous) ==> x in old(db.View()).tasks
    ensures db.View() == Unrewound(old(db.View()), unskip)
  {
    hide *;
    ghost var s := db.View();
    db.Fields();
    CascadeFacts(s, unskip);
    UnrewoundIs(s, unskip);
    DateRows(db, PreviousMap(unskip.previous));
    db.Fields();
    SessionPurge.LogTasks(db, FirstNamed(unskip.previous), Updated, Usual);
    db.Fields();
    var rows := Sorted(Stamped(db.View(), unskip.superseded));
    FreeCascade(db, rows);
    db.Fields();
    var row := db.tasks[unskip.superseded];
    row := row.(superseded := false, skipped := row.deleted);
    db.tasks := db.tasks[unskip.superseded := row];
    db.Log(TaskEvent(row, unskip.superseded, SkippedAction, Usual));
    db.Fields();
  }

  method DateRows(db: Database, previous: map<int, Option<Date>>)
    requires forall x :: x in previous ==> x in db.tasks
    modifies db`tasks
    ensures db.View() == DatedBack(old(db.View()), previous)
  {
    ghost var tasks := db.tasks;
    ghost var s := db.View();
    var keys := Sorted(previous.Keys);
    DatedNone(tasks, previous, keys);
    DatedAll(s, previous, keys);
    assert Distinct(keys) && forall i :: 0 <= i < |keys| ==> keys[i] in previous && keys[i] in tasks;
    hide *;
    db.Fields();
    for i := 0 to |keys|
      invariant db.tasks == Dated(tasks, previous, keys[..i])
    {
      DatedOne(tasks, previous, keys, i);
      var row := db.tasks[keys[i]];
      db.tasks := db.tasks[keys[i] := row.(due := previous[keys[i]])];
    }
    assert keys[..|keys|] == keys;
    db.Fields();
  }

  /** The rows with the dates of the first few keys written. */
  function Dated(tasks: map<int, Task>, previous: map<int, Option<Date>>, keys: seq<int>): map<int, Task>
  {
    map x | x in tasks :: if x in keys && x in previous then tasks[x].(due := previous[x]) else tasks[x]
  }

  lemma DatedNone(tasks: map<int, Task>, previous: map<int, Option<Date>>, keys: seq<int>)
    ensures Dated(tasks, previous, keys[..0]) == tasks
  {
  }

  lemma DatedOne(tasks: map<int, Task>, previous: map<int, Option<Date>>, keys: seq<int>, i: nat)
    requires i < |keys| && Distinct(keys) && keys[i] in previous && keys[i] in tasks
    ensures keys[i] in Dated(tasks, previous, keys[..i])
    ensures Dated(tasks, previous, keys[..i + 1])
         == Dated(tasks, previous, keys[..i])[keys[i] := Dated(tasks, previous, keys[..i])[keys[i]].(due := previous[keys[i]])]
  {
    assert keys[..i + 1] == keys[..i] + [keys[i]];
    NotYet(keys, i);
  }

  lemma DatedAll(s: State, previous: map<int, Option<Date>>, keys: seq<int>)
    requires (forall x :: x in previous ==> x in s.tasks) && forall x :: x in keys <==> x in previous
    ensures s.(tasks := Dated(s.tasks, previous, keys)) == DatedBack(s, previous)
  {
    var a, b := Dated(s.tasks, previous, keys), DatedBack(s, previous).tasks;
    forall x | x in s.tasks ensures a[x] == b[x] {
    }
    assert a == b;
  }

  // ---- the whole undo ----------------------------------------------------------------------------

  /** The checks of `_undo_unskip`, on the subtree it has just read. */
  predicate UnskipChecks(s: State, task: int, u: Unskip, subtree: seq<int>)
    requires Live(s, task)
  {
    && s.tasks[task].series.Some? && s.tasks[task].due == Some(u.skippedDue)
    && Trashed(s, u.superseded) && s.tasks[u.superseded].superseded
    && s.tasks[u.superseded].series == s.tasks[task].series && s.tasks[u.superseded].due == Some(u.skippedDue)
    && var previous, series := PreviousMap(u.previous), s.tasks[task].series.value;
    && task in previous && previous[task].Some?
    && (forall x :: x in previous ==> x in subtree && x in s.tasks && s.tasks[x].due == Some(u.skippedDue))
    && FindLiveOn(s, series, previous[task].value, {task}).None?
    && !SkippedOn(s, series, u.skippedDue)
  }

  lemma UnskipChecksExact(s: State, task: int, u: Unskip)
    requires WellFormed(s) && Live(s, task)
    ensures UnskipChecks(s, task, u, ActiveWalk(s, task)) <==> AcceptsUnskip(s, task, u)
    ensures AcceptsUnskip(s, task, u) ==>
              Trashed(s, u.superseded) && forall x :: x in PreviousMap(u.previous) ==> x in s.tasks
  {
    hide WellFormed, Sound, ActiveWalk, FindLiveOn, SkippedOn, PreviousMap;
  }

  lemma WalkReady(s: State, task: int)
    requires WellFormed(s) && Live(s, task)
    ensures Forest.OffCycle(LiveLinks(s.tasks), task) && ActiveWalk(s, task) == Forest.PreOrder(LiveLinks(s.tasks), task)
  {
    LiveLinksOffCycle(s, task);
    hide WellFormed, Sound;
  }

  lemma UndoIs(s: State, r: Receipt, done: Oracle)
    requires WellFormed(s)
    ensures !BoundToRestore(s, r) ==> UndoTaskRestore(s, r, done) == Err(UndoConflict)
    ensures BoundToRestore(s, r) && r.unskip.Some? ==>
              if !(Live(s, r.task) && AcceptsUnskip(s, r.task, r.unskip.value)) then UndoTaskRestore(s, r, done) == Err(UndoConflict)
              else
                && Trashed(s, r.unskip.value.superseded) && (forall x :: x in PreviousMap(r.unskip.value.previous) ==> x in s.tasks)
                && UndoTaskRestore(s, r, done) == Ok(Unrewound(s, r.unskip.value))
    ensures BoundToRestore(s, r) && r.unskip.None? ==>
              if !PlainChecks(s, r) then UndoTaskRestore(s, r, done) == Err(UndoConflict)
              else
                && r.task in r.restored && Distinct(r.restored) && (forall x :: x in r.restored ==> x in s.tasks)
                && WellFormed(Retrashed(s, r)) && (forall x :: x in Reversed(r.restored) ==> x in s.tasks)
                && (forall q :: q in SeedsOf(s, Reversed(r.restored)) ==> q in Retrashed(s, r).tasks)
                && UndoTaskRestore(s, r, done)
                   == Reconcile(Retrashed(s, r), Outside(SeedsOf(s, Reversed(r.restored)), Elems(r.restored)), done)
  {
    hide WellFormed, Sound, ActiveWalk, FindLiveOn, SkippedOn, PreviousMap, TouchedAfter, Retrashed, Unrewound, Reconcile, SeedsOf, Reversed,
         BoundToRestore;
    if BoundToRestore(s, r) && r.unskip.None? && PlainChecks(s, r) {
      assert r.restored[0] in r.restored;
      RetrashedWellFormed(s, r);
    }
  }

  /** The checks on a receipt of a restore in place. */
  predicate PlainChecks(s: State, r: Receipt) {
    && r.restored != [] && r.restored[0] == r.task && Distinct(r.restored)
    && (forall x :: x in r.restored ==> Live(s, x))
    && !TouchedAfter(s.events, Elems(r.restored), r.eventId)
  }

  /** `undo_task_restore`. */
  method UndoRestore(db: Database, r: Receipt, done: Oracle) returns (raised: Option<Error>)
    requires WellFormed(db.View())
    modifies db
    ensures var u := UndoTaskRestore(old(db.View()), r, done);
            raised == (if u.Err? then Some(u.error) else None) && (u.Ok? ==> db.View() == u.value)
  {
    hide *;
    UndoIs(db.View(), r, done);
    db.Fields();
    if !BoundToRestore(db.View(), r) { return Some(UndoConflict); }
    if r.unskip.Some? {
      var u := r.unskip.value;
      if !Live(db.View(), r.task) { return Some(UndoConflict); }
      UnskipChecksExact(db.View(), r.task, u);
      WalkReady(db.View(), r.task);
      var subtree := SessionRestore.ActiveSubtree(db, r.task);
      if !UnskipChecks(db.View(), r.task, u, subtree) { return Some(UndoConflict); }
      MoveBack(db, u);
      return None;
    }
    if !PlainChecks(db.View(), r) { return Some(UndoConflict); }
    raised := RetrashRestored(db, r, done);
  }
}
