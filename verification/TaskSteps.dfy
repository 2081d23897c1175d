/**
 Every task-level step of the store keeps the joint invariant: trashing, skipping, restoring,
 undoing a restore and purging.
 */
module TaskSteps {
  import opened Common
  import opened Calendar
  import opened Store
  import opened TaskRecurrence
  import opened Tasks
  import opened TaskTrash
  import opened Invariant
  import TaskPurge
  import RestoreUndo
  import Forest

  ghost predicate Keeps(r: Result<State, Error>) {
    r.Ok? ==> Consistent(r.value)
  }

  lemma ConsistentWellFormed(s: State)
    requires Consistent(s)
    ensures WellFormed(s)
  {
    hide WellFormed, Sound, Filed, UniqueSlots, FlatSeries, FeedClean, Archived;
  }

  // ---- trashing and skipping -------------------------------------------------------

  lemma ReconcileConsistent(s: State, seeds: seq<int>, done: Oracle)
    requires Consistent(s) && forall q :: q in seeds ==> q in s.tasks
    ensures Keeps(Reconcile(s, seeds, done))
  {
    ReconcileKeeps(s, seeds, done);
    hide Core, Archived;
  }

  lemma SoftDeleteTaskKeeps(s: State, id: int, done: Oracle)
    requires Consistent(s) && Live(s, id)
    ensures Keeps(SoftDeleteTask(s, id, done))
  {
    var rows := Descendants(s, id) + [id];
    SeedsExist(s, rows);
    CascadedKeeps(s, rows, id);
    var mid := Cascaded(s, rows, id);
    hide Core, Archived, Descendants, SeedsOf;
    assert forall q :: q in Outside(SeedsOf(s, rows), Elems(rows)) ==> q in mid.tasks;
    ReconcileConsistent(mid, Outside(SeedsOf(s, rows), Elems(rows)), done);
  }

  lemma SweepDescendantsKeeps(s: State, id: int, done: Oracle)
    requires Consistent(s) && id in s.tasks
    ensures Keeps(SoftDeleteDescendants(s, id, done))
  {
    var rows := Descendants(s, id);
    SeedsExist(s, rows);
    CascadedKeeps(s, rows, id);
    var mid := Cascaded(s, rows, id);
    hide Core, Archived, Descendants, SeedsOf;
    assert forall q :: q in Outside(SeedsOf(s, rows), Elems(rows) + {id}) ==> q in mid.tasks;
    ReconcileConsistent(mid, Outside(SeedsOf(s, rows), Elems(rows) + {id}), done);
  }

  lemma SkipKeeps(s: State, id: int, done: Oracle)
    requires Consistent(s) && Live(s, id)
    ensures SkipOccurrence(s, id, done).Ok? ==> Consistent(SkipOccurrence(s, id, done).value.0)
  {
    if SkipOccurrence(s, id, done).Ok? {
      CreateNextSpawned(s, id, done);
      CreateNextUnique(s, id, done);
      hide WellFormed, Sound, Filed, UniqueSlots, FlatSeries, FeedClean, Spawned, Archived, CreateNext, SoftDeleteDescendants, MarkSkipped;
      var next := CreateNext(s, id, done).value.0;
      SpawnKeeps(s, next);
      SweepDescendantsKeeps(next, id, done);
      SweptKeeps(next, id, done);
      SkippedKeeps(SoftDeleteDescendants(next, id, done).value, id);
    }
  }

  // ---- restoring -------------------------------------------------------------------------

  /** One trashed row coming back keeps everything when its slot is free. */
  lemma ReviveKeeps(s: State, id: int)
    requires Consistent(s) && Trashed(s, id)
    requires var t := s.tasks[id];
             t.series.Some? && t.due.Some? ==> FindLiveOn(s, t.series.value, t.due.value, {id}).None?
    ensures Consistent(ReviveRow(s, id))
  {
    var t := ReviveRow(s, id);
    RevivedWellFormed(s, id);
    SameParentsFlat(s.tasks, t.tasks);
    RestoreUndo.GeneralIsLive(s);
    hide WellFormed, Sound, FlatSeries, FeedClean;
    forall x | Live(t, x) ensures LiveProject(t, t.tasks[x].project) {
      if x != id { assert Live(s, x); }
    }
    forall x | x in t.tasks && t.tasks[x].withProject.Some? ensures ArchivedRow(t, t.tasks[x]) {
      assert ArchivedRow(s, s.tasks[x]);
    }
    ReviveUnique(s, id);
  }

  lemma ReviveUnique(s: State, id: int)
    requires UniqueSlots(s) && Trashed(s, id)
    requires var t := s.tasks[id];
             t.series.Some? && t.due.Some? ==> FindLiveOn(s, t.series.value, t.due.value, {id}).None?
    ensures UniqueSlots(ReviveRow(s, id))
  {
    var t := ReviveRow(s, id);
    forall x, y | Live(t, x) && Live(t, y) && SameSlot(t.tasks[x], t.tasks[y]) ensures x == y {
      var r := s.tasks[id];
      if x == id { Projects.NobodyOn(s, r.series.value, r.due.value, id, y); }
      else if y == id { Projects.NobodyOn(s, r.series.value, r.due.value, id, x); }
      else { assert Live(s, x) && Live(s, y) && SameSlot(s.tasks[x], s.tasks[y]); }
    }
  }

  /** Below a row of a series no active row has a series. */
  lemma PlainBelow(s: State, root: int, x: int)
    requires WellFormed(s) && FlatSeries(s.tasks) && Live(s, root) && s.tasks[root].series.Some?
    requires x in ActiveWalk(s, root) && x != root
    ensures x in s.tasks && s.tasks[x].series.None?
  {
    ActiveWalkShape(s, root);
    hide WellFormed, Sound, ActiveWalk;
    assert x in Elems(ActiveWalk(s, root));
    var k: nat :| Forest.Climbs(LiveLinks(s.tasks), x, k, root);
    Forest.FewerLinks(LiveLinks(s.tasks), ParentLinks(s.tasks), x, k, root);
    FlatPair(s.tasks, x, root, k);
  }

  /** Two stores that differ in dates and trash flags only. */
  ghost predicate OnlyMoves(s: State, t: State) {
    && t.projects == s.projects && t.edges == s.edges && (forall x :: x in t.tasks <==> x in s.tasks)
    && (forall x :: x in s.tasks ==>
          && t.tasks[x].parent == s.tasks[x].parent && t.tasks[x].repeat == s.tasks[x].repeat
          && t.tasks[x].series == s.tasks[x].series && t.tasks[x].project == s.tasks[x].project
          && t.tasks[x].withProject == s.tasks[x].withProject && t.tasks[x].deleted == s.tasks[x].deleted)
  }

  lemma OnlyMovesKeeps(s: State, t: State)
    requires Consistent(s) && OnlyMoves(s, t) && s.events <= t.events && UniqueSlots(t)
    requires forall p, i :: p in s.projects && s.projects[p].deleted && |s.events| <= i < |t.events| ==> Quiet(t.events[i], p)
    ensures Consistent(t)
  {
    SameShapeWellFormed(s, t);
    SameParentsFlat(s.tasks, t.tasks);
    FeedAppend(s.projects, s.events, t.events);
    hide WellFormed, Sound, FlatSeries, FeedClean, Quiet, UniqueSlots;
    forall x | Live(t, x) ensures LiveProject(t, t.tasks[x].project) {
      assert Live(s, x);
    }
    forall x | x in t.tasks && t.tasks[x].withProject.Some? ensures ArchivedRow(t, t.tasks[x]) {
      assert ArchivedRow(s, s.tasks[x]);
    }
  }

  /** The rewind moves one live row of the series, onto a date it alone will hold. */
  lemma RewindUnique(s: State, id: int, t: State)
    requires Consistent(s) && Trashed(s, id) && IsUnskip(s, id)
    requires var live := FirstFollower(s, id);
             var walk, day := ActiveWalk(s, live), s.tasks[id].due.value;
             RestoreUndo.RewindOutcome(s, id, live, walk, day, t)
    ensures UniqueSlots(t)
  {
    hide WellFormed, Sound, Filed, FlatSeries, FeedClean, Archived, ActiveWalk, LiveLinks, FirstFollower;
    var live := FirstFollower(s, id);
    var walk, day := ActiveWalk(s, live), s.tasks[id].due.value;
    forall x, y | Live(t, x) && Live(t, y) && SameSlot(t.tasks[x], t.tasks[y]) ensures x == y {
      assert x in s.tasks.Keys && y in s.tasks.Keys;
      assert t.tasks[x] == RestoreUndo.RewoundRow(s, id, walk, day, x);
      assert t.tasks[y] == RestoreUndo.RewoundRow(s, id, walk, day, y);
      if x in walk && x != live { PlainBelow(s, live, x); }
      if y in walk && y != live { PlainBelow(s, live, y); }
      if x != live && y != live {
        assert Live(s, x) && Live(s, y) && SameSlot(s.tasks[x], s.tasks[y]);
      } else if x != y {
        AloneOnDay(s, id, live, if x == live then y else x);
      }
    }
  }

  lemma AloneOnDay(s: State, id: int, live: int, other: int)
    requires UniqueSlots(s) && Trashed(s, id) && IsUnskip(s, id) && live == FirstFollower(s, id) && Live(s, other)
    requires s.tasks[other].series == s.tasks[id].series && s.tasks[other].due == s.tasks[id].due
    ensures other == live
  {
    assert other in Followers(s, id);
    assert SameSlot(s.tasks[live], s.tasks[other]);
  }

  lemma RewoundConsistent(s: State, id: int)
    requires Consistent(s) && Trashed(s, id) && IsUnskip(s, id)
    ensures var live := FirstFollower(s, id);
            var rows, day := Elems(ActiveWalk(s, live)), s.tasks[id].due.value;
            Consistent(Superseded(OnDay(s, rows, day), id))
            && Live(Superseded(OnDay(s, rows, day), id), live)
  {
    var live := FirstFollower(s, id);
    ActiveRowsExist(s, live);
    var walk, day := ActiveWalk(s, live), s.tasks[id].due.value;
    var mid := Superseded(OnDay(s, Elems(walk), day), id);
    assert live in walk;
    RestoreUndo.OutcomeOf(s, id, live, walk, day, mid);
    RewindUnique(s, id, mid);
    hide Core, Archived, ActiveWalk, FirstFollower, UniqueSlots, LiveLinks;
    MovedOnly(s, id, Elems(walk), day);
    OnlyMovesKeeps(s, mid);
  }

  lemma MovedOnly(s: State, id: int, rows: set<int>, day: Date)
    requires id in s.tasks
    ensures var mid := Superseded(OnDay(s, rows, day), id);
            OnlyMoves(s, mid) && s.events <= mid.events
            && forall p, i :: |s.events| <= i < |mid.events| ==> Quiet(mid.events[i], p)
  {
    hide Sorted;
  }

  lemma {:induction false} RestoreKeeps(s: State, id: int, deferred: bool, done: Oracle)
    requires Consistent(s) && Trashed(s, id)
    ensures var r := RestoreTask(s, id, deferred, done);
            r.Ok? ==> Consistent(r.value.state)
    decreases |Pending(s)|, 1, 0
  {
    var t := s.tasks[id];
    hide Core, Archived, Restores, PlainRestore, Rewind;
    if t.superseded {
    } else if IsUnskip(s, id) {
      RewindConsistent(s, id, done);
    } else if !(t.series.Some? && t.due.Some? && FindLiveOn(s, t.series.value, t.due.value, {id}).Some?) {
      PlainConsistent(s, id, deferred, done);
    }
  }

  lemma RewindConsistent(s: State, id: int, done: Oracle)
    requires Consistent(s) && Trashed(s, id) && IsUnskip(s, id)
    ensures Rewind(s, id, done).Ok? ==> Consistent(Rewind(s, id, done).value.state)
  {
    ConsistentWellFormed(s);
    hide Core, Archived, ActiveWalk, Reconcile, FirstFollower, Superseded, OnDay, MovedRows, PreviousDues, LatestRestored, Restores;
    var live := FirstFollower(s, id);
    ActiveRowsExist(s, live);
    var walk, day := ActiveWalk(s, live), s.tasks[id].due.value;
    RewoundConsistent(s, id);
    RewoundWellFormed(s, id, Elems(walk), day);
    var mid := Superseded(OnDay(s, Elems(walk), day), id);
    ReconcileKeeps(mid, [live], done);
    var r := Rewind(s, id, done);
    if r.Ok? {
      var settled := Reconcile(mid, [live], done).value;
      assert settled.tasks[live] == mid.tasks[live];
      RewindLogs(settled, Without(MovedRows(s.tasks, walk, day), live), live, r.value.state);
    }
  }

  lemma RewindLogs(s: State, moved: seq<int>, live: int, t: State)
    requires Consistent(s) && Live(s, live) && forall x :: x in moved ==> x in s.tasks
    requires t == LogTask(s.(events := s.events + TaskEvents(s.tasks, moved, Updated, Usual)), live, Restored)
    ensures Consistent(t)
  {
    hide WellFormed, Sound, UniqueSlots, FlatSeries, FeedClean, Archived;
    LogKeepsCore(s, t);
  }

  lemma {:induction false} PlainConsistent(s: State, id: int, deferred: bool, done: Oracle)
    requires Consistent(s) && Trashed(s, id) && !s.tasks[id].superseded
    requires var t := s.tasks[id];
             t.series.Some? && t.due.Some? ==> FindLiveOn(s, t.series.value, t.due.value, {id}).None?
    ensures PlainRestore(s, id, deferred, done).Ok? ==> Consistent(PlainRestore(s, id, deferred, done).value.state)
    decreases |Pending(s)|, 0, 1
  {
    ConsistentWellFormed(s);
    hide Core, Archived, Settle, ReviveRow, Marked, Restores, Pending, LatestRestored, Sorted, RestoreMarked;
    var revived := ReviveRow(s, id);
    RevivedWellFormed(s, id);
    RestoreUndo.MarkedExist(revived, id);
    var r := PlainRestore(s, id, deferred, done);
    if r.Ok? {
      var ids := Sorted(Marked(revived, id));
      var back := if s.tasks[id].skipped then RestoreMarked(revived, ids, done) else Ok((revived, []));
      BackKeeps(s, id, done);
      PlainTail(back.value.0, id, [id] + back.value.1, deferred, done);
    }
  }

  lemma {:induction false} BackKeeps(s: State, id: int, done: Oracle)
    requires Consistent(s) && Trashed(s, id) && !s.tasks[id].superseded
    requires var t := s.tasks[id];
             t.series.Some? && t.due.Some? ==> FindLiveOn(s, t.series.value, t.due.value, {id}).None?
    ensures var revived := ReviveRow(s, id);
            var ids := Sorted(Marked(revived, id));
            && WellFormed(revived) && (forall x :: x in ids ==> x in revived.tasks)
            && var back := if s.tasks[id].skipped then RestoreMarked(revived, ids, done) else Ok((revived, []));
            back.Ok? ==> Consistent(back.value.0) && Live(back.value.0, id)
                         && forall q :: q in [id] + back.value.1 ==> q in back.value.0.tasks
    decreases |Pending(s)|, 0, 0
  {
    ConsistentWellFormed(s);
    hide Core, Archived, ReviveRow, Marked, Pending, Sorted, RestoreMarked;
    var revived := ReviveRow(s, id);
    ReviveKeeps(s, id);
    RevivedWellFormed(s, id);
    RevivedPending(s, id);
    RevivedIsLive(s, id);
    RestoreUndo.MarkedExist(revived, id);
    var ids := Sorted(Marked(revived, id));
    MarkedKeeps(revived, ids, done);
    RestoreUndo.MarkedProgress(revived, ids, done);
    if s.tasks[id].skipped && RestoreMarked(revived, ids, done).Ok? {
      StaysLive(revived, RestoreMarked(revived, ids, done).value.0, id);
    }
  }

  lemma PlainTail(s: State, id: int, seeds: seq<int>, deferred: bool, done: Oracle)
    requires Consistent(s) && Live(s, id) && forall q :: q in seeds ==> q in s.tasks
    ensures var settled := Settle(s, seeds, deferred, done);
            settled.Ok? ==> id in settled.value.tasks && Consistent(LogTask(settled.value, id, Restored))
  {
    SettleConsistent(s, seeds, deferred, done);
    hide Core, Archived, Settle;
    var settled := Settle(s, seeds, deferred, done);
    if settled.Ok? {
      assert settled.value.tasks[id] == s.tasks[id];
      RewindLogs(settled.value, [], id, LogTask(settled.value, id, Restored));
    }
  }

  lemma RevivedIsLive(s: State, id: int)
    requires id in s.tasks
    ensures Live(ReviveRow(s, id), id)
  {
  }

  lemma StaysLive(a: State, b: State, id: int)
    requires Live(a, id) && RestoreUndo.Progress(a, b)
    ensures Live(b, id)
  {
    assert id in b.tasks;
  }

  lemma SettleConsistent(s: State, seeds: seq<int>, deferred: bool, done: Oracle)
    requires Consistent(s) && forall q :: q in seeds ==> q in s.tasks
    ensures var r := Settle(s, seeds, deferred, done);
            r.Ok? ==> Consistent(r.value) && Spawned(s, r.value)
  {
    ReconcileKeeps(s, seeds, done);
    SpawnedRefl(s);
    hide Core, Archived, Spawned;
  }

  lemma {:induction false} MarkedKeeps(s: State, ids: seq<int>, done: Oracle)
    requires Consistent(s) && forall x :: x in ids ==> x in s.tasks
    ensures var r := RestoreMarked(s, ids, done);
            r.Ok? ==> Consistent(r.value.0)
    decreases |Pending(s)|, 1, |ids|
  {
    ConsistentWellFormed(s);
    hide Core, Archived, RestoreTask, Restores, Pending;
    if ids != [] && RestoreMarked(s, ids, done).Ok? {
      var x := ids[0];
      assert x in ids;
      if x !in Pending(s) { MarkedKeeps(s, ids[1..], done); } else {
        RestoreUndo.InPending(s, x);
        var first := RestoreTask(s, x, true, done).value;
        RestoreShrinks(s, x, true, done);
        RestoreKeeps(s, x, true, done);
        MarkedKeeps(first.state, ids[1..], done);
      }
    }
  }

  lemma SubtreeKeeps(s: State, id: int, done: Oracle)
    requires Consistent(s) && Trashed(s, id)
    ensures RestoreSubtree(s, id, done).Ok? ==> Consistent(RestoreSubtree(s, id, done).value.0)
  {
    ConsistentWellFormed(s);
    hide Core, Archived, RestoreTask, Restores, Pending, RestoreMarked, Marked;
    RestoreKeeps(s, id, true, done);
    if RestoreSubtree(s, id, done).Ok? {
      var root := RestoreTask(s, id, true, done).value;
      RestoresTask(s, id, root);
      SubtreeTail(s, id, root, done);
    }
  }

  lemma RestoresTask(s: State, id: int, root: Restoration)
    requires Restores(s, id, root)
    ensures WellFormed(root.state) && root.task in root.state.tasks
  {
  }

  lemma SubtreeTail(s: State, id: int, root: Restoration, done: Oracle)
    requires Consistent(root.state) && root.task in root.state.tasks
    requires WellFormed(s) && Trashed(s, id)
    ensures var ids := Sorted(Marked(root.state, id));
            && (forall x :: x in ids ==> x in root.state.tasks)
            && var rest := RestoreMarked(root.state, ids, done);
            rest.Ok? ==>
              var back := Sorted(set x | x in Marked(s, id) && Live(rest.value.0, x));
              && (forall q :: q in [root.task] + back ==> q in rest.value.0.tasks)
              && Keeps(Reconcile(rest.value.0, [root.task] + back, done))
  {
    ConsistentWellFormed(root.state);
    hide Core, Archived, RestoreMarked, Restores, Pending, Marked;
    RestoreUndo.MarkedExist(root.state, id);
    var ids := Sorted(Marked(root.state, id));
    MarkedKeeps(root.state, ids, done);
    var rest := RestoreMarked(root.state, ids, done);
    if rest.Ok? {
      var back := Sorted(set x | x in Marked(s, id) && Live(rest.value.0, x));
      assert root.task in rest.value.0.tasks.Keys;
      ReconcileConsistent(rest.value.0, [root.task] + back, done);
    }
  }

  // ---- undoing -----------------------------------------------------------------------------

  lemma UndoKeeps(s: State, r: Receipt, done: Oracle)
    requires Consistent(s)
    ensures Keeps(UndoTaskRestore(s, r, done))
  {
    if Accepts(s, r) {
      if r.unskip.None? {
        RetrashKeeps(s, r);
        RetrashedWellFormed(s, r);
        hide Core, Archived, Retrashed, Accepts, SeedsOf;
        ReconcileConsistent(Retrashed(s, r), Outside(SeedsOf(s, Reversed(r.restored)), Elems(r.restored)), done);
      } else {
        UnrewindKeeps(s, r.task, r.unskip.value);
      }
    }
  }

  lemma RetrashKeeps(s: State, r: Receipt)
    requires Consistent(s) && forall x :: x in r.restored ==> Live(s, x)
    ensures Consistent(Retrashed(s, r))
  {
    hide Core, Reversed;
    var t := Retrashed(s, r);
    assert forall x :: x in Reversed(r.restored) ==> x in r.restored;
    RetrashQuiet(s, r);
    OnlyTrashesKeeps(s, t);
    forall x | x in t.tasks && t.tasks[x].withProject.Some? ensures ArchivedRow(t, t.tasks[x]) {
      assert ArchivedRow(s, s.tasks[x]);
    }
  }

  lemma RetrashQuiet(s: State, r: Receipt)
    requires forall x :: x in r.restored ==> x in s.tasks
    ensures var t := Retrashed(s, r);
            s.events <= t.events && forall p, i :: |s.events| <= i < |t.events| ==> Quiet(t.events[i], p)
  {
    RetrashEventsQuiet(s, r, Reversed(r.restored));
  }

  lemma {:induction false} RetrashEventsQuiet(s: State, r: Receipt, ids: seq<int>)
    requires forall x :: x in ids ==> x in s.tasks
    ensures forall p, i :: 0 <= i < |ids| ==> Quiet(RetrashEvents(s, r, ids)[i], p)
  {
    if ids != [] {
      var x := ids[0];
      assert x in ids;
      RetrashEventsQuiet(s, r, ids[1..]);
      var rest := RetrashEvents(s, r, ids[1..]);
      forall p, i | 0 <= i < |ids| ensures Quiet(RetrashEvents(s, r, ids)[i], p) {
        if i > 0 { assert RetrashEvents(s, r, ids)[i] == rest[i - 1]; }
      }
    }
  }

  lemma UnrewindKeeps(s: State, task: int, u: Unskip)
    requires Consistent(s) && AcceptsUnskip(s, task, u)
    ensures Trashed(s, u.superseded) && forall y :: y in PreviousMap(u.previous) ==> y in s.tasks
    ensures Consistent(Unrewound(s, u))
  {
    RestoreUndo.PreviousInStore(s, task, u);
    UnrewindMoves(s, u);
    UnrewindUnique(s, task, u);
    hide Core, Archived, Unrewound, AcceptsUnskip;
    OnlyMovesKeeps(s, Unrewound(s, u));
  }

  lemma UnrewoundDue(s: State, u: Unskip, x: int)
    requires Trashed(s, u.superseded) && (forall y :: y in PreviousMap(u.previous) ==> y in s.tasks) && x in s.tasks
    ensures x in Unrewound(s, u).tasks
    ensures var previous, t := PreviousMap(u.previous), Unrewound(s, u).tasks[x];
            && t.due == (if x in previous then previous[x] else s.tasks[x].due)
            && t.parent == s.tasks[x].parent && t.repeat == s.tasks[x].repeat && t.series == s.tasks[x].series
            && t.project == s.tasks[x].project && t.withProject == s.tasks[x].withProject && t.deleted == s.tasks[x].deleted
  {
    hide PreviousMap, TaskEvents, SupersededOf, FirstNamed, Sorted;
  }

  lemma UnrewindMoves(s: State, u: Unskip)
    requires Trashed(s, u.superseded) && forall y :: y in PreviousMap(u.previous) ==> y in s.tasks
    ensures var t := Unrewound(s, u);
            OnlyMoves(s, t) && s.events <= t.events
            && forall p, i :: |s.events| <= i < |t.events| ==> Quiet(t.events[i], p)
  {
    RestoreUndo.UnrewoundKeys(s, u);
    UnrewoundLog(s, u);
    hide Unrewound, PreviousMap;
    var t := Unrewound(s, u);
    forall x ensures x in t.tasks <==> x in s.tasks {
      assert x in t.tasks.Keys <==> x in s.tasks.Keys;
    }
    forall x | x in s.tasks
      ensures t.tasks[x].parent == s.tasks[x].parent && t.tasks[x].repeat == s.tasks[x].repeat
              && t.tasks[x].series == s.tasks[x].series && t.tasks[x].project == s.tasks[x].project
              && t.tasks[x].withProject == s.tasks[x].withProject && t.tasks[x].deleted == s.tasks[x].deleted
    {
      UnrewoundDue(s, u, x);
    }
  }

  lemma UnrewoundLog(s: State, u: Unskip)
    requires Trashed(s, u.superseded) && forall y :: y in PreviousMap(u.previous) ==> y in s.tasks
    ensures var t := Unrewound(s, u);
            s.events <= t.events && t.edges == s.edges
            && forall p, i :: |s.events| <= i < |t.events| ==> Quiet(t.events[i], p)
  {
    hide PreviousMap, SupersededOf, FirstNamed, Sorted, UnsupersededRow;
  }

  lemma UnrewindUnique(s: State, task: int, u: Unskip)
    requires Consistent(s) && AcceptsUnskip(s, task, u)
    requires Trashed(s, u.superseded) && forall y :: y in PreviousMap(u.previous) ==> y in s.tasks
    ensures UniqueSlots(Unrewound(s, u))
  {
    RestoreUndo.UnrewoundKeys(s, u);
    hide WellFormed, Sound, Filed, FlatSeries, FeedClean, Archived, ActiveWalk, Unrewound, SkippedOn, FindLiveOn;
    var t, previous := Unrewound(s, u), PreviousMap(u.previous);
    var series, target := s.tasks[task].series.value, previous[task].value;
    forall x, y | Live(t, x) && Live(t, y) && SameSlot(t.tasks[x], t.tasks[y]) ensures x == y {
      assert x in s.tasks.Keys && y in s.tasks.Keys;
      UnrewoundDue(s, u, x);
      UnrewoundDue(s, u, y);
      if x in previous && x != task { PlainBelow(s, task, x); }
      if y in previous && y != task { PlainBelow(s, task, y); }
      if x == task { Projects.NobodyOn(s, series, target, task, y); }
      else if y == task { Projects.NobodyOn(s, series, target, task, x); }
      else { assert Live(s, x) && Live(s, y) && SameSlot(s.tasks[x], s.tasks[y]); }
    }
  }

  // ---- purging -----------------------------------------------------------------------------

  /** Destroying trashed rows keeps everything. */
  lemma PurgeKeeps(s: State, id: int)
    requires Consistent(s) && Trashed(s, id)
    ensures Consistent(TaskPurge.PurgeTask(s, id))
  {
    TaskPurge.PurgeWellFormed(s, id);
    PurgeQuiet(s, id);
    hide TaskPurge.PurgeTask, TaskPurge.Doomed;
    SurvivorsKeep(s, TaskPurge.Doomed(s, id), TaskPurge.PurgeTask(s, id));
  }

  lemma PurgeQuiet(s: State, id: int)
    requires WellFormed(s) && id in s.tasks
    ensures var t := TaskPurge.PurgeTask(s, id);
            s.events <= t.events && forall p, i :: |s.events| <= i < |t.events| ==> Quiet(t.events[i], p)
  {
    hide WellFormed, Sound, TaskPurge.PurgeOrder, TaskPurge.SeveredDependents, TaskPurge.SeveredBlockers, TaskPurge.Detached, Sorted,
         TaskPurge.Survivors, TaskPurge.EdgesWithout;
  }

  lemma SurvivorsKeep(s: State, ids: set<int>, t: State)
    requires Consistent(s) && WellFormed(t) && t.projects == s.projects && s.events <= t.events
    requires t.tasks == TaskPurge.Survivors(s.tasks, ids)
    requires forall p, i :: |s.events| <= i < |t.events| ==> Quiet(t.events[i], p)
    ensures Consistent(t)
  {
    SameParentsFlat(s.tasks, t.tasks);
    FeedAppend(s.projects, s.events, t.events);
    hide WellFormed, Sound, FlatSeries, FeedClean, Quiet;
    forall x | Live(t, x) ensures LiveProject(t, t.tasks[x].project) {
      assert Live(s, x);
    }
    forall x, y | Live(t, x) && Live(t, y) && SameSlot(t.tasks[x], t.tasks[y]) ensures x == y {
      assert Live(s, x) && Live(s, y) && SameSlot(s.tasks[x], s.tasks[y]);
    }
    forall x | x in t.tasks && t.tasks[x].withProject.Some? ensures ArchivedRow(t, t.tasks[x]) {
      assert ArchivedRow(s, s.tasks[x]);
    }
  }
}
