/**
 What trashing, restoring and un-restoring a project keep, and that an undo recomputes from the
 event log exactly what the restore did.
 */
module ProjectSteps {
  import opened Common
  import opened Store
  import opened TaskRecurrence
  import opened Tasks
  import opened Projects
  import opened Invariant
  import Forest

  // ---- trashing ---------------------------------------------------------------------

  /** Every archive stamp is in order, but for those of a project about to go. */
  ghost predicate ArchivedBut(s: State, p: int) {
    forall x :: x in s.tasks && s.tasks[x].withProject.Some? ==>
      ArchivedRow(s, s.tasks[x]) || (s.tasks[x].withProject == Some(p) && s.tasks[x].deleted && s.tasks[x].project == p)
  }

  lemma SweptKeeps(s: State, p: int)
    requires Core(s) && ArchivedBut(s, p)
    ensures var t := Swept(s, p);
            && Core(t) && ArchivedBut(t, p) && LiveIn(t, p) == {}
            && (forall q :: q in Outside(SeedsOf(s, Sorted(LiveIn(s, p))), LiveIn(s, p)) ==> q in t.tasks)
  {
    hide Sorted;
    var t := Swept(s, p);
    SweptWellFormed(s, p);
    OnlyTrashesKeeps(s, t);
    hide Core, SeedsOf;
    forall x | x in t.tasks && t.tasks[x].withProject.Some?
      ensures ArchivedRow(t, t.tasks[x]) || (t.tasks[x].withProject == Some(p) && t.tasks[x].deleted && t.tasks[x].project == p)
    {
      if x !in LiveIn(s, p) { assert t.tasks[x] == s.tasks[x]; }
    }
  }

  /** No spawned row is filed where nothing was live. */
  lemma NothingSpawnedInto(a: State, b: State, p: int)
    requires Spawned(a, b) && LiveIn(a, p) == {}
    ensures LiveIn(b, p) == {}
  {
    forall y | y in a.tasks && !a.tasks[y].deleted ensures a.tasks[y].project != p {
      assert y !in LiveIn(a, p);
    }
    forall x | x in b.tasks && !b.tasks[x].deleted ensures b.tasks[x].project != p {
      if x in a.tasks { assert b.tasks[x] == a.tasks[x]; } else { assert b.tasks[x].project in FiledLive(a); }
    }
  }

  lemma SpawnKeepsArchivedBut(a: State, b: State, p: int)
    requires Spawned(a, b) && ArchivedBut(a, p)
    ensures ArchivedBut(b, p)
  {
    forall x | x in b.tasks && b.tasks[x].withProject.Some?
      ensures ArchivedRow(b, b.tasks[x]) || (b.tasks[x].withProject == Some(p) && b.tasks[x].deleted && b.tasks[x].project == p)
    {
      assert x in a.tasks;
      assert b.tasks[x] == a.tasks[x];
    }
  }

  /** The last write of a project delete: nothing of it is live, so it may go. */
  lemma GoneKeeps(s: State, p: int)
    requires Core(s) && ArchivedBut(s, p) && LiveIn(s, p) == {} && p in s.projects && !s.projects[p].protected
    ensures Consistent(LogProject(SetDeleted(s, p, true), p, Deleted))
  {
    SetDeletedWellFormed(s, p, true);
    var mid := SetDeleted(s, p, true);
    var t := LogProject(mid, p, Deleted);
    TaskTrash.LogKeepsWellFormed(mid, t);
    GoneFeed(s, p, t);
    hide WellFormed, Sound, FlatSeries, FeedClean;
    forall x | Live(t, x) ensures LiveProject(t, t.tasks[x].project) {
      assert Live(s, x);
      assert x !in LiveIn(s, p);
    }
    forall x | x in t.tasks && t.tasks[x].withProject.Some? ensures ArchivedRow(t, t.tasks[x]) {
      assert ArchivedRow(s, s.tasks[x]) || s.tasks[x].withProject == Some(p);
    }
    assert UniqueSlots(t) by {
      forall x, y | Live(t, x) && Live(t, y) && SameSlot(t.tasks[x], t.tasks[y]) ensures x == y {
        assert Live(s, x) && Live(s, y) && SameSlot(s.tasks[x], s.tasks[y]);
      }
    }
  }

  lemma GoneFeed(s: State, p: int, t: State)
    requires FeedClean(s.projects, s.events) && p in s.projects
    requires t.projects == s.projects[p := s.projects[p].(deleted := true)] && t.events == s.events + [ProjectEvent(p, Deleted)]
    ensures FeedClean(t.projects, t.events)
  {
    assert LastDeleted(t.events, p) == |t.events|;
    forall q, i | q in t.projects && t.projects[q].deleted && LastDeleted(t.events, q) <= i < |t.events| ensures Quiet(t.events[i], q) {
      LastDeletedGrows(s.events, t.events, q);
      if i < |s.events| { assert t.events[i] == s.events[i]; }
    }
  }

  lemma SoftDeleteKeeps(s: State, p: int, done: Oracle)
    requires Core(s) && ArchivedBut(s, p) && p in s.projects
    ensures WellFormed(s)
    ensures var r := SoftDeleteProject(s, p, done);
            r.Ok? ==> Consistent(r.value)
  {
    SweptKeeps(s, p);
    SweptWellFormed(s, p);
    CoreWellFormed(s);
    CoreWellFormed(Swept(s, p));
    hide Core, ArchivedBut, Swept, Reconcile, Consistent, SetDeleted, LogProject, SeedsOf, LiveIn, Sorted;
    var mid := Swept(s, p);
    var seeds := Outside(SeedsOf(s, Sorted(LiveIn(s, p))), LiveIn(s, p));
    ReconcileKeeps(mid, seeds, done);
    if SoftDeleteProject(s, p, done).Ok? {
      var settled := Reconcile(mid, seeds, done).value;
      NothingSpawnedInto(mid, settled, p);
      SpawnKeepsArchivedBut(mid, settled, p);
      SweptProjects(s, p);
      GoneKeeps(settled, p);
    }
  }

  lemma CoreWellFormed(s: State)
    requires Core(s)
    ensures WellFormed(s)
  {
    hide WellFormed, Sound, Filed, UniqueSlots, FlatSeries, FeedClean;
  }

  lemma SweptProjects(s: State, p: int)
    ensures Swept(s, p).projects == s.projects
  {
  }

  lemma SoftDeleteProjectKeeps(s: State, p: int, done: Oracle)
    requires Consistent(s) && p in s.projects
    ensures var r := SoftDeleteProject(s, p, done);
            r.Ok? ==> Consistent(r.value)
  {
    assert ArchivedBut(s, p) by { hide Core; }
    SoftDeleteKeeps(s, p, done);
  }

  // ---- restoring ----------------------------------------------------------------------

  /** Two stores that differ, in their rows, in trash flags and archive stamps only. */
  ghost predicate SameRowsBut(s: State, t: State) {
    && t.edges == s.edges && (forall x :: x in t.tasks <==> x in s.tasks)
    && (forall x :: x in s.tasks ==>
          t.tasks[x].(deleted := s.tasks[x].deleted, withProject := s.tasks[x].withProject) == s.tasks[x])
  }

  /** A project coming back with its stamps cleared keeps everything, when the slots stay apart. */
  lemma ReopenKeeps(s: State, p: int, t: State)
    requires Consistent(s) && p in s.projects && SameRowsBut(s, t) && WellFormed(t) && UniqueSlots(t)
    requires t.projects == s.projects[p := s.projects[p].(deleted := false)]
    requires forall x :: x in t.tasks ==> t.tasks[x].withProject != Some(p)
    requires forall x :: x in t.tasks && t.tasks[x].project != p ==>
               t.tasks[x].deleted == s.tasks[x].deleted && t.tasks[x].withProject == s.tasks[x].withProject
    requires forall x :: x in t.tasks ==> t.tasks[x].withProject in {s.tasks[x].withProject, None}
    requires forall x :: x in t.tasks && t.tasks[x].withProject.Some? ==> t.tasks[x].deleted == s.tasks[x].deleted
    requires s.events <= t.events
    requires forall q, i :: q != p && |s.events| <= i < |t.events| ==> Quiet(t.events[i], q)
    ensures Consistent(t)
  {
    SameParentsFlat(s.tasks, t.tasks);
    ReopenFeed(s, p, t);
    hide WellFormed, Sound, FlatSeries, FeedClean, Quiet, UniqueSlots;
    forall x | Live(t, x) ensures LiveProject(t, t.tasks[x].project) {
      if t.tasks[x].project != p { assert Live(s, x); }
    }
    forall x | x in t.tasks && t.tasks[x].withProject.Some? ensures ArchivedRow(t, t.tasks[x]) {
      assert ArchivedRow(s, s.tasks[x]);
    }
  }

  lemma ReopenFeed(s: State, p: int, t: State)
    requires FeedClean(s.projects, s.events) && p in s.projects && s.events <= t.events
    requires t.projects == s.projects[p := s.projects[p].(deleted := false)]
    requires forall q, i :: q != p && |s.events| <= i < |t.events| ==> Quiet(t.events[i], q)
    ensures FeedClean(t.projects, t.events)
  {
    hide Quiet;
    forall q, i | q in t.projects && t.projects[q].deleted && LastDeleted(t.events, q) <= i < |t.events| ensures Quiet(t.events[i], q) {
      LastDeletedGrows(s.events, t.events, q);
      if i < |s.events| { assert t.events[i] == s.events[i]; }
    }
  }

  lemma UnpackedKeeps(s: State, p: int)
    requires Consistent(s) && p in s.projects && UniqueSlots(BatchLive(s, Archive(s, p)))
    ensures Consistent(Unpacked(s, p))
  {
    var t := Unpacked(s, p);
    UnpackedWellFormed(s, p);
    UnpackedUnique(s, p);
    UnpackedRows(s, p);
    hide WellFormed, Sound, UniqueSlots, FlatSeries, FeedClean, Filed, Unpacked;
    forall x | x in t.tasks
      ensures t.tasks[x].withProject != Some(p)
      ensures t.tasks[x].project != p ==> t.tasks[x] == s.tasks[x]
    {
      if s.tasks[x].withProject.Some? { assert ArchivedRow(s, s.tasks[x]); }
    }
    ReopenKeeps(s, p, t);
  }

  lemma UnpackedRows(s: State, p: int)
    requires p in s.projects
    ensures var t := Unpacked(s, p);
            && SameRowsBut(s, t) && s.events <= t.events
            && t.projects == s.projects[p := s.projects[p].(deleted := false)]
            && (forall x :: x in s.tasks ==>
                  t.tasks[x] == if s.tasks[x].deleted && s.tasks[x].withProject == Some(p)
                                then s.tasks[x].(deleted := false, withProject := None) else s.tasks[x])
            && (forall q, i :: q != p && |s.events| <= i < |t.events| ==> Quiet(t.events[i], q))
  {
    hide Sorted;
  }

  lemma UnpackedUnique(s: State, p: int)
    requires p in s.projects && UniqueSlots(BatchLive(s, Archive(s, p)))
    ensures UniqueSlots(Unpacked(s, p))
  {
    hide Sorted, BulkEvents;
    var t, b := Unpacked(s, p), BatchLive(s, Archive(s, p));
    forall x, y | Live(t, x) && Live(t, y) && SameSlot(t.tasks[x], t.tasks[y]) ensures x == y {
      assert Live(b, x) && Live(b, y) && SameSlot(b.tasks[x], b.tasks[y]);
    }
  }

  lemma ReleasedKeeps(s: State, p: int)
    requires Consistent(s) && p in s.projects
    ensures Consistent(Released(s, p))
  {
    var t := Released(s, p);
    UnpackedWellFormed(s, p);
    ReleasedRows(s, p);
    assert UniqueSlots(t) by {
      hide WellFormed, Sound, FlatSeries, FeedClean, Filed, Released;
      forall x, y | Live(t, x) && Live(t, y) && SameSlot(t.tasks[x], t.tasks[y]) ensures x == y {
        assert Live(s, x) && Live(s, y) && SameSlot(s.tasks[x], s.tasks[y]);
      }
    }
    hide WellFormed, Sound, UniqueSlots, FlatSeries, FeedClean, Filed, Released;
    forall x | x in t.tasks
      ensures t.tasks[x].withProject != Some(p)
      ensures t.tasks[x].project != p ==> t.tasks[x] == s.tasks[x]
    {
      if s.tasks[x].withProject.Some? { assert ArchivedRow(s, s.tasks[x]); }
    }
    ReopenKeeps(s, p, t);
  }

  lemma ReleasedRows(s: State, p: int)
    requires p in s.projects
    ensures var t := Released(s, p);
            && SameRowsBut(s, t) && s.events <= t.events
            && t.projects == s.projects[p := s.projects[p].(deleted := false)]
            && (forall x :: x in s.tasks ==>
                  t.tasks[x] == if s.tasks[x].withProject == Some(p) then s.tasks[x].(withProject := None) else s.tasks[x])
            && (forall q, i :: q != p && |s.events| <= i < |t.events| ==> Quiet(t.events[i], q))
  {
    hide Sorted;
  }

  lemma ProjectLogKeeps(s: State, p: int)
    requires Consistent(s)
    ensures Consistent(LogProject(s, p, Restored))
  {
    LogKeepsCore(s, LogProject(s, p, Restored));
    hide Core, Archived;
  }

  /** A project restore keeps everything, in both modes. */
  lemma RestoreProjectKeeps(s: State, p: int, withTasks: bool, done: Oracle)
    requires Consistent(s) && p in s.projects
    ensures var r := RestoreProject(s, p, withTasks, done);
            r.Ok? ==> Consistent(r.value.state)
  {
    UnpackedWellFormed(s, p);
    if withTasks {
      var batch := Sorted(Archive(s, p));
      BatchFree(s, p);
      hide Consistent, Unpacked, Released, Reconcile, BatchConflict, Archive, WellFormed, Sound;
      if BatchConflict(s, batch, map[]).None? { ReopenedBatch(s, p, done); }
    } else {
      ReleasedKeeps(s, p);
      hide Consistent, Unpacked, Released, Reconcile, BatchConflict, Archive, WellFormed, Sound;
      ProjectLogKeeps(Released(s, p), p);
    }
  }

  lemma BatchFree(s: State, p: int)
    requires Consistent(s)
    ensures forall x :: x in Sorted(Archive(s, p)) ==> x in s.tasks
    ensures BatchConflict(s, Sorted(Archive(s, p)), map[]).None? <==> UniqueSlots(BatchLive(s, Archive(s, p)))
  {
    BatchCheckExact(s, p);
  }

  lemma ReopenedBatch(s: State, p: int, done: Oracle)
    requires Consistent(s) && p in s.projects && UniqueSlots(BatchLive(s, Archive(s, p)))
    ensures WellFormed(Unpacked(s, p)) && forall x :: x in Sorted(Archive(s, p)) ==> x in Unpacked(s, p).tasks
    ensures var r := Reconcile(Unpacked(s, p), Sorted(Archive(s, p)), done);
            r.Ok? ==> Consistent(LogProject(r.value, p, Restored))
  {
    UnpackedKeeps(s, p);
    UnpackedRows(s, p);
    UnpackedWellFormed(s, p);
    hide Core, Archived, Unpacked, Reconcile, UniqueSlots;
    var mid, batch := Unpacked(s, p), Sorted(Archive(s, p));
    ReconcileKeeps(mid, batch, done);
    if Reconcile(mid, batch, done).Ok? { ProjectLogKeeps(Reconcile(mid, batch, done).value, p); }
  }
}
