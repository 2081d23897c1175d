/**
 What each call leaves, row by row and field by field: the rows it is about, and that it changes no
 other row that was there (backend/app/services/tasks.py, task_recurrence.py, projects.py).
 */
module Effects {
  import opened Common
  import opened Calendar
  import opened Store
  import opened TaskRecurrence
  import opened Tasks
  import opened TaskTrash
  import opened Projects
  import Runs
  import opened Edits
  import Reparenting
  import TaskDependencies
  import TaskPurge
  import RunLog
  import ProjectUndo
  import WaitRuns
  import Forest

  /** `x` is `k` parent links below `id`, through rows that are all live. */
  ghost predicate LiveBelow(s: State, x: int, k: nat, id: int)
    decreases k
  {
    if k == 0 then x == id
    else x in s.tasks && !s.tasks[x].deleted && s.tasks[x].parent.Some? && LiveBelow(s, s.tasks[x].parent.value, k - 1, id)
  }

  ghost predicate InSubtree(s: State, x: int, id: int) {
    exists k: nat :: LiveBelow(s, x, k, id)
  }

  lemma {:induction false} LiveBelowIs(s: State, x: int, k: nat, id: int)
    ensures LiveBelow(s, x, k, id) <==> Forest.Climbs(LiveLinks(s.tasks), x, k, id)
    decreases k
  {
    if k > 0 && x in LiveLinks(s.tasks) { LiveBelowIs(s, LiveLinks(s.tasks)[x], k - 1, id); }
  }

  lemma SubtreeIs(s: State, x: int, id: int)
    requires x in s.tasks && id in s.tasks
    ensures InSubtree(s, x, id) <==> x in Forest.Subtree(LiveLinks(s.tasks), id)
  {
    var up := LiveLinks(s.tasks);
    forall k: nat ensures LiveBelow(s, x, k, id) <==> Forest.Climbs(up, x, k, id) {
      LiveBelowIs(s, x, k, id);
    }
    if k: nat :| Forest.Climbs(up, x, k, id) {
      assert LiveBelow(s, x, k, id);
      assert x == id || x in up;
    }
  }

  /** Every row there was, as `t` has it; what is new is new. */
  ghost predicate Unchanged(s: State, t: State, x: int) {
    x in s.tasks ==> x in t.tasks && t.tasks[x] == s.tasks[x]
  }

  lemma SpawnedUnchanged(s: State, t: State)
    requires Spawned(s, t)
    ensures forall x :: Unchanged(s, t, x)
    ensures t.projects == s.projects
  {
  }

  lemma ReconcileRows(mid: State, seeds: seq<int>, done: Oracle)
    requires WellFormed(mid) && forall q :: q in seeds ==> q in mid.tasks
    ensures var r := Reconcile(mid, seeds, done); r.Ok? ==> mid.edges <= r.value.edges && forall x :: x in mid.tasks ==> x in r.value.tasks && r.value.tasks[x] == mid.tasks[x]
  {
    hide WellFormed, Sound, Reconcile, SpawnEvent, OnOpenSlot, FreshRow;
    ReconcileSpawned(mid, seeds, done);
  }

  // ---- into the trash -------------------------------------------------------------------------

  /** A delete takes the row and its live subtree: the subtree is stamped with the row, the row keeps what it had. */
  lemma TrashRows(s: State, id: int, done: Oracle, x: int)
    requires WellFormed(s) && Live(s, id) && x in s.tasks && SoftDeleteTask(s, id, done).Ok?
    ensures var t := SoftDeleteTask(s, id, done).value;
            && x in t.tasks && t.projects == s.projects
            && (x == id ==> t.tasks[x] == s.tasks[x].(deleted := true))
            && (x != id && InSubtree(s, x, id) ==> t.tasks[x] == s.tasks[x].(deleted := true, withTask := Some(id)))
            && (!InSubtree(s, x, id) ==> t.tasks[x] == s.tasks[x])
  {
    var rows := Descendants(s, id) + [id];
    var mid := Cascaded(s, rows, id);
    CascadedWellFormed(s, rows, id);
    SeedsExist(s, rows);
    SubtreeIs(s, x, id);
    SubtreeIs(s, id, id);
    ReconcileSpawned(mid, Outside(SeedsOf(s, rows), Elems(rows)), done);
    assert x in rows <==> x in Elems(Descendants(s, id)) + {id};
    assert LiveBelow(s, id, 0, id);
    hide WellFormed, Sound, Descendants, Reconcile, SeedsOf, TaskEvents, Forest.Subtree, InSubtree, LiveBelow;
    assert mid.tasks[x] == if x in rows then s.tasks[x].(deleted := true, withTask := if x == id then s.tasks[x].withTask else Some(id)) else s.tasks[x];
  }

  /** A skip takes the row as skipped, and its checklist with it under the row's stamp. */
  lemma SkipRows(s: State, id: int, done: Oracle, x: int)
    requires WellFormed(s) && Live(s, id) && x in s.tasks && SkipOccurrence(s, id, done).Ok?
    ensures var t := SkipOccurrence(s, id, done).value.0;
            && x in t.tasks && t.projects == s.projects
            && (x == id ==> t.tasks[x] == s.tasks[x].(deleted := true, skipped := true))
            && (x != id && InSubtree(s, x, id) ==> t.tasks[x] == s.tasks[x].(deleted := true, withTask := Some(id)))
            && (!InSubtree(s, x, id) ==> t.tasks[x] == s.tasks[x])
  {
    CreateNextSpawned(s, id, done);
    var next := CreateNext(s, id, done).value.0;
    SweptKeeps(next, id, done);
    var swept := SoftDeleteDescendants(next, id, done).value;
    assert SkipOccurrence(s, id, done).value.0 == MarkSkipped(swept, id);
    assert x in next.tasks && next.tasks[x] == s.tasks[x] && id in next.tasks && next.projects == s.projects;
    OldSubtree(s, next, x, id);
    SubtreeIs(next, x, id);
    assert LiveBelow(s, id, 0, id);
    assert x in Descendants(next, id) <==> x in Elems(Descendants(next, id));
    hide WellFormed, Sound, Descendants, CreateNext, SoftDeleteDescendants, SkipOccurrence, TaskEvents, Forest.Subtree, InSubtree, LiveBelow;
    assert Cascaded(next, Descendants(next, id), id).projects == next.projects;
  }

  /** Fresh rows hang below no old one, so an old row's subtree has the old rows it had. */
  lemma OldSubtree(s: State, t: State, x: int, id: int)
    requires WellFormed(s) && Spawned(s, t) && x in s.tasks && id in s.tasks
    ensures InSubtree(s, x, id) <==> InSubtree(t, x, id)
  {
    forall k: nat ensures LiveBelow(s, x, k, id) <==> LiveBelow(t, x, k, id) {
      OldChain(s, t, x, k, id);
    }
  }

  lemma {:induction false} OldChain(s: State, t: State, x: int, k: nat, id: int)
    requires WellFormed(s) && Spawned(s, t) && x in s.tasks
    ensures LiveBelow(s, x, k, id) <==> LiveBelow(t, x, k, id)
    decreases k
  {
    assert t.tasks[x] == s.tasks[x];
    assert RowWellFormed(s, s.tasks[x]);
    if k > 0 && s.tasks[x].parent.Some? { OldChain(s, t, s.tasks[x].parent.value, k - 1, id); }
  }

  /** Trashing a project takes exactly its live rows, each stamped with it. */
  lemma ProjectTrashRows(s: State, p: int, done: Oracle, x: int)
    requires WellFormed(s) && LiveProject(s, p) && x in s.tasks && SoftDeleteProject(s, p, done).Ok?
    ensures var t := SoftDeleteProject(s, p, done).value;
            && x in t.tasks
            && (!s.tasks[x].deleted && s.tasks[x].project == p ==> t.tasks[x] == s.tasks[x].(deleted := true, withProject := Some(p)))
            && (s.tasks[x].deleted || s.tasks[x].project != p ==> t.tasks[x] == s.tasks[x])
            && t.projects == s.projects[p := s.projects[p].(deleted := true)]
  {
    SweptSpawned(s, p, done);
    RunLog.DeleteUnfolds(s, p, done);
    hide WellFormed, Sound, Reconcile, SeedsOf, Outside, SoftDeleteProject, Sorted, BulkEvents;
    var mid := Swept(s, p);
    assert x in mid.tasks && mid.projects == s.projects;
  }

  /** `x` is `k` parent links below `id`, through rows that are all trashed and of `id`'s project. */
  ghost predicate TrashedBelow(s: State, x: int, k: nat, id: int)
    requires id in s.tasks
    decreases k
  {
    if k == 0 then x == id
    else x in s.tasks && s.tasks[x].deleted && s.tasks[x].project == s.tasks[id].project && s.tasks[x].parent.Some?
         && TrashedBelow(s, s.tasks[x].parent.value, k - 1, id)
  }

  ghost predicate GoesWith(s: State, x: int, id: int)
    requires id in s.tasks
  {
    exists k: nat :: TrashedBelow(s, x, k, id)
  }

  lemma {:induction false} TrashedBelowIs(s: State, x: int, k: nat, id: int)
    requires id in s.tasks
    ensures TrashedBelow(s, x, k, id) <==> Forest.Climbs(TrashLinks(s.tasks, s.tasks[id].project), x, k, id)
    decreases k
  {
    var up := TrashLinks(s.tasks, s.tasks[id].project);
    if k > 0 && x in up { TrashedBelowIs(s, up[x], k - 1, id); }
  }

  lemma GoesWithIs(s: State, x: int, id: int)
    requires id in s.tasks
    ensures GoesWith(s, x, id) <==> x in TaskPurge.Doomed(s, id)
  {
    TaskPurge.DoomedExist(s, id);
    var up := TrashLinks(s.tasks, s.tasks[id].project);
    forall k: nat ensures TrashedBelow(s, x, k, id) <==> Forest.Climbs(up, x, k, id) {
      TrashedBelowIs(s, x, k, id);
    }
    if k: nat :| Forest.Climbs(up, x, k, id) {
      assert TrashedBelow(s, x, k, id);
      assert x == id || x in up;
    }
  }

  /** A row that stays loses its parent or its stamp if it went, and nothing else. */
  ghost predicate StaysAs(s: State, id: int, a: Task, b: Task)
    requires id in s.tasks
  {
    && b == a.(parent := b.parent, withTask := b.withTask)
    && (if a.parent.Some? && GoesWith(s, a.parent.value, id) then b.parent.None? else b.parent == a.parent)
    && (if a.withTask.Some? && GoesWith(s, a.withTask.value, id) then b.withTask.None? else b.withTask == a.withTask)
  }

  /**
   A purge destroys the row and what hangs below it in the trash of its project, with every edge at
   one of these.
   */
  lemma PurgedRows(s: State, id: int, x: int)
    requires WellFormed(s) && id in s.tasks && x in s.tasks
    ensures var t := TaskPurge.PurgeTask(s, id);
            && (GoesWith(s, x, id) <==> x !in t.tasks)
            && (x in t.tasks ==> StaysAs(s, id, s.tasks[x], t.tasks[x]))
            && (forall y :: y in t.tasks ==> y in s.tasks) && t.projects == s.projects
            && forall e :: e in t.edges <==> e in s.edges && !GoesWith(s, e.task, id) && !GoesWith(s, e.blocker, id)
  {
    var t, gone := TaskPurge.PurgeTask(s, id), TaskPurge.Doomed(s, id);
    assert forall y :: y in t.tasks <==> y in s.tasks && y !in gone;
    forall y ensures GoesWith(s, y, id) <==> y in gone { GoesWithIs(s, y, id); }
    TaskPurge.PurgeLeavesNoReference(s, id);
    hide WellFormed, TaskPurge.PurgeTask, TaskPurge.Doomed, GoesWith, StaysAs, TaskPurge.LosesOnly;
    if x in t.tasks { StaysIf(s, id, s.tasks[x], t.tasks[x], gone); }
    hide *;
  }

  lemma StaysIf(s: State, id: int, a: Task, b: Task, gone: set<int>)
    requires id in s.tasks && TaskPurge.LosesOnly(a, b, gone) && b.withProject == a.withProject
    requires forall y :: GoesWith(s, y, id) <==> y in gone
    ensures StaysAs(s, id, a, b)
  {
    hide GoesWith;
  }

  // ---- out of it ------------------------------------------------------------------------------

  /** A project comes back with exactly the trashed rows stamped with it, or leaves them all in the trash on their own. */
  lemma ProjectRestoreRows(s: State, p: int, withTasks: bool, done: Oracle, x: int)
    requires WellFormed(s) && p in s.projects && x in s.tasks && RestoreProject(s, p, withTasks, done).Ok?
    ensures var t := RestoreProject(s, p, withTasks, done).value.state;
            && x in t.tasks
            && (withTasks && s.tasks[x].deleted && s.tasks[x].withProject == Some(p) ==>
                  t.tasks[x] == s.tasks[x].(deleted := false, withProject := None))
            && (withTasks && !(s.tasks[x].deleted && s.tasks[x].withProject == Some(p)) ==> t.tasks[x] == s.tasks[x])
            && (!withTasks && s.tasks[x].withProject == Some(p) ==> t.tasks[x] == s.tasks[x].(withProject := None))
            && (!withTasks && s.tasks[x].withProject != Some(p) ==> t.tasks[x] == s.tasks[x])
            && t.projects == s.projects[p := s.projects[p].(deleted := false)]
  {
    UnpackedWellFormed(s, p);
    ProjectUndo.BatchExists(s, p);
    RunLog.RestoreUnfolds(s, p, withTasks, done);
    ReconcileSpawned(Unpacked(s, p), Sorted(Archive(s, p)), done);
    hide WellFormed, Sound, Reconcile, RestoreProject, Sorted, BulkEvents;
    assert x in Unpacked(s, p).tasks && x in Released(s, p).tasks;
  }

  /** An un-skip: the live occurrence it rewinds is the nearest one due on the skipped date or after it. */
  lemma RewindPicks(s: State, id: int)
    requires Trashed(s, id)
    ensures IsUnskip(s, id) <==>
              s.tasks[id].skipped && s.tasks[id].series.Some? && s.tasks[id].due.Some?
              && exists y :: FollowsOn(s, id, y)
    ensures IsUnskip(s, id) ==>
              FollowsOn(s, id, FirstFollower(s, id))
              && forall y :: FollowsOn(s, id, y) ==> s.tasks[FirstFollower(s, id)].due.value <= s.tasks[y].due.value
  {
    var t := s.tasks[id];
    if t.series.Some? && t.due.Some? {
      assert forall y :: y in Followers(s, id) <==> FollowsOn(s, id, y);
      if Followers(s, id) != {} { assert FollowsOn(s, id, Any(Followers(s, id))); }
    }
  }

  predicate FollowsOn(s: State, id: int, y: int)
    requires id in s.tasks
  {
    && y in s.tasks && !s.tasks[y].deleted && y != id && s.tasks[y].series == s.tasks[id].series
    && s.tasks[y].due.Some? && s.tasks[id].due.Some? && s.tasks[id].due.value <= s.tasks[y].due.value
  }

  /** Its rows: the live occurrence's whole live subtree on the skipped date, the skipped row and its stamped ones retired. */
  lemma RewindRows(s: State, id: int, done: Oracle, x: int)
    requires WellFormed(s) && Trashed(s, id) && IsUnskip(s, id) && Rewind(s, id, done).Ok? && x in s.tasks
    ensures var t, live := Rewind(s, id, done).value.state, Rewind(s, id, done).value.task;
            && x in t.tasks && t.projects == s.projects && live == FirstFollower(s, id)
            && (InSubtree(s, x, live) ==> t.tasks[x] == s.tasks[x].(due := s.tasks[id].due))
            && (x == id ==> t.tasks[x] == s.tasks[x].(superseded := true, skipped := false))
            && (x != id && s.tasks[x].deleted && s.tasks[x].withTask == Some(id) ==> t.tasks[x] == s.tasks[x].(superseded := true))
            && (!InSubtree(s, x, live) && x != id && !(s.tasks[x].deleted && s.tasks[x].withTask == Some(id)) ==> t.tasks[x] == s.tasks[x])
  {
    var live, day := FirstFollower(s, id), s.tasks[id].due.value;
    ActiveRowsExist(s, live);
    var walk := ActiveWalk(s, live);
    var mid := Superseded(OnDay(s, Elems(walk), day), id);
    ActiveWalkShape(s, live);
    RewindSettles(s, id, done);
    RestoreRows(s, id, walk, day, x);
    SubtreeIs(s, x, live);
    ReconcileSpawned(mid, [live], done);
    assert x in walk <==> x in Elems(walk);
    hide *;
    SameAfter(s, mid, Reconcile(mid, [live], done).value, Rewind(s, id, done).value.state, x);
  }

  lemma RestoreRows(s: State, id: int, walk: seq<int>, day: Date, x: int)
    requires Trashed(s, id) && (forall y :: y in walk ==> Live(s, y)) && x in s.tasks
    ensures var mid := Superseded(OnDay(s, Elems(walk), day), id);
            && x in mid.tasks && mid.projects == s.projects
            && (x in walk ==> mid.tasks[x] == s.tasks[x].(due := Some(day)))
            && (x == id ==> mid.tasks[x] == s.tasks[x].(superseded := true, skipped := false))
            && (x != id && s.tasks[x].deleted && s.tasks[x].withTask == Some(id) ==> mid.tasks[x] == s.tasks[x].(superseded := true))
            && (x !in walk && x != id && !(s.tasks[x].deleted && s.tasks[x].withTask == Some(id)) ==> mid.tasks[x] == s.tasks[x])
  {
    hide TaskEvents, Sorted;
    var on := OnDay(s, Elems(walk), day);
    assert Stamped(on, id) == Stamped(s, id);
    assert x in SkipCascade(on, id) <==> x == id || x in Stamped(on, id);
  }

  lemma SameAfter(s: State, mid: State, settled: State, t: State, x: int)
    requires Spawned(mid, settled) && SameRows(settled, t) && x in mid.tasks
    ensures x in t.tasks && t.tasks[x] == mid.tasks[x] && t.projects == mid.projects
  {
    hide SpawnEvent, OnOpenSlot, FreshRow;
  }

  // ---- single rows ----------------------------------------------------------------------------

  /** A new task: what it is given, and from its parent what it is not. */
  lemma CreatedRow(s: State, d: Edits.Draft, done: Oracle)
    requires WellFormed(s) && CreateTask(s, d, done).Ok?
    ensures d.parent.Some? ==> Live(s, d.parent.value)
    ensures var t, id := CreateTask(s, d, done).value, NextId(s.tasks.Keys);
            && id !in s.tasks && id in t.tasks
            && var row := t.tasks[id];
            && row.parent == d.parent && row.status == d.status
            && row.content.title == d.content.title && row.content.description == d.content.description && row.content.estimate == d.content.estimate
            && (d.project.Some? ==> row.project == d.project.value)
            && (d.project.None? && d.parent.Some? ==> row.project == s.tasks[d.parent.value].project)
            && (d.project.None? && d.parent.None? ==> row.project == GENERAL)
            && (d.priority.Some? ==> row.content.priority == d.priority.value)
            && (d.priority.None? && d.parent.Some? ==> row.content.priority == s.tasks[d.parent.value].content.priority)
            && (d.priority.None? && d.parent.None? ==> row.content.priority == 1)
            && (d.due.Some? ==> row.due == d.due)
            && (d.due.None? && d.parent.Some? ==> row.due == s.tasks[d.parent.value].due)
            && (d.due.None? && d.parent.None? ==> row.due.None?)
            && row.repeat.None? && row.series.None? && !row.deleted && !row.skipped && !row.superseded && row.withTask.None? && row.withProject.None?
    ensures forall x :: Unchanged(s, CreateTask(s, d, done).value, x)
  {
    InsertedWellFormed(s, d);
    assert NextId(s.tasks.Keys) !in s.tasks.Keys;
    var mid := Inserted(s, DraftRow(s, d));
    ReconcileRows(mid, [NextId(s.tasks.Keys)], done);
    hide WellFormed, Sound, Reconcile, NestingLevel, NextId;
    var t := CreateTask(s, d, done).value;
    assert forall x :: x in s.tasks ==> x in mid.tasks && mid.tasks[x] == s.tasks[x];
  }

  /** A row `k` live links above `x`, itself live. */
  ghost predicate LiveAbove(s: State, x: int, k: nat) {
    exists y :: Live(s, y) && LiveBelow(s, x, k, y)
  }

  /** Nothing already seen is at or above `x`. */
  ghost predicate Ahead(s: State, x: int, seen: set<int>) {
    forall z, j: nat :: z in seen ==> !LiveBelow(s, x, j, z)
  }

  /** The nesting level counts the live rows from `x` up. */
  lemma {:induction false} LevelIs(s: State, x: int, seen: set<int>, k: nat)
    requires (forall z, j: nat :: j > 0 ==> !LiveBelow(s, z, j, z)) && Ahead(s, x, seen)
    ensures NestingLevel(s.tasks, x, seen) > k <==> LiveAbove(s, x, k)
    decreases |s.tasks.Keys - seen|
  {
    assert LiveBelow(s, x, 0, x);
    if Live(s, x) {
      assert x !in seen;
      assert s.tasks.Keys - (seen + {x}) == (s.tasks.Keys - seen) - {x};
      if k == 0 { assert LiveAbove(s, x, 0); }
      if s.tasks[x].parent.Some? {
        var p := s.tasks[x].parent.value;
        StillAhead(s, x, p, seen);
        if k > 0 {
          LevelIs(s, p, seen + {x}, k - 1);
          AboveStep(s, x, p, k);
        }
      } else if k > 0 { NothingAbove(s, x, k); }
    } else {
      NothingLiveAbove(s, x, k);
    }
  }

  lemma StillAhead(s: State, x: int, p: int, seen: set<int>)
    requires (forall z, j: nat :: j > 0 ==> !LiveBelow(s, z, j, z)) && Ahead(s, x, seen) && Live(s, x) && s.tasks[x].parent == Some(p)
    ensures Ahead(s, p, seen + {x})
  {
    forall z, j: nat | z in seen + {x} ensures !LiveBelow(s, p, j, z) {
      assert LiveBelow(s, p, j, z) ==> LiveBelow(s, x, j + 1, z);
    }
  }

  lemma AboveStep(s: State, x: int, p: int, k: nat)
    requires k > 0 && Live(s, x) && s.tasks[x].parent == Some(p)
    ensures LiveAbove(s, x, k) <==> LiveAbove(s, p, k - 1)
  {
    if y :| Live(s, y) && LiveBelow(s, x, k, y) { assert LiveBelow(s, p, k - 1, y); }
    if y :| Live(s, y) && LiveBelow(s, p, k - 1, y) { assert LiveBelow(s, x, k, y); }
  }

  lemma NothingAbove(s: State, x: int, k: nat)
    requires k > 0 && x in s.tasks && s.tasks[x].parent.None?
    ensures !LiveAbove(s, x, k)
  {
  }

  lemma NothingLiveAbove(s: State, x: int, k: nat)
    requires !Live(s, x)
    ensures !LiveAbove(s, x, k)
  {
  }

  lemma NoLiveCircle(s: State)
    requires WellFormed(s)
    ensures forall z, j: nat :: j > 0 ==> !LiveBelow(s, z, j, z)
  {
    forall z, j: nat | j > 0 ensures !LiveBelow(s, z, j, z) {
      LiveBelowIs(s, z, j, z);
      LiveLinksOffCycle(s, z);
    }
  }

  /** Creating is refused for a missing project, a missing parent, or 50 live rows from the parent up, in that order. */
  lemma CreateRefused(s: State, d: Edits.Draft, done: Oracle)
    requires WellFormed(s)
    ensures var r := CreateTask(s, d, done);
            var lost, orphan := d.project.Some? && !LiveProject(s, d.project.value), d.parent.Some? && !Live(s, d.parent.value);
            && (lost ==> r == Err(MissingProject))
            && (!lost && orphan ==> r == Err(MissingParent))
            && (!lost && !orphan && d.parent.Some? && LiveAbove(s, d.parent.value, 49) ==> r == Err(TooDeep))
            && (r.Ok? ==> !lost && !orphan && (d.parent.Some? ==> !LiveAbove(s, d.parent.value, 49)))
  {
    NoLiveCircle(s);
    if d.parent.Some? {
      assert Ahead(s, d.parent.value, {});
      LevelIs(s, d.parent.value, {}, 49);
    }
    hide WellFormed, Reconcile, NestingLevel, LiveAbove, Inserted, DraftRow;
  }

  /** A move is too deep exactly when some live row of the moved subtree would come to have 50 live rows above it. */
  lemma MoveTooDeepIff(s: State, id: int, p: int)
    requires WellFormed(s) && Live(s, p) && id in s.tasks
    ensures Reparenting.TooDeepUnder(s, id, p)
            <==> exists i: nat, j: nat, x :: LiveAbove(s, p, i) && LiveBelow(s, x, j, id) && i + j + 2 > 50
  {
    NoLiveCircle(s);
    assert Ahead(s, p, {});
    var level := NestingLevel(s.tasks, p, {});
    var allowance := MAX_SUBTASK_DEPTH - level - 1;
    assert LiveBelow(s, p, 0, p);
    LevelIs(s, p, {}, 0);
    LevelIs(s, p, {}, level - 1);
    assert LiveBelow(s, id, 0, id);
    if Reparenting.TooDeepUnder(s, id, p) {
      if allowance < 0 { assert LiveAbove(s, p, level - 1) && LiveBelow(s, id, 0, id); } else {
        var x, k: nat :| k > allowance && Forest.Climbs(LiveLinks(s.tasks), x, k, id);
        LiveBelowIs(s, x, k, id);
        assert LiveAbove(s, p, level - 1) && LiveBelow(s, x, k, id);
      }
    }
    if i: nat, j: nat, x :| LiveAbove(s, p, i) && LiveBelow(s, x, j, id) && i + j + 2 > 50 {
      LevelIs(s, p, {}, i);
      LiveBelowIs(s, x, j, id);
      assert allowance >= 0 ==> Reparenting.TallerThan(s, id, allowance);
    }
  }

  ghost predicate HasLiveSubtask(s: State, id: int) {
    exists c :: c in s.tasks && !s.tasks[c].deleted && s.tasks[c].parent == Some(id)
  }

  /** An active edge makes it wait for a live task that is not effectively done. */
  ghost predicate WaitsForOpen(s: State, id: int, done: Oracle) {
    exists e :: e in s.edges && !e.deleted && e.task == id && e.blocker in s.tasks && !s.tasks[e.blocker].deleted && !done(s, e.blocker)
  }

  /**
   Completing is refused for a task with live subtasks unless they have completed it already, and
   for one without that is not stored as done and waits for an unfinished task; the only other
   refusals are those of the roll-forward. What is accepted without live subtasks is stored as done.
   */
  lemma DoneOutcome(s: State, id: int, done: Oracle)
    requires WellFormed(s) && Live(s, id)
    ensures var r := MarkDone(s, id, done);
            && (HasLiveSubtask(s, id) ==> r == if done(s, id) then Ok(s) else Err(NotCompletable))
            && (!HasLiveSubtask(s, id) && s.tasks[id].status != Done && WaitsForOpen(s, id, done) ==> r == Err(NotCompletable))
            && (!HasLiveSubtask(s, id) && (s.tasks[id].status == Done || !WaitsForOpen(s, id, done)) ==>
                  && WellFormed(s.(tasks := s.tasks[id := s.tasks[id].(status := Done)]))
                  && var mid := s.(tasks := s.tasks[id := s.tasks[id].(status := Done)]);
                  && (r.Err? ==> Reconcile(mid, [id], done) == r)
                  && (r.Ok? ==>
                        && id in r.value.tasks && r.value.tasks[id] == s.tasks[id].(status := Done)
                        && forall x :: x != id ==> Unchanged(s, r.value, x)))
  {
    var up := LiveLinks(s.tasks);
    assert HasLiveSubtask(s, id) <==> Forest.Kids(up, id) != {} by {
      if c :| c in s.tasks && !s.tasks[c].deleted && s.tasks[c].parent == Some(id) { assert c in Forest.Kids(up, id); }
      if Forest.Kids(up, id) != {} { var c := Any(Forest.Kids(up, id)); assert c in s.tasks; }
    }
    assert WaitsForOpen(s, id, done) <==> Blocked(s, id, done);
    var mid := WithStatus(s, id, Done);
    SameShapeWellFormed(s, mid);
    if s.tasks[id].status == Done { assert mid.tasks == s.tasks; }
    assert id in mid.tasks;
    ReconcileRows(mid, [id], done);
    hide WellFormed, Sound, Reconcile, Blocked, WaitsForOpen, HasLiveSubtask, SpawnEvent, OnOpenSlot, FreshRow;
    assert forall x :: x != id ==> Unchanged(s, mid, x);
  }

  /** Filing a task elsewhere changes its project and nothing else; no project is General. */
  lemma RefiledRow(s: State, id: int, to: Option<int>, done: Oracle)
    requires WellFormed(s) && Live(s, id) && Refile(s, id, to, done).Ok?
    ensures var t := Refile(s, id, to, done).value;
            && id in t.tasks && t.tasks[id] == s.tasks[id].(project := if to.Some? then to.value else 1)
            && (to.Some? ==> LiveProject(s, to.value)) && forall x :: x != id ==> Unchanged(s, t, x)
  {
    var p := if to.Some? then to.value else GENERAL;
    GeneralLive(s);
    if s.tasks[id].project == p {
      assert s.tasks[id].(project := p) == s.tasks[id];
    } else {
      FiledWellFormed(s, id, p);
      ReconcileRows(FiledIn(s, id, p), [id], done);
    }
    hide WellFormed, Sound, Reconcile, NextDue;
    assert forall x :: x != id ==> Unchanged(s, FiledIn(s, id, p), x);
  }

  /** A cadence and a date, and with the first cadence a series id; nothing else. */
  lemma RecurringRowIs(s: State, id: int, repeat: Option<Interval>, due: Option<Date>, mint: string, done: Oracle)
    requires WellFormed(s) && Live(s, id) && (repeat.Some? ==> ValidInterval(repeat.value))
    requires EditRecurrence(s, id, repeat, due, mint, done).Ok? && (s.tasks[id].repeat != repeat || s.tasks[id].due != due)
    ensures var t := EditRecurrence(s, id, repeat, due, mint, done).value;
            && id in t.tasks && (repeat.Some? ==> due.Some? && NextDue(due.value, repeat.value).Some?)
            && (repeat.Some? && s.tasks[id].series.None? ==> t.tasks[id] == s.tasks[id].(repeat := repeat, due := due, series := Some(mint)))
            && (repeat.None? || s.tasks[id].series.Some? ==> t.tasks[id] == s.tasks[id].(repeat := repeat, due := due))
            && forall x :: x != id ==> Unchanged(s, t, x)
  {
    RecurringWellFormed(s, id, repeat, due, mint);
    ReconcileRows(Recurring(s, id, repeat, due, mint), [id], done);
    hide WellFormed, Sound, Reconcile, NextDue, ValidInterval, FindLiveOn;
    assert forall x :: x != id ==> Unchanged(s, Recurring(s, id, repeat, due, mint), x);
  }

  /** A due date on one occurrence, refused when a live sibling has it. */
  lemma DueRow(s: State, id: int, due: Option<Date>, done: Oracle)
    requires WellFormed(s) && Live(s, id) && Runs.EditDue(s, id, due, done).Ok?
    ensures var t := Runs.EditDue(s, id, due, done).value;
            && id in t.tasks && t.tasks[id] == s.tasks[id].(due := due) && (forall x :: x != id ==> Unchanged(s, t, x))
            && (s.tasks[id].repeat.Some? ==> due.Some? && ValidInterval(s.tasks[id].repeat.value) && NextDue(due.value, s.tasks[id].repeat.value).Some?)
            && (due != s.tasks[id].due && due.Some? && s.tasks[id].series.Some? ==>
                  forall y :: y in s.tasks && y != id && s.tasks[y].series == s.tasks[id].series && s.tasks[y].due == due ==> s.tasks[y].deleted)
  {
    Runs.DatedWellFormed(s, id, due);
    ReconcileRows(Runs.Dated(s, id, due), [id], done);
    if due.Some? && s.tasks[id].series.Some? && due != s.tasks[id].due { SlotFree(s, s.tasks[id].series.value, due.value, id); }
    hide WellFormed, Sound, Reconcile, NextDue, FindLiveOn;
    assert forall x :: x != id ==> Unchanged(s, Runs.Dated(s, id, due), x);
  }

  /** The lowest live row, other than `id`, that has the slot. */
  ghost predicate HoldsSlot(s: State, series: Option<string>, due: Option<Date>, id: int, y: int) {
    && y in s.tasks && !s.tasks[y].deleted && y != id && s.tasks[y].series == series && s.tasks[y].due == due
    && forall z :: z in s.tasks && !s.tasks[z].deleted && z != id && s.tasks[z].series == series && s.tasks[z].due == due ==> y <= z
  }

  lemma FoundElsewhere(s: State, series: string, due: Date, id: int)
    ensures FindLiveOn(s, series, due, {id}).Some? <==> exists y :: HoldsSlot(s, Some(series), Some(due), id, y)
    ensures FindLiveOn(s, series, due, {id}).Some? ==> HoldsSlot(s, Some(series), Some(due), id, FindLiveOn(s, series, due, {id}).value)
  {
    var rows := LiveOn(s, series, due) - {id};
    assert forall z :: z in rows <==> z in s.tasks && !s.tasks[z].deleted && z != id && s.tasks[z].series == Some(series) && s.tasks[z].due == Some(due);
    if rows != {} { assert HoldsSlot(s, Some(series), Some(due), id, Least(rows)); }
  }

  /** A date a live row of the series has already is refused, and the refusal names that row. */
  lemma DueTaken(s: State, id: int, due: Option<Date>, y: int, done: Oracle)
    requires WellFormed(s) && Live(s, id) && due != s.tasks[id].due && due.Some? && s.tasks[id].series.Some?
    requires HoldsSlot(s, s.tasks[id].series, due, id, y)
    ensures Runs.EditDue(s, id, due, done) == Err(OccurrenceConflict(y)) || Runs.EditDue(s, id, due, done) == Err(RecurrenceError)
    ensures s.tasks[id].repeat.None? ==> Runs.EditDue(s, id, due, done) == Err(OccurrenceConflict(y))
  {
    FoundElsewhere(s, s.tasks[id].series.value, due.value, id);
    hide WellFormed, NextDue, FindLiveOn;
  }

  /** So is a restore in place onto it; a row an un-skip retired is refused before that. */
  lemma RestoreRefused(s: State, id: int, deferred: bool, done: Oracle)
    requires WellFormed(s) && Trashed(s, id)
    ensures s.tasks[id].superseded ==> RestoreTask(s, id, deferred, done) == Err(SupersededTask)
    ensures forall y :: !s.tasks[id].superseded && !IsUnskip(s, id) && s.tasks[id].series.Some? && s.tasks[id].due.Some?
                        && HoldsSlot(s, s.tasks[id].series, s.tasks[id].due, id, y) ==>
              RestoreTask(s, id, deferred, done) == Err(OccurrenceConflict(y))
    ensures !s.tasks[id].superseded && !IsUnskip(s, id)
            && (s.tasks[id].series.None? || s.tasks[id].due.None? || forall y :: !HoldsSlot(s, s.tasks[id].series, s.tasks[id].due, id, y)) ==>
              RestoreTask(s, id, deferred, done) == PlainRestore(s, id, deferred, done)
  {
    if s.tasks[id].series.Some? && s.tasks[id].due.Some? { FoundElsewhere(s, s.tasks[id].series.value, s.tasks[id].due.value, id); }
    hide WellFormed, FindLiveOn, Rewind, PlainRestore, Restores, IsUnskip;
  }

  lemma SlotFree(s: State, series: string, due: Date, id: int)
    ensures FindLiveOn(s, series, due, {id}).None? ==>
              forall y :: y in s.tasks && y != id && s.tasks[y].series == Some(series) && s.tasks[y].due == Some(due) ==> s.tasks[y].deleted
  {
    forall y | y in s.tasks && y != id && s.tasks[y].series == Some(series) && s.tasks[y].due == Some(due)
      ensures FindLiveOn(s, series, due, {id}).None? ==> s.tasks[y].deleted
    {
      assert !s.tasks[y].deleted ==> y in LiveOn(s, series, due) - {id};
    }
  }

  /** Removing an edge marks that edge and no other; edges replayed on fresh rows come after it. */
  lemma RemovedEdge(s: State, at: nat, done: Oracle)
    requires WellFormed(s) && RemoveDependency(s, at, done).Ok?
    ensures var t := RemoveDependency(s, at, done).value;
            && at < |s.edges| <= |t.edges| && !s.edges[at].deleted && t.edges[at] == s.edges[at].(deleted := true)
            && (forall k :: 0 <= k < |s.edges| && k != at ==> t.edges[k] == s.edges[k])
            && forall x :: Unchanged(s, t, x)
  {
    UnedgedWellFormed(s, at);
    var mid := Unedged(s, at);
    ReconcileRows(mid, [s.edges[at].task], done);
    hide WellFormed, Sound, Reconcile;
    var t := RemoveDependency(s, at, done).value;
    assert mid.edges <= t.edges;
  }

  /** A new edge goes behind the others, from the task to its blocker, and touches no row. */
  lemma AddedEdge(s: State, task: int, blocker: int, done: Oracle)
    requires TaskDependencies.AddDependency(s, task, blocker, done).Ok?
    ensures var t := TaskDependencies.AddDependency(s, task, blocker, done).value;
            t.tasks == s.tasks && t.projects == s.projects && t.edges == s.edges + [Edge(task, blocker, false)]
  {
  }

  /** A move changes the parent and nothing else. */
  lemma MovedRow(s: State, id: int, parent: Option<int>, done: Oracle)
    requires WellFormed(s) && WaitRuns.NoDeadlock(s) && Live(s, id) && Reparenting.Reparent(s, id, parent, done).Ok?
    ensures var t := Reparenting.Reparent(s, id, parent, done).value;
            id in t.tasks && t.tasks[id] == s.tasks[id].(parent := parent) && forall x :: x != id ==> Unchanged(s, t, x)
  {
    if parent != s.tasks[id].parent {
      Reparenting.MoveKeeps(s, id, parent);
      ReconcileRows(Reparenting.Under(s, id, parent), Reparenting.MoveSeeds(s, id, parent), done);
      hide WellFormed, Sound, Reconcile, NextDue, WaitRuns.NoDeadlock, Reparenting.MoveRefused;
      assert forall x :: x != id ==> Unchanged(s, Reparenting.Under(s, id, parent), x);
    }
  }
}
