/**
 What every step of the task store keeps: rows filed where they can be found, one live row per
 slot of a series, and a project feed from which an undo can be recomputed.
 */
module Invariant {
  import opened Common
  import opened Calendar
  import opened Store
  import opened TaskRecurrence
  import opened Tasks
  import opened TaskTrash
  import opened Projects
  import TaskPurge
  import RestoreUndo
  import Forest

  /** No live task is filed in a trashed project. */
  ghost predicate Filed(s: State) {
    forall x :: Live(s, x) ==> LiveProject(s, s.tasks[x].project)
  }

  /** An archive stamp means: trashed, filed in that project, and that project is in the trash. */
  ghost predicate Archived(s: State) {
    forall x :: x in s.tasks && s.tasks[x].withProject.Some? ==> ArchivedRow(s, s.tasks[x])
  }

  predicate ArchivedRow(s: State, t: Task)
    requires t.withProject.Some?
  {
    var p := t.withProject.value;
    t.deleted && t.project == p && p in s.projects && s.projects[p].deleted
  }

  /** Checklist rows carry no series of their own below a row that has one. */
  ghost predicate FlatSeries(tasks: map<int, Task>) {
    forall x, y :: x in tasks && y in tasks && x != y && tasks[x].series.Some? && tasks[y].series.Some? ==>
      !Forest.Reaches(ParentLinks(tasks), x, y)
  }

  /** An event that an undo of a restore of `p` could not mistake for one of that restore's own. */
  predicate Quiet(e: Event, p: int) {
    !(e.project == Some(p) && e.entity == TaskEntity
      && (e.action == Restored || (e.action == Updated && e.note == MovedToTasksTrash)))
  }

  function LastDeleted(events: seq<Event>, p: int): nat {
    WindowStart(events, p, |events| + 1)
  }

  /** Since a trashed project was deleted, its feed holds no restore event. */
  ghost predicate FeedClean(projects: map<int, Project>, events: seq<Event>) {
    forall p, i :: p in projects && projects[p].deleted && LastDeleted(events, p) <= i < |events| ==> Quiet(events[i], p)
  }

  ghost predicate Core(s: State) {
    WellFormed(s) && Filed(s) && UniqueSlots(s) && FlatSeries(s.tasks) && FeedClean(s.projects, s.events)
  }

  ghost predicate Consistent(s: State) {
    Core(s) && Archived(s)
  }

  // ---- the feed ---------------------------------------------------------------------

  lemma {:induction false} WindowStartPrefix(a: seq<Event>, b: seq<Event>, p: int, before: int)
    requires before <= |a| + 1 && a <= b
    ensures WindowStart(a, p, before) == WindowStart(b, p, before)
    decreases before
  {
    if before > 1 {
      assert a[before - 2] == b[before - 2];
      WindowStartPrefix(a, b, p, before - 1);
    }
  }

  lemma {:induction false} WindowStartGrows(events: seq<Event>, p: int, a: int, b: int)
    requires a <= b <= |events| + 1
    ensures WindowStart(events, p, a) <= WindowStart(events, p, b)
    ensures WindowStart(events, p, b) < b || WindowStart(events, p, b) == 0
    decreases b
  {
    if b > 1 {
      if a < b { WindowStartGrows(events, p, a, b - 1); } else { WindowStartGrows(events, p, a - 1, a - 1); }
    }
  }

  lemma LastDeletedGrows(a: seq<Event>, b: seq<Event>, p: int)
    requires a <= b
    ensures LastDeleted(a, p) <= LastDeleted(b, p)
  {
    WindowStartPrefix(a, b, p, |a| + 1);
    WindowStartGrows(b, p, |a| + 1, |b| + 1);
  }

  /** Quiet events keep the feed of every trashed project clean. */
  lemma FeedAppend(projects: map<int, Project>, a: seq<Event>, b: seq<Event>)
    requires FeedClean(projects, a) && a <= b
    requires forall p, i :: p in projects && projects[p].deleted && |a| <= i < |b| ==> Quiet(b[i], p)
    ensures FeedClean(projects, b)
  {
    forall p, i | p in projects && projects[p].deleted && LastDeleted(b, p) <= i < |b| ensures Quiet(b[i], p) {
      LastDeletedGrows(a, b, p);
      if i < |a| { assert a[i] == b[i]; }
    }
  }

  lemma LogKeepsCore(s: State, t: State)
    requires Core(s) && t.tasks == s.tasks && t.projects == s.projects && t.edges == s.edges && s.events <= t.events
    requires forall p, i :: p in s.projects && s.projects[p].deleted && |s.events| <= i < |t.events| ==> Quiet(t.events[i], p)
    ensures Core(t) && (Archived(s) ==> Archived(t))
  {
    LogKeepsWellFormed(s, t);
    FeedAppend(s.projects, s.events, t.events);
    hide WellFormed, Sound, FeedClean, FlatSeries;
  }

  // ---- spawning -----------------------------------------------------------------------

  lemma {:induction false} OldClimb(a: State, b: State, x: int, k: nat, y: int)
    requires WellFormed(a) && Spawned(a, b) && x in a.tasks
    requires Forest.Climbs(ParentLinks(b.tasks), x, k, y)
    ensures Forest.Climbs(ParentLinks(a.tasks), x, k, y) && y in a.tasks
    decreases k
  {
    if k > 0 {
      assert b.tasks[x] == a.tasks[x];
      assert RowWellFormed(a, a.tasks[x]);
      OldClimb(a, b, a.tasks[x].parent.value, k - 1, y);
    }
  }

  lemma SpawnKeepsFlat(a: State, b: State)
    requires WellFormed(a) && Spawned(a, b) && FlatSeries(a.tasks)
    ensures FlatSeries(b.tasks)
  {
    hide WellFormed, Sound, SpawnEvent, OnOpenSlot;
    forall x, y | x in b.tasks && y in b.tasks && x != y && b.tasks[x].series.Some? && b.tasks[y].series.Some?
      ensures !Forest.Reaches(ParentLinks(b.tasks), x, y)
    {
      if Forest.Reaches(ParentLinks(b.tasks), x, y) {
        var k: nat :| Forest.Climbs(ParentLinks(b.tasks), x, k, y);
        if x in a.tasks {
          OldClimb(a, b, x, k, y);
          FlatPair(a.tasks, x, y, k);
        }
        assert false;
      }
    }
  }

  lemma FlatPair(tasks: map<int, Task>, x: int, y: int, k: nat)
    requires FlatSeries(tasks) && x in tasks && y in tasks && x != y && Forest.Climbs(ParentLinks(tasks), x, k, y)
    ensures !(tasks[x].series.Some? && tasks[y].series.Some?)
  {
    assert Forest.Reaches(ParentLinks(tasks), x, y);
  }

  lemma SpawnKeepsFiled(a: State, b: State)
    requires Spawned(a, b) && Filed(a)
    ensures Filed(b) && (Archived(a) ==> Archived(b))
  {
    forall x | Live(b, x) ensures LiveProject(b, b.tasks[x].project) {
      if x in a.tasks {
        assert b.tasks[x] == a.tasks[x];
      } else {
        assert b.tasks[x].project in FiledLive(a);
      }
    }
    if Archived(a) {
      forall x | x in b.tasks && b.tasks[x].withProject.Some? ensures ArchivedRow(b, b.tasks[x]) {
        assert b.tasks[x] == a.tasks[x];
        assert ArchivedRow(a, a.tasks[x]);
      }
    }
  }

  lemma SpawnKeepsFeed(a: State, b: State)
    requires Spawned(a, b) && FeedClean(a.projects, a.events)
    ensures FeedClean(b.projects, b.events)
  {
    forall p, i | p in a.projects && a.projects[p].deleted && |a.events| <= i < |b.events| ensures Quiet(b.events[i], p) {
      assert SpawnEvent(a.tasks, b.events[i]);
    }
    FeedAppend(a.projects, a.events, b.events);
  }

  /** Spawning successors keeps everything. */
  lemma SpawnKeeps(a: State, b: State)
    requires Core(a) && Spawned(a, b) && WellFormed(b) && UniqueSlots(b)
    ensures Core(b) && (Archived(a) ==> Archived(b))
  {
    SpawnKeepsFlat(a, b);
    SpawnKeepsFiled(a, b);
    SpawnKeepsFeed(a, b);
    hide WellFormed, Sound, Filed, UniqueSlots, FlatSeries, FeedClean, Spawned;
  }

  lemma ReconcileKeeps(s: State, seeds: seq<int>, done: Oracle)
    requires Core(s) && forall q :: q in seeds ==> q in s.tasks
    ensures var r := Reconcile(s, seeds, done);
            r.Ok? ==> Core(r.value) && Spawned(s, r.value) && (Archived(s) ==> Archived(r.value))
  {
    ReconcileSpawned(s, seeds, done);
    hide WellFormed, Sound, Filed, UniqueSlots, FlatSeries, FeedClean, Spawned, Archived, Reconcile;
    var r := Reconcile(s, seeds, done);
    if r.Ok? { SpawnKeeps(s, r.value); }
  }

  // ---- rows going to the trash ----------------------------------------------------------

  /** Rows keep their place and their series; none comes alive and no live one moves. */
  ghost predicate OnlyTrashes(s: State, t: State) {
    && t.projects == s.projects && t.edges == s.edges && (forall x :: x in t.tasks <==> x in s.tasks)
    && (forall x :: x in s.tasks ==>
          && t.tasks[x].parent == s.tasks[x].parent && t.tasks[x].repeat == s.tasks[x].repeat
          && t.tasks[x].series == s.tasks[x].series && t.tasks[x].project == s.tasks[x].project
          && (!t.tasks[x].deleted ==> !s.tasks[x].deleted && t.tasks[x].due == s.tasks[x].due))
  }

  lemma SameParentsFlat(s: map<int, Task>, t: map<int, Task>)
    requires FlatSeries(s) && (forall x :: x in t ==> x in s)
    requires forall x :: x in t ==> (t[x].parent == s[x].parent || t[x].parent.None?) && t[x].series == s[x].series
    ensures FlatSeries(t)
  {
    var a, b := ParentLinks(s), ParentLinks(t);
    forall x, y | x in t && y in t && x != y && t[x].series.Some? && t[y].series.Some?
      ensures !Forest.Reaches(b, x, y)
    {
      if Forest.Reaches(b, x, y) {
        var k: nat :| Forest.Climbs(b, x, k, y);
        Forest.FewerLinks(b, a, x, k, y);
        FlatPair(s, x, y, k);
        assert false;
      }
    }
  }

  lemma OnlyTrashesKeeps(s: State, t: State)
    requires Core(s) && OnlyTrashes(s, t) && s.events <= t.events
    requires forall p, i :: p in s.projects && s.projects[p].deleted && |s.events| <= i < |t.events| ==> Quiet(t.events[i], p)
    ensures Core(t)
  {
    SameShapeWellFormed(s, t);
    SameParentsFlat(s.tasks, t.tasks);
    FeedAppend(s.projects, s.events, t.events);
    hide WellFormed, Sound, FlatSeries, FeedClean, Quiet;
    forall x | Live(t, x) ensures LiveProject(t, t.tasks[x].project) {
      assert Live(s, x);
    }
    forall x, y | Live(t, x) && Live(t, y) && SameSlot(t.tasks[x], t.tasks[y]) ensures x == y {
      assert Live(s, x) && Live(s, y) && SameSlot(s.tasks[x], s.tasks[y]);
    }
  }

  lemma CascadedKeeps(s: State, rows: seq<int>, root: int)
    requires Consistent(s) && forall x :: x in rows ==> Live(s, x)
    ensures Consistent(Cascaded(s, rows, root))
  {
    var t := Cascaded(s, rows, root);
    hide Core;
    OnlyTrashesKeeps(s, t);
    forall x | x in t.tasks && t.tasks[x].withProject.Some? ensures ArchivedRow(t, t.tasks[x]) {
      assert ArchivedRow(s, s.tasks[x]);
    }
  }

  lemma SkippedKeeps(s: State, id: int)
    requires Consistent(s) && id in s.tasks
    ensures Consistent(MarkSkipped(s, id))
  {
    var t := MarkSkipped(s, id);
    hide Core;
    OnlyTrashesKeeps(s, t);
    forall x | x in t.tasks && t.tasks[x].withProject.Some? ensures ArchivedRow(t, t.tasks[x]) {
      assert ArchivedRow(s, s.tasks[x]);
    }
  }
}
