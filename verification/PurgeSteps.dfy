/** Purging tasks and projects keeps the joint invariant, and never meets a live task. */
module PurgeSteps {
  import opened Common
  import opened Store
  import opened TaskRecurrence
  import opened Projects
  import opened Invariant
  import opened ProjectPurge
  import TaskPurge
  import TaskSteps
  import ProjectSteps
  import ProjectUndo
  import Forest

  lemma {:induction false} PurgeEachKeeps(s: State, ids: seq<int>)
    requires Consistent(s)
    ensures WellFormed(s)
    ensures var t := PurgeEach(s, ids);
            Consistent(t) && t.projects == s.projects
    decreases |ids|
  {
    TaskSteps.ConsistentWellFormed(s);
    hide Consistent, WellFormed, Sound, TaskPurge.PurgeTask;
    if ids != [] {
      if Trashed(s, ids[0]) {
        TaskSteps.PurgeKeeps(s, ids[0]);
        PurgeEachKeeps(TaskPurge.PurgeTask(s, ids[0]), ids[1..]);
      } else {
        PurgeEachKeeps(s, ids[1..]);
      }
    }
  }

  /** Purging a project never meets a live task, and keeps everything. */
  lemma PurgeProjectKeeps(s: State, p: int)
    requires Consistent(s) && p in s.projects && s.projects[p].deleted
    ensures WellFormed(s) && PurgeProject(s, p).Ok? && Consistent(PurgeProject(s, p).value)
    ensures PurgeProject(s, p).value.projects.Keys == s.projects.Keys - {p}
    ensures forall q :: q in PurgeProject(s, p).value.projects ==> PurgeProject(s, p).value.projects[q] == s.projects[q]
  {
    TaskSteps.ConsistentWellFormed(s);
    var owned := Sorted(TrashedIn(s, p));
    PurgeEachKeeps(s, owned);
    NobodyLeft(s, p);
    ProjectUndo.TrashedIsFree(s, p);
    hide Consistent, WellFormed, Sound, PurgeEach, TrashedIn, WithoutProject;
    var cleared := PurgeEach(s, owned);
    WithoutProjectKeeps(cleared, p);
    WithoutProjects(cleared, p);
  }

  lemma WithoutProjects(s: State, p: int)
    ensures var t := WithoutProject(s, p);
            t.projects.Keys == s.projects.Keys - {p} && forall q :: q in t.projects ==> t.projects[q] == s.projects[q]
  {
    hide Unlinked;
  }

  lemma NobodyLeft(s: State, p: int)
    requires Consistent(s) && p in s.projects && s.projects[p].deleted
    ensures WellFormed(s)
    ensures forall x :: x in PurgeEach(s, Sorted(TrashedIn(s, p))).tasks ==>
              PurgeEach(s, Sorted(TrashedIn(s, p))).tasks[x].project != p
  {
    TaskSteps.ConsistentWellFormed(s);
    ProjectUndo.NothingLiveIn(s, p);
    NothingYet(s);
    hide *;
    ClearedReach(s, s, {}, p);
    NoneFiledIn(s, PurgeEach(s, Sorted(TrashedIn(s, p))), p);
  }

  lemma NothingYet(s: State)
    ensures PurgedTo(s, s, {}) && DownClosed(s, {})
  {
  }

  lemma NoneFiledIn(s: State, t: State, p: int)
    requires PurgedTo(s, t, {} + TrashedIn(s, p)) && (forall x :: Live(s, x) ==> s.tasks[x].project != p)
    ensures forall x :: x in t.tasks ==> t.tasks[x].project != p
  {
    hide KeepsStamp;
    forall x | x in t.tasks ensures t.tasks[x].project != p {
      assert TaskPurge.LosesOnly(s.tasks[x], t.tasks[x], {} + TrashedIn(s, p));
      assert x !in TrashedIn(s, p);
    }
  }

  lemma WithoutProjectKeeps(s: State, p: int)
    requires Consistent(s) && p in s.projects && !s.projects[p].protected
    requires forall x :: x in s.tasks ==> s.tasks[x].project != p
    ensures Consistent(WithoutProject(s, p))
  {
    var t := WithoutProject(s, p);
    WithoutProjectWellFormed(s, p);
    SameParentsFlat(s.tasks, t.tasks);
    UnlinkedClean(s, p);
    hide WellFormed, Sound, FlatSeries, FeedClean, Unlinked;
    forall x | Live(t, x) ensures LiveProject(t, t.tasks[x].project) {
      assert Live(s, x);
    }
    forall x, y | Live(t, x) && Live(t, y) && SameSlot(t.tasks[x], t.tasks[y]) ensures x == y {
      assert Live(s, x) && Live(s, y) && SameSlot(s.tasks[x], s.tasks[y]);
    }
    forall x | x in t.tasks && t.tasks[x].withProject.Some? ensures ArchivedRow(t, t.tasks[x]) {
      assert ArchivedRow(s, s.tasks[x]);
    }
  }

  lemma UnlinkedClean(s: State, p: int)
    requires FeedClean(s.projects, s.events)
    ensures FeedClean(WithoutProject(s, p).projects, WithoutProject(s, p).events)
  {
    var t := WithoutProject(s, p);
    var logged := s.events + [ProjectEvent(p, Purged)];
    FeedAppend(s.projects, s.events, logged);
    forall q, i | q in t.projects && t.projects[q].deleted && LastDeleted(t.events, q) <= i < |t.events|
      ensures Quiet(t.events[i], q)
    {
      assert ProjectUndo.Extends(logged, t.events, q);
      ProjectUndo.WindowStartExtends(logged, t.events, q, |logged| + 1);
      assert Quiet(logged[i], q);
    }
  }
}
