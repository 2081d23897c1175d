/** Purging a project, a selection of the trash, or all of it, as the services run. */
module SessionTrash {
  import opened Common
  import opened Store
  import opened ProjectPurge
  import opened Trash
  import Projects
  import SessionPurge
  import TaskPurge
  import Forest

  lemma PurgeEachStep(s: State, ids: seq<int>, i: nat)
    requires WellFormed(s) && i < |ids|
    ensures if Trashed(s, ids[i]) then
              WellFormed(TaskPurge.PurgeTask(s, ids[i]))
              && PurgeEach(s, ids[i..]) == PurgeEach(TaskPurge.PurgeTask(s, ids[i]), ids[i + 1..])
            else PurgeEach(s, ids[i..]) == PurgeEach(s, ids[i + 1..])
  {
    hide WellFormed, Sound, TaskPurge.PurgeTask;
    assert ids[i..][0] == ids[i] && ids[i..][1..] == ids[i + 1..];
    if Trashed(s, ids[i]) { TaskPurge.PurgeWellFormed(s, ids[i]); }
  }

  lemma PurgeEachEnds(s: State, ids: seq<int>)
    requires WellFormed(s)
    ensures PurgeEach(s, ids[|ids|..]) == s && ids[0..] == ids
  {
  }

  /** The purge loops: each id is fetched again, and skipped when an earlier purge took it. */
  method PurgeRows(db: Database, ids: seq<int>)
    requires WellFormed(db.View())
    modifies db
    ensures WellFormed(db.View()) && db.View() == PurgeEach(old(db.View()), ids)
  {
    hide *;
    PurgeEachEnds(db.View(), ids);
    for i := 0 to |ids|
      invariant WellFormed(db.View()) && PurgeEach(db.View(), ids[i..]) == PurgeEach(old(db.View()), ids)
    {
      PurgeEachStep(db.View(), ids, i);
      TrashedRow(db, ids[i]);
      if ids[i] in db.tasks && db.tasks[ids[i]].deleted {
        SessionPurge.PurgeTask(db, ids[i]);
      }
    }
    PurgeEachEnds(db.View(), ids);
  }

  lemma TrashedRow(db: Database, id: int)
    ensures Trashed(db.View(), id) <==> id in db.tasks && db.tasks[id].deleted
  {
  }

  lemma PurgeEachKeepsProjects(s: State, ids: seq<int>)
    requires WellFormed(s)
    ensures PurgeEach(s, ids).projects == s.projects
  {
    PurgeEachProjects(s, ids);
  }

  /** `purge_project`; a raise rolls the session back. */
  method PurgeProject(db: Database, p: int) returns (raised: Option<Error>)
    requires WellFormed(db.View()) && p in db.projects
    modifies db
    ensures var r := ProjectPurge.PurgeProject(old(db.View()), p);
            raised == (if r.Err? then Some(r.error) else None) && (r.Ok? ==> db.View() == r.value)
  {
    PurgeProjectIs(db.View(), p);
    PurgeEachKeepsProjects(db.View(), Sorted(Projects.TrashedIn(db.View(), p)));
    hide *;
    db.Fields();
    if db.projects[p].protected { return Some(ProtectedProject); }
    PurgeRows(db, Sorted(Projects.TrashedIn(db.View(), p)));
    db.Fields();
    if exists x :: x in db.tasks && db.tasks[x].project == p { return Some(StillReferenced); }
    WithoutIs(db.View(), p);
    db.Log(Projects.ProjectEvent(p, Purged));
    db.events := Unlinked(db.events, p);
    db.tasks := map x | x in db.tasks ::
      if db.tasks[x].withProject == Some(p) then db.tasks[x].(withProject := None) else db.tasks[x];
    db.projects := map q | q in db.projects && q != p :: db.projects[q];
    db.Fields();
    return None;
  }

  /** A project purge, case by case. */
  lemma PurgeProjectIs(s: State, p: int)
    requires WellFormed(s) && p in s.projects
    ensures var cleared := PurgeEach(s, Sorted(Projects.TrashedIn(s, p)));
            ProjectPurge.PurgeProject(s, p)
            == if s.projects[p].protected then Err(ProtectedProject)
               else if exists x :: x in cleared.tasks && cleared.tasks[x].project == p then Err(StillReferenced)
               else Ok(WithoutProject(cleared, p))
  {
    hide WellFormed, Sound, PurgeEach, WithoutProject, Sorted, Projects.TrashedIn;
  }

  lemma WithoutIs(s: State, p: int)
    ensures WithoutProject(s, p)
            == State(map x | x in s.tasks :: if s.tasks[x].withProject == Some(p) then s.tasks[x].(withProject := None) else s.tasks[x],
                     map q | q in s.projects && q != p :: s.projects[q], s.edges, Unlinked(s.events + [Projects.ProjectEvent(p, Purged)], p))
  {
    hide Unlinked;
  }

  lemma ChunkAt(ids: seq<int>, start: nat)
    requires start < |ids|
    ensures var n := FirstChunk(ids[start..]);
            0 < n <= |ids| - start && ids[start..][..n] == ids[start..start + n] && ids[start..][n..] == ids[start + n..]
  {
  }

  lemma NextChunk(s: State, ids: seq<int>, start: nat)
    requires start < |ids|
    ensures var n := FirstChunk(ids[start..]);
            && 0 < n <= |ids| - start
            && TrashedIds(s, ids[start..])
               == Sorted(set x | x in ids[start..start + n] && Trashed(s, x)) + TrashedIds(s, ids[start + n..])
            && PurgeableIds(s, ids[start..])
               == Sorted(set p | p in ids[start..start + n] && Purgeable(s, p)) + PurgeableIds(s, ids[start + n..])
  {
    ChunkAt(ids, start);
    TrashedHead(s, ids[start..]);
    PurgeableHead(s, ids[start..]);
    hide *;
  }

  lemma TrashedHead(s: State, ids: seq<int>)
    requires ids != []
    ensures var n := FirstChunk(ids);
            TrashedIds(s, ids) == Sorted(set x | x in ids[..n] && Trashed(s, x)) + TrashedIds(s, ids[n..])
  {
    hide Sorted;
  }

  lemma PurgeableHead(s: State, ids: seq<int>)
    requires ids != []
    ensures var n := FirstChunk(ids);
            PurgeableIds(s, ids) == Sorted(set p | p in ids[..n] && Purgeable(s, p)) + PurgeableIds(s, ids[n..])
  {
    hide Sorted;
  }

  lemma LastChunk(s: State, ids: seq<int>)
    ensures ids[0..] == ids && TrashedIds(s, ids[|ids|..]) == [] && PurgeableIds(s, ids[|ids|..]) == []
  {
  }

  /** `_trashed_task_ids`. */
  method ResolveTasks(db: Database, ids: seq<int>) returns (resolved: seq<int>)
    ensures resolved == TrashedIds(db.View(), ids)
  {
    hide *;
    resolved := [];
    var start := 0;
    LastChunk(db.View(), ids);
    while start < |ids|
      invariant 0 <= start <= |ids| && resolved + TrashedIds(db.View(), ids[start..]) == TrashedIds(db.View(), ids)
    {
      NextChunk(db.View(), ids, start);
      var n := FirstChunk(ids[start..]);
      resolved := resolved + Sorted(set x | x in ids[start..start + n] && Trashed(db.View(), x));
      start := start + n;
    }
  }

  /** `_purgeable_project_ids`. */
  method ResolveProjects(db: Database, ids: seq<int>) returns (resolved: seq<int>)
    ensures resolved == PurgeableIds(db.View(), ids)
  {
    hide *;
    resolved := [];
    var start := 0;
    LastChunk(db.View(), ids);
    while start < |ids|
      invariant 0 <= start <= |ids| && resolved + PurgeableIds(db.View(), ids[start..]) == PurgeableIds(db.View(), ids)
    {
      NextChunk(db.View(), ids, start);
      var n := FirstChunk(ids[start..]);
      resolved := resolved + Sorted(set p | p in ids[start..start + n] && Purgeable(db.View(), p));
      start := start + n;
    }
  }

  /**
   `_removed_task_ids`: the subtrees are expanded before anything is purged, and a root that an
   earlier expansion covers is skipped; the set is still every subtree's.
   */
  method RemovedTaskIds(db: Database, taskIds: seq<int>, projectIds: seq<int>) returns (removed: set<int>)
    requires WellFormed(db.View())
    ensures removed == RemovedIds(db.View(), taskIds, projectIds)
  {
    hide *;
    ghost var s := db.View();
    var roots := taskIds + OwnedIds(db.View(), projectIds);
    RemovedOf(s, taskIds, projectIds);
    removed := {};
    NothingGone(s);
    ReachStarts(s, roots);
    for i := 0 to |roots|
      invariant DownClosed(s, removed) && removed + Reach(s, roots[i..]) == Reach(s, roots)
    {
      var root := roots[i];
      ReachStep(s, removed, roots, i);
      TrashedRow(db, root);
      if root !in removed && root in db.tasks && db.tasks[root].deleted {
        SessionPurge.PurgeFacts(s, root);
        db.Fields();
        var subtree := SessionPurge.DepthFirst(db, db.tasks[root].project, root);
        removed := removed + Elems(subtree);
      }
    }
    ReachEnds(s, roots);
  }

  lemma RemovedOf(s: State, ts: seq<int>, ps: seq<int>)
    ensures RemovedIds(s, ts, ps) == Reach(s, ts + OwnedIds(s, ps))
  {
  }

  lemma ReachStarts(s: State, roots: seq<int>)
    ensures {} + Reach(s, roots[0..]) == Reach(s, roots)
  {
    assert roots[0..] == roots;
  }

  lemma ReachEnds(s: State, roots: seq<int>)
    ensures Reach(s, roots[|roots|..]) == {}
  {
  }

  lemma ReachStep(s: State, removed: set<int>, roots: seq<int>, i: nat)
    requires DownClosed(s, removed) && i < |roots|
    ensures var root := roots[i];
            if root !in removed && Trashed(s, root) then
              DownClosed(s, removed + TaskPurge.Doomed(s, root))
              && removed + TaskPurge.Doomed(s, root) + Reach(s, roots[i + 1..]) == removed + Reach(s, roots[i..])
            else removed + Reach(s, roots[i + 1..]) == removed + Reach(s, roots[i..])
  {
    var root := roots[i];
    assert roots[i..][0] == root && roots[i..][1..] == roots[i + 1..];
    if Trashed(s, root) {
      DoomedClosed(s, removed, root);
      if root in removed { RootInside(s, removed, root); }
    }
  }

  lemma PurgeProjectsStep(s: State, ps: seq<int>, i: nat)
    requires WellFormed(s) && i < |ps|
    ensures ps[i] in s.projects && ProjectPurge.PurgeProject(s, ps[i]).Ok? ==>
              WellFormed(ProjectPurge.PurgeProject(s, ps[i]).value)
    ensures PurgeProjects(s, ps[i..])
         == if ps[i] in s.projects && s.projects[ps[i]].deleted then
              var next := ProjectPurge.PurgeProject(s, ps[i]);
              if next.Ok? then PurgeProjects(next.value, ps[i + 1..]) else Err(next.error)
            else PurgeProjects(s, ps[i + 1..])
  {
    hide WellFormed, Sound, ProjectPurge.PurgeProject;
    assert ps[i..][0] == ps[i] && ps[i..][1..] == ps[i + 1..];
    if ps[i] in s.projects { PurgedWellFormed(s, ps[i]); }
  }

  lemma PurgeProjectsEnds(s: State, ps: seq<int>)
    requires WellFormed(s)
    ensures PurgeProjects(s, ps[|ps|..]) == Ok(s) && ps[0..] == ps
  {
  }

  method PurgeProjectRows(db: Database, ps: seq<int>) returns (raised: Option<Error>)
    requires WellFormed(db.View())
    modifies db
    ensures var r := PurgeProjects(old(db.View()), ps);
            raised == (if r.Err? then Some(r.error) else None) && (r.Ok? ==> db.View() == r.value)
  {
    hide *;
    PurgeProjectsEnds(db.View(), ps);
    for i := 0 to |ps|
      invariant WellFormed(db.View()) && PurgeProjects(db.View(), ps[i..]) == PurgeProjects(old(db.View()), ps)
    {
      PurgeProjectsStep(db.View(), ps, i);
      db.Fields();
      if ps[i] in db.projects && db.projects[ps[i]].deleted {
        raised := PurgeProject(db, ps[i]);
        if raised.Some? { return; }
      }
    }
    PurgeProjectsEnds(db.View(), ps);
    raised := None;
  }

  /** `purge_selected`. */
  method PurgeSelected(db: Database, projectIds: seq<int>, taskIds: seq<int>)
    returns (raised: Option<Error>, counts: PurgeCounts)
    requires WellFormed(db.View())
    modifies db
    ensures var r := Trash.PurgeSelected(old(db.View()), projectIds, taskIds);
            raised == (if r.Err? then Some(r.error) else None) && (r.Ok? ==> (db.View(), counts) == r.value)
  {
    hide WellFormed, Sound, PurgeEach, PurgeProjects, RemovedIds, TrashedIds, PurgeableIds;
    var tasks := ResolveTasks(db, taskIds);
    var projects := ResolveProjects(db, projectIds);
    var removed := RemovedTaskIds(db, tasks, projects);
    PurgeRows(db, tasks);
    raised := PurgeProjectRows(db, projects);
    counts := PurgeCounts(|projects|, |removed|);
  }

  /** `empty_trash`. */
  method EmptyTrash(db: Database) returns (raised: Option<Error>, counts: PurgeCounts)
    requires WellFormed(db.View())
    modifies db
    ensures var r := Trash.EmptyTrash(old(db.View()));
            raised == (if r.Err? then Some(r.error) else None) && (r.Ok? ==> (db.View(), counts) == r.value)
  {
    hide WellFormed, Sound, Trash.PurgeSelected;
    raised, counts := PurgeSelected(db, Sorted(set p | p in db.projects && db.projects[p].deleted),
                                    Sorted(TrashedTasks(db.View())));
  }
}
