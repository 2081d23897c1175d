/**
 Dependency edges (backend/app/services/task_dependencies.py): the closure walks, the
 wait-cycle guard, and the blocker counts built on them.
 */
module TaskDependencies {
  import opened Common
  import opened Store
  import Forest
  import Graph

  // ---- the cycle guard --------------------------------------------------------

  ghost predicate WaitsOn(s: State, task: int, other: int) {
    Graph.Reaches(WaitArrows(s), task, other)
  }

  ghost predicate IsAncestor(s: State, ancestor: int, task: int) {
    exists k: nat :: k > 0 && Forest.Climbs(ParentLinks(s.tasks), task, k, ancestor)
  }

  /** `add_dependency`: `task` must wait for `blocker`. */
  ghost function AddDependency(s: State, task: int, blocker: int, done: Oracle): Result<State, Error> {
    if task == blocker then Err(SelfDependency)
    else if !Live(s, task) || !Live(s, blocker) then Err(MissingTask)
    else if done(s, task) then Err(CompletedTask)
    else if (task, blocker) in EdgeArrows(s.edges) then Err(DuplicateDependency)
    else if WaitsOn(s, blocker, task) then Err(DependencyCycle(IsAncestor(s, blocker, task)))
    else
      var added := s.(edges := s.edges + [Edge(task, blocker, false)]);
      Ok(LogTask(added, task, DependencyAdded))
  }

  lemma AddedArrow(s: State, task: int, blocker: int)
    ensures WaitArrows(s.(edges := s.edges + [Edge(task, blocker, false)])) == WaitArrows(s) + {(task, blocker)}
  {
    var e := Edge(task, blocker, false);
    var edges := s.edges + [e];
    forall a ensures a in EdgeArrows(edges) <==> a in EdgeArrows(s.edges) + {(task, blocker)} {
      if a in EdgeArrows(edges) {
        var f :| f in edges && !f.deleted && a == (f.task, f.blocker);
        assert f in s.edges || f == e;
      }
      if a in EdgeArrows(s.edges) {
        var f :| f in s.edges && !f.deleted && a == (f.task, f.blocker);
        assert f in edges;
      }
      assert e in edges;
    }
  }

  /**
   The guard is exact: on an acyclic wait graph, an edge between two live, distinct, unfinished
   and not yet linked tasks is added exactly when the wait graph stays acyclic with it.
   */
  lemma AddDependencyExact(s: State, task: int, blocker: int, done: Oracle)
    requires Graph.NoCycle(WaitArrows(s))
    ensures var r := AddDependency(s, task, blocker, done);
            && (r.Ok? ==> Graph.NoCycle(WaitArrows(r.value)) && WaitArrows(r.value) == WaitArrows(s) + {(task, blocker)})
            && (r.Ok? <==> task != blocker && Live(s, task) && Live(s, blocker) && !done(s, task)
                           && (task, blocker) !in EdgeArrows(s.edges)
                           && Graph.NoCycle(WaitArrows(s) + {(task, blocker)}))
  {
    Graph.NoCycleIff(WaitArrows(s), task, blocker);
    AddedArrow(s, task, blocker);
  }

  lemma ChildPath(s: State, x: int, k: nat, y: int)
    requires Forest.Climbs(ParentLinks(s.tasks), x, k, y)
    ensures Graph.Reaches(WaitArrows(s), y, x)
    decreases k
  {
    Graph.ReachesSelf(WaitArrows(s), x);
    if k > 0 {
      var p := ParentLinks(s.tasks)[x];
      ChildPath(s, p, k - 1, y);
      assert (p, x) in ChildArrows(s.tasks);
      Graph.ReachesArrow(WaitArrows(s), y, p, x);
    }
  }

  /** A subtask can never be made to wait on its own ancestor; the refusal says so. */
  lemma AncestorRefused(s: State, task: int, ancestor: int, done: Oracle)
    requires IsAncestor(s, ancestor, task) && task != ancestor
    requires Live(s, task) && Live(s, ancestor) && !done(s, task)
    requires (task, ancestor) !in EdgeArrows(s.edges)
    ensures AddDependency(s, task, ancestor, done) == Err(DependencyCycle(true))
  {
    var k: nat :| k > 0 && Forest.Climbs(ParentLinks(s.tasks), task, k, ancestor);
    ChildPath(s, task, k, ancestor);
  }
}
