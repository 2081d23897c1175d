/**
 Moving a task below another one, or to the top (backend/app/services/tasks.py, `update_task` with
 a parent only): the guard keeps the wait graph free of cycles, and refuses nothing else.
 */
module Reparenting {
  import opened Common
  import opened Calendar
  import opened Store
  import opened TaskRecurrence
  import opened Edits
  import WaitRuns
  import TaskDependencies
  import TaskTrash
  import Forest
  import Graph

  /** `_subtree_height` beyond `n`: some active row hangs more than `n` levels below. */
  ghost predicate TallerThan(s: State, id: int, n: int) {
    exists x, k: nat :: k > n && Forest.Climbs(LiveLinks(s.tasks), x, k, id)
  }

  /** `_assert_within_depth_cap` for a move. */
  ghost predicate TooDeepUnder(s: State, id: int, p: int) {
    var allowance := MAX_SUBTASK_DEPTH - NestingLevel(s.tasks, p, {}) - 1;
    allowance < 0 || TallerThan(s, id, allowance)
  }

  function Under(s: State, id: int, parent: Option<int>): State
    requires id in s.tasks
  {
    s.(tasks := s.tasks[id := s.tasks[id].(parent := parent)])
  }

  /** Both ends of the move. */
  function MoveSeeds(s: State, id: int, parent: Option<int>): seq<int>
    requires id in s.tasks
  {
    [id] + (if s.tasks[id].parent.Some? then [s.tasks[id].parent.value] else [])
         + (if parent.Some? then [parent.value] else [])
  }

  /** The guard, in the order it is checked. */
  ghost function MoveRefused(s: State, id: int, parent: Option<int>): Option<Error>
    requires Live(s, id)
  {
    if parent.None? then None
    else if parent.value == id then Some(DependencyCycle(true))
    else if !Live(s, parent.value) then Some(MissingParent)
    else if TaskDependencies.IsAncestor(s, id, parent.value) then Some(DependencyCycle(true))
    else if parent == s.tasks[id].parent then None
    else if TooDeepUnder(s, id, parent.value) then Some(TooDeep)
    else if TaskDependencies.WaitsOn(s, id, parent.value) then Some(DependencyCycle(false))
    else None
  }

  /** `update_task` with a parent only. */
  ghost function Reparent(s: State, id: int, parent: Option<int>, done: Oracle): Result<State, Error>
    requires WellFormed(s) && WaitRuns.NoDeadlock(s) && Live(s, id)
  {
    var t := s.tasks[id];
    if MoveRefused(s, id, parent).Some? then Err(MoveRefused(s, id, parent).value)
    else if t.repeat.Some? && t.due.None? then Err(RecurrenceError)
    else
      assert RowWellFormed(s, t);
      if t.repeat.Some? && NextDue(t.due.value, t.repeat.value).None? then Err(RecurrenceError)
      else if t.parent == parent then Ok(s)
      else
        MoveKeeps(s, id, parent);
        var settled :- Reconcile(Under(s, id, parent), MoveSeeds(s, id, parent), done);
        ReconcileSpawned(Under(s, id, parent), MoveSeeds(s, id, parent), done);
        Ok(LogTask(settled, id, Updated))
  }

  // ---- the graph --------------------------------------------------------------------------------

  lemma UnderArrows(s: State, id: int, parent: Option<int>)
    requires id in s.tasks
    ensures ChildArrows(Under(s, id, parent).tasks)
            == (set a | a in ChildArrows(s.tasks) && a.1 != id) + (if parent.Some? then {(parent.value, id)} else {})
  {
    var t := Under(s, id, parent);
    forall a | a in ChildArrows(t.tasks)
      ensures (a in ChildArrows(s.tasks) && a.1 != id) || (parent.Some? && a == (parent.value, id))
    {
      var x :| x in t.tasks && t.tasks[x].parent.Some? && a == (t.tasks[x].parent.value, x);
      if x != id { assert x in s.tasks && s.tasks[x] == t.tasks[x]; }
    }
    forall a | a in ChildArrows(s.tasks) && a.1 != id ensures a in ChildArrows(t.tasks) {
      var x :| x in s.tasks && s.tasks[x].parent.Some? && a == (s.tasks[x].parent.value, x);
      assert x in t.tasks && t.tasks[x] == s.tasks[x];
    }
    if parent.Some? { assert id in t.tasks && (parent.value, id) in ChildArrows(t.tasks); }
  }

  /** Loosened from its parent the graph loses at most one arrow, and gains one below the new parent. */
  lemma MovedArrows(s: State, id: int, p: int)
    requires id in s.tasks
    ensures var loose := WaitArrows(Under(s, id, None));
            && WaitArrows(Under(s, id, Some(p))) == loose + {(p, id)} && loose <= WaitArrows(s)
            && WaitArrows(s) == (if s.tasks[id].parent.Some? then loose + {(s.tasks[id].parent.value, id)} else loose)
  {
    UnderArrows(s, id, None);
    UnderArrows(s, id, Some(p));
    UnderArrows(s, id, s.tasks[id].parent);
    assert Under(s, id, s.tasks[id].parent).tasks == s.tasks;
  }

  /** The move closes a cycle exactly when the moved task already waits on its new parent. */
  lemma MoveClosesIff(s: State, id: int, p: int)
    requires id in s.tasks && WaitRuns.NoDeadlock(s)
    ensures WaitRuns.NoDeadlock(Under(s, id, Some(p))) <==> !TaskDependencies.WaitsOn(s, id, p)
    ensures WaitRuns.NoDeadlock(Under(s, id, None))
  {
    MovedArrows(s, id, p);
    var g, loose := WaitArrows(s), WaitArrows(Under(s, id, None));
    hide WaitArrows, Under;
    WaitRuns.FewerNoCycle(loose, g);
    Graph.NoCycleIff(loose, p, id);
    if Graph.Reaches(loose, id, p) {
      var k: nat :| Graph.Path(loose, id, k, p);
      Graph.MoreArrows(loose, g, id, k, p);
    }
    if Graph.Reaches(g, id, p) && s.tasks[id].parent.Some? {
      var k: nat :| Graph.Path(g, id, k, p);
      Graph.OneMoreArrow(loose, s.tasks[id].parent.value, id, id, k, p);
    }
  }

  lemma {:induction false} ClimbIsPath(s: State, x: int, k: nat, y: int)
    requires Forest.Climbs(ParentLinks(s.tasks), x, k, y)
    ensures Graph.Path(WaitArrows(s), y, k, x)
    decreases k
  {
    if k > 0 {
      var p := ParentLinks(s.tasks)[x];
      ClimbIsPath(s, p, k - 1, y);
      assert (p, x) in ChildArrows(s.tasks);
      assert Graph.Path(WaitArrows(s), x, 0, x);
      assert Graph.Path(WaitArrows(s), p, 1, x);
      Graph.PathJoin(WaitArrows(s), y, k - 1, p, 1, x);
    }
  }

  /** Where nothing waits on itself, the parent pointers run in no circle. */
  lemma NoDeadlockAcyclic(s: State)
    requires WaitRuns.NoDeadlock(s)
    ensures Forest.Acyclic(ParentLinks(s.tasks))
  {
    forall x, k: nat | k > 0 ensures !Forest.Climbs(ParentLinks(s.tasks), x, k, x) {
      if Forest.Climbs(ParentLinks(s.tasks), x, k, x) {
        ClimbIsPath(s, x, k, x);
        assert false;
      }
    }
  }

  lemma AncestorWaits(s: State, id: int, p: int)
    requires TaskDependencies.IsAncestor(s, id, p)
    ensures TaskDependencies.WaitsOn(s, id, p)
  {
    var k: nat :| k > 0 && Forest.Climbs(ParentLinks(s.tasks), p, k, id);
    ClimbIsPath(s, p, k, id);
  }

  lemma UnderSound(s: State, id: int, parent: Option<int>)
    requires Sound(s) && id in s.tasks && (parent.Some? ==> parent.value in s.tasks)
    ensures Sound(Under(s, id, parent))
  {
    var t := Under(s, id, parent);
    forall x | x in t.tasks ensures RowWellFormed(t, t.tasks[x]) {
      assert RowWellFormed(s, s.tasks[x]);
    }
  }

  lemma MoveKeeps(s: State, id: int, parent: Option<int>)
    requires WellFormed(s) && WaitRuns.NoDeadlock(s) && Live(s, id)
    requires MoveRefused(s, id, parent).None? && parent != s.tasks[id].parent
    ensures WellFormed(Under(s, id, parent)) && WaitRuns.NoDeadlock(Under(s, id, parent))
    ensures forall q :: q in MoveSeeds(s, id, parent) ==> q in Under(s, id, parent).tasks
  {
    assert RowWellFormed(s, s.tasks[id]);
    UnderSound(s, id, parent);
    MoveClosesIff(s, id, if parent.Some? then parent.value else id);
    hide WaitRuns.NoDeadlock, TooDeepUnder, TaskDependencies.WaitsOn, TaskDependencies.IsAncestor, RowWellFormed;
    NoDeadlockAcyclic(Under(s, id, parent));
  }

  /**
   A move that goes through leaves a store where nothing waits on itself; and short of the depth
   cap, a move below another live task goes through its guard exactly when that will be so.
   */
  lemma ReparentExact(s: State, id: int, parent: Option<int>, done: Oracle)
    requires WellFormed(s) && WaitRuns.NoDeadlock(s) && Live(s, id)
    ensures var r := Reparent(s, id, parent, done);
            r.Ok? ==> WellFormed(r.value) && WaitRuns.NoDeadlock(r.value)
    ensures parent.Some? && Live(s, parent.value) && parent != s.tasks[id].parent && !TooDeepUnder(s, id, parent.value) ==>
              (MoveRefused(s, id, parent).None? <==> WaitRuns.NoDeadlock(Under(s, id, parent)))
  {
    if parent.Some? {
      MoveClosesIff(s, id, parent.value);
      Graph.ReachesSelf(WaitArrows(s), id);
      if TaskDependencies.IsAncestor(s, id, parent.value) { AncestorWaits(s, id, parent.value); }
    }
    hide WaitRuns.NoDeadlock, TooDeepUnder, TaskDependencies.IsAncestor;
    if MoveRefused(s, id, parent).None? && parent != s.tasks[id].parent {
      MoveKeeps(s, id, parent);
      MoveSettles(s, id, parent, done);
    }
  }

  lemma MoveSettles(s: State, id: int, parent: Option<int>, done: Oracle)
    requires WellFormed(s) && WaitRuns.NoDeadlock(s) && Live(s, id)
    requires MoveRefused(s, id, parent).None? && parent != s.tasks[id].parent
    requires WellFormed(Under(s, id, parent)) && WaitRuns.NoDeadlock(Under(s, id, parent))
    requires forall q :: q in MoveSeeds(s, id, parent) ==> q in Under(s, id, parent).tasks
    ensures var r := Reparent(s, id, parent, done);
            r.Ok? ==> WellFormed(r.value) && WaitRuns.NoDeadlock(r.value)
  {
    var mid, seeds := Under(s, id, parent), MoveSeeds(s, id, parent);
    hide WellFormed, Sound, WaitRuns.NoDeadlock, MoveRefused, Under, MoveSeeds, Reconcile;
    ReconcileSpawned(mid, seeds, done);
    WaitRuns.ReconcileNoDeadlock(mid, seeds, done);
    var settled := Reconcile(mid, seeds, done);
    if settled.Ok? && id in settled.value.tasks {
      WaitRuns.LoggedNoDeadlock(settled.value, id, Updated);
      TaskTrash.LogKeepsWellFormed(settled.value, LogTask(settled.value, id, Updated));
    }
  }
}
