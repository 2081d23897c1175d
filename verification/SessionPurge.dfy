/**
 The purge services as they run: each overwrites the session's rows step by step and ends where
 its specification says.
 */
module SessionPurge {
  import opened Common
  import opened Store
  import opened Tasks
  import opened TaskPurge
  import opened ProjectPurge
  import Projects
  import Trash
  import Forest

  lemma TaskEventsSnoc(tasks: map<int, Task>, ids: seq<int>, x: int, action: Action, note: Note)
    requires (forall y :: y in ids ==> y in tasks) && x in tasks
    ensures TaskEvents(tasks, ids + [x], action, note)
         == TaskEvents(tasks, ids, action, note) + [TaskEvent(tasks[x], x, action, note)]
  {
    hide TaskEvents;
    var a, b := TaskEvents(tasks, ids + [x], action, note), TaskEvents(tasks, ids, action, note);
    forall i | 0 <= i < |ids| ensures a[i] == b[i] {
      assert (ids + [x])[i] == ids[i];
    }
    assert a[|ids|] == TaskEvent(tasks[x], x, action, note);
  }

  /** One event per row, in the given order. */
  method LogTasks(db: Database, ids: seq<int>, action: Action, note: Note)
    requires forall x :: x in ids ==> x in db.tasks
    modifies db`events
    ensures db.events == old(db.events) + TaskEvents(db.tasks, ids, action, note)
  {
    hide TaskEvents;
    var tasks := db.tasks;
    for i := 0 to |ids|
      invariant db.tasks == tasks && forall y :: y in ids[..i] ==> y in tasks
      invariant db.events == old(db.events) + TaskEvents(tasks, ids[..i], action, note)
    {
      var x := ids[i];
      assert ids[..i + 1] == ids[..i] + [x];
      TaskEventsSnoc(tasks, ids[..i], x, action, note);
      db.Log(TaskEvent(tasks[x], x, action, note));
    }
    assert ids[..|ids|] == ids;
  }

  /** The trashed children of a row that a purge scoped to one project follows, in id order. */
  function TrashedChildren(tasks: map<int, Task>, scope: int, id: int): (children: seq<int>)
    ensures children == Sorted(Forest.Kids(TrashLinks(tasks, scope), id))
  {
    var rows := set c | c in tasks && tasks[c].deleted && tasks[c].project == scope && tasks[c].parent == Some(id);
    assert rows == Forest.Kids(TrashLinks(tasks, scope), id);
    Sorted(rows)
  }

  /** `_deleted_subtree_depth_first`, below one row of the project `scope`. */
  method DepthFirst(db: Database, scope: int, id: int) returns (ordered: seq<int>)
    requires Forest.OffCycle(TrashLinks(db.tasks, scope), id)
    ensures ordered == Forest.PostOrder(TrashLinks(db.tasks, scope), id)
    decreases |Forest.Subtree(TrashLinks(db.tasks, scope), id)|
  {
    hide *;
    ghost var up := TrashLinks(db.tasks, scope);
    var children := TrashedChildren(db.tasks, scope, id);
    KidsShape(up, id);
    ordered := [];
    WalkStarts(up, id, children);
    for i := 0 to |children|
      invariant ordered + Forest.PostOrderAll(up, id, children[i..]) == Forest.PostOrderAll(up, id, children)
    {
      NextChild(up, id, children, i, ordered);
      var below := DepthFirst(db, scope, children[i]);
      ordered := ordered + below;
    }
    WalkEnds(up, id, children, ordered);
    ordered := ordered + [id];
  }

  lemma KidsShape(up: Forest.Links, id: int)
    ensures forall c :: c in Sorted(Forest.Kids(up, id)) ==> c in Forest.Kids(up, id)
  {
  }

  lemma WalkStarts(up: Forest.Links, id: int, children: seq<int>)
    requires Forest.OffCycle(up, id) && forall c :: c in children ==> c in Forest.Kids(up, id)
    ensures [] + Forest.PostOrderAll(up, id, children[0..]) == Forest.PostOrderAll(up, id, children)
  {
    assert children[0..] == children;
  }

  lemma WalkEnds(up: Forest.Links, id: int, children: seq<int>, ordered: seq<int>)
    requires Forest.OffCycle(up, id) && children == Sorted(Forest.Kids(up, id))
    requires forall c :: c in children ==> c in Forest.Kids(up, id)
    requires ordered + Forest.PostOrderAll(up, id, children[|children|..]) == Forest.PostOrderAll(up, id, children)
    ensures ordered + [id] == Forest.PostOrder(up, id)
  {
    assert children[|children|..] == [];
  }

  lemma NextChild(up: Forest.Links, id: int, children: seq<int>, i: nat, ordered: seq<int>)
    requires Forest.OffCycle(up, id) && i < |children| && forall c :: c in children ==> c in Forest.Kids(up, id)
    ensures Forest.OffCycle(up, children[i])
    ensures |Forest.Subtree(up, children[i])| < |Forest.Subtree(up, id)|
    ensures ordered + Forest.PostOrderAll(up, id, children[i..])
         == ordered + Forest.PostOrder(up, children[i]) + Forest.PostOrderAll(up, id, children[i + 1..])
  {
    Forest.KidSubtree(up, children[i], id);
    Forest.KidOffCycle(up, children[i], id);
    hide Forest.OffCycle, Forest.Subtree, Forest.Kids;
    assert children[i..][0] == children[i] && children[i..][1..] == children[i + 1..];
  }

  /** Every parent pointer names a row that is there. */
  predicate NoDangling(tasks: map<int, Task>) {
    forall x :: x in tasks && tasks[x].parent.Some? ==> tasks[x].parent.value in tasks
  }

  predicate ChildrenFirst(tasks: map<int, Task>, order: seq<int>)
  {
    forall i, j :: 0 <= i < |order| && 0 <= j < |order| && order[i] in tasks && tasks[order[i]].parent == Some(order[j]) ==> i < j
  }

  /**
   The last loop of a purge. At no point is a row's parent already gone: the foreign key of
   `parent_task_id` never refuses.
   */
  method DeleteInOrder(db: Database, subtree: seq<int>)
    requires NoDangling(db.tasks) && Distinct(subtree)
    requires forall x :: x in subtree ==> x in db.tasks && db.tasks[x].deleted
    requires forall x :: x in db.tasks && x !in subtree && db.tasks[x].parent.Some? ==> db.tasks[x].parent.value !in subtree
    requires ChildrenFirst(db.tasks, subtree)
    modifies db`tasks
    ensures db.tasks == map x | x in old(db.tasks) && x !in subtree :: old(db.tasks)[x]
  {
    ghost var all := db.tasks;
    for i := 0 to |subtree|
      invariant db.tasks == map x | x in all && x !in subtree[..i] :: all[x]
      invariant NoDangling(db.tasks)
    {
      assert subtree[..i + 1] == subtree[..i] + [subtree[i]];
      db.tasks := map x | x in db.tasks && x != subtree[i] :: db.tasks[x];
      forall x | x in db.tasks && db.tasks[x].parent.Some? ensures db.tasks[x].parent.value in db.tasks {
        var q: int := db.tasks[x].parent.value;
        if x in subtree {
          var k :| 0 <= k < |subtree| && subtree[k] == x;
          assert k > i;
        }
      }
    }
    assert subtree[..|subtree|] == subtree;
  }

  lemma SameEvents(a: map<int, Task>, b: map<int, Task>, ids: seq<int>, action: Action, note: Note)
    requires forall x :: x in ids ==> x in a && x in b && a[x].project == b[x].project
    ensures TaskEvents(a, ids, action, note) == TaskEvents(b, ids, action, note)
  {
    hide TaskEvents;
    var u, v := TaskEvents(a, ids, action, note), TaskEvents(b, ids, action, note);
    forall i | 0 <= i < |ids| ensures u[i] == v[i] {
    }
  }

  /** Rows outside `ids` lose a parent that is one of them. */
  function WithoutParents(tasks: map<int, Task>, ids: set<int>): map<int, Task> {
    map x | x in tasks ::
      if x !in ids && tasks[x].parent.Some? && tasks[x].parent.value in ids then tasks[x].(parent := None) else tasks[x]
  }

  /** Rows outside `ids` lose a cascade marker that names one of them. */
  function WithoutMarkers(tasks: map<int, Task>, ids: set<int>): map<int, Task> {
    map x | x in tasks ::
      if x !in ids && tasks[x].withTask.Some? && tasks[x].withTask.value in ids then tasks[x].(withTask := None) else tasks[x]
  }

  ghost predicate CutFrom(before: map<int, Task>, ids: set<int>, tasks: map<int, Task>) {
    && (forall x :: x in tasks <==> x in before)
    && forall x :: x in before ==> tasks[x] == if x in ids then before[x] else CutLoose(before[x], ids)
  }

  lemma CutTwice(tasks: map<int, Task>, ids: set<int>)
    ensures var a := WithoutParents(tasks, ids);
            && CutFrom(tasks, ids, WithoutMarkers(a, ids))
            && (forall x :: x in tasks ==> x in a && a[x].project == tasks[x].project)
  {
  }

  lemma PurgeFacts(s: State, id: int)
    requires WellFormed(s) && Trashed(s, id)
    ensures id in s.tasks && Forest.OffCycle(TrashLinks(s.tasks, s.tasks[id].project), id)
    ensures var order := Forest.PostOrder(TrashLinks(s.tasks, s.tasks[id].project), id);
            var severed := SeveredDependents(s.edges, Elems(order)) + SeveredBlockers(s.edges, Elems(order));
            && order == PurgeOrder(s, id) && Elems(order) == Doomed(s, id)
            && (forall x :: x in order ==> x in s.tasks) && (forall x :: x in severed ==> x in s.tasks)
            && (forall x :: x in Sorted(Detached(s.tasks, Elems(order))) ==> x in s.tasks)
  {
    TrashLinksOffCycle(s, s.tasks[id].project, id);
    var order := PurgeOrder(s, id);
    hide Doomed;
    SeveredExist(s, Elems(order));
  }

  /** The edges go first; whoever loses one from outside the subtree has it recorded. */
  method SeverEdges(db: Database, ids: set<int>)
    requires forall x :: x in SeveredDependents(db.edges, ids) + SeveredBlockers(db.edges, ids) ==> x in db.tasks
    modifies db`edges, db`events
    ensures db.edges == EdgesWithout(old(db.edges), ids)
    ensures db.events == old(db.events)
                         + TaskEvents(db.tasks, SeveredDependents(old(db.edges), ids) + SeveredBlockers(old(db.edges), ids),
                                      DependencyRemoved, Usual)
  {
    var severed := SeveredDependents(db.edges, ids) + SeveredBlockers(db.edges, ids);
    db.edges := EdgesWithout(db.edges, ids);
    LogTasks(db, severed, DependencyRemoved, Usual);
  }

  /** Then survivors lose their parent, recorded, and their cascade marker, if it is a destroyed row. */
  method DetachSurvivors(db: Database, ids: set<int>)
    requires forall x :: x in Sorted(Detached(db.tasks, ids)) ==> x in db.tasks
    modifies db`tasks, db`events
    ensures CutFrom(old(db.tasks), ids, db.tasks)
    ensures db.events == old(db.events) + TaskEvents(old(db.tasks), Sorted(Detached(old(db.tasks), ids)), Updated, DetachedByPurge)
  {
    CutTwice(db.tasks, ids);
    hide TaskEvents, Detached, WithoutParents, WithoutMarkers, Sorted, CutFrom;
    var detached := Sorted(Detached(db.tasks, ids));
    db.tasks := WithoutParents(db.tasks, ids);
    SameEvents(old(db.tasks), db.tasks, detached, Updated, DetachedByPurge);
    LogTasks(db, detached, Updated, DetachedByPurge);
    db.tasks := WithoutMarkers(db.tasks, ids);
  }

  /** `purge_task`. */
  method PurgeTask(db: Database, id: int)
    requires WellFormed(db.View()) && Trashed(db.View(), id)
    modifies db
    ensures db.View() == TaskPurge.PurgeTask(old(db.View()), id)
  {
    hide *;
    ghost var s := db.View();
    db.Fields();
    PurgeFacts(s, id);
    var subtree := DepthFirst(db, db.tasks[id].project, id);
    var ids := Elems(subtree);
    SeverEdges(db, ids);
    DetachSurvivors(db, ids);
    CutProjects(s.tasks, ids, db.tasks);
    SameEvents(s.tasks, db.tasks, subtree, Purged, Usual);
    LogTasks(db, subtree, Purged, Usual);
    OrderIsSafe(s, id, db.tasks);
    ghost var cut := db.tasks;
    DeleteInOrder(db, subtree);
    db.Fields();
    PurgeIs(s, id, cut, db.View());
  }

  lemma CutProjects(before: map<int, Task>, ids: set<int>, tasks: map<int, Task>)
    requires CutFrom(before, ids, tasks)
    ensures forall x :: x in before ==> x in tasks && tasks[x].project == before[x].project
  {
  }

  /** What the last loop needs of a purge order, once the survivors are cut loose. */
  lemma OrderIsSafe(s: State, id: int, tasks: map<int, Task>)
    requires WellFormed(s) && Trashed(s, id) && CutFrom(s.tasks, Doomed(s, id), tasks)
    ensures var order := PurgeOrder(s, id);
            && NoDangling(tasks) && Distinct(order) && ChildrenFirst(tasks, order)
            && (forall x :: x in order ==> x in tasks && tasks[x].deleted)
            && (forall x :: x in tasks && x !in order && tasks[x].parent.Some? ==> tasks[x].parent.value !in order)
  {
    DoomedExist(s, id);
    var order, ids, up := PurgeOrder(s, id), Doomed(s, id), TrashLinks(s.tasks, s.tasks[id].project);
    hide Forest.Acyclic, PurgeOrder, Doomed;
    assert forall x :: x in order <==> x in ids by {
      assert forall x :: x in order <==> x in Elems(order);
    }
    forall x | x in tasks && tasks[x].parent.Some? ensures tasks[x].parent.value in tasks {
      assert RowWellFormed(s, s.tasks[x]);
      assert tasks[x].parent == s.tasks[x].parent;
      var q: int := s.tasks[x].parent.value;
      assert q in s.tasks;
    }
    forall i, j | 0 <= i < |order| && 0 <= j < |order| && order[i] in tasks && tasks[order[i]].parent == Some(order[j])
      ensures i < j
    {
      assert order[i] in order;
      assert Forest.LinksTo(up, order[i], order[j]);
    }
  }

  lemma PurgeIs(s: State, id: int, cut: map<int, Task>, t: State)
    requires WellFormed(s) && Trashed(s, id) && CutFrom(s.tasks, Doomed(s, id), cut)
    requires var order := PurgeOrder(s, id);
             var severed := SeveredDependents(s.edges, Elems(order)) + SeveredBlockers(s.edges, Elems(order));
             var detached := Sorted(Detached(s.tasks, Elems(order)));
             && (forall x :: x in order ==> x in s.tasks) && (forall x :: x in severed ==> x in s.tasks)
             && (forall x :: x in detached ==> x in s.tasks)
             && t.projects == s.projects && t.edges == EdgesWithout(s.edges, Elems(order))
             && t.events == s.events + TaskEvents(s.tasks, severed, DependencyRemoved, Usual)
                            + TaskEvents(s.tasks, detached, Updated, DetachedByPurge) + TaskEvents(s.tasks, order, Purged, Usual)
             && t.tasks == map x | x in cut && x !in order :: cut[x]
    ensures t == TaskPurge.PurgeTask(s, id)
  {
    hide WellFormed, Sound, Doomed, TaskEvents, SeveredDependents, SeveredBlockers, EdgesWithout, Detached, Sorted, PurgeOrder;
    var order := PurgeOrder(s, id);
    assert forall x :: x in order <==> x in Elems(order);
    var kept := Survivors(s.tasks, Elems(order));
    forall x ensures x in t.tasks <==> x in kept {
    }
    forall x | x in t.tasks ensures t.tasks[x] == kept[x] {
    }
    assert t.tasks == kept;
  }
}
