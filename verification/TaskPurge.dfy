/**
 Permanent deletion of a trashed task and its trashed subtree
 (backend/app/services/task_trash.py, `_deleted_subtree_depth_first` and `purge_task`).
 */
module TaskPurge {
  import opened Common
  import opened Store
  import opened Tasks
  import Forest

  /** What purging `id` destroys: the trashed rows of its project hanging below it, and itself. */
  ghost function Doomed(s: State, id: int): set<int>
    requires id in s.tasks
  {
    Forest.Subtree(TrashLinks(s.tasks, s.tasks[id].project), id)
  }

  /** The order they go in: children before parents. */
  ghost function PurgeOrder(s: State, id: int): (order: seq<int>)
    requires WellFormed(s) && id in s.tasks
    ensures Elems(order) == Doomed(s, id) && Distinct(order)
    ensures Forest.KidsFirst(TrashLinks(s.tasks, s.tasks[id].project), order)
    ensures forall x :: x in order ==> x in s.tasks
  {
    var up := TrashLinks(s.tasks, s.tasks[id].project);
    TrashLinksOffCycle(s, s.tasks[id].project, id);
    Forest.PostOrderShape(up, id);
    DoomedExist(s, id);
    assert forall x :: x in Forest.PostOrder(up, id) ==> x in Elems(Forest.PostOrder(up, id));
    Forest.PostOrder(up, id)
  }

  lemma DoomedExist(s: State, id: int)
    requires id in s.tasks
    ensures forall x :: x in Doomed(s, id) ==> x in s.tasks
    ensures forall x :: x in Doomed(s, id) && x != id ==>
              Trashed(s, x) && s.tasks[x].project == s.tasks[id].project && s.tasks[x].parent.Some?
              && s.tasks[x].parent.value in Doomed(s, id)
    ensures id in Doomed(s, id)
  {
    var up := TrashLinks(s.tasks, s.tasks[id].project);
    Forest.ReachesSelf(up, id);
    forall x | x in Doomed(s, id) && x != id ensures x in up && up[x] in Doomed(s, id) {
      BelowIsLinked(up, id, x);
    }
  }

  /** The surviving ends of the active edges a purge of `ids` destroys, dependents first. */
  function SeveredDependents(edges: seq<Edge>, ids: set<int>): (r: seq<int>)
    ensures forall x :: x in r ==> exists e :: e in edges && e.task == x
    ensures forall x :: x in r ==> x !in ids
  {
    if edges == [] then [] else
      var e := edges[0];
      assert forall f :: f in edges[1..] ==> f in edges;
      (if !e.deleted && e.blocker in ids && e.task !in ids then [e.task] else []) + SeveredDependents(edges[1..], ids)
  }

  function SeveredBlockers(edges: seq<Edge>, ids: set<int>): (r: seq<int>)
    ensures forall x :: x in r ==> exists e :: e in edges && e.blocker == x
    ensures forall x :: x in r ==> x !in ids
  {
    if edges == [] then [] else
      var e := edges[0];
      assert forall f :: f in edges[1..] ==> f in edges;
      (if !e.deleted && e.task in ids && e.blocker !in ids then [e.blocker] else []) + SeveredBlockers(edges[1..], ids)
  }

  function EdgesWithout(edges: seq<Edge>, ids: set<int>): (r: seq<Edge>)
    ensures forall e :: e in r <==> e in edges && e.task !in ids && e.blocker !in ids
  {
    if edges == [] then [] else
      (if edges[0].task in ids || edges[0].blocker in ids then [] else [edges[0]]) + EdgesWithout(edges[1..], ids)
  }

  /** A surviving row, cut loose from whatever it named among `ids`. */
  function CutLoose(t: Task, ids: set<int>): Task {
    var u := if t.parent.Some? && t.parent.value in ids then t.(parent := None) else t;
    if u.withTask.Some? && u.withTask.value in ids then u.(withTask := None) else u
  }

  /** The surviving rows a purge of `ids` detaches from their parent. */
  function Detached(tasks: map<int, Task>, ids: set<int>): set<int> {
    set x | x in tasks && x !in ids && tasks[x].parent.Some? && tasks[x].parent.value in ids
  }

  function Survivors(tasks: map<int, Task>, ids: set<int>): map<int, Task> {
    map x | x in tasks && x !in ids :: CutLoose(tasks[x], ids)
  }

  /** `purge_task`. */
  ghost function PurgeTask(s: State, id: int): (r: State)
    requires WellFormed(s) && id in s.tasks
    ensures r.tasks == Survivors(s.tasks, Doomed(s, id)) && r.projects == s.projects
    ensures r.edges == EdgesWithout(s.edges, Doomed(s, id)) && s.events <= r.events
  {
    var order := PurgeOrder(s, id);
    var ids := Elems(order);
    SeveredExist(s, ids);
    s.(tasks := Survivors(s.tasks, ids),
       edges := EdgesWithout(s.edges, ids),
       events := s.events
                 + TaskEvents(s.tasks, SeveredDependents(s.edges, ids) + SeveredBlockers(s.edges, ids), DependencyRemoved, Usual)
                 + TaskEvents(s.tasks, Sorted(Detached(s.tasks, ids)), Updated, DetachedByPurge)
                 + TaskEvents(s.tasks, order, Purged, Usual))
  }

  lemma SeveredExist(s: State, ids: set<int>)
    requires WellFormed(s)
    ensures forall x :: x in SeveredDependents(s.edges, ids) + SeveredBlockers(s.edges, ids) ==> x in s.tasks
  {
    hide Forest.Acyclic;
  }

  lemma PurgeWellFormed(s: State, id: int)
    requires WellFormed(s) && id in s.tasks
    ensures WellFormed(PurgeTask(s, id))
  {
    hide PurgeTask, Doomed;
    SurvivorsWellFormed(s, Doomed(s, id), PurgeTask(s, id));
  }

  lemma SurvivorsWellFormed(s: State, ids: set<int>, t: State)
    requires WellFormed(s) && t.projects == s.projects
    requires t.tasks == Survivors(s.tasks, ids) && t.edges == EdgesWithout(s.edges, ids)
    ensures WellFormed(t)
  {
    Forest.FewerLinksAcyclic(ParentLinks(t.tasks), ParentLinks(s.tasks));
    hide Forest.Acyclic, EdgesWithout;
    forall x | x in t.tasks ensures RowWellFormed(t, t.tasks[x]) {
      assert RowWellFormed(s, s.tasks[x]);
    }
  }

  /** `ids` name nothing the store still refers to: no row, parent, edge or cascade marker. */
  ghost predicate Unmentioned(s: State, ids: set<int>) {
    && (forall x :: x in s.tasks ==>
          && x !in ids
          && (s.tasks[x].parent.Some? ==> s.tasks[x].parent.value !in ids)
          && (s.tasks[x].withTask.Some? ==> s.tasks[x].withTask.value !in ids))
    && (forall e :: e in s.edges ==> e.task !in ids && e.blocker !in ids)
  }

  /** `u` is `t` but for a parent and a cascade marker that were in `ids`: those, and only those, are cleared. */
  predicate LosesOnly(t: Task, u: Task, ids: set<int>) {
    && (t.parent.Some? && t.parent.value in ids ==> u.parent.None?)
    && (t.parent.None? || t.parent.value !in ids ==> u.parent == t.parent)
    && (t.withTask.Some? && t.withTask.value in ids ==> u.withTask.None?)
    && (t.withTask.None? || t.withTask.value !in ids ==> u.withTask == t.withTask)
    && u.project == t.project && u.content == t.content && u.status == t.status && u.due == t.due
    && u.repeat == t.repeat && u.series == t.series && u.deleted == t.deleted && u.skipped == t.skipped
    && u.superseded == t.superseded
  }

  /**
   After a purge nothing that survives names a destroyed id. Every row outside the trashed subtree
   survives: it keeps its parent and its cascade marker unless they named a destroyed row, and
   everything else.
   */
  lemma PurgeLeavesNoReference(s: State, id: int)
    requires WellFormed(s) && id in s.tasks
    ensures Unmentioned(PurgeTask(s, id), Doomed(s, id))
    ensures forall x :: x in s.tasks && x !in Doomed(s, id) ==>
              x in PurgeTask(s, id).tasks
              && LosesOnly(s.tasks[x], PurgeTask(s, id).tasks[x], Doomed(s, id))
              && PurgeTask(s, id).tasks[x].withProject == s.tasks[x].withProject
    ensures forall e :: e in s.edges && e.task !in Doomed(s, id) && e.blocker !in Doomed(s, id) ==>
              e in PurgeTask(s, id).edges
  {
    hide WellFormed, Sound, Doomed, PurgeTask;
  }

  /** A purge never destroys a live row, or a row of another project. */
  lemma PurgeStaysInTrash(s: State, id: int, x: int)
    requires WellFormed(s) && Trashed(s, id)
    requires x in s.tasks && x !in PurgeTask(s, id).tasks
    ensures Trashed(s, x) && s.tasks[x].project == s.tasks[id].project
  {
    DoomedExist(s, id);
    hide WellFormed, Sound, Doomed, PurgeTask;
  }
}
