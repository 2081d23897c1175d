/**
 The parts of backend/app/services/tasks.py that trashing rests on: the cascade of a soft
 delete over an active subtree, and the reconcile that follows it.
 */
module Tasks {
  import opened Common
  import opened Store
  import opened TaskRecurrence
  import Forest

  function TaskEvents(tasks: map<int, Task>, ids: seq<int>, action: Action, note: Note): (log: seq<Event>)
    requires forall x :: x in ids ==> x in tasks
    ensures |log| == |ids|
    ensures forall i :: 0 <= i < |ids| ==>
              ids[i] in ids && ids[i] in tasks && log[i] == TaskEvent(tasks[ids[i]], ids[i], action, note)
  {
    if ids == [] then [] else
      var x := ids[0];
      assert x in ids;
      [TaskEvent(tasks[x], x, action, note)] + TaskEvents(tasks, ids[1..], action, note)
  }

  /** What a cascade collects per removed row: its dependents, then its parent. */
  function SeedsOf(s: State, ids: seq<int>): (seeds: seq<int>)
    requires forall x :: x in ids ==> x in s.tasks
  {
    if ids == [] then [] else
      var x := ids[0];
      assert x in ids;
      Dependents(s.edges, x)
      + (if s.tasks[x].parent.Some? then [s.tasks[x].parent.value] else [])
      + SeedsOf(s, ids[1..])
  }

  /** The seeds that survive the cascade. */
  function Outside(seeds: seq<int>, removed: set<int>): (rest: seq<int>)
    ensures forall q :: q in rest <==> q in seeds && q !in removed
  {
    if seeds == [] then [] else
      (if seeds[0] in removed then [] else [seeds[0]]) + Outside(seeds[1..], removed)
  }

  lemma {:induction false} SeedsExist(s: State, ids: seq<int>)
    requires WellFormed(s) && forall x :: x in ids ==> x in s.tasks
    ensures forall q :: q in SeedsOf(s, ids) ==> q in s.tasks
  {
    if ids != [] {
      SeedsExist(s, ids[1..]);
      hide Forest.Acyclic;
      var x := ids[0];
      assert x in ids;
      assert RowWellFormed(s, s.tasks[x]);
      forall q | q in Dependents(s.edges, x) ensures q in s.tasks {
        var e :| e in s.edges && !e.deleted && (e.task, e.blocker) == (q, x);
      }
    }
  }

  /** The active rows strictly below `id`, each after everything below it. */
  ghost function Descendants(s: State, id: int): (rows: seq<int>)
    requires WellFormed(s)
    ensures RowsBelow(s, id, rows)
  {
    DescendantsShape(s, id);
    var walk := Forest.PostOrder(LiveLinks(s.tasks), id);
    walk[..|walk| - 1]
  }

  lemma DescendantsShape(s: State, id: int)
    requires WellFormed(s)
    ensures Forest.OffCycle(LiveLinks(s.tasks), id)
    ensures var walk := Forest.PostOrder(LiveLinks(s.tasks), id);
            walk != [] && RowsBelow(s, id, walk[..|walk| - 1])
  {
    LiveLinksOffCycle(s, id);
    Forest.PostOrderShape(LiveLinks(s.tasks), id);
    hide WellFormed, Sound, Forest.PostOrder, Forest.Subtree, Forest.OffCycle, Forest.KidsFirst;
    var up := LiveLinks(s.tasks);
    var walk := Forest.PostOrder(up, id);
    DropLast(walk);
    var rows := walk[..|walk| - 1];
    forall x | x in rows ensures Live(s, x) {
      assert x in Elems(walk);
      BelowIsLinked(up, id, x);
    }
  }

  lemma DropLast(walk: seq<int>)
    requires walk != [] && Distinct(walk)
    ensures var last, rows := walk[|walk| - 1], walk[..|walk| - 1];
            Elems(rows) + {last} == Elems(walk) && last !in rows && Distinct(rows)
            && forall x :: x in rows ==> x in Elems(walk)
  {
    var rows := walk[..|walk| - 1];
    assert walk == rows + [walk[|walk| - 1]];
    forall x ensures x in Elems(rows) + {walk[|walk| - 1]} <==> x in Elems(walk) {
    }
  }

  /** `rows` are the active rows strictly below `id`, each once. */
  ghost predicate RowsBelow(s: State, id: int, rows: seq<int>) {
    && Elems(rows) + {id} == Forest.Subtree(LiveLinks(s.tasks), id)
    && id !in rows && Distinct(rows)
    && forall x :: x in rows ==> Live(s, x)
  }

  /** The rows of one cascade in the trash, each stamped with the root it went with. */
  function Cascaded(s: State, rows: seq<int>, root: int): State
    requires forall x :: x in rows ==> x in s.tasks
  {
    s.(tasks := map x | x in s.tasks ::
         if x in rows
         then s.tasks[x].(deleted := true, withTask := if x == root then s.tasks[x].withTask else Some(root))
         else s.tasks[x],
       events := s.events + TaskEvents(s.tasks, rows, Deleted, Usual))
  }

  lemma CascadedWellFormed(s: State, rows: seq<int>, root: int)
    requires WellFormed(s) && forall x :: x in rows ==> x in s.tasks
    ensures WellFormed(Cascaded(s, rows, root))
  {
    SameShapeWellFormed(s, Cascaded(s, rows, root));
  }

  /** `soft_delete_descendants`: the root is about to go too, so it is no seed. */
  ghost function SoftDeleteDescendants(s: State, id: int, done: Oracle): Result<State, Error>
    requires WellFormed(s) && id in s.tasks
  {
    var rows := Descendants(s, id);
    CascadedWellFormed(s, rows, id);
    SeedsExist(s, rows);
    Reconcile(Cascaded(s, rows, id), Outside(SeedsOf(s, rows), Elems(rows) + {id}), done)
  }

  /** `soft_delete_task`. */
  ghost function SoftDeleteTask(s: State, id: int, done: Oracle): Result<State, Error>
    requires WellFormed(s) && id in s.tasks
  {
    var rows := Descendants(s, id) + [id];
    CascadedWellFormed(s, rows, id);
    SeedsExist(s, rows);
    Reconcile(Cascaded(s, rows, id), Outside(SeedsOf(s, rows), Elems(rows)), done)
  }

  /** The tail of `_mark_skipped`: the occurrence itself goes, recorded as skipped. */
  function MarkSkipped(s: State, id: int): State
    requires id in s.tasks
  {
    LogTask(s.(tasks := s.tasks[id := s.tasks[id].(deleted := true, skipped := true)]), id, SkippedAction)
  }

  /** `skip_occurrence` (backend/app/services/task_recurrence.py). */
  ghost function SkipOccurrence(s: State, id: int, done: Oracle): (r: Result<(State, int), Error>)
    requires WellFormed(s) && Live(s, id)
    ensures r.Ok? ==> id in r.value.0.tasks
  {
    if !SeriesHead(s.tasks[id]) then Err(RecurrenceError) else
      CreateNextSpawned(s, id, done);
      var next :- CreateNext(s, id, done);
      var swept :- SoftDeleteDescendants(next.0, id, done);
      SweptKeeps(next.0, id, done);
      Ok((MarkSkipped(swept, id), next.1))
  }

  lemma SweptKeeps(s: State, id: int, done: Oracle)
    requires WellFormed(s) && id in s.tasks && SoftDeleteDescendants(s, id, done).Ok?
    ensures var t := SoftDeleteDescendants(s, id, done).value;
            && WellFormed(t) && Spawned(Cascaded(s, Descendants(s, id), id), t)
            && id in t.tasks && t.tasks[id] == s.tasks[id]
  {
    var rows := Descendants(s, id);
    CascadedWellFormed(s, rows, id);
    SeedsExist(s, rows);
    var mid := Cascaded(s, rows, id);
    ReconcileSpawned(mid, Outside(SeedsOf(s, rows), Elems(rows) + {id}), done);
    assert mid.tasks[id] == s.tasks[id];
  }
}
