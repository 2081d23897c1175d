/**
 Why a cloned occurrence is a faithful copy of its checklist, and why replaying the checklist's
 edges on the clones is never refused
 (backend/app/services/task_recurrence.py, `_clone_subtask_tree` and `_clone_dependency_edges`).
 */
module OccurrenceCopy {
  import opened Common
  import opened Calendar
  import opened Store
  import opened TaskRecurrence
  import TaskDependencies
  import Forest
  import Graph

  /**
   What the roll-up says of untouched work: a live row is not done while it and everything
   active below it are open.
   */
  ghost predicate OpenIsNotDone(done: Oracle) {
    forall s: State, x ::
      Live(s, x) && AllOpenBelow(s, x) ==> !done(s, x)
  }

  ghost predicate AllOpenBelow(s: State, x: int) {
    forall y :: y in Forest.Subtree(LiveLinks(s.tasks), x) ==> y in s.tasks && s.tasks[y].status == Open
  }

  /** One active edge per ordered pair: what `uq_task_dependencies_active_edge` states. */
  ghost predicate UniqueEdges(edges: seq<Edge>) {
    forall i, j :: 0 <= i < j < |edges| && !edges[i].deleted && !edges[j].deleted ==>
      (edges[i].task, edges[i].blocker) != (edges[j].task, edges[j].blocker)
  }

  /** The row an id of the copy was cloned from; the occurrence comes from the head itself. */
  function SourceOf(id: int, order: seq<int>, base: int, n: int): int
    requires base <= n <= base + |order|
  {
    if n == base then id else order[n - base - 1]
  }

  function CopyEdges(inner: seq<Edge>, order: seq<int>, base: int): (copies: seq<Edge>)
    requires forall e :: e in inner ==> e.task in order && e.blocker in order
    ensures |copies| == |inner|
    ensures forall i :: 0 <= i < |inner| ==>
              copies[i] == Edge(CopyId(order, base, inner[i].task), CopyId(order, base, inner[i].blocker), false)
  {
    if inner == [] then [] else
      [Edge(CopyId(order, base, inner[0].task), CopyId(order, base, inner[0].blocker), false)]
      + CopyEdges(inner[1..], order, base)
  }

  /** The store part-way through the replay: all rows copied, the edges in `copied` too. */
  ghost predicate Stage(s: State, id: int, due: Date, copied: seq<Edge>, t: State)
    requires WellFormed(s) && id in s.tasks
  {
    var order := Checklist(s, id);
    && t.tasks == s.tasks + CopiedTasks(s, id, due)
    && (forall e :: e in copied ==> !e.deleted && e in s.edges && e.task in order && e.blocker in order)
    && t.edges == s.edges + CopyEdges(copied, order, NextId(s.tasks.Keys))
  }

  lemma {:induction false} IndexOfUnique(order: seq<int>, i: nat)
    requires Distinct(order) && i < |order|
    ensures IndexOf(order, order[i]) == i
  {
    var j := IndexOf(order, order[i]);
  }

  /** The copy is a bijection: each new id has one source, and `CopyId` finds it again. */
  lemma CopyIsBijection(s: State, id: int, n: int, x: int)
    requires WellFormed(s) && id in s.tasks
    requires NextId(s.tasks.Keys) < n <= NextId(s.tasks.Keys) + |Checklist(s, id)|
    requires x in Checklist(s, id)
    ensures var order, base := Checklist(s, id), NextId(s.tasks.Keys);
            && SourceOf(id, order, base, n) in order
            && CopyId(order, base, SourceOf(id, order, base, n)) == n
            && SourceOf(id, order, base, CopyId(order, base, x)) == x
  {
    hide Checklist;
    var order, base := Checklist(s, id), NextId(s.tasks.Keys);
    IndexOfUnique(order, n - base - 1);
  }

  /** A fresh row of a copy: open, due on the new date, and with no marker of any kind. */
  predicate FreshOn(t: Task, due: Date) {
    && t.status == Open && t.due == Some(due)
    && !t.deleted && !t.skipped && !t.superseded && t.withTask.None? && t.withProject.None?
  }

  /**
   The rows copied: each clone has its source's title, description, priority and estimate and its
   project; it is fresh on the new date, under its parent's clone, and of no series.
   */
  lemma CopyOfRow(s: State, id: int, due: Date, x: int)
    requires WellFormed(s) && id in s.tasks && x in Checklist(s, id)
    ensures var order, base, p := Checklist(s, id), NextId(s.tasks.Keys), s.tasks[x].parent.value;
            && CopyId(order, base, x) in CopiedTasks(s, id, due)
            && var t := CopiedTasks(s, id, due)[CopyId(order, base, x)];
            && t.content.title == s.tasks[x].content.title && t.content.description == s.tasks[x].content.description
            && t.content.priority == s.tasks[x].content.priority && t.content.estimate == s.tasks[x].content.estimate
            && t.project == s.tasks[x].project && FreshOn(t, due) && t.repeat.None? && t.series.None?
            && t.parent == Some(if p == id then base else CopyId(order, base, p))
  {
    hide Checklist;
    var order, base := Checklist(s, id), NextId(s.tasks.Keys);
    CopyIsBijection(s, id, CopyId(order, base, x), x);
  }

  /** The occurrence itself: the head's content, project, cadence and series, fresh on the new date at the top level. */
  lemma CopyOfHead(s: State, id: int, due: Date)
    requires WellFormed(s) && id in s.tasks
    ensures var base := NextId(s.tasks.Keys);
            && base in CopiedTasks(s, id, due)
            && var t := CopiedTasks(s, id, due)[base];
            && t.content.title == s.tasks[id].content.title && t.content.description == s.tasks[id].content.description
            && t.content.priority == s.tasks[id].content.priority && t.content.estimate == s.tasks[id].content.estimate
            && t.project == s.tasks[id].project && t.repeat == s.tasks[id].repeat && t.series == s.tasks[id].series
            && FreshOn(t, due) && t.parent.None?
  {
    hide Checklist;
    assert NextId(s.tasks.Keys) in CopyIds(NextId(s.tasks.Keys), |Checklist(s, id)|);
  }

  // ---- the wait graph of the copy ----------------------------------------------

  lemma EdgeFromCopy(s: State, id: int, due: Date, copied: seq<Edge>, t: State, n: int, m: int)
    requires WellFormed(s) && id in s.tasks && Stage(s, id, due, copied, t)
    requires NextId(s.tasks.Keys) <= n && (n, m) in EdgeArrows(t.edges)
    ensures var order, base := Checklist(s, id), NextId(s.tasks.Keys);
            exists x, y :: x in order && y in order && (x, y) in EdgeArrows(s.edges)
                           && n == CopyId(order, base, x) && m == CopyId(order, base, y)
  {
    hide Checklist, CopiedTasks, CopyEdges;
    var order, base := Checklist(s, id), NextId(s.tasks.Keys);
    var e :| e in t.edges && !e.deleted && (e.task, e.blocker) == (n, m);
    var copies := CopyEdges(copied, order, base);
    assert e !in s.edges;
    assert e in copies;
    var i :| 0 <= i < |copies| && copies[i] == e;
    var x, y := copied[i].task, copied[i].blocker;
    assert copied[i] in copied;
    assert (x, y) in EdgeArrows(s.edges);
  }

  lemma ChildFromCopy(s: State, id: int, due: Date, t: State, n: int, m: int)
    requires WellFormed(s) && id in s.tasks && t.tasks == s.tasks + CopiedTasks(s, id, due)
    requires NextId(s.tasks.Keys) <= n && (n, m) in ChildArrows(t.tasks)
    ensures var order, base := Checklist(s, id), NextId(s.tasks.Keys);
            && base < m <= base + |order| && base <= n <= base + |order|
            && (SourceOf(id, order, base, n), SourceOf(id, order, base, m)) in ChildArrows(s.tasks)
  {
    hide Checklist, CopiedTasks;
    var order, base := Checklist(s, id), NextId(s.tasks.Keys);
    assert m in CopiedTasks(s, id, due) by {
      if m !in CopiedTasks(s, id, due) { OldParent(s, m); assert false; }
    }
    CopiedRow(s, id, due, m);
    var x := order[m - base - 1];
    CopyIsBijection(s, id, m, x);
    CopyOfRow(s, id, due, x);
    var p := s.tasks[x].parent.value;
    if p != id { CopyIsBijection(s, id, CopyId(order, base, p), p); }
  }

  lemma OldParent(s: State, m: int)
    requires WellFormed(s)
    ensures m in s.tasks && s.tasks[m].parent.Some? ==> s.tasks[m].parent.value < NextId(s.tasks.Keys)
  {
    assert m in s.tasks ==> RowWellFormed(s, s.tasks[m]);
  }

  /** One arrow out of a new row stays among the new rows and copies an arrow of the sources. */
  lemma ArrowFromCopy(s: State, id: int, due: Date, copied: seq<Edge>, t: State, n: int, m: int)
    requires WellFormed(s) && id in s.tasks && Stage(s, id, due, copied, t)
    requires var base := NextId(s.tasks.Keys); base <= n <= base + |Checklist(s, id)|
    requires (n, m) in WaitArrows(t)
    ensures var order, base := Checklist(s, id), NextId(s.tasks.Keys);
            && base <= m <= base + |order|
            && (SourceOf(id, order, base, n), SourceOf(id, order, base, m)) in WaitArrows(s)
  {
    hide Checklist, CopiedTasks, CopyEdges, WellFormed, Sound, EdgeArrows, ChildArrows;
    var order, base := Checklist(s, id), NextId(s.tasks.Keys);
    if (n, m) in EdgeArrows(t.edges) {
      EdgeFromCopy(s, id, due, copied, t, n, m);
      var x, y :| x in order && y in order && (x, y) in EdgeArrows(s.edges)
                  && n == CopyId(order, base, x) && m == CopyId(order, base, y);
      CopyIsBijection(s, id, n, x);
      CopyIsBijection(s, id, m, y);
    } else {
      ChildFromCopy(s, id, due, t, n, m);
    }
  }

  lemma {:induction false} PathFromCopy(s: State, id: int, due: Date, copied: seq<Edge>, t: State, n: int, k: nat, m: int)
    requires WellFormed(s) && id in s.tasks && Stage(s, id, due, copied, t)
    requires var base := NextId(s.tasks.Keys); base <= n <= base + |Checklist(s, id)|
    requires Graph.Path(WaitArrows(t), n, k, m)
    ensures var order, base := Checklist(s, id), NextId(s.tasks.Keys);
            && base <= m <= base + |order|
            && Graph.Path(WaitArrows(s), SourceOf(id, order, base, n), k, SourceOf(id, order, base, m))
    decreases k
  {
    hide Checklist, CopiedTasks, CopyEdges, WellFormed, Sound, WaitArrows, Stage;
    if k > 0 {
      var z :| (n, z) in WaitArrows(t) && Graph.Path(WaitArrows(t), z, k - 1, m);
      ArrowFromCopy(s, id, due, copied, t, n, z);
      PathFromCopy(s, id, due, copied, t, z, k - 1, m);
    }
  }

  /** Below a new row there are only new rows, and they are all open. */
  lemma {:induction false} ClimbToCopy(s: State, id: int, due: Date, copied: seq<Edge>, t: State, y: int, k: nat, n: int)
    requires WellFormed(s) && id in s.tasks && Stage(s, id, due, copied, t)
    requires n in CopiedTasks(s, id, due)
    requires Forest.Climbs(LiveLinks(t.tasks), y, k, n)
    ensures y in CopiedTasks(s, id, due)
    decreases k
  {
    hide Checklist, CopiedTasks, WellFormed, Sound, Stage;
    if k > 0 {
      var p := LiveLinks(t.tasks)[y];
      ClimbToCopy(s, id, due, copied, t, p, k - 1, n);
      UnderCopy(s, id, due, copied, t, y);
    }
  }

  lemma UnderCopy(s: State, id: int, due: Date, copied: seq<Edge>, t: State, y: int)
    requires WellFormed(s) && id in s.tasks && Stage(s, id, due, copied, t)
    requires y in t.tasks && t.tasks[y].parent.Some? && t.tasks[y].parent.value in CopiedTasks(s, id, due)
    ensures y in CopiedTasks(s, id, due)
  {
    var rows := CopiedTasks(s, id, due);
    assert t.tasks == s.tasks + rows;
    hide Checklist, CopiedTasks, WellFormed, Sound, Stage;
    CopiedRow(s, id, due, t.tasks[y].parent.value);
    if y !in rows {
      OldParent(s, y);
      assert false;
    }
  }

  lemma CopyIsOpen(s: State, id: int, due: Date, copied: seq<Edge>, t: State, n: int, done: Oracle)
    requires WellFormed(s) && id in s.tasks && Stage(s, id, due, copied, t) && OpenIsNotDone(done)
    requires n in CopiedTasks(s, id, due)
    ensures Live(t, n) && !done(t, n)
  {
    hide Checklist, CopiedTasks;
    CopiedRow(s, id, due, n);
    forall y | y in Forest.Subtree(LiveLinks(t.tasks), n)
      ensures y in t.tasks && t.tasks[y].status == Open
    {
      var k: nat :| Forest.Climbs(LiveLinks(t.tasks), y, k, n);
      ClimbToCopy(s, id, due, copied, t, y, k, n);
      CopiedRow(s, id, due, y);
    }
    assert AllOpenBelow(t, n);
  }

  /** The clones of a source edge's ends do not yet wait the other way round. */
  lemma NoBackwardWait(s: State, id: int, due: Date, copied: seq<Edge>, t: State, e: Edge)
    requires WellFormed(s) && id in s.tasks && Stage(s, id, due, copied, t)
    requires Graph.NoCycle(WaitArrows(s))
    requires (e.task, e.blocker) in EdgeArrows(s.edges) && e.task in Checklist(s, id) && e.blocker in Checklist(s, id)
    ensures var order, base := Checklist(s, id), NextId(s.tasks.Keys);
            var a, b := CopyId(order, base, e.task), CopyId(order, base, e.blocker);
            a != b && !TaskDependencies.WaitsOn(t, b, a)
  {
    hide Checklist, CopiedTasks, CopyEdges, WellFormed, Sound, Stage, Graph.NoCycle, Graph.Path;
    var order, base := Checklist(s, id), NextId(s.tasks.Keys);
    var a, b := CopyId(order, base, e.task), CopyId(order, base, e.blocker);
    CopyIsBijection(s, id, a, e.task);
    CopyIsBijection(s, id, b, e.blocker);
    assert (e.task, e.blocker) in WaitArrows(s);
    SelfWait(WaitArrows(s), e.task);
    if TaskDependencies.WaitsOn(t, b, a) {
      var k: nat :| Graph.Path(WaitArrows(t), b, k, a);
      PathFromCopy(s, id, due, copied, t, b, k, a);
      ClosesCycle(WaitArrows(s), e.task, e.blocker, k);
      assert false;
    }
  }

  /** The next edge of the replay is accepted, on an acyclic source graph. */
  lemma NextEdgeAccepted(s: State, id: int, due: Date, copied: seq<Edge>, t: State, e: Edge, done: Oracle)
    requires WellFormed(s) && id in s.tasks && Stage(s, id, due, copied, t)
    requires OpenIsNotDone(done) && Graph.NoCycle(WaitArrows(s))
    requires e in s.edges && !e.deleted && e.task in Checklist(s, id) && e.blocker in Checklist(s, id)
    requires forall f :: f in copied ==> (f.task, f.blocker) != (e.task, e.blocker)
    ensures var order, base := Checklist(s, id), NextId(s.tasks.Keys);
            var r := TaskDependencies.AddDependency(t, CopyId(order, base, e.task), CopyId(order, base, e.blocker), done);
            r.Ok? && Stage(s, id, due, copied + [e], r.value)
  {
    hide Checklist, CopiedTasks, CopyEdges, WellFormed, Sound, TaskDependencies.WaitsOn, Graph.NoCycle, OpenIsNotDone;
    var order, base := Checklist(s, id), NextId(s.tasks.Keys);
    var a, b := CopyId(order, base, e.task), CopyId(order, base, e.blocker);
    assert (e.task, e.blocker) in EdgeArrows(s.edges);
    NoBackwardWait(s, id, due, copied, t, e);
    assert a in CopyIds(base, |order|) && b in CopyIds(base, |order|);
    CopyIsOpen(s, id, due, copied, t, a, done);
    CopyIsOpen(s, id, due, copied, t, b, done);
    FreshPair(s, id, due, copied, t, e);
    CopyEdgesSnoc(copied, e, order, base);
    var r := TaskDependencies.AddDependency(t, a, b, done);
    assert r.Ok? && r.value.edges == t.edges + [Edge(a, b, false)];
  }

  lemma SelfWait(g: Graph.Arrows, x: int)
    requires Graph.NoCycle(g)
    ensures (x, x) !in g
  {
    var one: nat := 1;
    assert Graph.Path(g, x, 0, x);
    assert (x, x) in g ==> Graph.Path(g, x, one, x);
  }

  lemma ClosesCycle(g: Graph.Arrows, a: int, b: int, k: nat)
    requires Graph.NoCycle(g) && (a, b) in g
    ensures !Graph.Path(g, b, k, a)
  {
    assert Graph.Path(g, b, k, a) ==> Graph.Path(g, a, k + 1, a);
  }

  lemma FreshPair(s: State, id: int, due: Date, copied: seq<Edge>, t: State, e: Edge)
    requires WellFormed(s) && id in s.tasks && Stage(s, id, due, copied, t)
    requires e.task in Checklist(s, id) && e.blocker in Checklist(s, id)
    requires forall f :: f in copied ==> (f.task, f.blocker) != (e.task, e.blocker)
    ensures var order, base := Checklist(s, id), NextId(s.tasks.Keys);
            (CopyId(order, base, e.task), CopyId(order, base, e.blocker)) !in EdgeArrows(t.edges)
  {
    hide Checklist, CopyEdges;
    var order, base := Checklist(s, id), NextId(s.tasks.Keys);
    var a, b := CopyId(order, base, e.task), CopyId(order, base, e.blocker);
    forall f | f in t.edges ensures (f.task, f.blocker) != (a, b) {
      if f in s.edges {
        assert f.task in s.tasks;
      } else {
        var copies := CopyEdges(copied, order, base);
        assert f in copies;
        var i :| 0 <= i < |copies| && copies[i] == f;
        assert copied[i] in copied;
        CopyIsBijection(s, id, a, e.task);
        CopyIsBijection(s, id, a, copied[i].task);
        CopyIsBijection(s, id, b, e.blocker);
        CopyIsBijection(s, id, b, copied[i].blocker);
      }
    }
  }

  lemma {:induction false} CopyEdgesSnoc(copied: seq<Edge>, e: Edge, order: seq<int>, base: int)
    requires forall f :: f in copied + [e] ==> f.task in order && f.blocker in order
    ensures CopyEdges(copied + [e], order, base)
         == CopyEdges(copied, order, base) + [Edge(CopyId(order, base, e.task), CopyId(order, base, e.blocker), false)]
  {
    forall i | 0 <= i < |copied| ensures (copied + [e])[i] == copied[i] {
    }
  }

  lemma NoneDeleted(s: State, id: int, due: Date, copied: seq<Edge>, t: State)
    requires WellFormed(s) && id in s.tasks && Stage(s, id, due, copied, t)
    ensures forall f :: f in copied ==> !f.deleted
  {
  }

  lemma UniqueHead(copied: seq<Edge>, todo: seq<Edge>)
    requires UniqueEdges(copied + todo) && todo != [] && !todo[0].deleted && forall f :: f in copied ==> !f.deleted
    ensures forall f :: f in copied ==> (f.task, f.blocker) != (todo[0].task, todo[0].blocker)
  {
    forall f | f in copied ensures (f.task, f.blocker) != (todo[0].task, todo[0].blocker) {
      var i :| 0 <= i < |copied| && copied[i] == f;
      assert (copied + todo)[i] == f && (copied + todo)[|copied|] == todo[0];
    }
  }

  ghost predicate InChecklist(s: State, id: int, e: Edge)
    requires WellFormed(s) && id in s.tasks
  {
    e in s.edges && !e.deleted && e.task in Checklist(s, id) && e.blocker in Checklist(s, id)
  }

  /** Replaying the edges `todo` of the checklist, from a store that already holds its clones. */
  ghost function Replayed(s: State, id: int, t: State, todo: seq<Edge>, done: Oracle): Result<State, Error>
    requires WellFormed(s) && id in s.tasks && forall e :: e in todo ==> InChecklist(s, id, e)
  {
    EndsInside(s, id, todo);
    ReplayEdges(t, todo, Checklist(s, id), NextId(s.tasks.Keys), done)
  }

  lemma EndsInside(s: State, id: int, todo: seq<Edge>)
    requires WellFormed(s) && id in s.tasks && forall e :: e in todo ==> InChecklist(s, id, e)
    ensures forall e :: e in todo ==> e.task in Checklist(s, id) && e.blocker in Checklist(s, id)
  {
    hide Checklist, WellFormed, Sound;
    forall e | e in todo ensures e.task in Checklist(s, id) && e.blocker in Checklist(s, id) {
      assert InChecklist(s, id, e);
    }
  }

  lemma ReplayStep(s: State, id: int, due: Date, copied: seq<Edge>, t: State, todo: seq<Edge>, done: Oracle) returns (t1: State)
    requires WellFormed(s) && id in s.tasks && Stage(s, id, due, copied, t)
    requires OpenIsNotDone(done) && Graph.NoCycle(WaitArrows(s))
    requires todo != [] && forall e :: e in todo ==> InChecklist(s, id, e)
    requires UniqueEdges(copied + todo)
    ensures Stage(s, id, due, copied + [todo[0]], t1)
    ensures Replayed(s, id, t, todo, done) == Replayed(s, id, t1, todo[1..], done)
  {
    NoneDeleted(s, id, due, copied, t);
    hide WellFormed, Sound, Checklist, OpenIsNotDone, Graph.NoCycle, Stage, UniqueEdges, TaskDependencies.AddDependency;
    EndsInside(s, id, todo);
    var e := todo[0];
    assert InChecklist(s, id, e);
    UniqueHead(copied, todo);
    NextEdgeAccepted(s, id, due, copied, t, e, done);
    var order, base := Checklist(s, id), NextId(s.tasks.Keys);
    t1 := TaskDependencies.AddDependency(t, CopyId(order, base, e.task), CopyId(order, base, e.blocker), done).value;
  }

  lemma {:induction false} ReplayAccepted(
      s: State, id: int, due: Date, copied: seq<Edge>, t: State, todo: seq<Edge>, done: Oracle)
    requires WellFormed(s) && id in s.tasks && Stage(s, id, due, copied, t)
    requires OpenIsNotDone(done) && Graph.NoCycle(WaitArrows(s))
    requires forall e :: e in todo ==> InChecklist(s, id, e)
    requires UniqueEdges(copied + todo)
    ensures var r := Replayed(s, id, t, todo, done);
            r.Ok? && Stage(s, id, due, copied + todo, r.value)
    decreases |todo|
  {
    if todo == [] {
      hide WellFormed, Sound, Checklist, OpenIsNotDone, Graph.NoCycle, Stage, UniqueEdges;
      assert copied + todo == copied;
    } else {
      hide *;
      hide WellFormed;
      var t1 := ReplayStep(s, id, due, copied, t, todo, done);
      assert copied + todo == (copied + [todo[0]]) + todo[1..];
      ReplayAccepted(s, id, due, copied + [todo[0]], t1, todo[1..], done);
    }
  }

  lemma {:induction false} InnerEdgesUnique(edges: seq<Edge>, order: seq<int>)
    requires UniqueEdges(edges)
    ensures UniqueEdges(InnerEdges(edges, order))
  {
    if edges != [] {
      var e, rest := edges[0], edges[1..];
      assert UniqueEdges(rest) by {
        forall i, j | 0 <= i < j < |rest| && !rest[i].deleted && !rest[j].deleted
          ensures (rest[i].task, rest[i].blocker) != (rest[j].task, rest[j].blocker)
        {
          assert edges[i + 1] == rest[i] && edges[j + 1] == rest[j];
        }
      }
      InnerEdgesUnique(rest, order);
      var inner := InnerEdges(rest, order);
      if !e.deleted && e.task in order && e.blocker in order {
        forall f | f in inner ensures (f.task, f.blocker) != (e.task, e.blocker) {
          assert f in rest;
          var j :| 0 <= j < |rest| && rest[j] == f;
          assert edges[j + 1] == f;
        }
        var all := [e] + inner;
        forall i, j | 0 <= i < j < |all| && !all[i].deleted && !all[j].deleted
          ensures (all[i].task, all[i].blocker) != (all[j].task, all[j].blocker)
        {
          assert all[j] == inner[j - 1];
          if i > 0 { assert all[i] == inner[i - 1]; }
        }
      }
    }
  }

  /**
   Replaying the edges of a checklist on its clones is never refused when the source wait graph
   has no cycle, and the result is an isomorphic copy: the clones stand exactly as their sources
   do, and an edge joins two clones exactly when one joins their sources.
   */
  lemma CopyIsIsomorphic(s: State, id: int, due: Date, done: Oracle)
    requires WellFormed(s) && id in s.tasks
    requires UniqueEdges(s.edges) && Graph.NoCycle(WaitArrows(s)) && OpenIsNotDone(done)
    ensures var order, base := Checklist(s, id), NextId(s.tasks.Keys);
            var r := InsertOccurrence(s, id, due, done);
            && r.Ok? && r.value.1 == base
            && r.value.0.tasks == s.tasks + CopiedTasks(s, id, due)
            && (forall x, y :: x in order && y in order ==>
                  ((CopyId(order, base, x), CopyId(order, base, y)) in EdgeArrows(r.value.0.edges)
                   <==> (x, y) in EdgeArrows(s.edges)))
            && (forall a :: a in EdgeArrows(r.value.0.edges) && a !in EdgeArrows(s.edges) ==>
                  base < a.0 <= base + |order| && base < a.1 <= base + |order|)
            && EdgeArrows(s.edges) <= EdgeArrows(r.value.0.edges)
  {
    var order, base := Checklist(s, id), NextId(s.tasks.Keys);
    var inner := InnerEdges(s.edges, order);
    var mid := WithCopies(s, id, due);
    InnerEdgesUnique(s.edges, order);
    assert s.edges + CopyEdges([], order, base) == s.edges;
    assert [] + inner == inner;
    ReplayAccepted(s, id, due, [], mid, inner, done);
    ChecklistShape(s, id);
    InsertIs(s, id, due, done);
    hide InsertOccurrence;
    var after := InsertOccurrence(s, id, due, done).value.0;
    hide Checklist, CopiedTasks, WellFormed, Sound, Stage, InnerEdges, EdgeArrows, ReplayEdges, WithCopies, Clonable, CopyEdges;
    CopiedArrows(s, id, due, inner, after);
  }

  lemma CopiedArrows(s: State, id: int, due: Date, inner: seq<Edge>, after: State)
    requires WellFormed(s) && id in s.tasks && Stage(s, id, due, inner, after)
    requires inner == InnerEdges(s.edges, Checklist(s, id))
    ensures var order, base := Checklist(s, id), NextId(s.tasks.Keys);
            && (forall x, y :: x in order && y in order ==>
                  ((CopyId(order, base, x), CopyId(order, base, y)) in EdgeArrows(after.edges)
                   <==> (x, y) in EdgeArrows(s.edges)))
            && (forall a :: a in EdgeArrows(after.edges) && a !in EdgeArrows(s.edges) ==>
                  base < a.0 <= base + |order| && base < a.1 <= base + |order|)
            && EdgeArrows(s.edges) <= EdgeArrows(after.edges)
  {
    hide Checklist, CopiedTasks, CopyEdges, InnerEdges, WellFormed, Sound, Stage, EdgeArrows;
    var order, base := Checklist(s, id), NextId(s.tasks.Keys);
    forall x, y | x in order && y in order
      ensures (CopyId(order, base, x), CopyId(order, base, y)) in EdgeArrows(after.edges)
              <==> (x, y) in EdgeArrows(s.edges)
    {
      var a, b := CopyId(order, base, x), CopyId(order, base, y);
      if (x, y) in EdgeArrows(s.edges) { CopiedArrow(s, id, due, inner, after, x, y); }
      if (a, b) in EdgeArrows(after.edges) {
        EdgeFromCopy(s, id, due, inner, after, a, b);
        var v, w :| v in order && w in order && (v, w) in EdgeArrows(s.edges)
                    && a == CopyId(order, base, v) && b == CopyId(order, base, w);
        CopyIsBijection(s, id, a, x);
        CopyIsBijection(s, id, a, v);
        CopyIsBijection(s, id, b, y);
        CopyIsBijection(s, id, b, w);
      }
    }
    OldArrowsStay(s, id, due, inner, after);
  }

  lemma CopiedArrow(s: State, id: int, due: Date, inner: seq<Edge>, after: State, x: int, y: int)
    requires WellFormed(s) && id in s.tasks && Stage(s, id, due, inner, after)
    requires inner == InnerEdges(s.edges, Checklist(s, id))
    requires (x, y) in EdgeArrows(s.edges) && x in Checklist(s, id) && y in Checklist(s, id)
    ensures var order, base := Checklist(s, id), NextId(s.tasks.Keys);
            (CopyId(order, base, x), CopyId(order, base, y)) in EdgeArrows(after.edges)
  {
    hide Checklist, CopiedTasks, CopyEdges, InnerEdges, WellFormed, Sound;
    var order, base := Checklist(s, id), NextId(s.tasks.Keys);
    var copies := CopyEdges(inner, order, base);
    var e :| e in s.edges && !e.deleted && (e.task, e.blocker) == (x, y);
    assert e in inner;
    var i :| 0 <= i < |inner| && inner[i] == e;
    assert copies[i] in after.edges;
  }

  lemma OldArrowsStay(s: State, id: int, due: Date, inner: seq<Edge>, after: State)
    requires WellFormed(s) && id in s.tasks && Stage(s, id, due, inner, after)
    ensures EdgeArrows(s.edges) <= EdgeArrows(after.edges)
    ensures var order, base := Checklist(s, id), NextId(s.tasks.Keys);
            forall a :: a in EdgeArrows(after.edges) && a !in EdgeArrows(s.edges) ==>
              base < a.0 <= base + |order| && base < a.1 <= base + |order|
  {
    hide Checklist, CopiedTasks, CopyEdges, WellFormed, Sound;
    var order, base := Checklist(s, id), NextId(s.tasks.Keys);
    var copies := CopyEdges(inner, order, base);
    forall a | a in EdgeArrows(s.edges) ensures a in EdgeArrows(after.edges) {
      var e :| e in s.edges && !e.deleted && a == (e.task, e.blocker);
      assert e in after.edges;
    }
    forall a | a in EdgeArrows(after.edges) && a !in EdgeArrows(s.edges)
      ensures base < a.0 <= base + |order| && base < a.1 <= base + |order|
    {
      var e :| e in after.edges && !e.deleted && a == (e.task, e.blocker);
      assert e in copies;
    }
  }
}
