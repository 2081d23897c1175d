/**
 Trashing a task with its subtree, and skipping an occurrence, as the services run
 (backend/app/services/tasks.py, backend/app/services/task_recurrence.py).
 */
module SessionTasks {
  import opened Common
  import opened Store
  import opened TaskRecurrence
  import opened Tasks
  import SessionPurge
  import SessionRecurrence
  import Forest

  /** The first `k` rows of the cascade are in the trash, and have left their seeds. */
  ghost predicate Sweeping(s: State, root: int, order: seq<int>, k: nat, t: State, deleted: set<int>, seeds: seq<int>) {
    && k <= |order| && Distinct(order) && (forall x :: x in order ==> x in s.tasks) && (forall x :: x in order[..k] ==> x in s.tasks)
    && t == Cascaded(s, order[..k], root) && deleted == Elems(order[..k]) && seeds == SeedsOf(s, order[..k])
  }

  lemma {:induction false} SeedsSnoc(s: State, ids: seq<int>, x: int)
    requires (forall y :: y in ids ==> y in s.tasks) && x in s.tasks
    ensures SeedsOf(s, ids + [x])
         == SeedsOf(s, ids) + Dependents(s.edges, x) + (if s.tasks[x].parent.Some? then [s.tasks[x].parent.value] else [])
  {
    hide Dependents;
    if ids == [] {
      assert ids + [x] == [x];
      assert SeedsOf(s, [x][1..]) == [];
    } else {
      var y := ids[0];
      assert y in ids;
      assert (ids + [x])[0] == y && (ids + [x])[1..] == ids[1..] + [x];
      SeedsSnoc(s, ids[1..], x);
    }
  }

  lemma CascadedSnoc(s: State, ids: seq<int>, x: int, root: int)
    requires (forall y :: y in ids ==> y in s.tasks) && x in s.tasks && x !in ids
    ensures var t := Cascaded(s, ids, root);
            && x in t.tasks && t.tasks[x] == s.tasks[x] && t.edges == s.edges
            && Cascaded(s, ids + [x], root)
               == t.(tasks := t.tasks[x := s.tasks[x].(deleted := true, withTask := if x == root then s.tasks[x].withTask else Some(root))],
                     events := t.events + [TaskEvent(s.tasks[x], x, Deleted, Usual)])
  {
    SessionPurge.TaskEventsSnoc(s.tasks, ids, x, Deleted, Usual);
    hide TaskEvents;
    var t, u := Cascaded(s, ids, root), Cascaded(s, ids + [x], root);
    assert u.tasks == t.tasks[x := s.tasks[x].(deleted := true, withTask := if x == root then s.tasks[x].withTask else Some(root))];
  }

  /** One more row of the cascade. */
  lemma SweepOne(s: State, root: int, order: seq<int>, k: nat, t: State, deleted: set<int>, seeds: seq<int>)
    requires Sweeping(s, root, order, k, t, deleted, seeds) && k < |order|
    ensures var x := order[k];
            && x in t.tasks
            && var row := t.tasks[x].(deleted := true, withTask := if x == root then t.tasks[x].withTask else Some(root));
               var u := t.(tasks := t.tasks[x := row], events := t.events + [TaskEvent(row, x, Deleted, Usual)]);
               var more := seeds + Dependents(t.edges, x) + (if t.tasks[x].parent.Some? then [t.tasks[x].parent.value] else []);
               Sweeping(s, root, order, k + 1, u, deleted + {x}, more)
  {
    var x := order[k];
    assert x in order && order[..k + 1] == order[..k] + [x];
    CascadedSnoc(s, order[..k], x, root);
    SeedsSnoc(s, order[..k], x);
    hide Cascaded, SeedsOf, Dependents;
    assert Elems(order[..k + 1]) == Elems(order[..k]) + {x};
  }

  /** The first `k` rows are in the trash, and nothing else has changed. */
  lemma SweptRows(s: State, root: int, order: seq<int>, k: nat, t: State, deleted: set<int>, seeds: seq<int>)
    requires Sweeping(s, root, order, k, t, deleted, seeds)
    ensures k <= |order| && Distinct(order) && t.tasks.Keys == s.tasks.Keys
    ensures forall x :: x in s.tasks ==>
              x in t.tasks && if x in order[..k] then t.tasks[x].deleted else t.tasks[x] == s.tasks[x]
  {
    hide SeedsOf, TaskEvents;
  }

  /** The kids of a row whose walk is still to come are all still live. */
  lemma KidsStay(s: State, root: int, order: seq<int>, k: nat, t: State, deleted: set<int>, seeds: seq<int>, id: int)
    requires Sweeping(s, root, order, k, t, deleted, seeds)
    requires Forest.OffCycle(LiveLinks(s.tasks), id) && Forest.PostOrder(LiveLinks(s.tasks), id) <= order[k..]
    ensures Forest.Kids(LiveLinks(t.tasks), id) == Forest.Kids(LiveLinks(s.tasks), id)
  {
    var up := LiveLinks(s.tasks);
    var walk := Forest.PostOrder(up, id);
    Forest.PostOrderShape(up, id);
    SweptRows(s, root, order, k, t, deleted, seeds);
    hide Forest.PostOrder, Forest.OffCycle, Forest.KidsFirst, SeedsOf, TaskEvents, Sweeping, Cascaded;
    forall c | c in Forest.Kids(up, id) ensures c !in order[..k] {
      Forest.ReachesSelf(up, id);
      Forest.ReachesStep(up, c, id);
      assert c in Elems(walk);
      var j :| 0 <= j < |walk| && walk[j] == c;
      assert order[k..][j] == walk[j];
      assert order[k + j] == c;
    }
    forall c ensures c in Forest.Kids(LiveLinks(t.tasks), id) <==> c in Forest.Kids(up, id) {
    }
  }

  /** Where the next child's walk and the rest stand in the cascade. */
  lemma NextWalk(up: Forest.Links, id: int, children: seq<int>, order: seq<int>, at: nat)
    requires Forest.OffCycle(up, id) && children != [] && (forall c :: c in children ==> c in Forest.Kids(up, id))
    requires at <= |order| && Forest.PostOrderAll(up, id, children) + [id] <= order[at..]
    ensures var c := children[0];
            && Forest.OffCycle(up, c) && |Forest.Subtree(up, c)| < |Forest.Subtree(up, id)|
            && Forest.PostOrder(up, c) <= order[at..]
            && (forall d :: d in children[1..] ==> d in Forest.Kids(up, id))
            && var m := |Forest.PostOrder(up, c)|;
            && at + m <= |order| && Forest.PostOrderAll(up, id, children[1..]) + [id] <= order[at + m..]
            && |Forest.PostOrderAll(up, id, children)| == m + |Forest.PostOrderAll(up, id, children[1..])|
  {
    var c := children[0];
    assert c in children;
    Forest.KidSubtree(up, c, id);
    Forest.KidOffCycle(up, c, id);
    hide Forest.OffCycle, Forest.Subtree, Forest.Kids, Forest.PostOrder;
    var a, b := Forest.PostOrder(up, c), Forest.PostOrderAll(up, id, children[1..]) + [id];
    assert Forest.PostOrderAll(up, id, children) + [id] == a + b;
    PrefixSplit(a, b, order[at..]);
    assert order[at..][|a|..] == order[at + |a|..];
  }

  lemma PrefixSplit(a: seq<int>, b: seq<int>, c: seq<int>)
    requires a + b <= c
    ensures a <= c && b <= c[|a|..]
  {
    forall i | 0 <= i < |a| ensures c[i] == a[i] {
      assert c[i] == (a + b)[i];
    }
    forall i | 0 <= i < |b| ensures c[|a|..][i] == b[i] {
      assert c[|a| + i] == (a + b)[|a| + i];
    }
  }

  lemma WalkOf(up: Forest.Links, id: int)
    requires Forest.OffCycle(up, id)
    ensures forall c :: c in Sorted(Forest.Kids(up, id)) ==> c in Forest.Kids(up, id)
    ensures Forest.PostOrder(up, id) == Forest.PostOrderAll(up, id, Sorted(Forest.Kids(up, id))) + [id]
  {
    hide Forest.OffCycle;
  }

  lemma LastOfWalk(up: Forest.Links, id: int, order: seq<int>, at: nat)
    requires Forest.OffCycle(up, id) && at <= |order| && Forest.PostOrderAll(up, id, []) + [id] <= order[at..]
    ensures at < |order| && order[at] == id && |Forest.PostOrderAll(up, id, [])| == 0
  {
    assert order[at..][0] == id;
  }

  /** `_soft_delete_subtree`: children first, each recorded, and its survivors' seeds collected. */
  method SoftDeleteSubtree(db: Database, id: int, root: int, deleted: set<int>, seeds: seq<int>,
                           ghost s: State, ghost order: seq<int>, ghost k: nat)
    returns (gone: set<int>, left: seq<int>)
    requires Sweeping(s, root, order, k, db.View(), deleted, seeds)
    requires Forest.OffCycle(LiveLinks(s.tasks), id) && Forest.PostOrder(LiveLinks(s.tasks), id) <= order[k..]
    modifies db`tasks, db`events
    ensures Sweeping(s, root, order, k + |Forest.PostOrder(LiveLinks(s.tasks), id)|, db.View(), gone, left)
    decreases |Forest.Subtree(LiveLinks(s.tasks), id)|
  {
    hide *;
    ghost var up := LiveLinks(s.tasks);
    ghost var all := Sorted(Forest.Kids(up, id));
    WalkOf(up, id);
    KidsStay(s, root, order, k, db.View(), deleted, seeds, id);
    db.Fields();
    var children := SessionRecurrence.Subtasks(db.tasks, id);
    gone, left := deleted, seeds;
    ghost var at: nat := k;
    SweepBound(s, root, order, k, db.View(), deleted, seeds);
    assert children[0..] == children;
    for i := 0 to |children|
      invariant forall c :: c in children[i..] ==> c in Forest.Kids(up, id)
      invariant at <= |order| && Forest.PostOrderAll(up, id, children[i..]) + [id] <= order[at..]
      invariant at + |Forest.PostOrderAll(up, id, children[i..])| == k + |Forest.PostOrderAll(up, id, all)|
      invariant Sweeping(s, root, order, at, db.View(), gone, left)
    {
      assert children[i..][0] == children[i] && children[i..][1..] == children[i + 1..];
      NextWalk(up, id, children[i..], order, at);
      gone, left := SoftDeleteSubtree(db, children[i], root, gone, left, s, order, at);
      at := at + |Forest.PostOrder(up, children[i])|;
    }
    assert children[|children|..] == [];
    LastOfWalk(up, id, order, at);
    SweepOne(s, root, order, at, db.View(), gone, left);
    db.Fields();
    var t := db.tasks[id];
    var row := t.(deleted := true, withTask := if id == root then t.withTask else Some(root));
    db.tasks := db.tasks[id := row];
    db.Log(TaskEvent(row, id, Deleted, Usual));
    gone := gone + {id};
    left := left + Dependents(db.edges, id) + (if t.parent.Some? then [t.parent.value] else []);
    db.Fields();
  }

  lemma SweepBound(s: State, root: int, order: seq<int>, k: nat, t: State, deleted: set<int>, seeds: seq<int>)
    requires Sweeping(s, root, order, k, t, deleted, seeds)
    ensures k <= |order|
  {
  }

  lemma SweepBegins(s: State, root: int, order: seq<int>)
    requires Distinct(order) && forall x :: x in order ==> x in s.tasks
    ensures Sweeping(s, root, order, 0, s, {}, [])
  {
    hide TaskEvents, Distinct;
    assert order[..0] == [];
    CascadedNothing(s, root);
  }

  lemma CascadedNothing(s: State, root: int)
    ensures Cascaded(s, [], root) == s
  {
    assert Cascaded(s, [], root).tasks == s.tasks;
  }

  lemma SweepEnds(s: State, root: int, order: seq<int>, t: State, deleted: set<int>, seeds: seq<int>)
    requires Sweeping(s, root, order, |order|, t, deleted, seeds)
    ensures t == Cascaded(s, order, root) && deleted == Elems(order) && seeds == SeedsOf(s, order)
  {
    assert order[..|order|] == order;
  }

  lemma TaskOrder(s: State, id: int)
    requires WellFormed(s) && id in s.tasks
    ensures var up, order := LiveLinks(s.tasks), Descendants(s, id) + [id];
            && Forest.OffCycle(up, id) && order == Forest.PostOrder(up, id) && order[0..] == order
            && Distinct(order) && (forall x :: x in order ==> x in s.tasks)
            && WellFormed(Cascaded(s, order, id))
            && (forall q :: q in Outside(SeedsOf(s, order), Elems(order)) ==> q in Cascaded(s, order, id).tasks)
  {
    DescendantsShape(s, id);
    var order := Descendants(s, id) + [id];
    Forest.PostOrderShape(LiveLinks(s.tasks), id);
    CascadedWellFormed(s, order, id);
    SeedsExist(s, order);
  }

  lemma NothingToReconcile(s: State, done: Oracle)
    requires WellFormed(s)
    ensures Reconcile(s, [], done) == Ok(s)
  {
    AllEnclosed(s);
    hide WellFormed, Sound;
  }

  /** `reconcile`, when the cascade left anything outside it. */
  method ReconcileOutside(db: Database, external: seq<int>, done: Oracle) returns (raised: Option<Error>)
    requires WellFormed(db.View()) && forall q :: q in external ==> q in db.tasks
    modifies db
    ensures var r := Reconcile(old(db.View()), external, done);
            raised == (if r.Err? then Some(r.error) else None) && (r.Ok? ==> db.View() == r.value && WellFormed(db.View()))
  {
    hide *;
    NothingToReconcile(db.View(), done);
    if external == [] { return None; }
    var spawned: seq<int>;
    raised, spawned := SessionRecurrence.Reconcile(db, external, done);
  }

  /** `soft_delete_task`. */
  method SoftDeleteTask(db: Database, id: int, done: Oracle) returns (raised: Option<Error>)
    requires WellFormed(db.View()) && id in db.tasks
    modifies db
    ensures var r := Tasks.SoftDeleteTask(old(db.View()), id, done);
            raised == (if r.Err? then Some(r.error) else None) && (r.Ok? ==> db.View() == r.value)
  {
    hide *;
    ghost var s := db.View();
    db.Fields();
    TaskOrder(s, id);
    ghost var order := Descendants(s, id) + [id];
    SweepBegins(s, id, order);
    var deleted, seeds := SoftDeleteSubtree(db, id, id, {}, [], s, order, 0);
    SweepEnds(s, id, order, db.View(), deleted, seeds);
    db.Fields();
    raised := ReconcileOutside(db, Outside(seeds, deleted), done);
    SoftDeleteIs(s, id, done);
  }

  lemma SoftDeleteIs(s: State, id: int, done: Oracle)
    requires WellFormed(s) && id in s.tasks
    ensures var order := Descendants(s, id) + [id];
            && WellFormed(Cascaded(s, order, id)) && (forall x :: x in order ==> x in s.tasks)
            && (forall q :: q in Outside(SeedsOf(s, order), Elems(order)) ==> q in Cascaded(s, order, id).tasks)
            && Tasks.SoftDeleteTask(s, id, done)
               == Reconcile(Cascaded(s, order, id), Outside(SeedsOf(s, order), Elems(order)), done)
  {
    TaskOrder(s, id);
    hide WellFormed, Sound, Descendants, Cascaded, SeedsOf, Outside;
  }

  lemma DescendantsOrder(s: State, id: int)
    requires WellFormed(s) && id in s.tasks
    ensures var up, order := LiveLinks(s.tasks), Descendants(s, id);
            && Forest.OffCycle(up, id) && order == Forest.PostOrderAll(up, id, Sorted(Forest.Kids(up, id)))
            && Distinct(order) && (forall x :: x in order ==> x in s.tasks) && order[0..] == order
            && (forall c :: c in Sorted(Forest.Kids(up, id)) ==> c in Forest.Kids(up, id))
            && WellFormed(Cascaded(s, order, id))
            && (forall q :: q in Outside(SeedsOf(s, order), Elems(order) + {id}) ==> q in Cascaded(s, order, id).tasks)
  {
    DescendantsShape(s, id);
    WalkOf(LiveLinks(s.tasks), id);
    var order := Descendants(s, id);
    CascadedWellFormed(s, order, id);
    SeedsExist(s, order);
  }

  lemma NextSibling(up: Forest.Links, id: int, children: seq<int>, order: seq<int>, at: nat)
    requires Forest.OffCycle(up, id) && children != [] && (forall c :: c in children ==> c in Forest.Kids(up, id))
    requires at <= |order| && Forest.PostOrderAll(up, id, children) <= order[at..]
    ensures var c := children[0];
            && Forest.OffCycle(up, c) && Forest.PostOrder(up, c) <= order[at..]
            && (forall d :: d in children[1..] ==> d in Forest.Kids(up, id))
            && var m := |Forest.PostOrder(up, c)|;
            && at + m <= |order| && Forest.PostOrderAll(up, id, children[1..]) <= order[at + m..]
            && |Forest.PostOrderAll(up, id, children)| == m + |Forest.PostOrderAll(up, id, children[1..])|
  {
    var c := children[0];
    assert c in children;
    Forest.KidOffCycle(up, c, id);
    hide Forest.OffCycle, Forest.Kids, Forest.PostOrder;
    var a, b := Forest.PostOrder(up, c), Forest.PostOrderAll(up, id, children[1..]);
    PrefixSplit(a, b, order[at..]);
    assert order[at..][|a|..] == order[at + |a|..];
  }

  lemma NoSiblings(up: Forest.Links, id: int)
    requires Forest.OffCycle(up, id)
    ensures Forest.PostOrderAll(up, id, []) == []
  {
  }

  lemma SweepDescendantsIs(s: State, id: int, done: Oracle)
    requires WellFormed(s) && id in s.tasks
    ensures var order := Descendants(s, id);
            && WellFormed(Cascaded(s, order, id)) && (forall x :: x in order ==> x in s.tasks)
            && (forall q :: q in Outside(SeedsOf(s, order), Elems(order) + {id}) ==> q in Cascaded(s, order, id).tasks)
            && Tasks.SoftDeleteDescendants(s, id, done)
               == Reconcile(Cascaded(s, order, id), Outside(SeedsOf(s, order), Elems(order) + {id}), done)
  {
    DescendantsOrder(s, id);
    hide WellFormed, Sound, Descendants, Cascaded, SeedsOf, Outside;
  }

  /** `soft_delete_descendants`: the same cascade without the root, which is no seed either. */
  method SoftDeleteDescendants(db: Database, id: int, done: Oracle) returns (raised: Option<Error>)
    requires WellFormed(db.View()) && id in db.tasks
    modifies db
    ensures var r := Tasks.SoftDeleteDescendants(old(db.View()), id, done);
            raised == (if r.Err? then Some(r.error) else None) && (r.Ok? ==> db.View() == r.value)
  {
    hide *;
    ghost var s := db.View();
    ghost var up, order := LiveLinks(s.tasks), Descendants(s, id);
    db.Fields();
    DescendantsOrder(s, id);
    SweepBegins(s, id, order);
    var children := SessionRecurrence.Subtasks(db.tasks, id);
    var deleted: set<int>, seeds: seq<int> := {}, [];
    ghost var at: nat := 0;
    assert children[0..] == children;
    for i := 0 to |children|
      invariant forall c :: c in children[i..] ==> c in Forest.Kids(up, id)
      invariant at <= |order| && Forest.PostOrderAll(up, id, children[i..]) <= order[at..]
      invariant at + |Forest.PostOrderAll(up, id, children[i..])| == |order|
      invariant Sweeping(s, id, order, at, db.View(), deleted, seeds)
    {
      assert children[i..][0] == children[i] && children[i..][1..] == children[i + 1..];
      NextSibling(up, id, children[i..], order, at);
      deleted, seeds := SoftDeleteSubtree(db, children[i], id, deleted, seeds, s, order, at);
      at := at + |Forest.PostOrder(up, children[i])|;
    }
    assert children[|children|..] == [];
    NoSiblings(up, id);
    SweepEnds(s, id, order, db.View(), deleted, seeds);
    db.Fields();
    SweepDescendantsIs(s, id, done);
    raised := ReconcileOutside(db, Outside(seeds, deleted + {id}), done);
  }

  lemma SkipIs(s: State, id: int, done: Oracle)
    requires WellFormed(s) && Live(s, id)
    ensures if !(s.tasks[id].repeat.Some? && s.tasks[id].due.Some?) then Tasks.SkipOccurrence(s, id, done) == Err(RecurrenceError)
            else
              SeriesHead(s.tasks[id])
              && var next := CreateNext(s, id, done);
                 if next.Err? then Tasks.SkipOccurrence(s, id, done) == Err(next.error)
                 else
                   && WellFormed(next.value.0) && id in next.value.0.tasks
                   && var swept := Tasks.SoftDeleteDescendants(next.value.0, id, done);
                      if swept.Err? then Tasks.SkipOccurrence(s, id, done) == Err(swept.error)
                      else id in swept.value.tasks
                           && Tasks.SkipOccurrence(s, id, done) == Ok((MarkSkipped(swept.value, id), next.value.1))
  {
    if SeriesHead(s.tasks[id]) {
      CreateNextSpawned(s, id, done);
      hide WellFormed, Sound, CreateNext, Tasks.SoftDeleteDescendants, MarkSkipped;
      var next := CreateNext(s, id, done);
      if next.Ok? && Tasks.SoftDeleteDescendants(next.value.0, id, done).Ok? {
        SweptKeeps(next.value.0, id, done);
      }
    }
  }

  /** `skip_occurrence`: the next occurrence first, then the checklist, then the row itself. */
  method SkipOccurrence(db: Database, id: int, done: Oracle) returns (raised: Option<Error>, next: int)
    requires WellFormed(db.View()) && Live(db.View(), id)
    modifies db
    ensures var r := Tasks.SkipOccurrence(old(db.View()), id, done);
            raised == (if r.Err? then Some(r.error) else None) && (r.Ok? ==> (db.View(), next) == r.value)
  {
    hide *;
    LiveRow(db, id);
    SkipIs(db.View(), id, done);
    db.Fields();
    next := id;
    if db.tasks[id].repeat.None? || db.tasks[id].due.None? { return Some(RecurrenceError), id; }
    Spawnable(db.View(), id, done);
    raised, next := SessionRecurrence.CreateNextOccurrence(db, id, done);
    if raised.Some? { return; }
    db.Fields();
    raised := SoftDeleteDescendants(db, id, done);
    if raised.Some? { return; }
    db.Fields();
    MarkIs(db.View(), id);
    db.tasks := db.tasks[id := db.tasks[id].(deleted := true, skipped := true)];
    db.Log(TaskEvent(db.tasks[id], id, SkippedAction, Usual));
    db.Fields();
  }

  lemma Spawnable(s: State, id: int, done: Oracle)
    requires WellFormed(s) && Live(s, id) && s.tasks[id].repeat.Some? && s.tasks[id].due.Some?
    ensures Sound(s) && SeriesHead(s.tasks[id]) && CreateNext(s, id, done) != Err(EndlessChecklist)
  {
    AcyclicHead(s, id, done);
    hide CreateNext;
  }

  lemma LiveRow(db: Database, id: int)
    requires Live(db.View(), id)
    ensures id in db.tasks && !db.tasks[id].deleted
  {
  }

  lemma MarkIs(s: State, id: int)
    requires id in s.tasks
    ensures var row := s.tasks[id].(deleted := true, skipped := true);
            MarkSkipped(s, id) == s.(tasks := s.tasks[id := row], events := s.events + [TaskEvent(row, id, SkippedAction, Usual)])
  {
  }
}
