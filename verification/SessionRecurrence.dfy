/**
 Recurrence as it runs: rolling a series forward, cloning an occurrence row by row, replaying
 its edges, and the reconcile queue (backend/app/services/task_recurrence.py).
 */
module SessionRecurrence {
  import opened Common
  import opened Calendar
  import opened Store
  import opened TaskRecurrence
  import DependencyWalks
  import TaskDependencies
  import Forest

  // ---- cloning the checklist -----------------------------------------------------------

  /** The old rows, with those of `rows` numbered up to `base + k`. */
  ghost predicate RowsUpTo(before: map<int, Task>, rows: map<int, Task>, base: int, k: nat, tasks: map<int, Task>) {
    && (forall n :: n in tasks <==> n in before || base <= n <= base + k)
    && (forall n :: n in before ==> tasks[n] == before[n])
    && (forall n :: base <= n <= base + k ==> n in rows && tasks[n] == rows[n])
  }

  ghost predicate IdsUpTo(order: seq<int>, base: int, k: nat, clones: map<int, int>) {
    && k <= |order|
    && (forall x :: x in clones <==> x in order[..k])
    && (forall x :: x in order[..k] ==> x in order && clones[x] == CopyId(order, base, x))
  }

  /** `t` is `s` with the occurrence and its first `k` clones inserted, each with its event. */
  ghost predicate Cloned(s: State, id: int, due: Date, k: nat, t: State, clones: map<int, int>)
    requires Clonable(s, id) && id in s.tasks
  {
    var base, rows := NextId(s.tasks.Keys), CopiedTasks(s, id, due);
    && RowsUpTo(s.tasks, rows, base, k, t.tasks) && IdsUpTo(Checklist(s, id), base, k, clones)
    && t.projects == s.projects && t.edges == s.edges
    && t.events == s.events + CreatedEvents(rows, base, k + 1)
  }

  /** What is still to be cloned below `source` comes next in the checklist. */
  ghost predicate Upcoming(s: State, id: int, source: int, kids: seq<int>, k: nat)
    requires Clonable(s, id) && id in s.tasks
  {
    var up, order := LiveLinks(s.tasks), Checklist(s, id);
    && Forest.OffCycle(up, source) && (forall c :: c in kids ==> c in Forest.Kids(up, source))
    && k <= |order| && Forest.PreOrderAll(up, source, kids) <= order[k..]
  }

  ghost function CountBelow(s: State, source: int, kids: seq<int>): nat
    requires Forest.OffCycle(LiveLinks(s.tasks), source) && forall c :: c in kids ==> c in Forest.Kids(LiveLinks(s.tasks), source)
  {
    |Forest.PreOrderAll(LiveLinks(s.tasks), source, kids)|
  }

  function Subtasks(tasks: map<int, Task>, id: int): (children: seq<int>)
    ensures children == Sorted(Forest.Kids(LiveLinks(tasks), id))
  {
    var rows := set c | c in tasks && !tasks[c].deleted && tasks[c].parent == Some(id);
    assert rows == Forest.Kids(LiveLinks(tasks), id);
    Sorted(rows)
  }

  lemma NextIdAfter(ids: set<int>, more: set<int>, k: nat)
    requires forall n :: n in more <==> n in ids || NextId(ids) <= n <= NextId(ids) + k
    ensures NextId(more) == NextId(ids) + k + 1
  {
    var top := NextId(ids) + k;
    assert top in more;
    assert Greatest(more) == top;
  }

  /** One more clone: the row inserted under the next free id is the one the checklist asks for. */
  lemma CloneOne(s: State, id: int, due: Date, k: nat, t: State, clones: map<int, int>, source: int)
    requires Clonable(s, id) && id in s.tasks && Cloned(s, id, due, k, t, clones)
    requires k < |Checklist(s, id)| && (source == id || source in Checklist(s, id))
    requires var c := Checklist(s, id)[k];
             c in s.tasks && s.tasks[c].parent == Some(source)
    ensures var c, n := Checklist(s, id)[k], NextId(t.tasks.Keys);
            && c in t.tasks && c !in clones
            && var row := CloneRow(t.tasks[c], CopyParent(Checklist(s, id), NextId(s.tasks.Keys), source), due);
               var u := t.(tasks := t.tasks[n := row], events := t.events + [TaskEvent(row, n, Created, Usual)]);
               Cloned(s, id, due, k + 1, u, clones[c := n])
               && n == CopyParent(Checklist(s, id), NextId(s.tasks.Keys), c)
  {
    hide *;
    var order, base, rows := Checklist(s, id), NextId(s.tasks.Keys), CopiedTasks(s, id, due);
    ClonedParts(s, id, due, k, t, clones);
    ChecklistRow(s, id, due, k, source);
    OldRow(s.tasks, rows, base, k, t.tasks, order[k]);
    MoreRows(s.tasks, rows, base, k, t.tasks);
    MoreIds(order, base, k, clones);
    MoreCreated(rows, base, k + 1);
    IndexAt(order, k);
    CopyParentAt(order, base, k);
    var row := rows[base + k + 1];
    EventOf(row, base + k + 1);
    PartsCloned(s, id, due, k + 1,
                t.(tasks := t.tasks[base + k + 1 := row], events := t.events + [TaskEvent(row, base + k + 1, Created, Usual)]),
                clones[order[k] := base + k + 1]);
  }

  lemma EventOf(t: Task, id: int)
    ensures TaskEvent(t, id, Created, Usual) == Event(Some(t.project), TaskEntity, id, Created, Usual)
  {
  }

  lemma CopyParentAt(order: seq<int>, base: int, k: nat)
    requires Distinct(order) && k < |order|
    ensures CopyParent(order, base, order[k]) == base + k + 1
  {
    IndexAt(order, k);
  }

  lemma OldRow(before: map<int, Task>, rows: map<int, Task>, base: int, k: nat, tasks: map<int, Task>, c: int)
    requires RowsUpTo(before, rows, base, k, tasks) && c in before
    ensures c in tasks && tasks[c] == before[c]
  {
  }

  lemma ClonedParts(s: State, id: int, due: Date, k: nat, t: State, clones: map<int, int>)
    requires Clonable(s, id) && id in s.tasks && Cloned(s, id, due, k, t, clones)
    ensures var base, rows := NextId(s.tasks.Keys), CopiedTasks(s, id, due);
            && RowsUpTo(s.tasks, rows, base, k, t.tasks) && IdsUpTo(Checklist(s, id), base, k, clones)
            && t.projects == s.projects && t.edges == s.edges
            && (forall n :: base <= n <= base + k ==> n in rows)
            && t.events == s.events + CreatedEvents(rows, base, k + 1)
            && NextId(t.tasks.Keys) == base + k + 1
            && (forall n :: n in s.tasks ==> n < base)
            && Distinct(Checklist(s, id))
  {
    NextIdAfter(s.tasks.Keys, t.tasks.Keys, k);
    hide Checklist, CopiedTasks, WellFormed, Sound, Clonable;
  }

  lemma PartsCloned(s: State, id: int, due: Date, k: nat, t: State, clones: map<int, int>)
    requires Clonable(s, id) && id in s.tasks
    requires var base, rows := NextId(s.tasks.Keys), CopiedTasks(s, id, due);
             && RowsUpTo(s.tasks, rows, base, k, t.tasks) && IdsUpTo(Checklist(s, id), base, k, clones)
             && t.projects == s.projects && t.edges == s.edges
             && (forall n :: base <= n <= base + k ==> n in rows)
             && t.events == s.events + CreatedEvents(rows, base, k + 1)
    ensures Cloned(s, id, due, k, t, clones)
  {
  }

  lemma ChecklistRow(s: State, id: int, due: Date, k: nat, source: int)
    requires Clonable(s, id) && id in s.tasks && k < |Checklist(s, id)| && (source == id || source in Checklist(s, id))
    requires var c := Checklist(s, id)[k];
             c in s.tasks && s.tasks[c].parent == Some(source)
    ensures var order, base := Checklist(s, id), NextId(s.tasks.Keys);
            && base + k + 1 in CopiedTasks(s, id, due)
            && CopiedTasks(s, id, due)[base + k + 1] == CloneRow(s.tasks[order[k]], CopyParent(order, base, source), due)
  {
    hide WellFormed, Checklist, NextId, IndexOf, Sound, Clonable;
    var order, base := Checklist(s, id), NextId(s.tasks.Keys);
    assert CopiedTasks(s, id, due)[base + k + 1] == CopyRow(s, id, due, order, base, base + k + 1);
  }

  lemma MoreRows(before: map<int, Task>, rows: map<int, Task>, base: int, k: nat, tasks: map<int, Task>)
    requires RowsUpTo(before, rows, base, k, tasks) && base + k + 1 in rows && forall n :: n in before ==> n < base
    ensures RowsUpTo(before, rows, base, k + 1, tasks[base + k + 1 := rows[base + k + 1]])
  {
  }

  lemma MoreIds(order: seq<int>, base: int, k: nat, clones: map<int, int>)
    requires IdsUpTo(order, base, k, clones) && k < |order| && Distinct(order)
    ensures order[k] !in clones
    ensures IdsUpTo(order, base, k + 1, clones[order[k] := base + k + 1])
  {
    IndexAt(order, k);
    assert order[..k + 1] == order[..k] + [order[k]];
  }

  lemma IndexAt(order: seq<int>, k: nat)
    requires Distinct(order) && k < |order|
    ensures order[k] in order && IndexOf(order, order[k]) == k
  {
  }

  lemma MoreCreated(rows: map<int, Task>, base: int, count: nat)
    requires forall n :: base <= n <= base + count ==> n in rows
    ensures CreatedEvents(rows, base, count + 1)
         == CreatedEvents(rows, base, count) + [TaskEvent(rows[base + count], base + count, Created, Usual)]
  {
  }

  // ---- the recursion over the checklist ----------------------------------------------------

  /** Where the next kid of `source` and what is below it stand in the checklist. */
  ghost predicate NextIs(s: State, id: int, source: int, kids: seq<int>, k: nat)
    requires Clonable(s, id) && id in s.tasks && kids != []
  {
    var up, c := LiveLinks(s.tasks), kids[0];
    && k < |Checklist(s, id)| && Checklist(s, id)[k] == c
    && Upcoming(s, id, c, Sorted(Forest.Kids(up, c)), k + 1)
    && Forest.OffCycle(up, c) && Forest.OffCycle(up, source)
    && (forall d :: d in Sorted(Forest.Kids(up, c)) ==> d in Forest.Kids(up, c))
    && (forall d :: d in kids ==> d in Forest.Kids(up, source)) && kids[0] in kids
    && (forall d :: d in kids[1..] ==> d in Forest.Kids(up, source))
    && var m := CountBelow(s, c, Sorted(Forest.Kids(up, c)));
    && Upcoming(s, id, source, kids[1..], k + 1 + m)
    && CountBelow(s, source, kids) == 1 + m + CountBelow(s, source, kids[1..])
  }

  lemma NextSegment(s: State, id: int, source: int, kids: seq<int>, k: nat)
    requires Clonable(s, id) && id in s.tasks && Upcoming(s, id, source, kids, k) && kids != []
    ensures kids[0] in s.tasks && s.tasks[kids[0]].parent == Some(source)
    ensures |Forest.Subtree(LiveLinks(s.tasks), kids[0])| < |Forest.Subtree(LiveLinks(s.tasks), source)|
    ensures NextIs(s, id, source, kids, k)
  {
    var up, order, c := LiveLinks(s.tasks), Checklist(s, id), kids[0];
    assert c in kids;
    KidFacts(s, source, c);
    KidsOf(up, c);
    UpcomingIs(s, id, source, kids, k);
    hide *;
    NextIn(up, order, source, kids, k);
    NextJoin(s, id, source, kids, k);
  }

  lemma UpcomingIs(s: State, id: int, source: int, kids: seq<int>, k: nat)
    requires Clonable(s, id) && id in s.tasks && Upcoming(s, id, source, kids, k)
    ensures var up := LiveLinks(s.tasks);
            && Forest.OffCycle(up, source) && (forall c :: c in kids ==> c in Forest.Kids(up, source))
            && k <= |Checklist(s, id)| && Forest.PreOrderAll(up, source, kids) <= Checklist(s, id)[k..]
  {
    hide WellFormed, Forest.OffCycle, Checklist, LiveLinks, Forest.Kids, Forest.PreOrderAll, Sound, Clonable;
  }

  lemma NextJoin(s: State, id: int, source: int, kids: seq<int>, k: nat)
    requires Clonable(s, id) && id in s.tasks && kids != [] && kids[0] in kids
    requires var up, order, c := LiveLinks(s.tasks), Checklist(s, id), kids[0];
             && Forest.OffCycle(up, source) && Forest.OffCycle(up, c)
             && (forall d :: d in kids ==> d in Forest.Kids(up, source))
             && (forall d :: d in kids[1..] ==> d in Forest.Kids(up, source))
             && (forall d :: d in Sorted(Forest.Kids(up, c)) ==> d in Forest.Kids(up, c))
             && var below, rest := Forest.PreOrderAll(up, c, Sorted(Forest.Kids(up, c))), Forest.PreOrderAll(up, source, kids[1..]);
             && k < |order| && order[k] == c && below <= order[k + 1..]
             && k + 1 + |below| <= |order| && rest <= order[k + 1 + |below|..]
             && |Forest.PreOrderAll(up, source, kids)| == 1 + |below| + |rest|
    ensures NextIs(s, id, source, kids, k)
  {
    hide WellFormed, Forest.OffCycle, Checklist, LiveLinks, Forest.PreOrderAll, Forest.Kids, Sorted, Sound, Clonable;
  }

  lemma NextIn(up: Forest.Links, order: seq<int>, source: int, kids: seq<int>, k: nat)
    requires Forest.OffCycle(up, source) && kids != [] && (forall d :: d in kids ==> d in Forest.Kids(up, source))
    requires Forest.OffCycle(up, kids[0]) && k <= |order| && Forest.PreOrderAll(up, source, kids) <= order[k..]
    requires forall d :: d in Sorted(Forest.Kids(up, kids[0])) ==> d in Forest.Kids(up, kids[0])
    ensures forall d :: d in kids[1..] ==> d in Forest.Kids(up, source)
    ensures var c := kids[0];
            var below := Forest.PreOrderAll(up, c, Sorted(Forest.Kids(up, c)));
            var rest := Forest.PreOrderAll(up, source, kids[1..]);
            && k < |order| && order[k] == c
            && below <= order[k + 1..]
            && k + 1 + |below| <= |order| && rest <= order[k + 1 + |below|..]
            && |Forest.PreOrderAll(up, source, kids)| == 1 + |below| + |rest|
  {
    WalkUnfolds(up, source, kids);
    hide *;
    Segments(order, k, kids[0], Forest.PreOrderAll(up, kids[0], Sorted(Forest.Kids(up, kids[0]))), Forest.PreOrderAll(up, source, kids[1..]));
  }

  lemma NextParts(s: State, id: int, source: int, kids: seq<int>, k: nat)
    requires Clonable(s, id) && id in s.tasks && kids != [] && NextIs(s, id, source, kids, k)
    ensures var up, c := LiveLinks(s.tasks), kids[0];
            && k < |Checklist(s, id)| && Checklist(s, id)[k] == c && c in Checklist(s, id)
            && Upcoming(s, id, c, Sorted(Forest.Kids(up, c)), k + 1)
            && Forest.OffCycle(up, c) && Forest.OffCycle(up, source)
            && (forall d :: d in Sorted(Forest.Kids(up, c)) ==> d in Forest.Kids(up, c))
            && (forall d :: d in kids ==> d in Forest.Kids(up, source))
            && (forall d :: d in kids[1..] ==> d in Forest.Kids(up, source))
            && var m := CountBelow(s, c, Sorted(Forest.Kids(up, c)));
            && Upcoming(s, id, source, kids[1..], k + 1 + m)
            && CountBelow(s, source, kids) == 1 + m + CountBelow(s, source, kids[1..])
  {
    hide WellFormed, Forest.OffCycle, Checklist, LiveLinks, Forest.Kids, Sorted, Upcoming, CountBelow, Sound, Clonable;
  }

  lemma KidFacts(s: State, source: int, c: int)
    requires Forest.OffCycle(LiveLinks(s.tasks), source) && c in Forest.Kids(LiveLinks(s.tasks), source)
    ensures c in s.tasks && s.tasks[c].parent == Some(source) && Forest.OffCycle(LiveLinks(s.tasks), c)
    ensures |Forest.Subtree(LiveLinks(s.tasks), c)| < |Forest.Subtree(LiveLinks(s.tasks), source)|
  {
    Forest.KidSubtree(LiveLinks(s.tasks), c, source);
    Forest.KidOffCycle(LiveLinks(s.tasks), c, source);
  }

  lemma WalkUnfolds(up: Forest.Links, source: int, kids: seq<int>)
    requires Forest.OffCycle(up, source) && kids != [] && forall c :: c in kids ==> c in Forest.Kids(up, source)
    requires Forest.OffCycle(up, kids[0])
    ensures forall c :: c in Sorted(Forest.Kids(up, kids[0])) ==> c in Forest.Kids(up, kids[0])
    ensures Forest.PreOrderAll(up, source, kids)
         == [kids[0]] + Forest.PreOrderAll(up, kids[0], Sorted(Forest.Kids(up, kids[0])))
            + Forest.PreOrderAll(up, source, kids[1..])
  {
    hide Forest.OffCycle, Forest.Kids, Sorted;
  }

  lemma Segments(order: seq<int>, k: nat, c: int, below: seq<int>, rest: seq<int>)
    requires k <= |order| && [c] + below + rest <= order[k..]
    ensures k < |order| && order[k] == c
    ensures below <= order[k + 1..]
    ensures k + 1 + |below| <= |order| && rest <= order[k + 1 + |below|..]
  {
    var all := [c] + below + rest;
    assert order[k..][0] == all[0];
    forall i | 0 <= i < |below| ensures order[k + 1..][i] == below[i] {
      assert order[k..][i + 1] == all[i + 1];
    }
    forall i | 0 <= i < |rest| ensures order[k + 1 + |below|..][i] == rest[i] {
      assert order[k..][i + 1 + |below|] == all[i + 1 + |below|];
    }
  }

  lemma KidsUnchanged(s: State, id: int, due: Date, k: nat, t: State, clones: map<int, int>, source: int)
    requires Clonable(s, id) && id in s.tasks && Cloned(s, id, due, k, t, clones) && source in s.tasks
    ensures Forest.Kids(LiveLinks(t.tasks), source) == Forest.Kids(LiveLinks(s.tasks), source)
  {
    var rows, base := CopiedTasks(s, id, due), NextId(s.tasks.Keys);
    hide Checklist, CopiedTasks, WellFormed, IdsUpTo, Sound, Clonable;
    forall c ensures c in Forest.Kids(LiveLinks(t.tasks), source) <==> c in Forest.Kids(LiveLinks(s.tasks), source) {
      if c in t.tasks && c !in s.tasks {
        CopiedRow(s, id, due, c);
      }
    }
  }

  lemma NothingBelow(s: State, id: int, source: int, k: nat)
    requires Clonable(s, id) && id in s.tasks && Upcoming(s, id, source, [], k)
    ensures CountBelow(s, source, []) == 0
  {
  }

  lemma UpcomingIsWalkable(s: State, id: int, source: int, kids: seq<int>, k: nat)
    requires Clonable(s, id) && id in s.tasks && Upcoming(s, id, source, kids, k)
    ensures Forest.OffCycle(LiveLinks(s.tasks), source)
    ensures forall c :: c in kids ==> c in Forest.Kids(LiveLinks(s.tasks), source)
  {
  }

  lemma KidsOf(up: Forest.Links, source: int)
    ensures forall c :: c in Sorted(Forest.Kids(up, source)) ==> c in Forest.Kids(up, source)
  {
  }

  /** `_clone_subtask_tree`: each child's clone, then everything below that child. */
  method CloneSubtaskTree(db: Database, source: int, newParent: int, due: Date, clones: map<int, int>,
                          ghost s: State, ghost id: int, ghost k: nat)
    returns (grown: map<int, int>)
    requires Clonable(s, id) && id in s.tasks && source in s.tasks && (source == id || source in Checklist(s, id))
    requires newParent == CopyParent(Checklist(s, id), NextId(s.tasks.Keys), source)
    requires Cloned(s, id, due, k, db.View(), clones)
    requires Upcoming(s, id, source, Sorted(Forest.Kids(LiveLinks(s.tasks), source)), k)
    modifies db`tasks, db`events
    ensures Forest.OffCycle(LiveLinks(s.tasks), source)
    ensures forall c :: c in Sorted(Forest.Kids(LiveLinks(s.tasks), source)) ==> c in Forest.Kids(LiveLinks(s.tasks), source)
    ensures Cloned(s, id, due, k + CountBelow(s, source, Sorted(Forest.Kids(LiveLinks(s.tasks), source))), db.View(), grown)
    decreases |Forest.Subtree(LiveLinks(s.tasks), source)|
  {
    hide *;
    ghost var all := Sorted(Forest.Kids(LiveLinks(s.tasks), source));
    UpcomingIsWalkable(s, id, source, all, k);
    KidsUnchanged(s, id, due, k, db.View(), clones, source);
    db.Fields();
    var children := Subtasks(db.tasks, source);
    grown := clones;
    ghost var at: nat := k;
    assert all[0..] == all;
    for i := 0 to |children|
      invariant at <= k + CountBelow(s, source, all)
      invariant Upcoming(s, id, source, children[i..], at)
      invariant Cloned(s, id, due, at, db.View(), grown)
      invariant forall c :: c in children[i..] ==> c in Forest.Kids(LiveLinks(s.tasks), source)
      invariant at + CountBelow(s, source, children[i..]) == k + CountBelow(s, source, all)
    {
      var child := children[i];
      assert children[i..][0] == child && children[i..][1..] == children[i + 1..];
      NextSegment(s, id, source, children[i..], at);
      NextParts(s, id, source, children[i..], at);
      CloneOne(s, id, due, at, db.View(), grown, source);
      db.Fields();
      var n := NextId(db.tasks.Keys);
      var row := CloneRow(db.tasks[child], newParent, due);
      db.tasks := db.tasks[n := row];
      db.Log(TaskEvent(row, n, Created, Usual));
      grown := grown[child := n];
      db.Fields();
      ghost var m := CountBelow(s, child, Sorted(Forest.Kids(LiveLinks(s.tasks), child)));
      grown := CloneSubtaskTree(db, child, n, due, grown, s, id, at + 1);
      at := at + 1 + m;
      UpcomingIsWalkable(s, id, source, children[i + 1..], at);
    }
    assert children[|children|..] == [];
    NothingBelow(s, id, source, at);
  }

  /** The recursion without a depth limit in sight, row by row: it leaves what the checklist asks for. */
  lemma {:induction false} BelowIsCloned(s: State, id: int, due: Date, k: nat, t: State, clones: map<int, int>, source: int, depth: nat)
    requires Clonable(s, id) && id in s.tasks && source in s.tasks && (source == id || source in Checklist(s, id))
    requires Cloned(s, id, due, k, t, clones)
    requires Upcoming(s, id, source, Sorted(Forest.Kids(LiveLinks(s.tasks), source)), k)
    ensures Forest.OffCycle(LiveLinks(s.tasks), source)
    ensures forall c :: c in Sorted(Forest.Kids(LiveLinks(s.tasks), source)) ==> c in Forest.Kids(LiveLinks(s.tasks), source)
    ensures var r := CloneBelow(t, source, CopyParent(Checklist(s, id), NextId(s.tasks.Keys), source), due, clones, depth);
            r.Some? ==> Cloned(s, id, due, k + CountBelow(s, source, Sorted(Forest.Kids(LiveLinks(s.tasks), source))), r.value.0, r.value.1)
    decreases depth, 0, 0
  {
    hide *;
    var parent := CopyParent(Checklist(s, id), NextId(s.tasks.Keys), source);
    UpcomingIsWalkable(s, id, source, Sorted(Forest.Kids(LiveLinks(s.tasks), source)), k);
    KidsUnchanged(s, id, due, k, t, clones, source);
    if depth > 0 {
      KidsThere(t, source);
      EachIsCloned(s, id, due, k, t, clones, source, Sorted(Forest.Kids(LiveLinks(s.tasks), source)), depth - 1);
      BelowIs(t, source, parent, due, clones, depth);
    } else {
      NoDepth(t, source, parent, due, clones);
    }
  }

  lemma {:induction false} EachIsCloned(
      s: State, id: int, due: Date, k: nat, t: State, clones: map<int, int>, source: int, kids: seq<int>, depth: nat)
    requires Clonable(s, id) && id in s.tasks && source in s.tasks && (source == id || source in Checklist(s, id))
    requires Cloned(s, id, due, k, t, clones) && Upcoming(s, id, source, kids, k) && forall c :: c in kids ==> c in t.tasks
    ensures Forest.OffCycle(LiveLinks(s.tasks), source) && forall c :: c in kids ==> c in Forest.Kids(LiveLinks(s.tasks), source)
    ensures var r := CloneEach(t, kids, CopyParent(Checklist(s, id), NextId(s.tasks.Keys), source), due, clones, depth);
            r.Some? ==> Cloned(s, id, due, k + CountBelow(s, source, kids), r.value.0, r.value.1)
    decreases depth, 1, |kids|
  {
    hide *;
    UpcomingIsWalkable(s, id, source, kids, k);
    var parent := CopyParent(Checklist(s, id), NextId(s.tasks.Keys), source);
    if kids == [] {
      NothingBelow(s, id, source, k);
      EachEnds(t, parent, due, clones, depth);
    } else {
      var child, n := kids[0], NextId(t.tasks.Keys);
      assert child in kids;
      NextSegment(s, id, source, kids, k);
      NextParts(s, id, source, kids, k);
      CloneOne(s, id, due, k, t, clones, source);
      OneCloneIs(t, child, parent, due);
      var one := OneClone(t, child, parent, due);
      OneCloneGrows(t, child, parent, due);
      BelowIsCloned(s, id, due, k + 1, one, clones[child := n], child, depth);
      var m := CountBelow(s, child, Sorted(Forest.Kids(LiveLinks(s.tasks), child)));
      var below := CloneBelow(one, child, n, due, clones[child := n], depth);
      EachStep(t, kids, parent, due, clones, depth);
      if below.Some? {
        BelowGrows(one, child, n, due, clones[child := n], depth);
        EachIsCloned(s, id, due, k + 1 + m, below.value.0, below.value.1, source, kids[1..], depth);
      }
    }
  }

  lemma EachEnds(t: State, parent: int, due: Date, clones: map<int, int>, depth: nat)
    ensures CloneEach(t, [], parent, due, clones, depth) == Some((t, clones))
  {
  }

  lemma BelowGrows(s: State, source: int, parent: int, due: Date, clones: map<int, int>, depth: nat)
    ensures var r := CloneBelow(s, source, parent, due, clones, depth);
            r.Some? ==> forall x :: x in s.tasks ==> x in r.value.0.tasks
  {
  }

  lemma OneCloneIs(t: State, child: int, parent: int, due: Date)
    requires child in t.tasks
    ensures var n, row := NextId(t.tasks.Keys), CloneRow(t.tasks[child], parent, due);
            OneClone(t, child, parent, due)
            == t.(tasks := t.tasks[n := row], events := t.events + [TaskEvent(row, n, Created, Usual)])
  {
  }

  lemma EachStep(t: State, kids: seq<int>, parent: int, due: Date, clones: map<int, int>, depth: nat)
    requires kids != [] && (forall c :: c in kids ==> c in t.tasks) && kids[0] in t.tasks
    ensures var child, n := kids[0], NextId(t.tasks.Keys);
            var below := CloneBelow(OneClone(t, child, parent, due), child, n, due, clones[child := n], depth);
            && (below.Some? ==> forall c :: c in kids[1..] ==> c in below.value.0.tasks)
            && CloneEach(t, kids, parent, due, clones, depth)
               == if below.None? then None else CloneEach(below.value.0, kids[1..], parent, due, below.value.1, depth)
  {
    OneCloneGrows(t, kids[0], parent, due);
    hide CloneBelow, OneClone, NextId;
  }

  /** Deep enough, the recursion inserts exactly the rows of the specification, and its map is the clone map. */
  lemma CloneTreeGives(s: State, id: int, due: Date, depth: nat)
    requires id in s.tasks && CloneTree(s, id, due, depth).Some?
    ensures Clonable(s, id)
    ensures var r := CloneTree(s, id, due, depth).value;
            r.0 == WithCopies(s, id, due) && IdsUpTo(Checklist(s, id), NextId(s.tasks.Keys), |Checklist(s, id)|, r.1)
  {
    hide *;
    TreeIs(s, id, due, depth);
    CloningEndsIff(s, id, due);
    var base, row := NextId(s.tasks.Keys), OccurrenceRow(s.tasks[id], due);
    var t := s.(tasks := s.tasks[base := row], events := s.events + [TaskEvent(row, base, Created, Usual)]);
    var r := CloneBelow(t, id, base, due, map[], depth).value;
    InsertBegins(s, id, due);
    BelowIsCloned(s, id, due, 0, t, map[], id, depth);
    InsertEnds(s, id, due, r.0, r.1);
  }

  lemma TreeIs(s: State, id: int, due: Date, depth: nat)
    requires id in s.tasks
    ensures var base, row := NextId(s.tasks.Keys), OccurrenceRow(s.tasks[id], due);
            var t := s.(tasks := s.tasks[base := row], events := s.events + [TaskEvent(row, base, Created, Usual)]);
            CloneTree(s, id, due, depth) == CloneBelow(t, id, base, due, map[], depth)
    ensures CloneTree(s, id, due, depth).Some? ==> CloningEnds(s, id, due)
  {
    hide CloneBelow;
  }

  // ---- replaying the edges ---------------------------------------------------------------

  /** The active edges with both ends cloned, in row order. */
  function EdgesInside(edges: seq<Edge>, ids: set<int>): seq<Edge> {
    if edges == [] then [] else
      var e := edges[0];
      (if !e.deleted && e.task in ids && e.blocker in ids then [e] else []) + EdgesInside(edges[1..], ids)
  }

  lemma {:induction false} InsideIsInner(edges: seq<Edge>, order: seq<int>, ids: set<int>)
    requires forall x :: x in ids <==> x in order
    ensures EdgesInside(edges, ids) == InnerEdges(edges, order)
  {
    if edges != [] { InsideIsInner(edges[1..], order, ids); }
  }

  lemma ReplayStep(s: State, inner: seq<Edge>, i: nat, order: seq<int>, base: int, clones: map<int, int>, done: Oracle)
    requires (forall e :: e in inner ==> e.task in order && e.blocker in order) && i < |inner|
    requires IdsUpTo(order, base, |order|, clones)
    ensures var e := inner[i];
            && e.task in clones && e.blocker in clones
            && (forall f :: f in inner[i..] ==> f.task in order && f.blocker in order)
            && (forall f :: f in inner[i + 1..] ==> f.task in order && f.blocker in order)
            && var added := TaskDependencies.AddDependency(s, clones[e.task], clones[e.blocker], done);
               ReplayEdges(s, inner[i..], order, base, done)
               == if added.Err? then Err(added.error) else ReplayEdges(added.value, inner[i + 1..], order, base, done)
  {
    hide TaskDependencies.AddDependency, IndexOf;
    assert order[..|order|] == order;
    assert inner[i..][0] == inner[i] && inner[i..][1..] == inner[i + 1..];
    assert inner[i] in inner;
  }

  lemma ReplayEnds(s: State, inner: seq<Edge>, order: seq<int>, base: int, done: Oracle)
    ensures ReplayEdges(s, inner[|inner|..], order, base, done) == Ok(s) && inner[0..] == inner
  {
  }

  /** `_clone_dependency_edges`. */
  method CloneDependencyEdges(db: Database, clones: map<int, int>, done: Oracle, ghost order: seq<int>, ghost base: int)
    returns (raised: Option<Error>)
    requires IdsUpTo(order, base, |order|, clones)
    modifies db
    ensures var r := ReplayEdges(old(db.View()), InnerEdges(old(db.edges), order), order, base, done);
            raised == (if r.Err? then Some(r.error) else None) && (r.Ok? ==> db.View() == r.value)
  {
    hide *;
    var inner := EdgesInside(db.edges, clones.Keys);
    SameIds(order, base, clones);
    InsideIsInner(db.edges, order, clones.Keys);
    ReplayEnds(db.View(), inner, order, base, done);
    if |clones| == 0 {
      NothingInside(db.edges, clones);
      return None;
    }
    for i := 0 to |inner|
      invariant (forall f :: f in inner[i..] ==> f.task in order && f.blocker in order)
      invariant ReplayEdges(db.View(), inner[i..], order, base, done) == ReplayEdges(old(db.View()), inner, order, base, done)
    {
      ReplayStep(db.View(), inner, i, order, base, clones, done);
      raised := DependencyWalks.AddDependency(db, clones[inner[i].task], clones[inner[i].blocker], done);
      if raised.Some? { return; }
    }
    ReplayEnds(db.View(), inner, order, base, done);
    raised := None;
  }

  lemma SameIds(order: seq<int>, base: int, clones: map<int, int>)
    requires IdsUpTo(order, base, |order|, clones)
    ensures forall x :: x in clones.Keys <==> x in order
  {
    assert order[..|order|] == order;
  }

  lemma {:induction false} NothingInside(edges: seq<Edge>, clones: map<int, int>)
    requires |clones| == 0
    ensures EdgesInside(edges, clones.Keys) == []
  {
    assert clones == map[];
    if edges != [] { NothingInside(edges[1..], clones); }
  }

  // ---- one occurrence ------------------------------------------------------------------------

  /** The checklist is the walk below the occurrence. */
  lemma ChecklistIsWalk(s: State, id: int)
    requires Clonable(s, id) && id in s.tasks
    ensures var up := LiveLinks(s.tasks);
            && Forest.OffCycle(up, id) && (forall c :: c in Sorted(Forest.Kids(up, id)) ==> c in Forest.Kids(up, id))
            && Checklist(s, id) == Forest.PreOrderAll(up, id, Sorted(Forest.Kids(up, id)))
            && Upcoming(s, id, id, Sorted(Forest.Kids(up, id)), 0)
            && CountBelow(s, id, Sorted(Forest.Kids(up, id))) == |Checklist(s, id)|
  {
    KidsOf(LiveLinks(s.tasks), id);
    var order := Checklist(s, id);
    assert order[0..] == order;
    hide WellFormed, Forest.OffCycle, Forest.Kids, Sorted, Sound, Clonable;
  }

  lemma FirstRow(s: State, id: int, due: Date)
    requires Clonable(s, id) && id in s.tasks
    ensures var base, row := NextId(s.tasks.Keys), OccurrenceRow(s.tasks[id], due);
            Cloned(s, id, due, 0, s.(tasks := s.tasks[base := row], events := s.events + [TaskEvent(row, base, Created, Usual)]),
                   map[])
  {
    var order, base, rows := Checklist(s, id), NextId(s.tasks.Keys), CopiedTasks(s, id, due);
    assert base in rows && rows[base] == OccurrenceRow(s.tasks[id], due);
    assert base !in s.tasks;
    hide *;
    FirstRowOnly(s.tasks, rows, base);
    NoClones(order, base);
    FirstEvents(rows, base);
    ClonedJoin(s, id, due, s.(tasks := s.tasks[base := rows[base]], events := s.events + [TaskEvent(rows[base], base, Created, Usual)]), map[]);
  }

  lemma FirstRowOnly(tasks: map<int, Task>, rows: map<int, Task>, base: int)
    requires base in rows && base !in tasks
    ensures RowsUpTo(tasks, rows, base, 0, tasks[base := rows[base]])
  {
  }

  lemma NoClones(order: seq<int>, base: int)
    ensures IdsUpTo(order, base, 0, map[])
  {
    assert order[..0] == [];
  }

  lemma FirstEvents(rows: map<int, Task>, base: int)
    requires base in rows
    ensures CreatedEvents(rows, base, 1) == [TaskEvent(rows[base], base, Created, Usual)]
  {
  }

  lemma ClonedJoin(s: State, id: int, due: Date, t: State, clones: map<int, int>)
    requires Clonable(s, id) && id in s.tasks
    requires var base, rows := NextId(s.tasks.Keys), CopiedTasks(s, id, due);
             && RowsUpTo(s.tasks, rows, base, 0, t.tasks) && IdsUpTo(Checklist(s, id), base, 0, clones)
             && t.projects == s.projects && t.edges == s.edges && t.events == s.events + CreatedEvents(rows, base, 1)
    ensures Cloned(s, id, due, 0, t, clones)
  {
    hide WellFormed, Checklist, CopiedTasks, NextId, RowsUpTo, IdsUpTo, CreatedEvents, Sound, Clonable;
  }

  lemma InsertBegins(s: State, id: int, due: Date)
    requires Clonable(s, id) && id in s.tasks
    ensures var base, row := NextId(s.tasks.Keys), OccurrenceRow(s.tasks[id], due);
            && Cloned(s, id, due, 0, s.(tasks := s.tasks[base := row], events := s.events + [TaskEvent(row, base, Created, Usual)]),
                      map[])
            && base == CopyParent(Checklist(s, id), base, id)
            && Upcoming(s, id, id, Sorted(Forest.Kids(LiveLinks(s.tasks), id)), 0)
  {
    FirstRow(s, id, due);
    ChecklistIsWalk(s, id);
    hide WellFormed, Forest.OffCycle, Forest.Kids, Sorted, Cloned, Upcoming, Checklist, Sound, Clonable;
  }

  lemma InsertEnds(s: State, id: int, due: Date, t: State, clones: map<int, int>)
    requires Clonable(s, id) && id in s.tasks && Forest.OffCycle(LiveLinks(s.tasks), id)
    requires forall c :: c in Sorted(Forest.Kids(LiveLinks(s.tasks), id)) ==> c in Forest.Kids(LiveLinks(s.tasks), id)
    requires Cloned(s, id, due, 0 + CountBelow(s, id, Sorted(Forest.Kids(LiveLinks(s.tasks), id))), t, clones)
    ensures t == WithCopies(s, id, due)
    ensures IdsUpTo(Checklist(s, id), NextId(s.tasks.Keys), |Checklist(s, id)|, clones)
  {
    ChecklistIsWalk(s, id);
    hide *;
    AllCloned(s, id, due, t, clones);
  }

  lemma AllCloned(s: State, id: int, due: Date, t: State, clones: map<int, int>)
    requires Clonable(s, id) && id in s.tasks && Cloned(s, id, due, |Checklist(s, id)|, t, clones)
    ensures t == WithCopies(s, id, due)
    ensures IdsUpTo(Checklist(s, id), NextId(s.tasks.Keys), |Checklist(s, id)|, clones)
  {
    var order, base, rows := Checklist(s, id), NextId(s.tasks.Keys), CopiedTasks(s, id, due);
    assert rows.Keys == CopyIds(base, |order|);
    ClonedParts(s, id, due, |order|, t, clones);
    hide *;
    AllRows(s.tasks, rows, base, |order|, t.tasks);
    CopiesAre(s, id, due);
  }

  lemma CopiesAre(s: State, id: int, due: Date)
    requires Clonable(s, id) && id in s.tasks
    ensures var order, base, rows := Checklist(s, id), NextId(s.tasks.Keys), CopiedTasks(s, id, due);
            && (forall n :: base <= n <= base + |order| ==> n in rows)
            && WithCopies(s, id, due)
               == s.(tasks := s.tasks + rows, events := s.events + CreatedEvents(rows, base, |order| + 1))
  {
    hide WellFormed, Checklist, CopiedTasks, NextId, Sound, Clonable;
  }

  lemma AllRows(before: map<int, Task>, rows: map<int, Task>, base: int, k: nat, tasks: map<int, Task>)
    requires RowsUpTo(before, rows, base, k, tasks) && rows.Keys == CopyIds(base, k)
    requires forall n :: n in before ==> n < base
    ensures tasks == before + rows
  {
    var all := before + rows;
    forall n ensures n in rows <==> base <= n <= base + k {
      assert n in rows <==> n in rows.Keys;
    }
    forall n ensures n in tasks <==> n in all {
    }
    forall n | n in all ensures tasks[n] == all[n] {
    }
  }

  /** `_insert_occurrence`. */
  method InsertOccurrence(db: Database, id: int, due: Date, done: Oracle) returns (raised: Option<Error>, occurrence: int)
    requires Clonable(db.View(), id) && id in db.tasks
    modifies db
    ensures var r := TaskRecurrence.InsertOccurrence(old(db.View()), id, due, done);
            raised == (if r.Err? then Some(r.error) else None) && (r.Ok? ==> (db.View(), occurrence) == r.value)
  {
    hide *;
    ghost var s := db.View();
    db.Fields();
    InsertBegins(s, id, due);
    occurrence := NextId(db.tasks.Keys);
    var row := OccurrenceRow(db.tasks[id], due);
    db.tasks := db.tasks[occurrence := row];
    db.Log(TaskEvent(row, occurrence, Created, Usual));
    db.Fields();
    var clones := CloneSubtaskTree(db, id, occurrence, due, map[], s, id, 0);
    InsertEnds(s, id, due, db.View(), clones);
    db.Fields();
    CopiesKeepEdges(s, id, due);
    raised := CloneDependencyEdges(db, clones, done, Checklist(s, id), NextId(s.tasks.Keys));
    InsertIs(s, id, due, done);
  }

  lemma CopiesKeepEdges(s: State, id: int, due: Date)
    requires Clonable(s, id) && id in s.tasks
    ensures WithCopies(s, id, due).edges == s.edges
  {
  }

  /** `create_next_occurrence`, of a row whose checklist it can clone if it has to. */
  method CreateNextOccurrence(db: Database, id: int, done: Oracle) returns (raised: Option<Error>, next: int)
    requires Sound(db.View()) && Live(db.View(), id) && SeriesHead(db.tasks[id])
    requires CreateNext(db.View(), id, done) != Err(EndlessChecklist)
    modifies db
    ensures var r := CreateNext(old(db.View()), id, done);
            raised == (if r.Err? then Some(r.error) else None) && (r.Ok? ==> (db.View(), next) == r.value)
  {
    ghost var s := db.View();
    var t := db.tasks[id];
    assert RowWellFormed(s, t);
    hide WellFormed, NextDue, TaskRecurrence.InsertOccurrence, FindLiveOn, SkippedOn, Sound, Clonable;
    if t.series.None? {
      var first := NextDue(t.due.value, t.repeat.value);
      if first.None? { return Some(RecurrenceError), id; }
      InsertClones(s, id, first.value, done);
      raised, next := InsertOccurrence(db, id, first.value, done);
      return;
    }
    var current := t.due.value;
    while true
      invariant db.View() == s
      invariant RollForward(s, t.series.value, current, t.repeat.value)
             == RollForward(s, t.series.value, t.due.value, t.repeat.value)
      decreases MAX_ORDINAL - current
    {
      var step := NextDue(current, t.repeat.value);
      if step.None? { return Some(RecurrenceError), id; }
      NextDueIsLater(current, t.repeat.value);
      var live := FindLiveOn(db.View(), t.series.value, step.value, {});
      if live.Some? { return None, live.value; }
      if !SkippedOn(db.View(), t.series.value, step.value) {
        InsertClones(s, id, step.value, done);
        raised, next := InsertOccurrence(db, id, step.value, done);
        return;
      }
      current := step.value;
    }
  }

  lemma InsertClones(s: State, id: int, due: Date, done: Oracle)
    requires id in s.tasks
    ensures TaskRecurrence.InsertOccurrence(s, id, due, done) != Err(EndlessChecklist) ==> Clonable(s, id)
  {
    InsertIs(s, id, due, done);
    hide TaskRecurrence.InsertOccurrence, Clonable;
  }

  // ---- the reconcile queue ----------------------------------------------------------------------

  /**
   `reconcile`: on any parent links it ends although it inserts rows, since the queue never leaves
   the old ids, unless it is to clone a checklist that hangs below itself.
   */
  method Reconcile(db: Database, taskIds: seq<int>, done: Oracle) returns (raised: Option<Error>, spawned: seq<int>)
    requires WellFormed(db.View()) || Sound(db.View())
    requires forall q :: q in taskIds ==> q in db.tasks
    requires WellFormed(db.View()) || TaskRecurrence.Reconcile(db.View(), taskIds, done) != Err(EndlessChecklist)
    modifies db
    ensures var r := TaskRecurrence.Reconcile(old(db.View()), taskIds, done);
            raised == (if r.Err? then Some(r.error) else None)
            && (r.Ok? ==> db.View() == r.value && (WellFormed(old(db.View())) ==> WellFormed(db.View())))
  {
    hide *;
    ghost var s := db.View();
    ghost var ids := db.tasks.Keys;
    db.Fields();
    Begins(s, taskIds, done);
    AllEnclosed(s);
    ReconcileIs(s, taskIds, done);
    spawned := [];
    var queue := taskIds;
    var seen: set<int> := {};
    while queue != []
      invariant Sound(db.View()) && (WellFormed(s) ==> WellFormed(db.View())) && Enclosed(db.View(), ids) && (forall q :: q in queue ==> q in ids)
      invariant Walk(db.View(), queue, seen, spawned, ids, done) == Walk(s, taskIds, {}, [], ids, done) != Err(EndlessChecklist)
      decreases |ids - seen|, |queue|
    {
      var current := queue[|queue| - 1];
      assert current in queue && queue == queue[..|queue| - 1] + [current];
      queue := queue[..|queue| - 1];
      Visit(db.View(), queue, current, seen, spawned, ids, done);
      db.Fields();
      if current in seen { continue; }
      seen := seen + {current};
      if current !in db.tasks || db.tasks[current].deleted { continue; }
      var t := db.tasks[current];
      var head := t.repeat.Some? && t.due.Some?;
      if t.parent.Some? && !head { queue := queue + [t.parent.value]; }
      if !done(db.View(), current) { continue; }
      if head {
        var occurrence: int;
        raised, occurrence := CreateNextOccurrence(db, current, done);
        if raised.Some? { return; }
        spawned := spawned + [occurrence];
        db.Fields();
      }
      queue := queue + Dependents(db.edges, current);
    }
    WalkEnds(db.View(), seen, spawned, ids, done);
    raised := None;
  }

  /** What the method starts from, in either case. */
  lemma Begins(s: State, seeds: seq<int>, done: Oracle)
    requires WellFormed(s) || Sound(s)
    requires forall q :: q in seeds ==> q in s.tasks
    requires WellFormed(s) || TaskRecurrence.Reconcile(s, seeds, done) != Err(EndlessChecklist)
    ensures Sound(s) && TaskRecurrence.Reconcile(s, seeds, done) != Err(EndlessChecklist)
  {
    if WellFormed(s) { AcyclicEnds(s, seeds, done); }
  }

  lemma WalkEnds(s: State, seen: set<int>, spawned: seq<int>, ids: set<int>, done: Oracle)
    requires Sound(s) && Enclosed(s, ids)
    ensures Walk(s, [], seen, spawned, ids, done) == Ok(Walked(s, spawned, seen))
  {
  }

  lemma ReconcileIs(s: State, seeds: seq<int>, done: Oracle)
    requires Sound(s) && (forall q :: q in seeds ==> q in s.tasks) && Enclosed(s, s.tasks.Keys)
    ensures var w := Walk(s, seeds, {}, [], s.tasks.Keys, done);
            TaskRecurrence.Reconcile(s, seeds, done) == if w.Err? then Err(w.error) else Ok(w.value.state)
  {
    hide WellFormed, Enclosed, Walk, Sound, Clonable;
  }

  /** One visit of the walk, case by case. */
  lemma Visit(s: State, rest: seq<int>, id: int, seen: set<int>, spawned: seq<int>, ids: set<int>, done: Oracle)
    requires Sound(s) && Enclosed(s, ids) && (forall q :: q in rest ==> q in ids) && id in ids
    ensures forall q :: q in rest + [id] ==> q in ids
    ensures var here := Walk(s, rest + [id], seen, spawned, ids, done);
            if id in seen then here == Walk(s, rest, seen, spawned, ids, done)
            else if !(id in s.tasks && !s.tasks[id].deleted) then
              |ids - (seen + {id})| < |ids - seen| && here == Walk(s, rest, seen + {id}, spawned, ids, done)
            else
              var t := s.tasks[id];
              var head := t.repeat.Some? && t.due.Some?;
              var climbed := if t.parent.Some? && !head then rest + [t.parent.value] else rest;
              && |ids - (seen + {id})| < |ids - seen| && (forall q :: q in climbed ==> q in ids)
              && if !done(s, id) then here == Walk(s, climbed, seen + {id}, spawned, ids, done)
                 else if head then
                   SeriesHead(t) && Live(s, id)
                   && var next := CreateNext(s, id, done);
                   if next.Err? then here == Err(next.error)
                   else
                     && Sound(next.value.0) && (WellFormed(s) ==> WellFormed(next.value.0)) && Enclosed(next.value.0, ids)
                     && (forall q :: q in climbed + Dependents(next.value.0.edges, id) ==> q in ids)
                     && here == Walk(next.value.0, climbed + Dependents(next.value.0.edges, id), seen + {id},
                                     spawned + [next.value.1], ids, done)
                 else
                   && (forall q :: q in climbed + Dependents(s.edges, id) ==> q in ids)
                   && here == Walk(s, climbed + Dependents(s.edges, id), seen + {id}, spawned, ids, done)
  {
    var queue := rest + [id];
    assert queue[|queue| - 1] == id && queue[..|queue| - 1] == rest;
    if id !in seen {
      SubsetSize(ids - (seen + {id}), ids - seen);
      assert id in ids - seen;
      if Live(s, id) {
        ClimbInside(s, id, ids);
        var t := s.tasks[id];
        assert (if t.parent.Some? && !SeriesHead(t) then rest + [t.parent.value] else rest) == rest + ClimbFrom(t);
        if done(s, id) {
          if SeriesHead(t) {
            CreateNextGrows(s, id, done);
            var next := CreateNext(s, id, done);
            if next.Ok? {
              EnclosedStays(s, next.value.0, ids);
              DependentsInside(next.value.0, id, ids);
            }
          } else {
            DependentsInside(s, id, ids);
          }
        }
      }
    }
  }
}
