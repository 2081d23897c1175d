/**
 Recurring tasks (backend/app/services/task_recurrence.py): rolling a series forward, cloning
 an occurrence with its checklist, and the reconcile walk.
 */
module TaskRecurrence {
  import opened Common
  import opened Calendar
  import opened Store
  import TaskDependencies
  import Forest
  import Graph

  // ---- the slots of a series --------------------------------------------------

  /** The active rows a series has on a date. */
  function LiveOn(s: State, series: string, due: Date): set<int> {
    set x | x in s.tasks && !s.tasks[x].deleted && s.tasks[x].series == Some(series) && s.tasks[x].due == Some(due)
  }

  /** `find_live_occurrence_on`: the lowest id, skipping `exclude`. */
  function FindLiveOn(s: State, series: string, due: Date, exclude: set<int>): Option<int> {
    var rows := LiveOn(s, series, due) - exclude;
    if rows == {} then None else Some(Least(rows))
  }

  predicate SkippedOn(s: State, series: string, due: Date) {
    exists x :: x in s.tasks && s.tasks[x].series == Some(series) && s.tasks[x].due == Some(due) && s.tasks[x].skipped
  }

  /** At most one live row per (series, date): what `uq_tasks_active_occurrence` states. */
  ghost predicate UniqueSlots(s: State) {
    forall x, y :: Live(s, x) && Live(s, y) && SameSlot(s.tasks[x], s.tasks[y]) ==> x == y
  }

  predicate SameSlot(a: Task, b: Task) {
    a.series.Some? && a.due.Some? && a.series == b.series && a.due == b.due
  }

  // ---- rolling forward --------------------------------------------------------

  /** The date a series resumes on, and the live row already there, if any. */
  datatype Slot = Slot(due: Date, taken: Option<int>)

  ghost function RollForward(s: State, series: string, from: Date, iv: Interval): Result<Slot, Error>
    requires ValidInterval(iv)
    decreases MAX_ORDINAL - from
  {
    match NextDue(from, iv)
    case None => Err(RecurrenceError)
    case Some(next) =>
      NextDueIsLater(from, iv);
      var live := FindLiveOn(s, series, next, {});
      if live.Some? then Ok(Slot(next, live))
      else if !SkippedOn(s, series, next) then Ok(Slot(next, None))
      else RollForward(s, series, next, iv)
  }

  // ---- cloning ----------------------------------------------------------------

  function IndexOf(s: seq<int>, x: int): (i: nat)
    requires x in s
    ensures i < |s| && s[i] == x
  {
    if s[0] == x then 0 else 1 + IndexOf(s[1..], x)
  }

  function OccurrenceRow(t: Task, due: Date): Task {
    Task(t.project, None, t.content, Open, Some(due), t.repeat, t.series, false, false, false, None, None)
  }

  function CloneRow(t: Task, parent: int, due: Date): Task {
    Task(t.project, Some(parent), t.content, Open, Some(due), None, None, false, false, false, None, None)
  }

  /**
   `order` lists the active rows strictly below `id`, parents first: the order the checklist
   is cloned in.
   */
  ghost predicate IsChecklist(s: State, id: int, order: seq<int>) {
    && Distinct(order) && id !in order
    && Elems(order) + {id} == Forest.Subtree(LiveLinks(s.tasks), id)
    && (forall x :: x in order ==> Live(s, x) && s.tasks[x].parent.Some?
                                   && (s.tasks[x].parent.value == id || s.tasks[x].parent.value in order))
    && Forest.ParentsFirst(LiveLinks(s.tasks), order)
  }

  /** Cloning what hangs below `id` ends: `id` does not hang below itself. */
  ghost predicate Clonable(s: State, id: int) {
    Forest.OffCycle(LiveLinks(s.tasks), id)
  }

  ghost function Checklist(s: State, id: int): (order: seq<int>)
    requires id in s.tasks && (WellFormed(s) || Clonable(s, id))
    ensures IsChecklist(s, id, order)
  {
    ChecklistShape(s, id);
    Forest.PreOrder(LiveLinks(s.tasks), id)[1..]
  }

  lemma ChecklistShape(s: State, id: int)
    requires id in s.tasks && (WellFormed(s) || Clonable(s, id))
    ensures Clonable(s, id) && IsChecklist(s, id, Forest.PreOrder(LiveLinks(s.tasks), id)[1..])
  {
    if WellFormed(s) { LiveLinksOffCycle(s, id); }
    LiveWalkShape(s, id);
    var walk := Forest.PreOrder(LiveLinks(s.tasks), id);
    DropRoot(LiveLinks(s.tasks), id, walk);
    hide WellFormed, Forest.Subtree, Forest.PreOrder, Forest.OffCycle;
    assert forall x :: x in walk[1..] ==> x in walk && x != id;
    assert forall x :: x in walk && x != id ==> x in walk[1..];
  }

  lemma DropRoot(up: Forest.Links, root: int, walk: seq<int>)
    requires walk != [] && walk[0] == root && Distinct(walk) && Forest.ParentsFirst(up, walk)
    ensures Distinct(walk[1..]) && root !in walk[1..]
    ensures Elems(walk[1..]) + {root} == Elems(walk)
    ensures forall x :: x in walk && x != root ==> x in walk[1..]
    ensures Forest.ParentsFirst(up, walk[1..])
  {
    var order := walk[1..];
    assert walk == [root] + order;
    forall i, j | 0 <= i < |order| && 0 <= j < |order| && Forest.LinksTo(up, order[i], order[j])
      ensures j < i
    {
      assert order[i] == walk[i + 1] && order[j] == walk[j + 1];
    }
    forall x ensures x in Elems(order) + {root} <==> x in Elems(walk) {
    }
  }

  /** Where the clone of `x` goes: under the clone of its parent. */
  function CopyId(order: seq<int>, base: int, x: int): (n: int)
    requires x in order
    ensures base < n <= base + |order|
  {
    base + 1 + IndexOf(order, x)
  }

  function CopyParent(order: seq<int>, base: int, parent: int): int {
    if parent in order then CopyId(order, base, parent) else base
  }

  function CopyIds(base: int, count: nat): (ids: set<int>)
    ensures forall n :: n in ids <==> base <= n <= base + count
  {
    if count == 0 then {base} else CopyIds(base, count - 1) + {base + count}
  }

  /** The row an insert stores under `n`: the occurrence at `base`, then the clones. */
  ghost function CopyRow(s: State, id: int, due: Date, order: seq<int>, base: int, n: int): Task
    requires id in s.tasks && IsChecklist(s, id, order) && base <= n <= base + |order|
  {
    if n == base then OccurrenceRow(s.tasks[id], due) else
      var x := order[n - base - 1];
      assert x in order;
      CloneRow(s.tasks[x], CopyParent(order, base, s.tasks[x].parent.value), due)
  }

  ghost function CopiedTasks(s: State, id: int, due: Date): (rows: map<int, Task>)
    requires id in s.tasks && (WellFormed(s) || Clonable(s, id))
    ensures rows.Keys == CopyIds(NextId(s.tasks.Keys), |Checklist(s, id)|)
  {
    var base := NextId(s.tasks.Keys);
    var order := Checklist(s, id);
    map n | n in CopyIds(base, |order|) :: CopyRow(s, id, due, order, base, n)
  }

  function CreatedEvents(rows: map<int, Task>, base: int, count: nat): (log: seq<Event>)
    requires forall n :: base <= n < base + count ==> n in rows
    ensures |log| == count
    ensures forall i :: 0 <= i < count ==> log[i] == TaskEvent(rows[base + i], base + i, Created, Usual)
  {
    seq(count, i requires 0 <= i < count => TaskEvent(rows[base + i], base + i, Created, Usual))
  }

  /** The new rows, each with its `created` event, before any edge is replayed. */
  ghost function WithCopies(s: State, id: int, due: Date): State
    requires id in s.tasks && (WellFormed(s) || Clonable(s, id))
  {
    var rows := CopiedTasks(s, id, due);
    s.(tasks := s.tasks + rows,
       events := s.events + CreatedEvents(rows, NextId(s.tasks.Keys), |Checklist(s, id)| + 1))
  }

  lemma CopiedRow(s: State, id: int, due: Date, n: int)
    requires id in s.tasks && (WellFormed(s) || Clonable(s, id))
    requires n in CopiedTasks(s, id, due)
    ensures var t := CopiedTasks(s, id, due)[n];
            var base := NextId(s.tasks.Keys);
            && n >= base && FreshRow(t) && t.due == Some(due)
            && (t.parent.Some? ==> base <= t.parent.value < n)
            && (n == base ==> t == OccurrenceRow(s.tasks[id], due))
            && (n != base ==> t.series.None? && t.repeat.None?)
            && (exists y :: y in s.tasks && (y == id || Live(s, y)) && s.tasks[y].project == t.project
                            && (t.repeat.None? || t.repeat == s.tasks[y].repeat))
  {
    var base := NextId(s.tasks.Keys);
    var order := Checklist(s, id);
    assert n in CopyIds(base, |order|) && CopiedTasks(s, id, due)[n] == CopyRow(s, id, due, order, base, n);
    hide WellFormed, Sound, Clonable, Checklist, CopiedTasks, CopyRow, IsChecklist;
    CopyRowIs(s, id, due, order, base, n);
  }

  /** What an insert stores under `n`, whatever the checklist. */
  lemma CopyRowIs(s: State, id: int, due: Date, order: seq<int>, base: int, n: int)
    requires id in s.tasks && IsChecklist(s, id, order) && base <= n <= base + |order|
    ensures var t := CopyRow(s, id, due, order, base, n);
            && FreshRow(t) && t.due == Some(due)
            && (t.parent.Some? ==> base <= t.parent.value < n)
            && (n == base ==> t == OccurrenceRow(s.tasks[id], due))
            && (n != base ==> t.series.None? && t.repeat.None?)
            && (exists y :: y in s.tasks && (y == id || Live(s, y)) && s.tasks[y].project == t.project
                            && (t.repeat.None? || t.repeat == s.tasks[y].repeat))
  {
    hide Forest.Subtree, Distinct, Live;
    if n == base {
      assert id in s.tasks && s.tasks[id].project == CopyRow(s, id, due, order, base, n).project;
    } else {
      var i := n - base - 1;
      var x := order[i];
      assert x in order && Live(s, x);
      LiveRow(s, x);
      var p := s.tasks[x].parent.value;
      if p in order { ParentEarlier(s, order, i, p); }
    }
  }

  lemma LiveRow(s: State, x: int)
    requires Live(s, x)
    ensures x in s.tasks
  {
  }

  lemma ParentEarlier(s: State, order: seq<int>, i: nat, p: int)
    requires i < |order| && Live(s, order[i]) && s.tasks[order[i]].parent == Some(p) && p in order
    requires Forest.ParentsFirst(LiveLinks(s.tasks), order)
    ensures IndexOf(order, p) < i
  {
    var j := IndexOf(order, p);
    assert Forest.LinksTo(LiveLinks(s.tasks), order[i], order[j]);
  }

  /** The active edges with both ends in the checklist, in row order. */
  function InnerEdges(edges: seq<Edge>, order: seq<int>): (inner: seq<Edge>)
    ensures forall e :: e in inner <==> e in edges && !e.deleted && e.task in order && e.blocker in order
  {
    if edges == [] then [] else
      var e := edges[0];
      (if !e.deleted && e.task in order && e.blocker in order then [e] else []) + InnerEdges(edges[1..], order)
  }

  /** `_clone_dependency_edges`: every inner edge again, between the clones. */
  ghost function ReplayEdges(s: State, inner: seq<Edge>, order: seq<int>, base: int, done: Oracle): Result<State, Error>
    requires forall e :: e in inner ==> e.task in order && e.blocker in order
    decreases |inner|
  {
    if inner == [] then Ok(s) else
      var added :- TaskDependencies.AddDependency(
                     s, CopyId(order, base, inner[0].task), CopyId(order, base, inner[0].blocker), done);
      ReplayEdges(added, inner[1..], order, base, done)
  }

  // ---- the cloning recursion ----------------------------------------------------

  /** `_clone_subtask_tree` nested at most `depth` calls deep, with its map of clones; `None` when that is not enough. */
  function CloneBelow(s: State, source: int, parent: int, due: Date, clones: map<int, int>, depth: nat)
    : (r: Option<(State, map<int, int>)>)
    ensures r.Some? ==> forall x :: x in s.tasks ==> x in r.value.0.tasks
    decreases depth, 0, 0
  {
    if depth == 0 then None
    else CloneEach(s, Sorted(Forest.Kids(LiveLinks(s.tasks), source)), parent, due, clones, depth - 1)
  }

  /** Its loop: each child's clone, then everything below that child. */
  function CloneEach(s: State, kids: seq<int>, parent: int, due: Date, clones: map<int, int>, depth: nat)
    : (r: Option<(State, map<int, int>)>)
    requires forall c :: c in kids ==> c in s.tasks
    ensures r.Some? ==> forall x :: x in s.tasks ==> x in r.value.0.tasks
    decreases depth, 1, |kids|
  {
    if kids == [] then Some((s, clones)) else
      var child, n := kids[0], NextId(s.tasks.Keys);
      assert child in kids;
      match CloneBelow(OneClone(s, child, parent, due), child, n, due, clones[child := n], depth)
      case None => None
      case Some(below) => CloneEach(below.0, kids[1..], parent, due, below.1, depth)
  }

  function OneClone(s: State, child: int, parent: int, due: Date): State
    requires child in s.tasks
  {
    var n := NextId(s.tasks.Keys);
    LogTask(s.(tasks := s.tasks[n := CloneRow(s.tasks[child], parent, due)]), n, Created)
  }

  /** The occurrence itself, before anything is cloned below it. */
  function WithOccurrence(s: State, id: int, due: Date): State
    requires id in s.tasks
  {
    var base := NextId(s.tasks.Keys);
    LogTask(s.(tasks := s.tasks[base := OccurrenceRow(s.tasks[id], due)]), base, Created)
  }

  function CloneTree(s: State, id: int, due: Date, depth: nat): Option<(State, map<int, int>)>
    requires id in s.tasks
  {
    CloneBelow(WithOccurrence(s, id, due), id, NextId(s.tasks.Keys), due, map[], depth)
  }

  /** Some nesting is deep enough for the recursion over what hangs below `id`. */
  ghost predicate CloningEnds(s: State, id: int, due: Date)
    requires id in s.tasks
  {
    exists depth: nat :: CloneTree(s, id, due, depth).Some?
  }

  /** The rows of `s` as they were, and new ones that hang below no row of `s`. */
  ghost predicate Hung(s: State, t: State) {
    && (forall x :: x in s.tasks ==> x in t.tasks && t.tasks[x] == s.tasks[x])
    && (forall x :: x in t.tasks && x !in s.tasks && t.tasks[x].parent.Some? ==> t.tasks[x].parent.value !in s.tasks)
  }

  lemma HungKids(s: State, t: State, x: int)
    requires Hung(s, t) && x in s.tasks
    ensures Forest.Kids(LiveLinks(t.tasks), x) == Forest.Kids(LiveLinks(s.tasks), x)
    ensures forall c :: c in Forest.Kids(LiveLinks(s.tasks), x) ==> c in s.tasks
  {
    forall c ensures c in Forest.Kids(LiveLinks(t.tasks), x) <==> c in Forest.Kids(LiveLinks(s.tasks), x) {
    }
  }

  lemma OneCloneHangs(s: State, t: State, child: int, parent: int, due: Date)
    requires Hung(s, t) && child in t.tasks && parent !in s.tasks
    ensures Hung(s, OneClone(t, child, parent, due)) && NextId(t.tasks.Keys) !in s.tasks
  {
    var n := NextId(t.tasks.Keys);
    assert n !in t.tasks.Keys;
    assert n !in s.tasks;
  }

  lemma {:induction false} BelowHangs(s: State, t: State, source: int, parent: int, due: Date, clones: map<int, int>, depth: nat)
    requires Hung(s, t) && parent !in s.tasks
    ensures var r := CloneBelow(t, source, parent, due, clones, depth);
            r.Some? ==> Hung(s, r.value.0)
    decreases depth, 0, 0
  {
    hide *;
    if depth > 0 {
      KidsThere(t, source);
      EachHangs(s, t, Sorted(Forest.Kids(LiveLinks(t.tasks), source)), parent, due, clones, depth - 1);
      BelowIs(t, source, parent, due, clones, depth);
    } else {
      NoDepth(t, source, parent, due, clones);
    }
  }

  lemma NoDepth(s: State, source: int, parent: int, due: Date, clones: map<int, int>)
    ensures CloneBelow(s, source, parent, due, clones, 0).None?
  {
  }

  lemma KidsThere(t: State, source: int)
    ensures forall c :: c in Sorted(Forest.Kids(LiveLinks(t.tasks), source)) ==> c in t.tasks
  {
  }

  lemma {:induction false} EachHangs(s: State, t: State, kids: seq<int>, parent: int, due: Date, clones: map<int, int>, depth: nat)
    requires Hung(s, t) && parent !in s.tasks && forall c :: c in kids ==> c in t.tasks
    ensures var r := CloneEach(t, kids, parent, due, clones, depth);
            r.Some? ==> Hung(s, r.value.0)
    decreases depth, 1, |kids|
  {
    hide Hung, OneClone, CloneBelow, NextId;
    if kids != [] {
      var child, n := kids[0], NextId(t.tasks.Keys);
      assert child in kids;
      OneCloneHangs(s, t, child, parent, due);
      var one := OneClone(t, child, parent, due);
      OneCloneGrows(t, child, parent, due);
      BelowHangs(s, one, child, n, due, clones[child := n], depth);
      var below := CloneBelow(one, child, n, due, clones[child := n], depth);
      if below.Some? { EachHangs(s, below.value.0, kids[1..], parent, due, below.value.1, depth); }
    }
  }

  lemma OneCloneGrows(t: State, child: int, parent: int, due: Date)
    requires child in t.tasks
    ensures forall x :: x in t.tasks ==> x in OneClone(t, child, parent, due).tasks
  {
  }

  /** What hangs below itself has something below it that does so too. */
  lemma KidOnCycle(up: Forest.Links, x: int) returns (c: int)
    requires !Forest.OffCycle(up, x)
    ensures c in Forest.Kids(up, x) && !Forest.OffCycle(up, c)
  {
    var k: nat :| k > 0 && Forest.Climbs(up, x, k, x);
    c := Forest.EntersThroughKid(up, x, k, x);
    assert Forest.Climbs(up, x, 0, x) && Forest.Climbs(up, c, 1, x);
    Forest.ClimbsJoin(up, c, 1, x, k - 1, c);
  }

  /** From a row that hangs below itself the recursion exhausts every depth. */
  lemma {:induction false} BelowExhausts(s: State, t: State, source: int, parent: int, due: Date, clones: map<int, int>, depth: nat)
    requires Hung(s, t) && source in s.tasks && parent !in s.tasks && !Forest.OffCycle(LiveLinks(s.tasks), source)
    ensures CloneBelow(t, source, parent, due, clones, depth).None?
    decreases depth, 0, 0
  {
    hide *;
    if depth > 0 {
      HungKids(s, t, source);
      KidsThere(t, source);
      var c := KidOnCycle(LiveLinks(s.tasks), source);
      KidsListed(Forest.Kids(LiveLinks(s.tasks), source));
      EachExhausts(s, t, Sorted(Forest.Kids(LiveLinks(t.tasks), source)), parent, due, clones, depth - 1, c);
      BelowIs(t, source, parent, due, clones, depth);
    } else {
      NoDepth(t, source, parent, due, clones);
    }
  }

  lemma {:induction false} EachExhausts(
      s: State, t: State, kids: seq<int>, parent: int, due: Date, clones: map<int, int>, depth: nat, c: int)
    requires Hung(s, t) && parent !in s.tasks && (forall d :: d in kids ==> d in t.tasks)
    requires c in kids && c in s.tasks && !Forest.OffCycle(LiveLinks(s.tasks), c)
    ensures CloneEach(t, kids, parent, due, clones, depth).None?
    decreases depth, 1, |kids|
  {
    var child, n := kids[0], NextId(t.tasks.Keys);
    assert child in kids;
    hide Hung, OneClone, CloneBelow, Forest.OffCycle, LiveLinks;
    OneCloneHangs(s, t, child, parent, due);
    OneCloneGrows(t, child, parent, due);
    var one := OneClone(t, child, parent, due);
    if child == c {
      BelowExhausts(s, one, child, n, due, clones[child := n], depth);
    } else {
      BelowHangs(s, one, child, n, due, clones[child := n], depth);
      var below := CloneBelow(one, child, n, due, clones[child := n], depth);
      if below.Some? { EachExhausts(s, below.value.0, kids[1..], parent, due, below.value.1, depth, c); }
    }
  }

  lemma KidsSmaller(up: Forest.Links, x: int)
    requires Forest.OffCycle(up, x)
    ensures |Forest.Subtree(up, x)| > 0
    ensures forall c :: c in Forest.Kids(up, x) ==> Forest.OffCycle(up, c) && |Forest.Subtree(up, c)| < |Forest.Subtree(up, x)|
  {
    Forest.SubtreeUnfold(up, x);
    assert Forest.Subtree(up, x) != {};
    forall c | c in Forest.Kids(up, x) ensures Forest.OffCycle(up, c) && |Forest.Subtree(up, c)| < |Forest.Subtree(up, x)| {
      Forest.KidSubtree(up, c, x);
      Forest.KidOffCycle(up, c, x);
    }
  }

  /** From a row off the circles the size of what hangs below it is deep enough. */
  lemma {:induction false} BelowSuffices(s: State, t: State, source: int, parent: int, due: Date, clones: map<int, int>, depth: nat)
    requires Hung(s, t) && source in s.tasks && parent !in s.tasks && Forest.OffCycle(LiveLinks(s.tasks), source)
    requires depth >= |Forest.Subtree(LiveLinks(s.tasks), source)|
    ensures CloneBelow(t, source, parent, due, clones, depth).Some?
    decreases depth, 0, 0
  {
    hide *;
    HungKids(s, t, source);
    KidsThere(t, source);
    KidsSmaller(LiveLinks(s.tasks), source);
    KidsListed(Forest.Kids(LiveLinks(s.tasks), source));
    EachSuffices(s, t, Sorted(Forest.Kids(LiveLinks(t.tasks), source)), parent, due, clones, depth - 1);
    BelowIs(t, source, parent, due, clones, depth);
  }

  lemma KidsListed(kids: set<int>)
    ensures forall c :: c in Sorted(kids) <==> c in kids
  {
  }

  lemma BelowIs(s: State, source: int, parent: int, due: Date, clones: map<int, int>, depth: nat)
    requires depth > 0 && forall c :: c in Sorted(Forest.Kids(LiveLinks(s.tasks), source)) ==> c in s.tasks
    ensures CloneBelow(s, source, parent, due, clones, depth)
         == CloneEach(s, Sorted(Forest.Kids(LiveLinks(s.tasks), source)), parent, due, clones, depth - 1)
  {
    hide Forest.Kids, LiveLinks, CloneEach, Sorted;
  }

  lemma {:induction false} EachSuffices(s: State, t: State, kids: seq<int>, parent: int, due: Date, clones: map<int, int>, depth: nat)
    requires Hung(s, t) && parent !in s.tasks && (forall d :: d in kids ==> d in t.tasks && d in s.tasks)
    requires forall c :: c in kids ==>
               Forest.OffCycle(LiveLinks(s.tasks), c) && |Forest.Subtree(LiveLinks(s.tasks), c)| <= depth
    ensures CloneEach(t, kids, parent, due, clones, depth).Some?
    decreases depth, 1, |kids|
  {
    hide Hung, OneClone, CloneBelow, Forest.OffCycle, Forest.Subtree, LiveLinks;
    if kids != [] {
      var child, n := kids[0], NextId(t.tasks.Keys);
      assert child in kids;
      OneCloneHangs(s, t, child, parent, due);
      OneCloneGrows(t, child, parent, due);
      var one := OneClone(t, child, parent, due);
      BelowSuffices(s, one, child, n, due, clones[child := n], depth);
      BelowHangs(s, one, child, n, due, clones[child := n], depth);
      var below := CloneBelow(one, child, n, due, clones[child := n], depth);
      EachSuffices(s, below.value.0, kids[1..], parent, due, below.value.1, depth);
    }
  }

  /** The recursion ends exactly when the row it starts from does not hang below itself. */
  lemma CloningEndsIff(s: State, id: int, due: Date)
    requires id in s.tasks
    ensures CloningEnds(s, id, due) <==> Clonable(s, id)
  {
    var base, t := NextId(s.tasks.Keys), WithOccurrence(s, id, due);
    assert base !in s.tasks.Keys;
    assert Hung(s, t);
    hide Hung, WithOccurrence, CloneBelow;
    if Clonable(s, id) {
      var depth := |Forest.Subtree(LiveLinks(s.tasks), id)|;
      BelowSuffices(s, t, id, base, due, map[], depth);
      assert CloneTree(s, id, due, depth).Some?;
    } else {
      forall depth: nat ensures CloneTree(s, id, due, depth).None? {
        BelowExhausts(s, t, id, base, due, map[], depth);
      }
    }
  }

  /** `_insert_occurrence`; when no depth is enough for the cloning, the recursion goes on without end. */
  ghost function InsertOccurrence(s: State, id: int, due: Date, done: Oracle): Result<(State, int), Error>
    requires id in s.tasks
  {
    if !CloningEnds(s, id, due) then Err(EndlessChecklist) else
      CloningEndsIff(s, id, due);
      var base := NextId(s.tasks.Keys);
      var order := Checklist(s, id);
      var cloned :- ReplayEdges(WithCopies(s, id, due), InnerEdges(s.edges, order), order, base, done);
      Ok((cloned, base))
  }

  lemma InsertIs(s: State, id: int, due: Date, done: Oracle)
    requires id in s.tasks
    ensures InsertOccurrence(s, id, due, done)
         == if !Clonable(s, id) then Err(EndlessChecklist) else
              var order, base := Checklist(s, id), NextId(s.tasks.Keys);
              var r := ReplayEdges(WithCopies(s, id, due), InnerEdges(s.edges, order), order, base, done);
              if r.Err? then Err(r.error) else Ok((r.value, base))
  {
    CloningEndsIff(s, id, due);
    hide CloningEnds, Clonable, Checklist, WithCopies, ReplayEdges;
  }

  predicate SeriesHead(t: Task) {
    t.repeat.Some? && t.due.Some?
  }

  ghost function CreateNext(s: State, id: int, done: Oracle): Result<(State, int), Error>
    requires (WellFormed(s) || Sound(s)) && id in s.tasks && SeriesHead(s.tasks[id])
  {
    var t := s.tasks[id];
    assert RowWellFormed(s, t);
    if t.series.None? then
      match NextDue(t.due.value, t.repeat.value)
      case None => Err(RecurrenceError)
      case Some(next) => InsertOccurrence(s, id, next, done)
    else
      var slot :- RollForward(s, t.series.value, t.due.value, t.repeat.value);
      if slot.taken.Some? then Ok((s, slot.taken.value))
      else InsertOccurrence(s, id, slot.due, done)
  }

  // ---- what a spawn leaves alone ----------------------------------------------

  ghost predicate FreshRow(t: Task) {
    !t.deleted && !t.skipped && !t.superseded && t.withTask.None? && t.withProject.None? && t.status == Open
  }

  predicate SpawnEvent(known: map<int, Task>, e: Event) {
    e.entity == TaskEntity && (e.action == Created || e.action == DependencyAdded) && e.entityId !in known
  }

  /** The projects some live row is filed in. */
  function FiledLive(s: State): set<int> {
    set x | x in s.tasks && !s.tasks[x].deleted :: s.tasks[x].project
  }

  /** A row of a series never lands on a date the series skipped. */
  predicate OnOpenSlot(s: State, t: Task) {
    t.series.Some? && t.due.Some? ==> !SkippedOn(s, t.series.value, t.due.value)
  }

  /** Skips are a matter of old rows only: fresh rows add none. */
  lemma SkipsUnchanged(a: State, b: State, series: string, due: Date)
    requires Spawned(a, b)
    ensures SkippedOn(a, series, due) <==> SkippedOn(b, series, due)
  {
    if SkippedOn(a, series, due) {
      var x :| x in a.tasks && a.tasks[x].series == Some(series) && a.tasks[x].due == Some(due) && a.tasks[x].skipped;
      assert b.tasks[x] == a.tasks[x];
    }
    if SkippedOn(b, series, due) {
      var x :| x in b.tasks && b.tasks[x].series == Some(series) && b.tasks[x].due == Some(due) && b.tasks[x].skipped;
      assert x in a.tasks;
    }
  }

  /** `after` is `before` plus fresh open rows, hanging and waiting only on each other. */
  ghost predicate Spawned(before: State, after: State) {
    && after.projects == before.projects
    && (forall x :: x in before.tasks ==> x in after.tasks && after.tasks[x] == before.tasks[x])
    && (forall x :: x in after.tasks && x !in before.tasks ==>
          && FreshRow(after.tasks[x])
          && after.tasks[x].project in FiledLive(before)
          && (after.tasks[x].parent.Some? ==> after.tasks[x].parent.value !in before.tasks)
          && (after.tasks[x].parent.Some? ==> after.tasks[x].series.None?)
          && OnOpenSlot(before, after.tasks[x]))
    && before.edges <= after.edges
    && (forall i :: |before.edges| <= i < |after.edges| ==>
          after.edges[i].task !in before.tasks && after.edges[i].blocker !in before.tasks)
    && before.events <= after.events
    && (forall i :: |before.events| <= i < |after.events| ==> SpawnEvent(before.tasks, after.events[i]))
  }

  lemma SpawnedRefl(s: State)
    ensures Spawned(s, s)
  {
  }

  lemma SpawnedTrans(a: State, b: State, c: State)
    requires Spawned(a, b) && Spawned(b, c)
    ensures Spawned(a, c)
  {
    forall x | x in c.tasks && x !in a.tasks
      ensures FreshRow(c.tasks[x]) && c.tasks[x].project in FiledLive(a)
              && (c.tasks[x].parent.Some? ==> c.tasks[x].parent.value !in a.tasks)
              && (c.tasks[x].parent.Some? ==> c.tasks[x].series.None?)
              && OnOpenSlot(a, c.tasks[x])
    {
      var t := c.tasks[x];
      if t.series.Some? && t.due.Some? { SkipsUnchanged(a, b, t.series.value, t.due.value); }
      if c.tasks[x].parent.Some? {
        var p: int := c.tasks[x].parent.value;
        assert p in a.tasks ==> p in b.tasks;
      }
      if x in b.tasks {
        assert c.tasks[x] == b.tasks[x];
      } else {
        var y :| y in b.tasks && !b.tasks[y].deleted && b.tasks[y].project == c.tasks[x].project;
      }
    }
    forall i | |a.events| <= i < |c.events| ensures SpawnEvent(a.tasks, c.events[i]) {
      if i < |b.events| { assert c.events[i] == b.events[i]; }
    }
    forall i | |a.edges| <= i < |c.edges|
      ensures c.edges[i].task !in a.tasks && c.edges[i].blocker !in a.tasks
    {
      if i < |b.edges| { assert c.edges[i] == b.edges[i]; }
    }
  }

  lemma CopiesSpawned(s: State, id: int, due: Date)
    requires Live(s, id) && Clonable(s, id) && OnOpenSlot(s, OccurrenceRow(s.tasks[id], due))
    ensures Spawned(s, WithCopies(s, id, due))
  {
    hide CopiedTasks, Checklist, CopyRow;
    var after := WithCopies(s, id, due);
    var base := NextId(s.tasks.Keys);
    forall x | x in after.tasks && x !in s.tasks
      ensures FreshRow(after.tasks[x]) && after.tasks[x].project in FiledLive(s)
              && (after.tasks[x].parent.Some? ==> after.tasks[x].parent.value !in s.tasks)
              && (after.tasks[x].parent.Some? ==> after.tasks[x].series.None?)
              && OnOpenSlot(s, after.tasks[x])
    {
      CopiedRow(s, id, due, x);
    }
    forall x | x in s.tasks ensures after.tasks[x] == s.tasks[x] {
      if x in CopiedTasks(s, id, due) { CopiedRow(s, id, due, x); }
    }
    forall i | |s.events| <= i < |after.events| ensures SpawnEvent(s.tasks, after.events[i]) {
      assert after.events[i] == CreatedEvents(CopiedTasks(s, id, due), base, |Checklist(s, id)| + 1)[i - |s.events|];
    }
  }

  lemma {:induction false} ReplaySpawned(before: State, s: State, inner: seq<Edge>, order: seq<int>, base: int, done: Oracle)
    requires Spawned(before, s) && forall x :: x in before.tasks ==> x < base
    requires forall e :: e in inner ==> e.task in order && e.blocker in order
    ensures ReplayEdges(s, inner, order, base, done).Ok? ==>
              var after := ReplayEdges(s, inner, order, base, done).value;
              && Spawned(before, after) && after.tasks == s.tasks
              && s.edges <= after.edges
              && (forall e :: e in after.edges ==> e in s.edges || (e.task in s.tasks && e.blocker in s.tasks))
    decreases |inner|
  {
    if inner != [] {
      var a, b := CopyId(order, base, inner[0].task), CopyId(order, base, inner[0].blocker);
      var r := TaskDependencies.AddDependency(s, a, b, done);
      if r.Ok? {
        var t := r.value;
        assert t.edges == s.edges + [Edge(a, b, false)];
        forall i | |before.events| <= i < |t.events| ensures SpawnEvent(before.tasks, t.events[i]) {
          if i < |s.events| { assert t.events[i] == s.events[i]; }
        }
        ReplaySpawned(before, t, inner[1..], order, base, done);
      }
    }
  }

  lemma InsertSpawned(s: State, id: int, due: Date, done: Oracle)
    requires Sound(s) && Live(s, id) && OnOpenSlot(s, OccurrenceRow(s.tasks[id], due))
    ensures var r := InsertOccurrence(s, id, due, done);
            r.Ok? ==> Clonable(s, id) && Spawned(s, r.value.0) && Sound(r.value.0)
                      && (WellFormed(s) ==> WellFormed(r.value.0))
                      && r.value.1 == NextId(s.tasks.Keys) && r.value.1 in CopiedTasks(s, id, due)
                      && r.value.0.tasks == s.tasks + CopiedTasks(s, id, due)
  {
    InsertIs(s, id, due, done);
    hide InsertOccurrence;
    if InsertOccurrence(s, id, due, done).Ok? {
      var base := NextId(s.tasks.Keys);
      var order := Checklist(s, id);
      var mid := WithCopies(s, id, due);
      assert base in CopiedTasks(s, id, due);
      hide CopiedTasks, Checklist, ReplayEdges, CopyRow, Sound, WellFormed, Clonable;
      CopiesSpawned(s, id, due);
      ReplaySpawned(s, mid, InnerEdges(s.edges, order), order, base, done);
      var r := InsertOccurrence(s, id, due, done).value.0;
      CopiesSound(s, id, due, r);
      if WellFormed(s) { CopiesWellFormed(s, id, due, r); }
    }
  }

  lemma CopiesWellFormed(s: State, id: int, due: Date, after: State)
    requires WellFormed(s) && id in s.tasks && Sound(after) && after.tasks == s.tasks + CopiedTasks(s, id, due)
    ensures WellFormed(after)
  {
    CopiesAcyclic(s, id, due);
    hide Sound, CopiedTasks, Forest.Acyclic;
  }

  lemma CopiesSound(s: State, id: int, due: Date, after: State)
    requires Sound(s) && Live(s, id) && Clonable(s, id)
    requires Spawned(s, after) && after.tasks == s.tasks + CopiedTasks(s, id, due)
    requires forall e :: e in after.edges ==> e in s.edges || (e.task in after.tasks && e.blocker in after.tasks)
    ensures Sound(after)
  {
    hide Checklist, CopyRow, WellFormed, Clonable;
    forall x | x in after.tasks ensures RowWellFormed(after, after.tasks[x]) {
      if x in CopiedTasks(s, id, due) {
        CopiedRowSound(s, id, due, after, x);
      } else {
        assert RowWellFormed(s, s.tasks[x]);
      }
    }
  }

  lemma CopiedRowSound(s: State, id: int, due: Date, after: State, x: int)
    requires Sound(s) && id in s.tasks && Clonable(s, id) && after.projects == s.projects
    requires after.tasks == s.tasks + CopiedTasks(s, id, due) && x in CopiedTasks(s, id, due)
    ensures RowWellFormed(after, after.tasks[x])
  {
    CopiedRow(s, id, due, x);
    hide Checklist, CopyRow, WellFormed, Clonable, CopiedTasks;
    var base := NextId(s.tasks.Keys);
    var t := after.tasks[x];
    var y :| y in s.tasks && s.tasks[y].project == t.project && (t.repeat.None? || t.repeat == s.tasks[y].repeat);
    assert RowWellFormed(s, s.tasks[y]);
    if t.parent.Some? {
      assert x in CopyIds(base, |Checklist(s, id)|);
      assert t.parent.value in CopyIds(base, |Checklist(s, id)|);
    }
  }

  /** Links from new ids to smaller new ids cannot close a cycle. */
  lemma {:induction false} GrownClimb(small: Forest.Links, big: Forest.Links, base: int, x: int, k: nat, y: int)
    requires forall z :: z in small ==> z in big && big[z] == small[z] && z < base && small[z] < base
    requires forall z :: z in big && z !in small ==> base <= z && base <= big[z] < z
    requires Forest.Climbs(big, x, k, y)
    ensures x < base ==> Forest.Climbs(small, x, k, y)
    ensures x >= base && k > 0 ==> base <= y < x
    decreases k
  {
    if k > 0 {
      GrownClimb(small, big, base, big[x], k - 1, y);
    }
  }

  lemma NoReturn(up: Forest.Links, x: int, k: nat)
    requires Forest.Acyclic(up) && k > 0
    ensures !Forest.Climbs(up, x, k, x)
  {
    assert Forest.OffCycle(up, x);
  }

  lemma CopiesAcyclic(s: State, id: int, due: Date)
    requires WellFormed(s) && id in s.tasks
    ensures Forest.Acyclic(ParentLinks(s.tasks + CopiedTasks(s, id, due)))
  {
    hide CopiedTasks, Checklist, CopyRow;
    var small, big := ParentLinks(s.tasks), ParentLinks(s.tasks + CopiedTasks(s, id, due));
    var base := NextId(s.tasks.Keys);
    forall z | z in s.tasks ensures z !in CopiedTasks(s, id, due) {
      if z in CopiedTasks(s, id, due) { CopiedRow(s, id, due, z); assert false; }
    }
    forall z | z in small ensures z in big && big[z] == small[z] && z < base && small[z] < base {
      assert RowWellFormed(s, s.tasks[z]);
    }
    forall z | z in big && z !in small ensures base <= z && base <= big[z] < z {
      CopiedRow(s, id, due, z);
    }
    forall x ensures Forest.OffCycle(big, x) {
      forall k: nat | k > 0 ensures !Forest.Climbs(big, x, k, x) {
        if Forest.Climbs(big, x, k, x) {
          GrownClimb(small, big, base, x, k, x);
          NoReturn(small, x, k);
          assert false;
        }
      }
    }
  }

  lemma CreateNextGrows(s: State, id: int, done: Oracle)
    requires Sound(s) && Live(s, id) && SeriesHead(s.tasks[id])
    ensures var r := CreateNext(s, id, done);
            r.Ok? ==> Spawned(s, r.value.0) && Sound(r.value.0) && Live(r.value.0, r.value.1)
                      && (WellFormed(s) ==> WellFormed(r.value.0))
  {
    var t := s.tasks[id];
    assert RowWellFormed(s, t);
    hide WellFormed, Sound, NextDue, InsertOccurrence, CopiedTasks;
    SpawnedRefl(s);
    if t.series.None? {
      var next := NextDue(t.due.value, t.repeat.value);
      if next.Some? { InsertSpawned(s, id, next.value, done); }
    } else {
      var slot := RollForward(s, t.series.value, t.due.value, t.repeat.value);
      if slot.Ok? {
        RollForwardLands(s, t.series.value, t.due.value, t.repeat.value);
        if slot.value.taken.None? { InsertSpawned(s, id, slot.value.due, done); }
      }
    }
  }

  lemma CreateNextSpawned(s: State, id: int, done: Oracle)
    requires WellFormed(s) && Live(s, id) && SeriesHead(s.tasks[id])
    ensures var r := CreateNext(s, id, done);
            r.Ok? ==> Spawned(s, r.value.0) && WellFormed(r.value.0) && Live(r.value.0, r.value.1)
  {
    hide Sound, CreateNext;
    CreateNextGrows(s, id, done);
  }

  /** The row a roll-forward finds is live on the date it names; a free slot is empty. */
  lemma {:induction false} RollForwardLands(s: State, series: string, from: Date, iv: Interval)
    requires ValidInterval(iv)
    ensures var r := RollForward(s, series, from, iv);
            && (r.Ok? ==> r.value.due > from)
            && (r.Ok? && r.value.taken.Some? ==> r.value.taken.value in LiveOn(s, series, r.value.due))
            && (r.Ok? && r.value.taken.None? ==>
                  LiveOn(s, series, r.value.due) == {} && !SkippedOn(s, series, r.value.due))
    decreases MAX_ORDINAL - from
  {
    NextDueIsLater(from, iv);
    var next := NextDue(from, iv);
    if next.Some? && FindLiveOn(s, series, next.value, {}).None? && SkippedOn(s, series, next.value) {
      RollForwardLands(s, series, next.value, iv);
    }
  }

  // ---- the roll-forward date ---------------------------------------------------

  /** A date the series skipped and put nothing live on. */
  predicate SkippedOnly(s: State, series: string, due: Date) {
    && (forall x :: x in s.tasks && s.tasks[x].series == Some(series) && s.tasks[x].due == Some(due) ==> s.tasks[x].deleted)
    && (exists x :: x in s.tasks && s.tasks[x].series == Some(series) && s.tasks[x].due == Some(due) && s.tasks[x].skipped)
  }

  lemma SkippedOnlyIs(s: State, series: string, due: Date)
    ensures SkippedOnly(s, series, due) <==> LiveOn(s, series, due) == {} && SkippedOn(s, series, due)
    ensures LiveOn(s, series, due) - {} == LiveOn(s, series, due)
  {
    if forall x :: x in s.tasks && s.tasks[x].series == Some(series) && s.tasks[x].due == Some(due) ==> s.tasks[x].deleted {
      assert forall x :: x !in LiveOn(s, series, due);
    } else {
      var x :| x in s.tasks && s.tasks[x].series == Some(series) && s.tasks[x].due == Some(due) && !s.tasks[x].deleted;
      assert x in LiveOn(s, series, due);
    }
  }

  /** The lowest id of the series' live rows on a date, if there is one. */
  ghost predicate LowestOn(s: State, series: string, due: Date, taken: Option<int>) {
    match taken
    case None => forall x :: x in s.tasks && s.tasks[x].series == Some(series) && s.tasks[x].due == Some(due) ==> s.tasks[x].deleted
    case Some(x) =>
      && x in s.tasks && s.tasks[x].series == Some(series) && s.tasks[x].due == Some(due) && !s.tasks[x].deleted
      && forall y :: y in s.tasks && s.tasks[y].series == Some(series) && s.tasks[y].due == Some(due) && !s.tasks[y].deleted ==> x <= y
  }

  lemma FoundLowest(s: State, series: string, due: Date)
    ensures LowestOn(s, series, due, FindLiveOn(s, series, due, {}))
  {
    forall x | x in s.tasks && s.tasks[x].series == Some(series) && s.tasks[x].due == Some(due) && !s.tasks[x].deleted
      ensures x in LiveOn(s, series, due) - {}
    {
    }
  }

  lemma {:induction false} ChainedShift(from: Date, iv: Interval, k: nat)
    requires ValidInterval(iv) && NextDue(from, iv).Some?
    ensures Chained(from, iv, k + 1) == Chained(NextDue(from, iv).value, iv, k)
  {
    if k > 0 {
      ChainedShift(from, iv, k - 1);
    } else {
      assert Chained(from, iv, 0) == Some(from);
    }
  }

  lemma {:induction false} ChainedStops(from: Date, iv: Interval, k: nat)
    requires ValidInterval(iv) && NextDue(from, iv).None? && k > 0
    ensures Chained(from, iv, k).None?
  {
    if k == 1 {
      assert Chained(from, iv, 0) == Some(from);
    } else {
      ChainedStops(from, iv, k - 1);
    }
  }

  /** The `k`-th cadence date is the first later one that is not skipped-only. */
  ghost predicate FirstOpen(s: State, series: string, from: Date, iv: Interval, k: nat)
    requires ValidInterval(iv)
  {
    && k > 0 && Chained(from, iv, k).Some? && !SkippedOnly(s, series, Chained(from, iv, k).value)
    && forall j :: 0 < j < k && Chained(from, iv, j).Some? ==> SkippedOnly(s, series, Chained(from, iv, j).value)
  }

  /**
   Roll-forward names the first later cadence date that is not skipped-only, with the live row
   already there if there is one; it is refused exactly when every later representable cadence
   date is skipped-only.
   */
  lemma {:induction false} RollForwardFirst(s: State, series: string, from: Date, iv: Interval)
    requires ValidInterval(iv)
    ensures var r := RollForward(s, series, from, iv);
            && (r.Ok? ==> exists k: nat :: FirstOpen(s, series, from, iv, k) && Chained(from, iv, k) == Some(r.value.due)
                                           && LowestOn(s, series, r.value.due, r.value.taken))
            && (r.Err? ==> r.error == RecurrenceError)
            && (r.Err? <==> forall k: nat :: k > 0 && Chained(from, iv, k).Some? ==>
                              SkippedOnly(s, series, Chained(from, iv, k).value))
    decreases MAX_ORDINAL - from
  {
    hide NextDue, LiveOn, SkippedOn, SkippedOnly, LowestOn;
    NextDueIsLater(from, iv);
    var next := NextDue(from, iv);
    assert Chained(from, iv, 0) == Some(from);
    assert Chained(from, iv, 1) == next;
    if next.Some? {
      SkippedOnlyIs(s, series, next.value);
      FoundLowest(s, series, next.value);
    }
    if next.None? {
      forall k: nat | k > 0 ensures Chained(from, iv, k).None? { ChainedStops(from, iv, k); }
    } else if !SkippedOnly(s, series, next.value) {
      assert RollForward(s, series, from, iv) == Ok(Slot(next.value, FindLiveOn(s, series, next.value, {})));
      hide RollForward, Chained, FindLiveOn;
      OpenAtOnce(s, series, from, next.value, iv);
    } else {
      RollForwardFirst(s, series, next.value, iv);
      forall k: nat | k > 0 ensures Chained(from, iv, k) == Chained(next.value, iv, k - 1) {
        ChainedShift(from, iv, k - 1);
      }
      var r := RollForward(s, series, next.value, iv);
      hide RollForward, Chained;
      if r.Ok? { OpenLater(s, series, from, next.value, iv, r.value); } else { ClosedLater(s, series, from, next.value, iv); }
    }
  }

  lemma OpenAtOnce(s: State, series: string, from: Date, next: Date, iv: Interval)
    requires ValidInterval(iv) && Chained(from, iv, 1) == Some(next) && !SkippedOnly(s, series, next)
    ensures exists k: nat :: FirstOpen(s, series, from, iv, k) && Chained(from, iv, k) == Some(next)
    ensures !forall k: nat :: k > 0 && Chained(from, iv, k).Some? ==> SkippedOnly(s, series, Chained(from, iv, k).value)
  {
    hide Chained, SkippedOnly;
    var one: nat := 1;
    assert FirstOpen(s, series, from, iv, one);
  }

  ghost predicate Shifted(from: Date, next: Date, iv: Interval)
    requires ValidInterval(iv)
  {
    && Chained(from, iv, 1) == Some(next)
    && forall k: nat :: k > 0 ==> Chained(from, iv, k) == Chained(next, iv, k - 1)
  }

  /** The first open date after the next one is the first after this one, when the next is closed. */
  lemma OpenLater(s: State, series: string, from: Date, next: Date, iv: Interval, slot: Slot)
    requires ValidInterval(iv) && Shifted(from, next, iv) && Chained(next, iv, 0) == Some(next) && SkippedOnly(s, series, next)
    requires exists k: nat :: FirstOpen(s, series, next, iv, k) && Chained(next, iv, k) == Some(slot.due)
    ensures exists k: nat :: FirstOpen(s, series, from, iv, k) && Chained(from, iv, k) == Some(slot.due)
    ensures !forall k: nat :: k > 0 && Chained(from, iv, k).Some? ==> SkippedOnly(s, series, Chained(from, iv, k).value)
  {
    hide Chained, SkippedOnly;
    var k: nat :| FirstOpen(s, series, next, iv, k) && Chained(next, iv, k) == Some(slot.due);
    assert Chained(from, iv, k + 1) == Chained(next, iv, k);
    forall j | 0 < j < k + 1 && Chained(from, iv, j).Some? ensures SkippedOnly(s, series, Chained(from, iv, j).value) {
      assert Chained(from, iv, j) == Chained(next, iv, j - 1);
      assert j - 1 == 0 ==> Chained(next, iv, 0) == Some(next);
    }
    assert FirstOpen(s, series, from, iv, k + 1);
  }

  lemma ClosedLater(s: State, series: string, from: Date, next: Date, iv: Interval)
    requires ValidInterval(iv) && Shifted(from, next, iv) && Chained(next, iv, 0) == Some(next) && SkippedOnly(s, series, next)
    requires forall k: nat :: k > 0 && Chained(next, iv, k).Some? ==> SkippedOnly(s, series, Chained(next, iv, k).value)
    ensures forall k: nat :: k > 0 && Chained(from, iv, k).Some? ==> SkippedOnly(s, series, Chained(from, iv, k).value)
  {
    hide Chained, SkippedOnly;
    forall k: nat | k > 0 && Chained(from, iv, k).Some? ensures SkippedOnly(s, series, Chained(from, iv, k).value) {
      assert Chained(from, iv, k) == Chained(next, iv, k - 1);
      if k - 1 > 0 { assert SkippedOnly(s, series, Chained(next, iv, k - 1).value); }
    }
  }

  // ---- when cloning ends -------------------------------------------------------

  /** Whether a roll-forward has to insert: nothing live is on the date it names. */
  ghost predicate Inserts(s: State, t: Task)
    requires SeriesHead(t) && ValidInterval(t.repeat.value)
  {
    match t.series
    case None => NextDue(t.due.value, t.repeat.value).Some?
    case Some(series) =>
      var slot := RollForward(s, series, t.due.value, t.repeat.value);
      slot.Ok? && slot.value.taken.None?
  }

  /** Spawning recurses without end exactly when it has to insert and the head hangs below itself. */
  lemma EndlessIff(s: State, id: int, done: Oracle)
    requires Sound(s) && Live(s, id) && SeriesHead(s.tasks[id])
    ensures RowWellFormed(s, s.tasks[id])
    ensures CreateNext(s, id, done) == Err(EndlessChecklist) <==> Inserts(s, s.tasks[id]) && !Clonable(s, id)
    ensures CreateNext(s, id, done).Ok? && AlwaysInserts(s.tasks[id]) ==> Clonable(s, id)
  {
    var t := s.tasks[id];
    assert RowWellFormed(s, t);
    hide WellFormed, Sound, NextDue, Checklist, WithCopies, ReplayEdges, Clonable, RollForward, InsertOccurrence;
    forall due: Date ensures InsertOccurrence(s, id, due, done) == Err(EndlessChecklist) <==> !Clonable(s, id) {
      InsertIs(s, id, due, done);
      if Clonable(s, id) {
        var order := Checklist(s, id);
        ReplayNotEndless(WithCopies(s, id, due), InnerEdges(s.edges, order), order, NextId(s.tasks.Keys), done);
      }
    }
    if t.series.Some? { RollForwardErrs(s, t.series.value, t.due.value, t.repeat.value); }
  }

  lemma {:induction false} ReplayNotEndless(s: State, inner: seq<Edge>, order: seq<int>, base: int, done: Oracle)
    requires forall e :: e in inner ==> e.task in order && e.blocker in order
    ensures ReplayEdges(s, inner, order, base, done) != Err(EndlessChecklist)
    decreases |inner|
  {
    if inner != [] {
      var r := TaskDependencies.AddDependency(s, CopyId(order, base, inner[0].task), CopyId(order, base, inner[0].blocker), done);
      if r.Ok? { ReplayNotEndless(r.value, inner[1..], order, base, done); }
    }
  }

  lemma {:induction false} RollForwardErrs(s: State, series: string, from: Date, iv: Interval)
    requires ValidInterval(iv)
    ensures RollForward(s, series, from, iv).Err? ==> RollForward(s, series, from, iv).error == RecurrenceError
    decreases MAX_ORDINAL - from
  {
    NextDueIsLater(from, iv);
    hide NextDue, FindLiveOn, SkippedOn;
    var next := NextDue(from, iv);
    if next.Some? && FindLiveOn(s, series, next.value, {}).None? && SkippedOn(s, series, next.value) {
      RollForwardErrs(s, series, next.value, iv);
    }
  }

  /** Fresh rows hang below no old row, so whether an old row hangs below itself stays as it was. */
  lemma ClonableStays(a: State, b: State, x: int)
    requires Spawned(a, b) && Sound(a) && x in a.tasks
    ensures Clonable(a, x) <==> Clonable(b, x)
  {
    var small, big := LiveLinks(a.tasks), LiveLinks(b.tasks);
    SameLinks(a, b);
    hide Sound, Spawned, LiveLinks;
    forall k: nat ensures Forest.Climbs(small, x, k, x) <==> Forest.Climbs(big, x, k, x) {
      SameClimb(small, big, a.tasks.Keys, x, k, x);
    }
  }

  lemma SameLinks(a: State, b: State)
    requires Spawned(a, b) && Sound(a)
    ensures var small, big := LiveLinks(a.tasks), LiveLinks(b.tasks);
            forall z :: z in a.tasks.Keys ==>
              (z in small <==> z in big) && (z in small ==> small[z] == big[z] && small[z] in a.tasks.Keys)
  {
    hide SpawnEvent, OnOpenSlot, FreshRow;
    forall z | z in a.tasks.Keys && z in LiveLinks(a.tasks) ensures LiveLinks(a.tasks)[z] in a.tasks.Keys {
      assert RowWellFormed(a, a.tasks[z]);
    }
  }

  lemma {:induction false} SameClimb(small: Forest.Links, big: Forest.Links, ids: set<int>, x: int, k: nat, y: int)
    requires forall z :: z in ids ==> (z in small <==> z in big) && (z in small ==> small[z] == big[z] && small[z] in ids)
    requires x in ids
    ensures Forest.Climbs(small, x, k, y) <==> Forest.Climbs(big, x, k, y)
    decreases k
  {
    if k > 0 && x in small { SameClimb(small, big, ids, small[x], k - 1, y); }
  }

  // ---- one live row per slot ---------------------------------------------------

  function SlotRows(rows: map<int, Task>, series: string, day: Date): set<int> {
    set n | n in rows && !rows[n].deleted && rows[n].series == Some(series) && rows[n].due == Some(day)
  }

  lemma LiveOnWithRows(before: State, after: State, rows: map<int, Task>, series: string, day: Date)
    requires after.tasks == before.tasks + rows
    requires forall n :: n in rows ==> n !in before.tasks
    ensures LiveOn(after, series, day) == LiveOn(before, series, day) + SlotRows(rows, series, day)
  {
    forall x
      ensures x in LiveOn(after, series, day) <==> x in LiveOn(before, series, day) + SlotRows(rows, series, day)
    {
    }
  }

  lemma CopiedSlotRows(s: State, id: int, due: Date, series: string, day: Date)
    requires id in s.tasks && (WellFormed(s) || Clonable(s, id))
    ensures SlotRows(CopiedTasks(s, id, due), series, day)
         == if s.tasks[id].series == Some(series) && day == due then {NextId(s.tasks.Keys)} else {}
    ensures forall n :: n in CopiedTasks(s, id, due) ==> n !in s.tasks
  {
    hide CopiedTasks, Checklist, CopyIds;
    var rows := CopiedTasks(s, id, due);
    var base := NextId(s.tasks.Keys);
    assert base in rows;
    forall n | n in rows
      ensures n !in s.tasks
      ensures !rows[n].deleted && rows[n].due == Some(due)
      ensures rows[n].series == if n == base then s.tasks[id].series else None
    {
      CopiedRow(s, id, due, n);
    }
  }

  /** Inserting an occurrence adds just itself to the rows of its own slot. */
  lemma LiveOnAfterInsert(s: State, id: int, due: Date, done: Oracle, series: string, day: Date)
    requires Sound(s) && Live(s, id) && OnOpenSlot(s, OccurrenceRow(s.tasks[id], due))
    requires InsertOccurrence(s, id, due, done).Ok?
    ensures var r := InsertOccurrence(s, id, due, done).value;
            LiveOn(r.0, series, day)
            == LiveOn(s, series, day) + if s.tasks[id].series == Some(series) && day == due then {r.1} else {}
  {
    InsertSpawned(s, id, due, done);
    CopiedSlotRows(s, id, due, series, day);
    hide *;
    LiveOnWithRows(s, InsertOccurrence(s, id, due, done).value.0, CopiedTasks(s, id, due), series, day);
  }

  lemma UniqueSlotsOn(s: State)
    ensures UniqueSlots(s) <==> forall series, due: Date, x, y ::
              x in LiveOn(s, series, due) && y in LiveOn(s, series, due) ==> x == y
  {
    if forall series, due: Date, x, y :: x in LiveOn(s, series, due) && y in LiveOn(s, series, due) ==> x == y {
      forall x, y | Live(s, x) && Live(s, y) && SameSlot(s.tasks[x], s.tasks[y]) ensures x == y {
        assert x in LiveOn(s, s.tasks[x].series.value, s.tasks[x].due.value);
        assert y in LiveOn(s, s.tasks[x].series.value, s.tasks[x].due.value);
      }
    }
  }

  /** Spawning keeps at most one live row per (series, date) by its own guard. */
  lemma CreateNextUnique(s: State, id: int, done: Oracle)
    requires (WellFormed(s) || Sound(s)) && Live(s, id) && SeriesHead(s.tasks[id]) && UniqueSlots(s)
    ensures CreateNext(s, id, done).Ok? ==> UniqueSlots(CreateNext(s, id, done).value.0)
  {
    var t := s.tasks[id];
    assert RowWellFormed(s, t);
    var r := CreateNext(s, id, done);
    if r.Ok? && r.value.0 != s {
      UniqueSlotsOn(s);
      UniqueSlotsOn(r.value.0);
      if t.series.Some? { RollForwardLands(s, t.series.value, t.due.value, t.repeat.value); }
      hide InsertOccurrence, RollForward, UniqueSlots, NextDue, LiveOn, SkippedOn;
      var due := if t.series.None? then NextDue(t.due.value, t.repeat.value).value
                 else RollForward(s, t.series.value, t.due.value, t.repeat.value).value.due;
      forall series, day: Date, x, y | x in LiveOn(r.value.0, series, day) && y in LiveOn(r.value.0, series, day)
        ensures x == y
      {
        LiveOnAfterInsert(s, id, due, done, series, day);
      }
    }
  }

  lemma {:induction false} RollForwardAfterInsert(s: State, s': State, series: string, from: Date, iv: Interval, base: int)
    requires ValidInterval(iv)
    requires forall day: Date :: SkippedOn(s', series, day) <==> SkippedOn(s, series, day)
    requires var r := RollForward(s, series, from, iv);
             r.Ok? && r.value.taken.None?
             && forall day: Date :: LiveOn(s', series, day) == LiveOn(s, series, day) + if day == r.value.due then {base} else {}
    ensures RollForward(s', series, from, iv) == Ok(Slot(RollForward(s, series, from, iv).value.due, Some(base)))
    decreases MAX_ORDINAL - from
  {
    hide NextDue, SkippedOn, LiveOn;
    NextDueIsLater(from, iv);
    RollForwardLands(s, series, from, iv);
    var next := NextDue(from, iv).value;
    assert LiveOn(s', series, next) == LiveOn(s, series, next) + if next == RollForward(s, series, from, iv).value.due then {base} else {};
    if FindLiveOn(s, series, next, {}).None? && SkippedOn(s, series, next) {
      RollForwardLands(s, series, next, iv);
      RollForwardAfterInsert(s, s', series, next, iv, base);
      assert LiveOn(s, series, next) - {} == {};
      assert LiveOn(s', series, next) - {} == {};
    } else {
      assert LiveOn(s', series, next) - {} == {base};
    }
  }

  /**
   Spawning is idempotent exactly for rows that carry a series id: asked again, it hands back
   the same row and writes nothing. A recurring row without one spawns another row every time.
   */
  lemma CreateNextIdempotentIff(s: State, id: int, done: Oracle)
    requires Sound(s) && Live(s, id) && SeriesHead(s.tasks[id])
    requires CreateNext(s, id, done).Ok?
    ensures var (s1, x) := CreateNext(s, id, done).value;
            Sound(s1) && Live(s1, id) && SeriesHead(s1.tasks[id])
            && (CreateNext(s1, id, done) == Ok((s1, x)) <==> s.tasks[id].series.Some?)
  {
    CreateNextGrows(s, id, done);
    var t := s.tasks[id];
    assert RowWellFormed(s, t);
    var (s1, x) := CreateNext(s, id, done).value;
    assert s1.tasks[id] == t;
    if t.series.Some? {
      var series := t.series.value;
      RollForwardLands(s, series, t.due.value, t.repeat.value);
      var slot := RollForward(s, series, t.due.value, t.repeat.value).value;
      if slot.taken.None? {
        InsertSpawned(s, id, slot.due, done);
        hide InsertOccurrence, RollForward, NextDue, LiveOn, SkippedOn;
        forall day: Date
          ensures LiveOn(s1, series, day) == LiveOn(s, series, day) + if day == slot.due then {x} else {}
        {
          LiveOnAfterInsert(s, id, slot.due, done, series, day);
        }
        forall day: Date ensures SkippedOn(s1, series, day) <==> SkippedOn(s, series, day) {
          SkipsUnchanged(s, s1, series, day);
        }
        RollForwardAfterInsert(s, s1, series, t.due.value, t.repeat.value, x);
      }
    } else {
      hide InsertOccurrence, NextDue;
      var next := NextDue(t.due.value, t.repeat.value).value;
      InsertSpawned(s, id, next, done);
      InsertSpawned(s1, id, next, done);
    }
  }

  // ---- reconcile -----------------------------------------------------------------

  /** The tasks of the active edges onto `id`, in edge order. */
  function Dependents(edges: seq<Edge>, id: int): (tasks: seq<int>)
    ensures forall x :: x in tasks <==> (x, id) in EdgeArrows(edges)
  {
    if edges == [] then [] else
      var e := edges[0];
      assert edges == [e] + edges[1..];
      var rest := Dependents(edges[1..], id);
      assert forall x :: (x, id) in EdgeArrows(edges)
                         <==> (!e.deleted && e.blocker == id && e.task == x) || (x, id) in EdgeArrows(edges[1..]) by {
        SplitArrows(edges);
      }
      if !e.deleted && e.blocker == id then [e.task] + rest else rest
  }

  lemma SplitArrows(edges: seq<Edge>)
    requires edges != []
    ensures EdgeArrows(edges)
         == EdgeArrows(edges[1..]) + if edges[0].deleted then {} else {(edges[0].task, edges[0].blocker)}
  {
    var all, first := EdgeArrows(edges), edges[0];
    forall a ensures a in all <==> a in EdgeArrows(edges[1..]) || (!first.deleted && a == (first.task, first.blocker)) {
      if a in all {
        var e :| e in edges && !e.deleted && a == (e.task, e.blocker);
        assert e == first || e in edges[1..];
      }
      if a in EdgeArrows(edges[1..]) {
        var e :| e in edges[1..] && !e.deleted && a == (e.task, e.blocker);
        assert e in edges;
      }
      assert first in edges;
    }
  }

  /** No link the walk follows leads out of `ids`. */
  ghost predicate Enclosed(s: State, ids: set<int>) {
    && ids <= s.tasks.Keys
    && (forall x :: x in ids && s.tasks[x].parent.Some? ==> s.tasks[x].parent.value in ids)
    && (forall a :: a in EdgeArrows(s.edges) && a.1 in ids ==> a.0 in ids)
  }

  lemma AllEnclosed(s: State)
    requires WellFormed(s) || Sound(s)
    ensures Enclosed(s, s.tasks.Keys)
  {
    forall x | x in s.tasks && s.tasks[x].parent.Some? ensures s.tasks[x].parent.value in s.tasks {
      assert RowWellFormed(s, s.tasks[x]);
    }
  }

  lemma EnclosedStays(s: State, s': State, ids: set<int>)
    requires Enclosed(s, ids) && Spawned(s, s')
    ensures Enclosed(s', ids)
  {
    forall x | x in ids ensures x in s'.tasks && s'.tasks[x] == s.tasks[x] {
      assert x in s.tasks;
    }
    forall a | a in EdgeArrows(s'.edges) && a.1 in ids ensures a.0 in ids {
      var e :| e in s'.edges && !e.deleted && a == (e.task, e.blocker);
      var i :| 0 <= i < |s'.edges| && s'.edges[i] == e;
      if i < |s.edges| {
        assert s.edges[i] == e;
        assert a in EdgeArrows(s.edges);
      }
    }
  }

  datatype Walked = Walked(state: State, spawned: seq<int>, seen: set<int>)

  /** What one visit appends to the queue before the done check: the parent, unless it is a series head. */
  function ClimbFrom(t: Task): seq<int> {
    if t.parent.Some? && !SeriesHead(t) then [t.parent.value] else []
  }

  /**
   `reconcile`, from any point of its walk. `ids` bounds the ids the queue can ever hold: the
   rows that existed before the walk. Rows it inserts are never queued.
   */
  ghost function Walk(s: State, queue: seq<int>, seen: set<int>, spawned: seq<int>, ids: set<int>, done: Oracle)
    : Result<Walked, Error>
    requires (WellFormed(s) || Sound(s)) && Enclosed(s, ids) && (forall q :: q in queue ==> q in ids)
    decreases |ids - seen|, |queue|
  {
    if queue == [] then Ok(Walked(s, spawned, seen)) else
      var id := queue[|queue| - 1];
      var rest := queue[..|queue| - 1];
      if id in seen then Walk(s, rest, seen, spawned, ids, done) else
        SubsetSize(ids - (seen + {id}), ids - seen);
        assert id in ids - seen;
        if !Live(s, id) then Walk(s, rest, seen + {id}, spawned, ids, done) else
          var t := s.tasks[id];
          var climbed := rest + ClimbFrom(t);
          if !done(s, id) then Walk(s, climbed, seen + {id}, spawned, ids, done)
          else if SeriesHead(t) then
            CreateNextGrows(s, id, done);
            var next :- CreateNext(s, id, done);
            EnclosedStays(s, next.0, ids);
            DependentsInside(next.0, id, ids);
            Walk(next.0, climbed + Dependents(next.0.edges, id), seen + {id}, spawned + [next.1], ids, done)
          else
            DependentsInside(s, id, ids);
            Walk(s, climbed + Dependents(s.edges, id), seen + {id}, spawned, ids, done)
  }

  lemma DependentsInside(s: State, id: int, ids: set<int>)
    requires Enclosed(s, ids) && id in ids
    ensures forall q :: q in Dependents(s.edges, id) ==> q in ids
  {
    forall q | q in Dependents(s.edges, id) ensures q in ids {
      assert (q, id).1 in ids;
    }
  }

  /** `reconcile(db, task_ids)`; every caller's seeds are rows of the store. */
  ghost function Reconcile(s: State, seeds: seq<int>, done: Oracle): Result<State, Error>
    requires (WellFormed(s) || Sound(s)) && forall q :: q in seeds ==> q in s.tasks
  {
    AllEnclosed(s);
    var w :- Walk(s, seeds, {}, [], s.tasks.Keys, done);
    Ok(w.state)
  }

  lemma {:induction false} WalkSpawned(s: State, queue: seq<int>, seen: set<int>, spawned: seq<int>, ids: set<int>, done: Oracle)
    requires Sound(s) && Enclosed(s, ids) && (forall q :: q in queue ==> q in ids)
    ensures var r := Walk(s, queue, seen, spawned, ids, done);
            r.Ok? ==> Spawned(s, r.value.state) && Sound(r.value.state) && (WellFormed(s) ==> WellFormed(r.value.state))
                      && (UniqueSlots(s) ==> UniqueSlots(r.value.state))
    decreases |ids - seen|, |queue|
  {
    hide WellFormed, Sound, Enclosed, Spawned, CreateNext, UniqueSlots, Dependents;
    SpawnedRefl(s);
    if queue != [] {
      var id := queue[|queue| - 1];
      var rest := queue[..|queue| - 1];
      if id in seen { WalkSpawned(s, rest, seen, spawned, ids, done); } else {
        SubsetSize(ids - (seen + {id}), ids - seen);
        assert id in ids - seen;
        if !Live(s, id) { WalkSpawned(s, rest, seen + {id}, spawned, ids, done); } else {
          ClimbInside(s, id, ids);
          var climbed := rest + ClimbFrom(s.tasks[id]);
          if !done(s, id) { WalkSpawned(s, climbed, seen + {id}, spawned, ids, done); }
          else if SeriesHead(s.tasks[id]) {
            CreateNextGrows(s, id, done);
            if UniqueSlots(s) { CreateNextUnique(s, id, done); }
            var next := CreateNext(s, id, done);
            if next.Ok? {
              EnclosedStays(s, next.value.0, ids);
              DependentsInside(next.value.0, id, ids);
              var queue' := climbed + Dependents(next.value.0.edges, id);
              WalkSpawned(next.value.0, queue', seen + {id}, spawned + [next.value.1], ids, done);
              var r := Walk(next.value.0, queue', seen + {id}, spawned + [next.value.1], ids, done);
              if r.Ok? { SpawnedTrans(s, next.value.0, r.value.state); }
            }
          } else {
            DependentsInside(s, id, ids);
            WalkSpawned(s, climbed + Dependents(s.edges, id), seen + {id}, spawned, ids, done);
          }
        }
      }
    }
  }

  lemma ClimbInside(s: State, id: int, ids: set<int>)
    requires Enclosed(s, ids) && id in ids
    ensures id in s.tasks && forall q :: q in ClimbFrom(s.tasks[id]) ==> q in ids
  {
  }

  /** Reconciling only ever adds fresh rows, and keeps one live row per slot, whatever the parent links. */
  lemma ReconcileGrows(s: State, seeds: seq<int>, done: Oracle)
    requires Sound(s) && forall q :: q in seeds ==> q in s.tasks
    ensures Reconcile(s, seeds, done).Ok? ==>
              Spawned(s, Reconcile(s, seeds, done).value) && Sound(Reconcile(s, seeds, done).value)
              && (WellFormed(s) ==> WellFormed(Reconcile(s, seeds, done).value))
              && (UniqueSlots(s) ==> UniqueSlots(Reconcile(s, seeds, done).value))
  {
    AllEnclosed(s);
    WalkSpawned(s, seeds, {}, [], s.tasks.Keys, done);
  }

  lemma ReconcileSpawned(s: State, seeds: seq<int>, done: Oracle)
    requires WellFormed(s) && forall q :: q in seeds ==> q in s.tasks
    ensures Reconcile(s, seeds, done).Ok? ==>
              Spawned(s, Reconcile(s, seeds, done).value) && WellFormed(Reconcile(s, seeds, done).value)
              && (UniqueSlots(s) ==> UniqueSlots(Reconcile(s, seeds, done).value))
  {
    hide Sound, Reconcile;
    ReconcileGrows(s, seeds, done);
  }

  // ---- what reconcile reaches, and leaves behind -----------------------------------

  /**
   Fresh rows neither hang below an old row nor block one, so they move no old row's
   effective status.
   */
  ghost predicate SpawnStable(done: Oracle) {
    forall a: State, b: State, x :: Spawned(a, b) && x in a.tasks ==> (done(a, x) <==> done(b, x))
  }

  /** `ids` is closed under the links the walk follows out of live rows. */
  ghost predicate WalkClosed(s: State, ids: set<int>, done: Oracle) {
    forall x :: x in ids && Live(s, x) ==> Followed(s, ids, x, done)
  }

  ghost predicate Followed(s: State, ids: set<int>, x: int, done: Oracle)
    requires Live(s, x)
  {
    && (s.tasks[x].parent.Some? && (s.tasks[x].repeat.None? || s.tasks[x].due.None?) ==> s.tasks[x].parent.value in ids)
    && (done(s, x) ==> forall e :: e in s.edges && !e.deleted && e.blocker == x ==> e.task in ids)
  }

  lemma FollowedIs(s: State, ids: set<int>, x: int, done: Oracle)
    requires Live(s, x)
    ensures Followed(s, ids, x, done)
            <==> (forall q :: q in ClimbFrom(s.tasks[x]) ==> q in ids)
                 && (done(s, x) ==> forall d :: (d, x) in EdgeArrows(s.edges) ==> d in ids)
  {
    ClimbIs(s.tasks[x], ids);
    EdgesAre(s.edges, ids, x);
    hide EdgeArrows, ClimbFrom;
  }

  lemma ClimbIs(t: Task, ids: set<int>)
    ensures (t.parent.Some? && (t.repeat.None? || t.due.None?) ==> t.parent.value in ids) <==> forall q :: q in ClimbFrom(t) ==> q in ids
  {
    var p := t.parent;
    if p.Some? && (t.repeat.None? || t.due.None?) {
      assert ClimbFrom(t) == [p.value];
      if p.value in ids {
        forall q | q in ClimbFrom(t) ensures q in ids {
          assert q == p.value;
        }
      } else {
        assert [p.value][0] == p.value;
        assert p.value in ClimbFrom(t);
      }
    }
  }

  lemma EdgesAre(edges: seq<Edge>, ids: set<int>, x: int)
    ensures (forall e :: e in edges && !e.deleted && e.blocker == x ==> e.task in ids)
            <==> forall d :: (d, x) in EdgeArrows(edges) ==> d in ids
  {
    if forall e :: e in edges && !e.deleted && e.blocker == x ==> e.task in ids {
      forall d | (d, x) in EdgeArrows(edges) ensures d in ids {
        var e :| e in edges && !e.deleted && (d, x) == (e.task, e.blocker);
      }
    } else {
      var e :| e in edges && !e.deleted && e.blocker == x && e.task !in ids;
      assert (e.task, x) in EdgeArrows(edges);
    }
  }

  /** `t` has what a completed series head must have: a live row on its next open date. */
  ghost predicate HasSuccessor(before: State, after: State, t: Task)
    requires t.repeat.Some? ==> ValidInterval(t.repeat.value)
  {
    t.repeat.Some? && t.due.Some? ==>
      match t.series
      case Some(series) =>
        var slot := RollForward(after, series, t.due.value, t.repeat.value);
        slot.Ok? && slot.value.taken.Some?
      case None =>
        exists y :: Live(after, y) && y !in before.tasks && after.tasks[y].parent.None?
                    && after.tasks[y].content == t.content && after.tasks[y].due == NextDue(t.due.value, t.repeat.value)
  }

  lemma ArrowsGrow(a: State, b: State)
    requires Spawned(a, b) && Sound(a)
    ensures EdgeArrows(a.edges) <= EdgeArrows(b.edges)
    ensures forall x :: x in EdgeArrows(b.edges) && x.1 in a.tasks ==> x in EdgeArrows(a.edges)
  {
    forall x | x in EdgeArrows(a.edges) ensures x in EdgeArrows(b.edges) {
      var e :| e in a.edges && !e.deleted && x == (e.task, e.blocker);
      assert e in b.edges;
    }
    forall x | x in EdgeArrows(b.edges) && x.1 in a.tasks ensures x in EdgeArrows(a.edges) {
      var e :| e in b.edges && !e.deleted && x == (e.task, e.blocker);
      var i :| 0 <= i < |b.edges| && b.edges[i] == e;
      assert i < |a.edges|;
      assert a.edges[i] == e;
    }
  }

  lemma FollowedEarlier(a: State, b: State, ids: set<int>, x: int, done: Oracle)
    requires Spawned(a, b) && Sound(a) && SpawnStable(done) && Live(a, x)
    ensures Live(b, x) && (Followed(a, ids, x, done) <==> Followed(b, ids, x, done))
  {
    ArrowsGrow(a, b);
    hide EdgeArrows, SpawnEvent;
    assert b.tasks[x] == a.tasks[x];
    assert done(a, x) <==> done(b, x);
  }

  /** A live row stays on the date a roll-forward names, whatever is spawned later. */
  lemma {:induction false} RollForwardStays(a: State, b: State, series: string, from: Date, iv: Interval)
    requires ValidInterval(iv) && Spawned(a, b)
    requires RollForward(a, series, from, iv).Ok? && RollForward(a, series, from, iv).value.taken.Some?
    ensures var r := RollForward(b, series, from, iv);
            r.Ok? && r.value.taken.Some? && r.value.due == RollForward(a, series, from, iv).value.due
    decreases MAX_ORDINAL - from
  {
    hide NextDue, SkippedOn;
    NextDueIsLater(from, iv);
    var next := NextDue(from, iv).value;
    SkipsUnchanged(a, b, series, next);
    if SkippedOn(a, series, next) { SkippedGetsNothing(a, b, series, next); }
    if FindLiveOn(a, series, next, {}).None? {
      assert LiveOn(a, series, next) - {} == LiveOn(a, series, next);
      assert LiveOn(b, series, next) - {} == LiveOn(b, series, next);
      RollForwardStays(a, b, series, next, iv);
    } else {
      var y := FindLiveOn(a, series, next, {}).value;
      assert b.tasks[y] == a.tasks[y];
      assert y in LiveOn(b, series, next) - {};
    }
  }

  lemma SkippedGetsNothing(a: State, b: State, series: string, due: Date)
    requires Spawned(a, b) && SkippedOn(a, series, due)
    ensures LiveOn(a, series, due) == LiveOn(b, series, due)
  {
    forall x ensures x in LiveOn(a, series, due) <==> x in LiveOn(b, series, due) {
      if x in LiveOn(b, series, due) && x !in a.tasks {
        SpawnedOnOpen(a, b, x);
        assert false;
      }
    }
  }

  lemma SpawnedOnOpen(a: State, b: State, x: int)
    requires Spawned(a, b) && x in b.tasks && x !in a.tasks
    ensures OnOpenSlot(a, b.tasks[x])
  {
  }

  lemma SuccessorStays(before: State, mid: State, after: State, t: Task)
    requires t.repeat.Some? ==> ValidInterval(t.repeat.value)
    requires Spawned(before, mid) && Spawned(mid, after) && HasSuccessor(before, mid, t)
    ensures HasSuccessor(before, after, t)
  {
    hide NextDue, RollForward;
    if SeriesHead(t) {
      if t.series.Some? {
        RollForwardStays(mid, after, t.series.value, t.due.value, t.repeat.value);
      } else {
        var y :| Live(mid, y) && y !in before.tasks && mid.tasks[y].parent.None?
                 && mid.tasks[y].content == t.content && mid.tasks[y].due == NextDue(t.due.value, t.repeat.value);
        assert after.tasks[y] == mid.tasks[y];
      }
    }
  }

  lemma CreateNextSucceeds(s: State, id: int, done: Oracle)
    requires Sound(s) && Live(s, id) && SeriesHead(s.tasks[id])
    ensures RowWellFormed(s, s.tasks[id])
    ensures CreateNext(s, id, done).Ok? ==> HasSuccessor(s, CreateNext(s, id, done).value.0, s.tasks[id])
  {
    var t := s.tasks[id];
    assert RowWellFormed(s, t);
    if CreateNext(s, id, done).Ok? {
      var (s1, x) := CreateNext(s, id, done).value;
      if t.series.None? {
        hide NextDue, InsertOccurrence;
        var next := NextDue(t.due.value, t.repeat.value).value;
        InsertSpawned(s, id, next, done);
        CopiedRow(s, id, next, x);
      } else {
        CreateNextIdempotentIff(s, id, done);
        CreateNextGrows(s, id, done);
        TakenAfter(s1, id, x, done);
        assert s1.tasks[id] == t;
      }
    }
  }

  lemma TakenAfter(s: State, id: int, x: int, done: Oracle)
    requires Sound(s) && Live(s, id) && SeriesHead(s.tasks[id]) && s.tasks[id].series.Some?
    requires CreateNext(s, id, done) == Ok((s, x))
    ensures RowWellFormed(s, s.tasks[id])
    ensures var t := s.tasks[id];
            var slot := RollForward(s, t.series.value, t.due.value, t.repeat.value);
            slot.Ok? && slot.value.taken.Some?
  {
    var t := s.tasks[id];
    assert RowWellFormed(s, t);
    hide InsertOccurrence, RollForward;
    var slot := RollForward(s, t.series.value, t.due.value, t.repeat.value);
    if slot.Ok? && slot.value.taken.None? {
      RollForwardLands(s, t.series.value, t.due.value, t.repeat.value);
      InsertSpawned(s, id, slot.value.due, done);
    }
  }

  /** What a finished walk says of a row it visited. */
  ghost predicate Settled(s: State, w: Walked, x: int, done: Oracle)
  {
    Live(s, x) && (s.tasks[x].repeat.Some? ==> ValidInterval(s.tasks[x].repeat.value)) ==>
      && Followed(s, w.seen, x, done)
      && (done(s, x) ==> HasSuccessor(s, w.state, s.tasks[x]) && (AlwaysInserts(s.tasks[x]) ==> Clonable(s, x)))
  }

  /** A series head without a series id: nothing already there can stand in for its next occurrence. */
  predicate AlwaysInserts(t: Task) {
    SeriesHead(t) && t.series.None?
  }

  lemma SettledEarlier(a: State, b: State, w: Walked, x: int, done: Oracle)
    requires Spawned(a, b) && Spawned(b, w.state) && Sound(a) && Sound(b) && SpawnStable(done)
    requires x in a.tasks && Settled(b, w, x, done)
    ensures Settled(a, w, x, done)
  {
    if Live(a, x) && (a.tasks[x].repeat.Some? ==> ValidInterval(a.tasks[x].repeat.value)) {
      assert b.tasks[x] == a.tasks[x];
      FollowedEarlier(a, b, w.seen, x, done);
      assert done(a, x) <==> done(b, x);
      SuccessorAmongMore(a, b, w.state, a.tasks[x]);
      ClonableStays(a, b, x);
      hide Clonable, Followed, HasSuccessor, Sound, Spawned, SpawnStable;
    }
  }

  lemma SuccessorAmongMore(a: State, b: State, after: State, t: Task)
    requires t.repeat.Some? ==> ValidInterval(t.repeat.value)
    requires Spawned(a, b)
    ensures HasSuccessor(b, after, t) ==> HasSuccessor(a, after, t)
  {
    hide NextDue, RollForward, SpawnEvent, OnOpenSlot;
    if HasSuccessor(b, after, t) && SeriesHead(t) && t.series.None? {
      var y :| Live(after, y) && y !in b.tasks && after.tasks[y].parent.None?
               && after.tasks[y].content == t.content && after.tasks[y].due == NextDue(t.due.value, t.repeat.value);
      assert y !in a.tasks;
    }
  }

  lemma {:induction false} WalkSettles(s: State, queue: seq<int>, seen: set<int>, spawned: seq<int>, ids: set<int>, done: Oracle)
    requires Sound(s) && Enclosed(s, ids) && (forall q :: q in queue ==> q in ids) && SpawnStable(done)
    ensures var r := Walk(s, queue, seen, spawned, ids, done);
            r.Ok? ==>
              && seen <= r.value.seen && (forall q :: q in queue ==> q in r.value.seen)
              && (forall x :: x in r.value.seen && x !in seen ==> Settled(s, r.value, x, done))
    decreases |ids - seen|, |queue|
  {
    WalkSpawned(s, queue, seen, spawned, ids, done);
    hide WellFormed, Sound, Enclosed, Spawned, CreateNext, UniqueSlots, Dependents, Settled, SpawnStable;
    if queue != [] {
      var id := queue[|queue| - 1];
      var rest := queue[..|queue| - 1];
      assert queue == rest + [id];
      if id in seen { WalkSettles(s, rest, seen, spawned, ids, done); } else {
        SubsetSize(ids - (seen + {id}), ids - seen);
        assert id in ids - seen;
        if !Live(s, id) {
          WalkSettles(s, rest, seen + {id}, spawned, ids, done);
          var r := Walk(s, rest, seen + {id}, spawned, ids, done);
          if r.Ok? { DeadSettled(s, r.value, id, done); }
        } else {
          ClimbInside(s, id, ids);
          var climbed := rest + ClimbFrom(s.tasks[id]);
          if !done(s, id) {
            WalkSettles(s, climbed, seen + {id}, spawned, ids, done);
            var r := Walk(s, climbed, seen + {id}, spawned, ids, done);
            if r.Ok? { LiveSettled(s, s, r.value, id, done); }
          } else if SeriesHead(s.tasks[id]) {
            CreateNextGrows(s, id, done);
            var next := CreateNext(s, id, done);
            if next.Ok? {
              var s1 := next.value.0;
              EnclosedStays(s, s1, ids);
              DependentsInside(s1, id, ids);
              var queue' := climbed + Dependents(s1.edges, id);
              WalkSettles(s1, queue', seen + {id}, spawned + [next.value.1], ids, done);
              var r := Walk(s1, queue', seen + {id}, spawned + [next.value.1], ids, done);
              if r.Ok? {
                WalkSpawned(s1, queue', seen + {id}, spawned + [next.value.1], ids, done);
                CreateNextSucceeds(s, id, done);
                SpawnedRefl(s);
                LiveSettled(s, s1, r.value, id, done);
                WalkInside(s1, queue', seen + {id}, spawned + [next.value.1], ids, done);
                forall x | x in r.value.seen && x !in seen ensures Settled(s, r.value, x, done) {
                  if x != id {
                    EnclosedHas(s, ids, x);
                    SettledEarlier(s, s1, r.value, x, done);
                  }
                }
              }
            }
          } else {
            DependentsInside(s, id, ids);
            var queue' := climbed + Dependents(s.edges, id);
            WalkSettles(s, queue', seen + {id}, spawned, ids, done);
            var r := Walk(s, queue', seen + {id}, spawned, ids, done);
            if r.Ok? { LiveSettled(s, s, r.value, id, done); }
          }
        }
      }
    }
  }

  lemma EnclosedHas(s: State, ids: set<int>, x: int)
    requires Enclosed(s, ids) && x in ids
    ensures x in s.tasks
  {
  }

  lemma DeadSettled(s: State, w: Walked, id: int, done: Oracle)
    requires !Live(s, id)
    ensures Settled(s, w, id, done)
  {
  }

  lemma LiveSettled(s: State, s1: State, w: Walked, id: int, done: Oracle)
    requires Sound(s) && Live(s, id) && (s1 == s || Spawned(s, s1)) && Spawned(s1, w.state) && SpawnStable(done)
    requires forall q :: q in ClimbFrom(s.tasks[id]) ==> q in w.seen
    requires done(s, id) ==> forall q :: q in Dependents(s1.edges, id) ==> q in w.seen
    requires done(s, id) && SeriesHead(s.tasks[id]) ==> CreateNext(s, id, done).Ok? && s1 == CreateNext(s, id, done).value.0
    ensures Settled(s, w, id, done)
  {
    FollowedIs(s, w.seen, id, done);
    SpawnedRefl(s);
    ArrowsGrow(s, s1);
    assert RowWellFormed(s, s.tasks[id]);
    hide Spawned, CreateNext, HasSuccessor, RollForward, SpawnStable, Dependents;
    if done(s, id) {
      forall d | (d, id) in EdgeArrows(s.edges) ensures d in w.seen {
        assert d in Dependents(s1.edges, id);
      }
      if SeriesHead(s.tasks[id]) {
        CreateNextSucceeds(s, id, done);
        SuccessorStays(s, s1, w.state, s.tasks[id]);
        EndlessIff(s, id, done);
      } else {
        NoSuccessorNeeded(s, w.state, s.tasks[id]);
      }
    }
  }

  lemma NoSuccessorNeeded(s: State, after: State, t: Task)
    requires !SeriesHead(t) && (t.repeat.Some? ==> ValidInterval(t.repeat.value))
    ensures HasSuccessor(s, after, t)
  {
  }

  /** The walk never leaves the ids it started with, nor any closed set around its queue. */
  lemma {:induction false} WalkInside(s: State, queue: seq<int>, seen: set<int>, spawned: seq<int>, ids: set<int>, done: Oracle)
    requires Sound(s) && Enclosed(s, ids) && (forall q :: q in queue ==> q in ids)
    ensures var r := Walk(s, queue, seen, spawned, ids, done);
            r.Ok? ==> r.value.seen <= seen + ids
    decreases |ids - seen|, |queue|
  {
    hide WellFormed, Sound, Enclosed, Spawned, CreateNext, UniqueSlots, Dependents;
    if queue != [] {
      var id := queue[|queue| - 1];
      var rest := queue[..|queue| - 1];
      assert id in ids;
      if id in seen { WalkInside(s, rest, seen, spawned, ids, done); } else {
        SubsetSize(ids - (seen + {id}), ids - seen);
        assert id in ids - seen;
        if !Live(s, id) { WalkInside(s, rest, seen + {id}, spawned, ids, done); } else {
          ClimbInside(s, id, ids);
          var climbed := rest + ClimbFrom(s.tasks[id]);
          if !done(s, id) { WalkInside(s, climbed, seen + {id}, spawned, ids, done); }
          else if SeriesHead(s.tasks[id]) {
            CreateNextGrows(s, id, done);
            var next := CreateNext(s, id, done);
            if next.Ok? {
              EnclosedStays(s, next.value.0, ids);
              DependentsInside(next.value.0, id, ids);
              WalkInside(next.value.0, climbed + Dependents(next.value.0.edges, id), seen + {id}, spawned + [next.value.1], ids, done);
            }
          } else {
            DependentsInside(s, id, ids);
            WalkInside(s, climbed + Dependents(s.edges, id), seen + {id}, spawned, ids, done);
          }
        }
      }
    }
  }

  /** The walk visits nothing that its links do not lead to from the queue. */
  lemma {:induction false} WalkLeast(
      s: State, queue: seq<int>, seen: set<int>, spawned: seq<int>, ids: set<int>, done: Oracle, bound: set<int>)
    requires Sound(s) && Enclosed(s, ids) && (forall q :: q in queue ==> q in ids && q in bound)
    requires SpawnStable(done) && WalkClosed(s, bound, done) && bound <= ids
    ensures var r := Walk(s, queue, seen, spawned, ids, done);
            r.Ok? ==> r.value.seen <= seen + bound
    decreases |ids - seen|, |queue|
  {
    hide WellFormed, Sound, Enclosed, Spawned, CreateNext, UniqueSlots, Dependents, SpawnStable, WalkClosed;
    if queue != [] {
      var id := queue[|queue| - 1];
      var rest := queue[..|queue| - 1];
      assert id in bound;
      if id in seen { WalkLeast(s, rest, seen, spawned, ids, done, bound); } else {
        SubsetSize(ids - (seen + {id}), ids - seen);
        assert id in ids - seen;
        if !Live(s, id) { WalkLeast(s, rest, seen + {id}, spawned, ids, done, bound); } else {
          ClimbInside(s, id, ids);
          OneStepInside(s, id, bound, done);
          var climbed := rest + ClimbFrom(s.tasks[id]);
          if !done(s, id) { WalkLeast(s, climbed, seen + {id}, spawned, ids, done, bound); }
          else if SeriesHead(s.tasks[id]) {
            CreateNextGrows(s, id, done);
            var next := CreateNext(s, id, done);
            if next.Ok? {
              EnclosedStays(s, next.value.0, ids);
              DependentsInside(next.value.0, id, ids);
              ClosedStays(s, next.value.0, bound, ids, done);
              CreateNextKeepsHead(s, id, done);
              OneStepInside(next.value.0, id, bound, done);
              WalkLeast(next.value.0, climbed + Dependents(next.value.0.edges, id), seen + {id}, spawned + [next.value.1], ids, done, bound);
            }
          } else {
            DependentsInside(s, id, ids);
            WalkLeast(s, climbed + Dependents(s.edges, id), seen + {id}, spawned, ids, done, bound);
          }
        }
      }
    }
  }

  lemma CreateNextKeepsHead(s: State, id: int, done: Oracle)
    requires Sound(s) && Live(s, id) && SeriesHead(s.tasks[id]) && CreateNext(s, id, done).Ok? && SpawnStable(done)
    ensures var s1 := CreateNext(s, id, done).value.0; Live(s1, id) && (done(s1, id) <==> done(s, id))
  {
    CreateNextGrows(s, id, done);
    hide CreateNext;
    assert Spawned(s, CreateNext(s, id, done).value.0);
  }

  lemma OneStepInside(s: State, id: int, bound: set<int>, done: Oracle)
    requires WalkClosed(s, bound, done) && id in bound && Live(s, id)
    ensures forall q :: q in ClimbFrom(s.tasks[id]) ==> q in bound
    ensures done(s, id) ==> forall q :: q in Dependents(s.edges, id) ==> q in bound
  {
    assert Followed(s, bound, id, done);
  }

  lemma ClosedStays(s: State, s1: State, bound: set<int>, ids: set<int>, done: Oracle)
    requires Sound(s) && Enclosed(s, ids) && bound <= ids
    requires Spawned(s, s1) && SpawnStable(done) && WalkClosed(s, bound, done)
    ensures WalkClosed(s1, bound, done)
  {
    forall x | x in bound && Live(s1, x) ensures Followed(s1, bound, x, done) {
      EnclosedHas(s, ids, x);
      assert s1.tasks[x] == s.tasks[x];
      FollowedEarlier(s, s1, bound, x, done);
    }
  }

  /**
   `reconcile` ends on any parent and dependency data, cyclic data included, and visits exactly the
   rows its links reach from the seeds: up from a row that is no series head, out from a done row to
   its dependents. Every effectively done series head it visits is left with a live successor.
   */
  lemma ReconcileReaches(s: State, seeds: seq<int>, done: Oracle)
    requires Sound(s) && (forall q :: q in seeds ==> q in s.tasks) && SpawnStable(done)
    ensures Reconcile(s, seeds, done).Ok? ==>
              exists seen: set<int> ::
                && (forall q :: q in seeds ==> q in seen)
                && WalkClosed(s, seen, done)
                && (forall bound: set<int> ::
                      bound <= s.tasks.Keys && (forall q :: q in seeds ==> q in bound) && WalkClosed(s, bound, done)
                      ==> seen <= bound)
                && (forall x :: x in seen && Live(s, x) && done(s, x) ==>
                      RowWellFormed(s, s.tasks[x]) && HasSuccessor(s, Reconcile(s, seeds, done).value, s.tasks[x])
                      && (AlwaysInserts(s.tasks[x]) ==> Clonable(s, x)))
  {
    AllEnclosed(s);
    var ids := s.tasks.Keys;
    var r := Walk(s, seeds, {}, [], ids, done);
    if r.Ok? {
      WalkSettles(s, seeds, {}, [], ids, done);
      var seen := r.value.seen;
      forall x | x in seen && Live(s, x)
        ensures RowWellFormed(s, s.tasks[x]) && Followed(s, seen, x, done)
                && (done(s, x) ==> HasSuccessor(s, r.value.state, s.tasks[x]) && (AlwaysInserts(s.tasks[x]) ==> Clonable(s, x)))
      {
        assert RowWellFormed(s, s.tasks[x]);
        assert Settled(s, r.value, x, done);
      }
      assert WalkClosed(s, seen, done);
      forall bound: set<int> | bound <= s.tasks.Keys && (forall q :: q in seeds ==> q in bound) && WalkClosed(s, bound, done)
        ensures seen <= bound
      {
        WalkLeast(s, seeds, {}, [], ids, done, bound);
      }
    }
  }

  // ---- with parent links free of cycles --------------------------------------------

  /** With parent links free of cycles nothing hangs below itself. */
  lemma AcyclicEnds(s: State, seeds: seq<int>, done: Oracle)
    requires WellFormed(s) && forall q :: q in seeds ==> q in s.tasks
    ensures Reconcile(s, seeds, done) != Err(EndlessChecklist)
  {
    AllEnclosed(s);
    AcyclicWalkEnds(s, seeds, {}, [], s.tasks.Keys, done);
  }

  lemma {:induction false} AcyclicWalkEnds(s: State, queue: seq<int>, seen: set<int>, spawned: seq<int>, ids: set<int>, done: Oracle)
    requires WellFormed(s) && Enclosed(s, ids) && forall q :: q in queue ==> q in ids
    ensures Walk(s, queue, seen, spawned, ids, done) != Err(EndlessChecklist)
    decreases |ids - seen|, |queue|
  {
    hide WellFormed, Sound, Enclosed, Spawned, CreateNext, UniqueSlots, Dependents;
    if queue != [] {
      var id := queue[|queue| - 1];
      var rest := queue[..|queue| - 1];
      if id in seen { AcyclicWalkEnds(s, rest, seen, spawned, ids, done); } else {
        SubsetSize(ids - (seen + {id}), ids - seen);
        assert id in ids - seen;
        if !Live(s, id) { AcyclicWalkEnds(s, rest, seen + {id}, spawned, ids, done); } else {
          ClimbInside(s, id, ids);
          var climbed := rest + ClimbFrom(s.tasks[id]);
          if !done(s, id) { AcyclicWalkEnds(s, climbed, seen + {id}, spawned, ids, done); }
          else if SeriesHead(s.tasks[id]) {
            CreateNextSpawned(s, id, done);
            AcyclicHead(s, id, done);
            var next := CreateNext(s, id, done);
            if next.Ok? {
              EnclosedStays(s, next.value.0, ids);
              DependentsInside(next.value.0, id, ids);
              AcyclicWalkEnds(next.value.0, climbed + Dependents(next.value.0.edges, id), seen + {id}, spawned + [next.value.1], ids, done);
            }
          } else {
            DependentsInside(s, id, ids);
            AcyclicWalkEnds(s, climbed + Dependents(s.edges, id), seen + {id}, spawned, ids, done);
          }
        }
      }
    }
  }

  lemma AcyclicHead(s: State, id: int, done: Oracle)
    requires WellFormed(s) && Live(s, id) && SeriesHead(s.tasks[id])
    ensures CreateNext(s, id, done) != Err(EndlessChecklist)
  {
    LiveLinksOffCycle(s, id);
    EndlessIff(s, id, done);
    hide Sound, CreateNext, Inserts;
  }
}
