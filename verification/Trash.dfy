/**
 Purging a selection of the trash, and emptying it: what is reported against what disappears
 (backend/app/services/trash.py).
 */
module Trash {
  import opened Common
  import opened Store
  import opened Projects
  import opened Invariant
  import opened ProjectPurge
  import opened PurgeSteps
  import TaskPurge
  import TaskSteps

  /** How many ids one `IN (...)` list binds. */
  const IN_CHUNK := 900

  function FirstChunk(ids: seq<int>): (n: nat)
    ensures n <= |ids| && n <= IN_CHUNK && (n < |ids| ==> n == IN_CHUNK) && (ids != [] ==> n > 0)
  {
    if |ids| < IN_CHUNK then |ids| else IN_CHUNK
  }

  predicate Purgeable(s: State, p: int) {
    p in s.projects && s.projects[p].deleted && !s.projects[p].protected
  }

  /** `_trashed_task_ids`: one query per chunk, so an id counts once per chunk it is in. */
  function TrashedIds(s: State, ids: seq<int>): (r: seq<int>)
    ensures forall x :: x in r <==> x in ids && Trashed(s, x)
  {
    if ids == [] then [] else
      var n := FirstChunk(ids);
      assert ids == ids[..n] + ids[n..];
      Sorted(set x | x in ids[..n] && Trashed(s, x)) + TrashedIds(s, ids[n..])
  }

  /** `_purgeable_project_ids`, resolved the same way. */
  function PurgeableIds(s: State, ids: seq<int>): (r: seq<int>)
    ensures forall p :: p in r <==> p in ids && Purgeable(s, p)
  {
    if ids == [] then [] else
      var n := FirstChunk(ids);
      assert ids == ids[..n] + ids[n..];
      Sorted(set p | p in ids[..n] && Purgeable(s, p)) + PurgeableIds(s, ids[n..])
  }

  /** The trashed rows the given projects own, one query per chunk. */
  function OwnedIds(s: State, ps: seq<int>): (r: seq<int>)
    ensures forall x :: x in r <==> Trashed(s, x) && s.tasks[x].project in ps
  {
    if ps == [] then [] else
      var n := FirstChunk(ps);
      assert ps == ps[..n] + ps[n..];
      Sorted(set x | x in s.tasks && s.tasks[x].deleted && s.tasks[x].project in ps[..n]) + OwnedIds(s, ps[n..])
  }

  /** `_removed_task_ids`: read before anything is purged. */
  ghost function RemovedIds(s: State, ts: seq<int>, ps: seq<int>): set<int> {
    Reach(s, ts + OwnedIds(s, ps))
  }

  /** One project purge after another; one that is already gone is skipped. */
  ghost function PurgeProjects(s: State, ps: seq<int>): (r: Result<State, Error>)
    requires WellFormed(s)
    ensures r.Ok? ==> WellFormed(r.value)
    decreases |ps|
  {
    if ps == [] then Ok(s)
    else if ps[0] in s.projects && s.projects[ps[0]].deleted then
      PurgedWellFormed(s, ps[0]);
      var next :- PurgeProject(s, ps[0]);
      PurgeProjects(next, ps[1..])
    else PurgeProjects(s, ps[1..])
  }

  lemma PurgedWellFormed(s: State, p: int)
    requires WellFormed(s) && p in s.projects
    ensures PurgeProject(s, p).Ok? ==> WellFormed(PurgeProject(s, p).value)
  {
    var cleared := PurgeEach(s, Sorted(TrashedIn(s, p)));
    PurgeEachProjects(s, Sorted(TrashedIn(s, p)));
    hide WellFormed, Sound, PurgeEach, WithoutProject;
    if PurgeProject(s, p).Ok? { WithoutProjectWellFormed(cleared, p); }
  }

  datatype PurgeCounts = PurgeCounts(projects: nat, tasks: nat)

  /** `purge_selected`. */
  ghost function PurgeSelected(s: State, projectIds: seq<int>, taskIds: seq<int>): Result<(State, PurgeCounts), Error>
    requires WellFormed(s)
  {
    var ts, ps := TrashedIds(s, taskIds), PurgeableIds(s, projectIds);
    var removed := RemovedIds(s, ts, ps);
    var after :- PurgeProjects(PurgeEach(s, ts), ps);
    Ok((after, PurgeCounts(|ps|, |removed|)))
  }

  /** `empty_trash`. */
  ghost function EmptyTrash(s: State): Result<(State, PurgeCounts), Error>
    requires WellFormed(s)
  {
    PurgeSelected(s, Sorted(set p | p in s.projects && s.projects[p].deleted), Sorted(TrashedTasks(s)))
  }

  function TrashedTasks(s: State): set<int> {
    set x | x in s.tasks && s.tasks[x].deleted
  }

  function PurgeableProjects(s: State): set<int> {
    set p | p in s.projects && s.projects[p].deleted && !s.projects[p].protected
  }

  /** `count_trash(db).purge_total`: what the Empty-trash confirm promises. */
  function PurgeTotal(s: State): nat {
    |TrashedTasks(s)| + |PurgeableProjects(s)|
  }

  // ---- what disappears ------------------------------------------------------------------

  /** The trashed rows of some projects. */
  function OwnedBy(s: State, ps: set<int>): set<int> {
    set x | x in s.tasks && s.tasks[x].deleted && s.tasks[x].project in ps
  }

  /** The up-front set is the subtrees of the selected tasks with all the selected projects own. */
  lemma RemovedIsUnion(s: State, ts: seq<int>, ps: seq<int>)
    ensures RemovedIds(s, ts, ps) == Reach(s, ts) + OwnedBy(s, Elems(ps))
  {
    var owned := OwnedIds(s, ps);
    ReachConcat(s, ts, owned);
    forall r | r in owned && Trashed(s, r) ensures TaskPurge.Doomed(s, r) <= OwnedBy(s, Elems(ps)) {
      TaskPurge.DoomedExist(s, r);
    }
    ReachWithin(s, owned, OwnedBy(s, Elems(ps)));
    forall x | x in OwnedBy(s, Elems(ps)) ensures x in Reach(s, owned) {
      ReachHas(s, owned, x);
      TaskPurge.DoomedExist(s, x);
    }
  }

  lemma {:induction false} ReachConcat(s: State, a: seq<int>, b: seq<int>)
    ensures Reach(s, a + b) == Reach(s, a) + Reach(s, b)
  {
    hide TaskPurge.Doomed;
    if a == [] {
      assert a + b == b;
    } else {
      ReachConcat(s, a[1..], b);
      assert (a + b)[1..] == a[1..] + b;
    }
  }

  /** Part of the way through the selected projects: a missing one took its trash with it. */
  ghost predicate Midway(s: State, t: State, gone: set<int>, ps: seq<int>) {
    && Consistent(t) && PurgedTo(s, t, gone) && DownClosed(s, gone)
    && (forall p :: p in ps ==> p in s.projects && s.projects[p].deleted)
    && (forall p :: p in ps && p !in t.projects ==> TrashedIn(s, p) <= gone)
    && SameProjects(s, t)
  }

  ghost predicate SameProjects(s: State, t: State) {
    forall q :: q in t.projects ==> q in s.projects && t.projects[q] == s.projects[q]
  }

  lemma MidwayStep(s: State, t: State, gone: set<int>, ps: seq<int>)
    requires Midway(s, t, gone, ps) && ps != [] && ps[0] in t.projects
    ensures WellFormed(t) && t.projects[ps[0]].deleted && PurgeProject(t, ps[0]).Ok?
    ensures var next := PurgeProject(t, ps[0]).value;
            && Midway(s, next, gone + TrashedIn(s, ps[0]), ps[1..]) && WellFormed(next)
            && next.projects.Keys == t.projects.Keys - {ps[0]}
  {
    var p := ps[0];
    assert p in ps;
    TaskSteps.ConsistentWellFormed(t);
    PurgeProjectKeeps(t, p);
    PurgedProject(s, t, gone, p);
    var next := PurgeProject(t, p).value;
    TaskSteps.ConsistentWellFormed(next);
    hide Consistent, WellFormed, Sound, PurgedTo, DownClosed, PurgeProject, TrashedIn, SameProjects;
    MissingProjects(s, t, next, gone, ps);
    KeptProjects(s, t, next, p);
  }

  lemma MissingProjects(s: State, t: State, next: State, gone: set<int>, ps: seq<int>)
    requires Midway(s, t, gone, ps) && ps != [] && next.projects.Keys == t.projects.Keys - {ps[0]}
    ensures forall q :: q in ps[1..] ==> q in s.projects && s.projects[q].deleted
    ensures forall q :: q in ps[1..] && q !in next.projects ==> TrashedIn(s, q) <= gone + TrashedIn(s, ps[0])
  {
    hide Consistent, PurgedTo, DownClosed, TrashedIn, SameProjects;
    forall q | q in ps[1..] ensures q in ps {
    }
    forall q | q in ps[1..] && q !in next.projects ensures TrashedIn(s, q) <= gone + TrashedIn(s, ps[0]) {
      assert q !in next.projects.Keys;
    }
  }

  lemma KeptProjects(s: State, t: State, next: State, p: int)
    requires SameProjects(s, t) && next.projects.Keys == t.projects.Keys - {p}
    requires forall q :: q in next.projects ==> q in t.projects && next.projects[q] == t.projects[q]
    ensures SameProjects(s, next)
  {
  }

  /** Later project purges destroy what those projects own, and nothing else. */
  lemma {:induction false} PurgeProjectsReach(s: State, t: State, gone: set<int>, ps: seq<int>)
    requires Midway(s, t, gone, ps)
    ensures WellFormed(t) && PurgeProjects(t, ps).Ok?
    ensures var r := PurgeProjects(t, ps).value;
            && Consistent(r) && PurgedTo(s, r, gone + OwnedBy(s, Elems(ps)))
            && r.projects.Keys == t.projects.Keys - Elems(ps) && SameProjects(s, r)
    decreases |ps|
  {
    TaskSteps.ConsistentWellFormed(t);
    if ps == [] {
      assert gone + OwnedBy(s, Elems(ps)) == gone;
    } else {
      var p := ps[0];
      HeadElems(ps);
      if p in t.projects {
        MidwayStep(s, t, gone, ps);
        OwnedSplit(s, gone, ps);
        hide Midway, WellFormed, Sound, PurgeProject, OwnedBy, TrashedIn, PurgedTo, Consistent;
        PurgeProjectsReach(s, PurgeProject(t, p).value, gone + TrashedIn(s, p), ps[1..]);
      } else {
        OwnedGone(s, gone, p, ps);
        assert Midway(s, t, gone, ps[1..]);
        hide Midway, WellFormed, Sound, PurgeProject, OwnedBy, TrashedIn, PurgedTo, Consistent;
        PurgeProjectsReach(s, t, gone, ps[1..]);
      }
    }
  }

  lemma HeadElems(ps: seq<int>)
    requires ps != []
    ensures Elems(ps) == {ps[0]} + Elems(ps[1..]) && ps[0] in ps
  {
    assert ps == [ps[0]] + ps[1..];
  }

  lemma OwnedSplit(s: State, gone: set<int>, ps: seq<int>)
    requires ps != []
    ensures gone + TrashedIn(s, ps[0]) + OwnedBy(s, Elems(ps[1..])) == gone + OwnedBy(s, Elems(ps))
  {
    HeadElems(ps);
  }

  lemma OwnedGone(s: State, gone: set<int>, p: int, ps: seq<int>)
    requires ps != [] && ps[0] == p && TrashedIn(s, p) <= gone
    ensures gone + OwnedBy(s, Elems(ps[1..])) == gone + OwnedBy(s, Elems(ps))
  {
    assert ps == [p] + ps[1..];
    forall x | x in OwnedBy(s, Elems(ps)) && x !in OwnedBy(s, Elems(ps[1..])) ensures x in gone {
      assert x in TrashedIn(s, p);
    }
  }

  /** `t` is what a purge of a selection leaves: these rows and projects are gone, no others. */
  ghost predicate Disappeared(s: State, t: State, tasks: set<int>, projects: set<int>) {
    && PurgedTo(s, t, tasks) && tasks <= s.tasks.Keys
    && (forall p :: p in t.projects <==> p in s.projects && p !in projects) && projects <= s.projects.Keys
    && SameProjects(s, t)
  }

  /** The report is right about tasks: it counts the rows that disappeared. */
  ghost predicate ReportsTasks(s: State, t: State, counts: PurgeCounts, removed: set<int>, ps: seq<int>) {
    && Consistent(t) && Disappeared(s, t, removed, Elems(ps))
    && counts.tasks == |removed| && counts.tasks == |s.tasks| - |t.tasks|
    && |Elems(ps)| == |s.projects| - |t.projects|
  }

  /**
   A purge of any selection, however its tasks, their ancestors and their projects overlap,
   goes through, and the task rows it reports are exactly those that disappear.
   */
  lemma PurgeReportsTasks(s: State, projectIds: seq<int>, taskIds: seq<int>)
    requires Consistent(s)
    ensures WellFormed(s) && PurgeSelected(s, projectIds, taskIds).Ok?
    ensures var r := PurgeSelected(s, projectIds, taskIds).value;
            var ts, ps := TrashedIds(s, taskIds), PurgeableIds(s, projectIds);
            ReportsTasks(s, r.0, r.1, RemovedIds(s, ts, ps), ps)
  {
    TaskSteps.ConsistentWellFormed(s);
    var ts, ps := TrashedIds(s, taskIds), PurgeableIds(s, projectIds);
    TasksThenProjects(s, ts, ps);
    hide Consistent, WellFormed, Sound, PurgeEach, TrashedIds, PurgeableIds, RemovedIds, OwnedBy, PurgeProjects, Disappeared;
  }

  lemma TasksThenProjects(s: State, ts: seq<int>, ps: seq<int>)
    requires Consistent(s) && forall p :: p in ps ==> Purgeable(s, p)
    ensures WellFormed(s) && PurgeProjects(PurgeEach(s, ts), ps).Ok?
    ensures var removed := RemovedIds(s, ts, ps);
            ReportsTasks(s, PurgeProjects(PurgeEach(s, ts), ps).value, PurgeCounts(|ps|, |removed|), removed, ps)
  {
    AfterTasks(s, ts, ps);
    RemovedIsUnion(s, ts, ps);
    RemovedExist(s, ts, ps);
    var mid := PurgeEach(s, ts);
    PurgeProjectsReach(s, mid, Reach(s, ts), ps);
    PurgeEachProjects(s, ts);
    SelectedExist(s, ps);
    hide Consistent, WellFormed, Sound, PurgeEach, RemovedIds, OwnedBy, PurgeProjects, PurgedTo, Midway, ReportsTasks, Purgeable, Reach,
         TrashedTasks;
    Report(s, PurgeProjects(mid, ps).value, RemovedIds(s, ts, ps), ps);
  }

  lemma SelectedExist(s: State, ps: seq<int>)
    requires forall p :: p in ps ==> Purgeable(s, p)
    ensures Elems(ps) <= s.projects.Keys
  {
    forall p | p in Elems(ps) ensures p in s.projects.Keys {
      assert p in ps;
    }
  }

  lemma Report(s: State, t: State, removed: set<int>, ps: seq<int>)
    requires Consistent(t) && PurgedTo(s, t, removed) && removed <= TrashedTasks(s) && SameProjects(s, t)
    requires t.projects.Keys == s.projects.Keys - Elems(ps) && Elems(ps) <= s.projects.Keys
    ensures ReportsTasks(s, t, PurgeCounts(|ps|, |removed|), removed, ps)
  {
    hide Consistent, PurgedTo, Disappeared, TrashedTasks;
    CountsOf(s, t, removed, Elems(ps));
  }

  lemma AfterTasks(s: State, ts: seq<int>, ps: seq<int>)
    requires Consistent(s) && forall p :: p in ps ==> Purgeable(s, p)
    ensures WellFormed(s) && Midway(s, PurgeEach(s, ts), Reach(s, ts), ps)
  {
    TaskSteps.ConsistentWellFormed(s);
    NothingGone(s);
    PurgeEachReaches(s, s, {}, ts);
    PurgeEachKeeps(s, ts);
    hide Consistent, WellFormed, Sound, PurgeEach, DownClosed, PurgedTo;
    assert {} + Reach(s, ts) == Reach(s, ts);
  }

  lemma NothingGone(s: State)
    ensures PurgedTo(s, s, {}) && DownClosed(s, {})
  {
  }

  lemma RemovedExist(s: State, ts: seq<int>, ps: seq<int>)
    ensures RemovedIds(s, ts, ps) <= TrashedTasks(s)
  {
    var roots := ts + OwnedIds(s, ps);
    forall r | r in roots && Trashed(s, r) ensures TaskPurge.Doomed(s, r) <= TrashedTasks(s) {
      TaskPurge.DoomedExist(s, r);
    }
    ReachWithin(s, roots, TrashedTasks(s));
  }

  lemma SplitSize(whole: set<int>, rest: set<int>, gone: set<int>)
    requires rest == whole - gone && gone <= whole
    ensures |gone| == |whole| - |rest|
    ensures forall x :: x in rest <==> x in whole && x !in gone
  {
    assert whole == rest + gone;
  }

  lemma CountsOf(s: State, t: State, removed: set<int>, projects: set<int>)
    requires PurgedTo(s, t, removed) && removed <= TrashedTasks(s) && SameProjects(s, t)
    requires t.projects.Keys == s.projects.Keys - projects && projects <= s.projects.Keys
    ensures Disappeared(s, t, removed, projects) && |removed| == |s.tasks| - |t.tasks|
    ensures |projects| == |s.projects| - |t.projects|
  {
    KeysLeft(s, t, removed);
    hide PurgedTo, TrashedTasks, SameProjects;
    SplitSize(s.tasks.Keys, t.tasks.Keys, removed);
    SplitSize(s.projects.Keys, t.projects.Keys, projects);
    forall p ensures p in t.projects <==> p in s.projects && p !in projects {
      assert p in t.projects.Keys <==> p in s.projects.Keys - projects;
    }
  }

  lemma KeysLeft(s: State, t: State, removed: set<int>)
    requires PurgedTo(s, t, removed) && removed <= TrashedTasks(s)
    ensures t.tasks.Keys == s.tasks.Keys - removed && removed <= s.tasks.Keys
  {
    hide TaskPurge.CutLoose;
    forall x ensures x in t.tasks.Keys <==> x in s.tasks.Keys - removed {
    }
    forall x | x in removed ensures x in s.tasks.Keys {
      assert x in TrashedTasks(s);
    }
  }

  // ---- emptying -----------------------------------------------------------------------

  lemma AllTrashReached(s: State, ts: seq<int>)
    requires forall x :: Trashed(s, x) <==> x in ts
    ensures TrashedTasks(s) <= Reach(s, ts)
  {
    forall x | x in TrashedTasks(s) ensures x in Reach(s, ts) {
      ReachHas(s, ts, x);
      TaskPurge.DoomedExist(s, x);
    }
  }

  /** No id that counts is repeated in a later chunk. */
  predicate NoRepeats(s: State, ids: seq<int>) {
    forall i, j :: 0 <= i < j < |ids| && i / IN_CHUNK != j / IN_CHUNK && ids[i] == ids[j] ==> !Purgeable(s, ids[i])
  }

  lemma {:induction false} DistinctIffNoRepeats(s: State, ids: seq<int>)
    ensures Distinct(PurgeableIds(s, ids)) <==> NoRepeats(s, ids)
  {
    if ids != [] {
      var n := FirstChunk(ids);
      var head := Sorted(set p | p in ids[..n] && Purgeable(s, p));
      var tail := PurgeableIds(s, ids[n..]);
      DistinctIffNoRepeats(s, ids[n..]);
      ConcatDistinct(head, tail);
      RepeatsSplit(s, ids, n);
      assert PurgeableIds(s, ids) == head + tail;
      if forall x :: !(x in ids[..n] && x in ids[n..] && Purgeable(s, x)) {
        forall x ensures !(x in head && x in tail) {
          assert x in head ==> x in ids[..n] && Purgeable(s, x);
        }
      } else {
        var x :| x in ids[..n] && x in ids[n..] && Purgeable(s, x);
        assert x in head && x in tail;
      }
    }
  }

  lemma ConcatDistinct(a: seq<int>, b: seq<int>)
    requires Distinct(a)
    ensures Distinct(a + b) <==> Distinct(b) && forall x :: !(x in a && x in b)
  {
    var c := a + b;
    if Distinct(c) {
      forall i, j | 0 <= i < j < |b| ensures b[i] != b[j] {
        assert c[|a| + i] != c[|a| + j];
      }
      forall x ensures !(x in a && x in b) {
        if x in a && x in b { Repeated(a, b, x); assert false; }
      }
    }
    if Distinct(b) && forall x :: !(x in a && x in b) {
      forall i, j | 0 <= i < j < |c| ensures c[i] != c[j] {
        assert c[i] in a || c[i] in b;
        if i < |a| { assert c[i] in a; }
        if j >= |a| { assert c[j] in b; }
      }
    }
  }

  lemma Repeated(a: seq<int>, b: seq<int>, x: int)
    requires x in a && x in b
    ensures !Distinct(a + b)
  {
    var i :| 0 <= i < |a| && a[i] == x;
    var j :| 0 <= j < |b| && b[j] == x;
    var c := a + b;
    assert c[i] == x && c[|a| + j] == x;
  }

  lemma RepeatsSplit(s: State, ids: seq<int>, n: nat)
    requires ids != [] && n == FirstChunk(ids)
    ensures NoRepeats(s, ids)
            <==> NoRepeats(s, ids[n..]) && forall x :: !(x in ids[..n] && x in ids[n..] && Purgeable(s, x))
  {
    var rest := ids[n..];
    if NoRepeats(s, ids) {
      forall i, j | 0 <= i < j < |rest| && i / IN_CHUNK != j / IN_CHUNK && rest[i] == rest[j] ensures !Purgeable(s, rest[i]) {
        assert ids[n + i] == rest[i] && ids[n + j] == rest[j];
        ChunkShift(i, n);
        ChunkShift(j, n);
      }
      forall x ensures !(x in ids[..n] && x in rest && Purgeable(s, x)) {
        if x in ids[..n] && x in rest {
          var i :| 0 <= i < n && ids[i] == x;
          var j :| 0 <= j < |rest| && rest[j] == x;
          assert ids[n + j] == x;
          assert i / IN_CHUNK != (n + j) / IN_CHUNK;
        }
      }
    }
    if NoRepeats(s, rest) && forall x :: !(x in ids[..n] && x in rest && Purgeable(s, x)) {
      forall i, j | 0 <= i < j < |ids| && i / IN_CHUNK != j / IN_CHUNK && ids[i] == ids[j] ensures !Purgeable(s, ids[i]) {
        if i < n {
          assert ids[..n][i] == ids[i];
          assert n <= j;
          assert rest[j - n] == ids[j];
        } else {
          assert rest[i - n] == ids[i] && rest[j - n] == ids[j];
          ChunkShift(i - n, n);
          ChunkShift(j - n, n);
        }
      }
    }
  }

  lemma ChunkShift(i: nat, n: nat)
    requires n == IN_CHUNK
    ensures (n + i) / IN_CHUNK == i / IN_CHUNK + 1
  {
  }

  lemma {:induction false} DistinctSize(ps: seq<int>)
    ensures |Elems(ps)| <= |ps| && (|Elems(ps)| == |ps| <==> Distinct(ps))
  {
    if ps != [] {
      var rest := ps[1..];
      HeadElems(ps);
      DistinctSize(rest);
      assert ps[0] in rest <==> ps[0] in Elems(rest);
      if ps[0] in rest {
        var j :| 0 <= j < |rest| && rest[j] == ps[0];
        assert ps[0] == ps[j + 1];
        assert Elems(ps) == Elems(rest);
      } else {
        assert |Elems(ps)| == 1 + |Elems(rest)|;
        if Distinct(rest) {
          forall i, j | 0 <= i < j < |ps| ensures ps[i] != ps[j] {
            assert ps[j] == rest[j - 1];
            if i > 0 { assert ps[i] == rest[i - 1]; }
          }
        }
        if Distinct(ps) {
          forall i, j | 0 <= i < j < |rest| ensures rest[i] != rest[j] {
            assert ps[i + 1] != ps[j + 1];
          }
        }
      }
    }
  }

  /**
   The reported number of projects is right if and only if no purgeable id is repeated from one
   chunk of 900 ids to another: each chunk is resolved by its own query.
   */
  lemma ProjectCountRightIff(s: State, projectIds: seq<int>, taskIds: seq<int>)
    requires Consistent(s)
    ensures WellFormed(s) && PurgeSelected(s, projectIds, taskIds).Ok?
    ensures var r := PurgeSelected(s, projectIds, taskIds).value;
            r.1.projects == |s.projects| - |r.0.projects| <==> NoRepeats(s, projectIds)
  {
    PurgeReportsTasks(s, projectIds, taskIds);
    DistinctIffNoRepeats(s, projectIds);
    DistinctSize(PurgeableIds(s, projectIds));
    hide Consistent, WellFormed, Sound, PurgeEach, TrashedIds, PurgeableIds, RemovedIds, PurgeProjects, Disappeared, NoRepeats, Distinct;
  }

  /** A project named 901 times is counted twice and purged once. */
  lemma ProjectCountedTwice(s: State, p: int)
    requires Consistent(s) && Purgeable(s, p)
    ensures var ids := seq(IN_CHUNK + 1, i => p);
            && WellFormed(s) && PurgeSelected(s, ids, []).Ok?
            && PurgeSelected(s, ids, []).value.1.projects > |s.projects| - |PurgeSelected(s, ids, []).value.0.projects|
  {
    var ids := seq(IN_CHUNK + 1, i => p);
    PurgeReportsTasks(s, ids, []);
    ProjectCountRightIff(s, ids, []);
    DistinctSize(PurgeableIds(s, ids));
    hide Consistent, WellFormed, Sound, PurgeEach, TrashedIds, PurgeableIds, RemovedIds, PurgeProjects, Disappeared, Distinct, Purgeable;
    assert ids[0] == ids[IN_CHUNK];
    assert !NoRepeats(s, ids);
  }

  /**
   Emptying the trash removes every trashed task and every trashed project, and reports what the
   confirm promised; run again, it would report nothing.
   */
  lemma EmptyTrashMatchesTotal(s: State)
    requires Consistent(s)
    ensures WellFormed(s) && EmptyTrash(s).Ok?
    ensures var r := EmptyTrash(s).value;
            && Consistent(r.0) && r.1.tasks + r.1.projects == PurgeTotal(s)
            && TrashedTasks(r.0) == {} && (forall p :: p in r.0.projects ==> !r.0.projects[p].deleted)
            && PurgeTotal(r.0) == 0
  {
    TaskSteps.ConsistentWellFormed(s);
    var projectIds := Sorted(set p | p in s.projects && s.projects[p].deleted);
    var taskIds := Sorted(TrashedTasks(s));
    var ts, ps := TrashedIds(s, taskIds), PurgeableIds(s, projectIds);
    PurgeReportsTasks(s, projectIds, taskIds);
    EverythingReached(s, ts, ps);
    AllProjects(s, projectIds);
    DistinctSize(ps);
    hide Consistent, PurgeEach, TrashedIds, PurgeableIds, RemovedIds, PurgeProjects, Distinct, PurgedTo, Reach, PurgeSelected;
    var r := EmptyTrash(s).value;
    NothingLeft(s, r.0, ps);
  }

  lemma EverythingReached(s: State, ts: seq<int>, ps: seq<int>)
    requires forall x :: Trashed(s, x) <==> x in ts
    ensures RemovedIds(s, ts, ps) == TrashedTasks(s)
  {
    AllTrashReached(s, ts);
    RemovedIsUnion(s, ts, ps);
    RemovedExist(s, ts, ps);
  }

  lemma AllProjects(s: State, ids: seq<int>)
    requires Distinct(ids) && forall p :: p in s.projects && s.projects[p].deleted ==> p in ids
    ensures Elems(PurgeableIds(s, ids)) == PurgeableProjects(s) && Distinct(PurgeableIds(s, ids))
  {
    DistinctIffNoRepeats(s, ids);
    var ps := PurgeableIds(s, ids);
    forall p ensures p in Elems(ps) <==> p in PurgeableProjects(s) {
      assert p in Elems(ps) <==> p in ps;
    }
  }

  lemma NothingLeft(s: State, t: State, ps: seq<int>)
    requires WellFormed(s) && Disappeared(s, t, TrashedTasks(s), Elems(ps)) && Elems(ps) == PurgeableProjects(s)
    ensures TrashedTasks(t) == {} && (forall p :: p in t.projects ==> !t.projects[p].deleted) && PurgeTotal(t) == 0
  {
    forall x | x in t.tasks ensures !t.tasks[x].deleted {
      assert x !in TrashedTasks(s);
    }
    forall p | p in t.projects ensures !t.projects[p].deleted {
      assert p !in PurgeableProjects(s);
    }
    assert PurgeableProjects(t) == {};
  }
}
