/**
 Permanent deletion of a trashed project with the trashed tasks it owns
 (backend/app/services/projects.py, `purge_project`), and the reach of a run of purges.
 */
module ProjectPurge {
  import opened Common
  import opened Store
  import opened Projects
  import opened TaskPurge
  import Forest

  /** One purge after another; an id that is no longer in the trash is skipped. */
  ghost function PurgeEach(s: State, ids: seq<int>): (r: State)
    requires WellFormed(s)
    ensures WellFormed(r)
    decreases |ids|
  {
    if ids == [] then s
    else if Trashed(s, ids[0]) then
      PurgeWellFormed(s, ids[0]);
      PurgeEach(PurgeTask(s, ids[0]), ids[1..])
    else PurgeEach(s, ids[1..])
  }

  /** The audit log once project `p` is gone: its entries stay, without the reference. */
  function Unlinked(events: seq<Event>, p: int): (r: seq<Event>)
    ensures |r| == |events|
    ensures forall i :: 0 <= i < |events| ==>
              r[i] == if events[i].project == Some(p) then events[i].(project := None) else events[i]
  {
    if events == [] then [] else
      var e := events[0];
      [if e.project == Some(p) then e.(project := None) else e] + Unlinked(events[1..], p)
  }

  /** What is left of the store when the project row itself goes. */
  function WithoutProject(s: State, p: int): State {
    State(map x | x in s.tasks ::
            if s.tasks[x].withProject == Some(p) then s.tasks[x].(withProject := None) else s.tasks[x],
          map q | q in s.projects && q != p :: s.projects[q],
          s.edges,
          Unlinked(s.events + [ProjectEvent(p, Purged)], p))
  }

  /** `purge_project`: a row still filed there makes the foreign key refuse. */
  ghost function PurgeProject(s: State, p: int): Result<State, Error>
    requires WellFormed(s) && p in s.projects
  {
    if s.projects[p].protected then Err(ProtectedProject) else
      var cleared := PurgeEach(s, Sorted(TrashedIn(s, p)));
      if exists x :: x in cleared.tasks && cleared.tasks[x].project == p then Err(StillReferenced)
      else Ok(WithoutProject(cleared, p))
  }

  lemma WithoutProjectWellFormed(s: State, p: int)
    requires WellFormed(s) && p in s.projects && !s.projects[p].protected
    requires forall x :: x in s.tasks ==> s.tasks[x].project != p
    ensures WellFormed(WithoutProject(s, p))
  {
    var t := WithoutProject(s, p);
    SameParents(s.tasks, t.tasks);
    hide Forest.Acyclic;
    forall x | x in t.tasks ensures RowWellFormed(t, t.tasks[x]) {
      assert RowWellFormed(s, s.tasks[x]);
    }
  }

  lemma SameParents(a: map<int, Task>, b: map<int, Task>)
    requires a.Keys == b.Keys && forall x :: x in a ==> b[x].parent == a[x].parent
    ensures ParentLinks(b) == ParentLinks(a)
  {
    var u, v := ParentLinks(a), ParentLinks(b);
    forall x | x in u ensures x in v && v[x] == u[x] {
      assert x in b.Keys;
    }
    forall x | x in v ensures x in u {
      assert x in a.Keys;
    }
    assert u == v;
  }

  // ---- the reach of a run of purges -----------------------------------------------------

  /** Whatever hangs, trashed and in the same project, below a row of `gone` is in `gone`. */
  ghost predicate DownClosed(s: State, gone: set<int>) {
    forall y :: HangsBelow(s, gone, y) ==> y in gone
  }

  predicate HangsBelow(s: State, gone: set<int>, y: int) {
    && Trashed(s, y) && s.tasks[y].parent.Some?
    && var q := s.tasks[y].parent.value;
    q in gone && q in s.tasks && s.tasks[q].project == s.tasks[y].project
  }

  /**
   `t` is `s` with the rows of `gone` destroyed, and maybe projects with them. The survivors keep
   their parent, their cascade marker and their archive stamp unless these named something that is
   gone, and everything else.
   */
  ghost predicate PurgedTo(s: State, t: State, gone: set<int>) {
    && (forall x :: x in t.tasks <==> x in s.tasks && x !in gone)
    && (forall p :: p in t.projects ==> p in s.projects)
    && forall x :: x in t.tasks ==>
         && LosesOnly(s.tasks[x], t.tasks[x], gone)
         && KeepsStamp(s, t, s.tasks[x].withProject, t.tasks[x].withProject)
  }

  predicate KeepsStamp(s: State, t: State, before: Option<int>, after: Option<int>) {
    if before.Some? && before.value in s.projects && before.value !in t.projects then after.None? else after == before
  }

  /** The up-front set: every row a purge of these roots would destroy. */
  ghost function Reach(s: State, roots: seq<int>): set<int> {
    if roots == [] then {} else (if Trashed(s, roots[0]) then Doomed(s, roots[0]) else {}) + Reach(s, roots[1..])
  }

  lemma {:induction false} ReachHas(s: State, roots: seq<int>, r: int)
    requires r in roots && Trashed(s, r)
    ensures Doomed(s, r) <= Reach(s, roots)
  {
    if roots[0] != r { ReachHas(s, roots[1..], r); }
  }

  lemma {:induction false} ReachWithin(s: State, roots: seq<int>, bound: set<int>)
    requires forall r :: r in roots && Trashed(s, r) ==> Doomed(s, r) <= bound
    ensures Reach(s, roots) <= bound
  {
    hide Doomed;
    if roots != [] {
      assert roots[0] in roots;
      ReachWithin(s, roots[1..], bound);
    }
  }

  lemma {:induction false} ChainStays(s: State, gone: set<int>, id: int, y: int, k: nat)
    requires DownClosed(s, gone) && id in s.tasks && id in gone
    requires Forest.Climbs(TrashLinks(s.tasks, s.tasks[id].project), y, k, id)
    ensures y in gone
    decreases k
  {
    if k > 0 {
      var up := TrashLinks(s.tasks, s.tasks[id].project);
      ChainStays(s, gone, id, up[y], k - 1);
      OneProject(s, id, up[y], k - 1);
      assert HangsBelow(s, gone, y);
    }
  }

  lemma OneProject(s: State, id: int, y: int, k: nat)
    requires id in s.tasks && Forest.Climbs(TrashLinks(s.tasks, s.tasks[id].project), y, k, id)
    ensures y in s.tasks && s.tasks[y].project == s.tasks[id].project
  {
  }

  /** A root already in the set adds nothing: what hangs below it is there too. */
  lemma RootInside(s: State, gone: set<int>, id: int)
    requires DownClosed(s, gone) && id in s.tasks && id in gone
    ensures Doomed(s, id) <= gone
  {
    forall y | y in Doomed(s, id) ensures y in gone {
      var k: nat :| Forest.Climbs(TrashLinks(s.tasks, s.tasks[id].project), y, k, id);
      ChainStays(s, gone, id, y, k);
    }
  }

  lemma DoomedClosed(s: State, gone: set<int>, id: int)
    requires DownClosed(s, gone) && id in s.tasks
    ensures DownClosed(s, gone + Doomed(s, id))
  {
    var up := TrashLinks(s.tasks, s.tasks[id].project);
    forall y | HangsBelow(s, gone + Doomed(s, id), y) ensures y in gone + Doomed(s, id) {
      var q := s.tasks[y].parent.value;
      if q in gone { assert HangsBelow(s, gone, y); } else {
        var k: nat :| Forest.Climbs(up, q, k, id);
        OneProject(s, id, q, k);
        assert Forest.Climbs(up, y, k + 1, id);
      }
    }
  }

  /** Later, the same root reaches what it always did, less what is already gone. */
  lemma DoomedLater(s: State, t: State, gone: set<int>, id: int)
    requires PurgedTo(s, t, gone) && DownClosed(s, gone) && id in t.tasks
    ensures Doomed(t, id) == Doomed(s, id) - gone
  {
    var project := s.tasks[id].project;
    var a, b := TrashLinks(s.tasks, project), TrashLinks(t.tasks, project);
    forall y | y in Doomed(t, id) ensures y in Doomed(s, id) - gone {
      var k: nat :| Forest.Climbs(b, y, k, id);
      Forest.FewerLinks(b, a, y, k, id);
      assert y == id || y in b;
    }
    forall y | y in Doomed(s, id) - gone ensures y in Doomed(t, id) {
      var k: nat :| Forest.Climbs(a, y, k, id);
      ChainSurvives(s, t, gone, id, y, k);
    }
  }

  lemma {:induction false} ChainSurvives(s: State, t: State, gone: set<int>, id: int, y: int, k: nat)
    requires PurgedTo(s, t, gone) && DownClosed(s, gone) && id in t.tasks && y !in gone
    requires Forest.Climbs(TrashLinks(s.tasks, s.tasks[id].project), y, k, id)
    ensures Forest.Climbs(TrashLinks(t.tasks, s.tasks[id].project), y, k, id)
    decreases k
  {
    if k > 0 {
      var q := TrashLinks(s.tasks, s.tasks[id].project)[y];
      OneProject(s, id, q, k - 1);
      assert q in gone ==> HangsBelow(s, gone, y);
      ChainSurvives(s, t, gone, id, q, k - 1);
    }
  }

  lemma SurvivorsCompose(s: State, t: State, gone: set<int>, more: set<int>, u: State)
    requires PurgedTo(s, t, gone) && u.tasks == Survivors(t.tasks, more) && u.projects == t.projects
    ensures PurgedTo(s, u, gone + more)
  {
  }

  lemma OnePurge(s: State, t: State, gone: set<int>, id: int)
    requires PurgedTo(s, t, gone) && DownClosed(s, gone) && WellFormed(t) && id in t.tasks
    ensures id in s.tasks
    ensures PurgedTo(s, PurgeTask(t, id), gone + Doomed(s, id)) && DownClosed(s, gone + Doomed(s, id))
  {
    DoomedLater(s, t, gone, id);
    DoomedClosed(s, gone, id);
    hide WellFormed, Sound, Doomed, DownClosed, PurgeTask;
    SurvivorsCompose(s, t, gone, Doomed(t, id), PurgeTask(t, id));
    hide PurgedTo;
    assert gone + Doomed(s, id) == gone + Doomed(t, id);
  }

  /**
   However roots overlap and in whatever order they are purged, what disappears is the union
   of their subtrees as they were at the start.
   */
  lemma {:induction false} PurgeEachReaches(s: State, t: State, gone: set<int>, roots: seq<int>)
    requires PurgedTo(s, t, gone) && DownClosed(s, gone) && WellFormed(t)
    ensures PurgedTo(s, PurgeEach(t, roots), gone + Reach(s, roots))
    ensures DownClosed(s, gone + Reach(s, roots))
    decreases |roots|
  {
    hide Doomed, PurgeTask, DownClosed, WellFormed, Sound;
    if roots == [] {
      assert gone + Reach(s, roots) == gone;
    } else {
      var r := roots[0];
      if Trashed(t, r) {
        OnePurge(s, t, gone, r);
        PurgeWellFormed(t, r);
        PurgeEachReaches(s, PurgeTask(t, r), gone + Doomed(s, r), roots[1..]);
        assert gone + Doomed(s, r) + Reach(s, roots[1..]) == gone + Reach(s, roots);
      } else {
        if Trashed(s, r) { RootInside(s, gone, r); }
        PurgeEachReaches(s, t, gone, roots[1..]);
        assert gone + Reach(s, roots[1..]) == gone + Reach(s, roots);
      }
    }
  }

  /** A project's trashed rows are the whole reach of a purge of them all. */
  lemma OwnedReach(s: State, t: State, gone: set<int>, p: int)
    requires PurgedTo(s, t, gone) && DownClosed(s, gone)
    ensures gone + Reach(s, Sorted(TrashedIn(t, p))) == gone + TrashedIn(s, p)
  {
    var owned := Sorted(TrashedIn(t, p));
    OwnedThen(s, t, gone, p);
    forall r | r in owned && Trashed(s, r) ensures Doomed(s, r) <= TrashedIn(s, p) {
      OwnedDoomed(s, p, r);
    }
    hide PurgedTo, DownClosed, Doomed, TrashedIn, Sorted;
    ReachWithin(s, owned, TrashedIn(s, p));
    forall x | x in TrashedIn(s, p) && x !in gone ensures x in Reach(s, owned) {
      ReachHas(s, owned, x);
    }
  }

  /** What a project still owns is what it owned, less what is gone. */
  lemma OwnedThen(s: State, t: State, gone: set<int>, p: int)
    requires PurgedTo(s, t, gone)
    ensures forall x :: x in Sorted(TrashedIn(t, p)) <==> x in TrashedIn(s, p) && x !in gone
    ensures forall x :: x in TrashedIn(s, p) ==> Trashed(s, x) && x in Doomed(s, x)
  {
    forall x | x in TrashedIn(s, p) ensures x in Doomed(s, x) {
      DoomedExist(s, x);
    }
    hide Doomed, CutLoose;
    forall x ensures x in TrashedIn(t, p) <==> x in TrashedIn(s, p) && x !in gone {
    }
  }

  lemma OwnedDoomed(s: State, p: int, r: int)
    requires r in TrashedIn(s, p)
    ensures Doomed(s, r) <= TrashedIn(s, p)
  {
    DoomedExist(s, r);
    hide Doomed;
  }

  lemma ClosedWith(s: State, gone: set<int>, p: int)
    requires DownClosed(s, gone)
    ensures DownClosed(s, gone + TrashedIn(s, p))
  {
    forall y | HangsBelow(s, gone + TrashedIn(s, p), y) ensures y in gone + TrashedIn(s, p) {
      if s.tasks[y].parent.value in gone { assert HangsBelow(s, gone, y); }
    }
  }

  lemma {:induction false} PurgeEachProjects(s: State, ids: seq<int>)
    requires WellFormed(s)
    ensures PurgeEach(s, ids).projects == s.projects
    decreases |ids|
  {
    hide WellFormed, Sound, PurgeTask;
    if ids != [] {
      if Trashed(s, ids[0]) {
        PurgeWellFormed(s, ids[0]);
        PurgeEachProjects(PurgeTask(s, ids[0]), ids[1..]);
      } else {
        PurgeEachProjects(s, ids[1..]);
      }
    }
  }

  lemma PurgedProject(s: State, t: State, gone: set<int>, p: int)
    requires PurgedTo(s, t, gone) && DownClosed(s, gone) && WellFormed(t) && p in t.projects
    ensures PurgeProject(t, p).Ok? ==> PurgedTo(s, PurgeProject(t, p).value, gone + TrashedIn(s, p))
    ensures DownClosed(s, gone + TrashedIn(s, p))
  {
    hide *;
    hide WellFormed;
    ClosedWith(s, gone, p);
    ClearedReach(s, t, gone, p);
    PurgeProjectCases(t, p);
    PurgeEachProjects(t, Sorted(TrashedIn(t, p)));
    if PurgeProject(t, p).Ok? {
      WithoutKeepsReach(s, PurgeEach(t, Sorted(TrashedIn(t, p))), gone + TrashedIn(s, p), p);
    }
  }

  lemma PurgeProjectCases(s: State, p: int)
    requires WellFormed(s) && p in s.projects
    ensures PurgeProject(s, p).Ok? ==> PurgeProject(s, p).value == WithoutProject(PurgeEach(s, Sorted(TrashedIn(s, p))), p)
  {
    hide WellFormed, Sound, PurgeEach, WithoutProject, Sorted, TrashedIn;
  }

  lemma ClearedReach(s: State, t: State, gone: set<int>, p: int)
    requires PurgedTo(s, t, gone) && DownClosed(s, gone) && WellFormed(t)
    ensures PurgedTo(s, PurgeEach(t, Sorted(TrashedIn(t, p))), gone + TrashedIn(s, p))
  {
    hide WellFormed, Sound, Doomed, DownClosed, PurgeEach, Reach, PurgedTo, TrashedIn;
    var owned := Sorted(TrashedIn(t, p));
    PurgeEachReaches(s, t, gone, owned);
    OwnedReach(s, t, gone, p);
  }

  lemma WithoutKeepsReach(s: State, t: State, gone: set<int>, p: int)
    requires PurgedTo(s, t, gone) && p in t.projects
    ensures PurgedTo(s, WithoutProject(t, p), gone)
  {
    hide Unlinked;
  }
}
