/**
 A forest of parent links, as a finite map from a row to its parent.

 Every walk over task rows in the services follows such links: the active subtree, the
 trashed subtree of one project, the stored parent chain. A link map is whatever part of
 the stored links that walk may use.
 */
module Forest {
  import opened Common

  type Links = map<int, int>

  /** Going up `k` links from `x` lands on `y`. */
  ghost predicate Climbs(up: Links, x: int, k: nat, y: int)
    decreases k
  {
    if k == 0 then x == y else x in up && Climbs(up, up[x], k - 1, y)
  }

  ghost predicate Reaches(up: Links, x: int, y: int) {
    exists k: nat :: Climbs(up, x, k, y)
  }

  /** No walk up from `x` comes back to it. */
  ghost predicate OffCycle(up: Links, x: int) {
    forall k: nat :: k > 0 ==> !Climbs(up, x, k, x)
  }

  ghost predicate Acyclic(up: Links) {
    forall x :: OffCycle(up, x)
  }

  /** `root` and everything below it. */
  ghost function Subtree(up: Links, root: int): set<int> {
    set x | x in up.Keys + {root} && Reaches(up, x, root)
  }

  function Kids(up: Links, x: int): set<int> {
    set c | c in up && up[c] == x
  }

  lemma {:induction false} ClimbsJoin(up: Links, x: int, j: nat, y: int, k: nat, z: int)
    requires Climbs(up, x, j, y) && Climbs(up, y, k, z)
    ensures Climbs(up, x, j + k, z)
    decreases j
  {
    if j > 0 {
      ClimbsJoin(up, up[x], j - 1, y, k, z);
    }
  }

  /** Climbing is deterministic: a longer climb passes through the shorter one's end. */
  lemma {:induction false} ClimbsSplit(up: Links, x: int, j: nat, y: int, k: nat, z: int)
    requires Climbs(up, x, j, y) && Climbs(up, x, j + k, z)
    ensures Climbs(up, y, k, z)
    decreases j
  {
    if j > 0 {
      ClimbsSplit(up, up[x], j - 1, y, k, z);
    }
  }

  lemma ReachesSelf(up: Links, x: int)
    ensures Reaches(up, x, x)
  {
    assert Climbs(up, x, 0, x);
  }

  lemma ReachesStep(up: Links, x: int, y: int)
    requires x in up && Reaches(up, up[x], y)
    ensures Reaches(up, x, y)
  {
    var k: nat :| Climbs(up, up[x], k, y);
    assert Climbs(up, x, k + 1, y);
  }

  lemma ReachesTrans(up: Links, x: int, y: int, z: int)
    requires Reaches(up, x, y) && Reaches(up, y, z)
    ensures Reaches(up, x, z)
  {
    var j: nat :| Climbs(up, x, j, y);
    var k: nat :| Climbs(up, y, k, z);
    ClimbsJoin(up, x, j, y, k, z);
  }

  /** Everything strictly below a node enters it through one of its kids. */
  lemma {:induction false} EntersThroughKid(up: Links, x: int, k: nat, y: int) returns (c: int)
    requires k > 0 && Climbs(up, x, k, y)
    ensures c in Kids(up, y) && Climbs(up, x, k - 1, c)
    decreases k
  {
    if k == 1 {
      c := x;
    } else {
      c := EntersThroughKid(up, up[x], k - 1, y);
    }
  }

  lemma KidOffCycle(up: Links, c: int, y: int)
    requires c in Kids(up, y) && OffCycle(up, y)
    ensures OffCycle(up, c)
  {
    forall k: nat | k > 0 ensures !Climbs(up, c, k, c) {
      if Climbs(up, c, k, c) {
        // c -> y -> ... -> c -> y
        assert Climbs(up, y, k - 1, c);
        assert Climbs(up, c, 1, y) by { assert Climbs(up, y, 0, y); }
        ClimbsJoin(up, y, k - 1, c, 1, y);
        assert false;
      }
    }
  }

  /** Everything below a node off the cycles is off them too. */
  lemma {:induction false} BelowOffCycle(up: Links, x: int, k: nat, y: int)
    requires Climbs(up, x, k, y) && OffCycle(up, y)
    ensures OffCycle(up, x)
    decreases k
  {
    if k > 0 {
      BelowOffCycle(up, up[x], k - 1, y);
      KidOffCycle(up, x, up[x]);
    }
  }

  lemma KidSubtree(up: Links, c: int, y: int)
    requires c in Kids(up, y) && OffCycle(up, y)
    ensures Subtree(up, c) <= Subtree(up, y)
    ensures y !in Subtree(up, c) && y in Subtree(up, y)
    ensures |Subtree(up, c)| < |Subtree(up, y)|
  {
    ReachesSelf(up, y);
    assert Reaches(up, c, y) by { ReachesStep(up, c, y); }
    forall x | x in Subtree(up, c) ensures x in Subtree(up, y) {
      ReachesTrans(up, x, c, y);
    }
    if Reaches(up, y, c) {
      var k: nat :| Climbs(up, y, k, c);
      assert Climbs(up, c, 1, y) by { assert Climbs(up, y, 0, y); }
      ClimbsJoin(up, y, k, c, 1, y);
      assert false;
    }
    SubsetSize(Subtree(up, c), Subtree(up, y));
  }

  lemma SubtreeUnfold(up: Links, y: int)
    ensures y in Subtree(up, y)
    ensures forall x :: x in Subtree(up, y) <==>
                          x == y || exists c :: c in Kids(up, y) && x in Subtree(up, c)
  {
    ReachesSelf(up, y);
    forall x
      ensures x in Subtree(up, y) <==>
                x == y || exists c :: c in Kids(up, y) && x in Subtree(up, c)
    {
      if x in Subtree(up, y) && x != y {
        var k: nat :| Climbs(up, x, k, y);
        var c := EntersThroughKid(up, x, k, y);
        assert c in Kids(up, y) && x in Subtree(up, c);
      }
      if exists c :: c in Kids(up, y) && x in Subtree(up, c) {
        var c :| c in Kids(up, y) && x in Subtree(up, c);
        ReachesSelf(up, y);
        ReachesStep(up, c, y);
        ReachesTrans(up, x, c, y);
        var k: nat :| Climbs(up, x, k, c);
      }
    }
  }

  lemma ClimbOrder(up: Links, x: int, j: nat, a: int, k: nat, b: int)
    requires Climbs(up, x, j, a) && Climbs(up, x, k, b) && j <= k
    ensures Reaches(up, a, b)
  {
    ClimbsSplit(up, x, j, a, k - j, b);
  }

  /** Different kids of one node head disjoint subtrees. */
  lemma KidsDisjoint(up: Links, y: int, c: int, d: int)
    requires OffCycle(up, y) && c in Kids(up, y) && d in Kids(up, y) && c != d
    ensures Subtree(up, c) !! Subtree(up, d)
  {
    forall x | x in Subtree(up, c) && x in Subtree(up, d) ensures false {
      var j: nat :| Climbs(up, x, j, c);
      var k: nat :| Climbs(up, x, k, d);
      if j <= k {
        ClimbsSplit(up, x, j, c, k - j, d);
        NotAboveSibling(up, y, c, d, k - j);
      } else {
        ClimbsSplit(up, x, k, d, j - k, c);
        NotAboveSibling(up, y, d, c, j - k);
      }
    }
  }

  lemma NotAboveSibling(up: Links, y: int, c: int, d: int, k: nat)
    requires OffCycle(up, y) && c in Kids(up, y) && d in Kids(up, y) && c != d
    ensures !Climbs(up, c, k, d)
  {
    if Climbs(up, c, k, d) {
      assert Climbs(up, y, k - 1, d);
      assert Climbs(up, d, 1, y) by { assert Climbs(up, y, 0, y); }
      ClimbsJoin(up, y, k - 1, d, 1, y);
      assert false;
    }
  }

  /** A walk that may use fewer links climbs no further. */
  lemma {:induction false} FewerLinks(small: Links, big: Links, x: int, k: nat, y: int)
    requires forall z :: z in small ==> z in big && big[z] == small[z]
    requires Climbs(small, x, k, y)
    ensures Climbs(big, x, k, y)
    decreases k
  {
    if k > 0 {
      FewerLinks(small, big, small[x], k - 1, y);
    }
  }

  lemma FewerLinksAcyclic(small: Links, big: Links)
    requires forall z :: z in small ==> z in big && big[z] == small[z]
    requires Acyclic(big)
    ensures Acyclic(small)
  {
    forall x ensures OffCycle(small, x) {
      assert OffCycle(big, x);
      forall k: nat | k > 0 ensures !Climbs(small, x, k, x) {
        if Climbs(small, x, k, x) { FewerLinks(small, big, x, k, x); }
      }
    }
  }

  // ---- walk orders ----------------------------------------------------------

  /** Root first, then each kid's walk in id order. */
  ghost function PreOrder(up: Links, root: int): seq<int>
    requires OffCycle(up, root)
    decreases |Subtree(up, root)|, 1, 0
  {
    [root] + PreOrderAll(up, root, Sorted(Kids(up, root)))
  }

  ghost function PreOrderAll(up: Links, root: int, kids: seq<int>): seq<int>
    requires OffCycle(up, root) && forall c :: c in kids ==> c in Kids(up, root)
    decreases |Subtree(up, root)|, 0, |kids|
  {
    if kids == [] then [] else
      KidSubtree(up, kids[0], root);
      KidOffCycle(up, kids[0], root);
      PreOrder(up, kids[0]) + PreOrderAll(up, root, kids[1..])
  }

  /** Kids' walks in id order, root last. */
  ghost function PostOrder(up: Links, root: int): seq<int>
    requires OffCycle(up, root)
    decreases |Subtree(up, root)|, 1, 0
  {
    PostOrderAll(up, root, Sorted(Kids(up, root))) + [root]
  }

  ghost function PostOrderAll(up: Links, root: int, kids: seq<int>): seq<int>
    requires OffCycle(up, root) && forall c :: c in kids ==> c in Kids(up, root)
    decreases |Subtree(up, root)|, 0, |kids|
  {
    if kids == [] then [] else
      KidSubtree(up, kids[0], root);
      KidOffCycle(up, kids[0], root);
      PostOrder(up, kids[0]) + PostOrderAll(up, root, kids[1..])
  }

  /** The ids below any of `kids`. */
  ghost function Below(up: Links, kids: seq<int>): set<int> {
    set c, x | c in kids && x in Subtree(up, c) :: x
  }

  /** Every parent stands before its kids. */
  ghost predicate ParentsFirst(up: Links, s: seq<int>) {
    forall i, j :: 0 <= i < |s| && 0 <= j < |s| && LinksTo(up, s[i], s[j]) ==> j < i
  }

  ghost predicate KidsFirst(up: Links, s: seq<int>) {
    forall i, j :: 0 <= i < |s| && 0 <= j < |s| && LinksTo(up, s[i], s[j]) ==> i < j
  }

  predicate LinksTo(up: Links, x: int, p: int) {
    x in up && up[x] == p
  }

  /** Adding the root to the walks of its kids, at either end. */
  lemma RootJoins(up: Links, root: int, kids: seq<int>, rest: seq<int>)
    requires OffCycle(up, root) && Elems(kids) == Kids(up, root)
    requires Elems(rest) == Below(up, kids)
    ensures root !in rest
    ensures Elems(rest) + {root} == Subtree(up, root)
  {
    SubtreeUnfold(up, root);
    if root in rest {
      assert root in Elems(rest);
      var c :| c in kids && root in Subtree(up, c);
      assert c in Elems(kids);
      KidSubtree(up, c, root);
      assert false;
    }
    forall x ensures x in Elems(rest) + {root} <==> x in Subtree(up, root) {
      if x in Elems(rest) {
        var c :| c in kids && x in Subtree(up, c);
        assert c in Elems(kids);
      }
      if x in Subtree(up, root) && x != root {
        var c :| c in Kids(up, root) && x in Subtree(up, c);
        assert c in Elems(kids);
        assert x in Below(up, kids);
      }
    }
  }

  /** The root's own parent, if any, is not below it. */
  lemma RootHasNoParentBelow(up: Links, root: int, x: int)
    requires OffCycle(up, root) && x in Subtree(up, root)
    ensures root in up ==> up[root] != x
  {
    if root in up && up[root] == x {
      var k: nat :| Climbs(up, x, k, root);
      assert Climbs(up, root, k + 1, root);
      assert false;
    }
  }

  lemma RootBeforeRest(up: Links, root: int, rest: seq<int>)
    requires ParentsFirst(up, rest)
    requires forall x :: x in [root] + rest && root in up ==> up[root] != x
    ensures ParentsFirst(up, [root] + rest)
  {
    var all := [root] + rest;
    forall i, j | 0 <= i < |all| && 0 <= j < |all| && LinksTo(up, all[i], all[j])
      ensures j < i
    {
      assert all[j] in all;
      if i > 0 && j > 0 {
        assert rest[i - 1] == all[i] && rest[j - 1] == all[j];
      }
    }
  }

  lemma RootAfterRest(up: Links, root: int, rest: seq<int>)
    requires KidsFirst(up, rest)
    requires forall x :: x in rest + [root] && root in up ==> up[root] != x
    ensures KidsFirst(up, rest + [root])
  {
    var all := rest + [root];
    forall i, j | 0 <= i < |all| && 0 <= j < |all| && LinksTo(up, all[i], all[j])
      ensures i < j
    {
      assert all[j] in all;
      if i < |rest| && j < |rest| {
        assert rest[i] == all[i] && rest[j] == all[j];
      }
    }
  }

  /** What adding the root does to a walk of everything below it, at either end. */
  lemma WithRoot(up: Links, root: int, kids: seq<int>, rest: seq<int>)
    requires OffCycle(up, root) && Elems(kids) == Kids(up, root)
    requires Elems(rest) == Below(up, kids) && Distinct(rest)
    ensures Elems([root] + rest) == Elems(rest + [root]) == Subtree(up, root)
    ensures Distinct([root] + rest) && Distinct(rest + [root])
    ensures ParentsFirst(up, rest) ==> ParentsFirst(up, [root] + rest)
    ensures KidsFirst(up, rest) ==> KidsFirst(up, rest + [root])
  {
    RootJoins(up, root, kids, rest);
    assert Elems([root] + rest) == Elems(rest) + {root};
    assert Elems(rest + [root]) == Elems(rest) + {root};
    forall x | x in Subtree(up, root) && root in up ensures up[root] != x {
      RootHasNoParentBelow(up, root, x);
    }
    assert forall x :: x in [root] + rest || x in rest + [root] ==> x in Subtree(up, root);
    if ParentsFirst(up, rest) { RootBeforeRest(up, root, rest); }
    if KidsFirst(up, rest) { RootAfterRest(up, root, rest); }
  }

  lemma {:induction false} PreOrderShape(up: Links, root: int)
    requires OffCycle(up, root)
    ensures Elems(PreOrder(up, root)) == Subtree(up, root)
    ensures Distinct(PreOrder(up, root))
    ensures ParentsFirst(up, PreOrder(up, root))
    ensures PreOrder(up, root)[0] == root
    decreases |Subtree(up, root)|, 1, 0
  {
    var kids := Sorted(Kids(up, root));
    PreOrderAllShape(up, root, kids);
    WithRoot(up, root, kids, PreOrderAll(up, root, kids));
  }

  lemma {:induction false} PreOrderAllShape(up: Links, root: int, kids: seq<int>)
    requires OffCycle(up, root) && Distinct(kids) && forall c :: c in kids ==> c in Kids(up, root)
    ensures Elems(PreOrderAll(up, root, kids)) == Below(up, kids)
    ensures Distinct(PreOrderAll(up, root, kids))
    ensures ParentsFirst(up, PreOrderAll(up, root, kids))
    decreases |Subtree(up, root)|, 0, |kids|
  {
    if kids == [] {
    } else {
      var c := kids[0];
      KidSubtree(up, c, root);
      KidOffCycle(up, c, root);
      PreOrderShape(up, c);
      PreOrderAllShape(up, root, kids[1..]);
      var a, b := PreOrder(up, c), PreOrderAll(up, root, kids[1..]);
      ConcatWalks(up, root, kids, a, b);
      TwoWalksDown(up, root, kids, a, b);
    }
  }

  lemma TwoWalksDown(up: Links, root: int, kids: seq<int>, a: seq<int>, b: seq<int>)
    requires OffCycle(up, root) && kids != [] && Distinct(kids) && forall c :: c in kids ==> c in Kids(up, root)
    requires Elems(a) == Subtree(up, kids[0]) && Elems(b) == Below(up, kids[1..])
    requires ParentsFirst(up, a) && ParentsFirst(up, b)
    ensures ParentsFirst(up, a + b)
  {
    hide OffCycle, Subtree, Below, Kids, Distinct;
    forall i, j | 0 <= i < |a + b| && 0 <= j < |a + b| && LinksTo(up, (a + b)[i], (a + b)[j]) ensures j < i {
      if i < |a| && j >= |a| {
        assert (a + b)[i] in Elems(a) && (a + b)[j] in Elems(b);
        CrossLink(up, root, kids, (a + b)[i], (a + b)[j]);
      } else if i >= |a| && j >= |a| {
        assert (a + b)[i] == b[i - |a|] && (a + b)[j] == b[j - |a|];
      }
    }
  }

  /** Two walks over different kids share no id; their union is what is below both. */
  lemma ConcatWalks(up: Links, root: int, kids: seq<int>, a: seq<int>, b: seq<int>)
    requires OffCycle(up, root) && kids != [] && Distinct(kids)
    requires forall c :: c in kids ==> c in Kids(up, root)
    requires Elems(a) == Subtree(up, kids[0]) && Distinct(a)
    requires Elems(b) == Below(up, kids[1..]) && Distinct(b)
    ensures Elems(a + b) == Below(up, kids) && Distinct(a + b)
  {
    forall x | x in a && x in b ensures false {
      assert x in Elems(a) && x in Elems(b);
      var d :| d in kids[1..] && x in Subtree(up, d);
      KidsDisjoint(up, root, kids[0], d);
    }
    forall x ensures x in Elems(a + b) <==> x in Below(up, kids) {
      if x in a + b {
        if x in a { assert x in Elems(a); assert kids[0] in kids; }
        else { assert x in Elems(b); var d :| d in kids[1..] && x in Subtree(up, d); assert d in kids; }
      }
      if x in Below(up, kids) {
        var d :| d in kids && x in Subtree(up, d);
        if d == kids[0] { assert x in Elems(a); } else { assert d in kids[1..]; assert x in Elems(b); }
      }
    }
    forall i, j | 0 <= i < j < |a + b| ensures (a + b)[i] != (a + b)[j] {
      if i < |a| <= j { assert (a + b)[i] in a && (a + b)[j] in b; }
      else if |a| <= i { assert (a + b)[i] == b[i - |a|] && (a + b)[j] == b[j - |a|]; }
    }
  }

  /** No parent link runs from one kid's subtree into another's. */
  lemma CrossLink(up: Links, root: int, kids: seq<int>, x: int, p: int)
    requires OffCycle(up, root) && kids != [] && Distinct(kids)
    requires forall c :: c in kids ==> c in Kids(up, root)
    requires x in Subtree(up, kids[0]) && p in Below(up, kids[1..])
    ensures x in up ==> up[x] != p
  {
    var d :| d in kids[1..] && p in Subtree(up, d);
    KidsDisjoint(up, root, kids[0], d);
    if x in up && up[x] == p {
      ReachesStep(up, x, d);
      assert false;
    }
  }

  lemma CrossLinkBack(up: Links, root: int, kids: seq<int>, x: int, p: int)
    requires OffCycle(up, root) && kids != [] && Distinct(kids)
    requires forall c :: c in kids ==> c in Kids(up, root)
    requires p in Subtree(up, kids[0]) && x in Below(up, kids[1..])
    ensures x in up ==> up[x] != p
  {
    var d :| d in kids[1..] && x in Subtree(up, d);
    KidsDisjoint(up, root, kids[0], d);
    if x in up && up[x] == p {
      ReachesStep(up, x, kids[0]);
      assert false;
    }
  }

  lemma {:induction false} PostOrderShape(up: Links, root: int)
    requires OffCycle(up, root)
    ensures Elems(PostOrder(up, root)) == Subtree(up, root)
    ensures Distinct(PostOrder(up, root))
    ensures KidsFirst(up, PostOrder(up, root))
    ensures |PostOrder(up, root)| > 0 && PostOrder(up, root)[|PostOrder(up, root)| - 1] == root
    decreases |Subtree(up, root)|, 1, 0
  {
    var kids := Sorted(Kids(up, root));
    PostOrderAllShape(up, root, kids);
    WithRoot(up, root, kids, PostOrderAll(up, root, kids));
  }

  lemma {:induction false} PostOrderAllShape(up: Links, root: int, kids: seq<int>)
    requires OffCycle(up, root) && Distinct(kids) && forall c :: c in kids ==> c in Kids(up, root)
    ensures Elems(PostOrderAll(up, root, kids)) == Below(up, kids)
    ensures Distinct(PostOrderAll(up, root, kids))
    ensures KidsFirst(up, PostOrderAll(up, root, kids))
    decreases |Subtree(up, root)|, 0, |kids|
  {
    if kids == [] {
    } else {
      var c := kids[0];
      KidSubtree(up, c, root);
      KidOffCycle(up, c, root);
      PostOrderShape(up, c);
      PostOrderAllShape(up, root, kids[1..]);
      var a, b := PostOrder(up, c), PostOrderAll(up, root, kids[1..]);
      ConcatWalks(up, root, kids, a, b);
      TwoWalks(up, root, kids, a, b);
    }
  }

  lemma TwoWalks(up: Links, root: int, kids: seq<int>, a: seq<int>, b: seq<int>)
    requires OffCycle(up, root) && kids != [] && Distinct(kids) && forall c :: c in kids ==> c in Kids(up, root)
    requires Elems(a) == Subtree(up, kids[0]) && Elems(b) == Below(up, kids[1..])
    requires KidsFirst(up, a) && KidsFirst(up, b)
    ensures KidsFirst(up, a + b)
  {
    hide OffCycle, Subtree, Below, Kids, Distinct;
    forall i, j | 0 <= i < |a + b| && 0 <= j < |a + b| && LinksTo(up, (a + b)[i], (a + b)[j]) ensures i < j {
      if i >= |a| && j < |a| {
        assert (a + b)[i] in Elems(b) && (a + b)[j] in Elems(a);
        CrossLinkBack(up, root, kids, (a + b)[i], (a + b)[j]);
      } else if i >= |a| && j >= |a| {
        assert (a + b)[i] == b[i - |a|] && (a + b)[j] == b[j - |a|];
      }
    }
  }
}
