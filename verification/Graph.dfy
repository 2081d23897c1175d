/** Directed graphs over ids, as finite sets of arrows. */
module Graph {
  import opened Common

  type Arrows = set<(int, int)>

  ghost predicate Path(g: Arrows, x: int, k: nat, y: int)
    decreases k
  {
    if k == 0 then x == y else exists z :: (x, z) in g && Path(g, z, k - 1, y)
  }

  ghost predicate Reaches(g: Arrows, x: int, y: int) {
    exists k: nat :: Path(g, x, k, y)
  }

  ghost predicate NoCycle(g: Arrows) {
    forall x, k: nat :: k > 0 ==> !Path(g, x, k, x)
  }

  function Targets(g: Arrows, from: set<int>): set<int> {
    set a | a in g && a.0 in from :: a.1
  }

  ghost predicate Closed(g: Arrows, s: set<int>) {
    forall a :: a in g && a.0 in s ==> a.1 in s
  }

  lemma {:induction false} PathJoin(g: Arrows, x: int, j: nat, y: int, k: nat, z: int)
    requires Path(g, x, j, y) && Path(g, y, k, z)
    ensures Path(g, x, j + k, z)
    decreases j
  {
    if j > 0 {
      var w :| (x, w) in g && Path(g, w, j - 1, y);
      PathJoin(g, w, j - 1, y, k, z);
    }
  }

  /** The last arrow of a path that has one. */
  lemma {:induction false} LastArrow(g: Arrows, x: int, k: nat, y: int) returns (z: int)
    requires k > 0 && Path(g, x, k, y)
    ensures Path(g, x, k - 1, z) && (z, y) in g
    decreases k
  {
    var w :| (x, w) in g && Path(g, w, k - 1, y);
    if k == 1 { z := x; } else { z := LastArrow(g, w, k - 1, y); }
  }

  lemma ReachesSelf(g: Arrows, x: int)
    ensures Reaches(g, x, x)
  {
    assert Path(g, x, 0, x);
  }

  lemma ReachesArrow(g: Arrows, x: int, y: int, z: int)
    requires Reaches(g, x, y) && (y, z) in g
    ensures Reaches(g, x, z)
  {
    var k: nat :| Path(g, x, k, y);
    assert Path(g, z, 0, z);
    assert Path(g, y, 1, z);
    PathJoin(g, x, k, y, 1, z);
  }

  lemma ReachesTrans(g: Arrows, x: int, y: int, z: int)
    requires Reaches(g, x, y) && Reaches(g, y, z)
    ensures Reaches(g, x, z)
  {
    var j: nat :| Path(g, x, j, y);
    var k: nat :| Path(g, y, k, z);
    PathJoin(g, x, j, y, k, z);
  }

  /** What a closed set holds, its arrows cannot leave. */
  lemma {:induction false} StaysInside(g: Arrows, s: set<int>, x: int, k: nat, y: int)
    requires Closed(g, s) && x in s && Path(g, x, k, y)
    ensures y in s
    decreases k
  {
    if k > 0 {
      var z :| (x, z) in g && Path(g, z, k - 1, y);
      assert (x, z).0 in s;
      StaysInside(g, s, z, k - 1, y);
    }
  }

  lemma {:induction false} MoreArrows(g: Arrows, h: Arrows, x: int, k: nat, y: int)
    requires g <= h && Path(g, x, k, y)
    ensures Path(h, x, k, y)
    decreases k
  {
    if k > 0 {
      var z :| (x, z) in g && Path(g, z, k - 1, y);
      MoreArrows(g, h, z, k - 1, y);
    }
  }

  /** A path that may use one more arrow either avoids it or goes through both its ends. */
  lemma {:induction false} OneMoreArrow(g: Arrows, a: int, b: int, x: int, k: nat, y: int)
    requires Path(g + {(a, b)}, x, k, y)
    ensures Reaches(g, x, y) || (Reaches(g, x, a) && Reaches(g, b, y))
    decreases k
  {
    ReachesSelf(g, x);
    if k > 0 {
      var z :| (x, z) in g + {(a, b)} && Path(g + {(a, b)}, z, k - 1, y);
      OneMoreArrow(g, a, b, z, k - 1, y);
      if (x, z) in g {
        ReachesArrow(g, x, x, z);
        if Reaches(g, z, y) { ReachesTrans(g, x, z, y); } else { ReachesTrans(g, x, z, a); }
      }
    }
  }

  /** An arrow closes a cycle exactly when its head already reaches its tail. */
  lemma NoCycleIff(g: Arrows, a: int, b: int)
    requires NoCycle(g)
    ensures NoCycle(g + {(a, b)}) <==> !Reaches(g, b, a)
  {
    var h := g + {(a, b)};
    if Reaches(g, b, a) {
      var k: nat :| Path(g, b, k, a);
      MoreArrows(g, h, b, k, a);
      assert (a, b) in h;
      assert Path(h, a, k + 1, a);
    } else {
      forall x, k: nat | k > 0 ensures !Path(h, x, k, x) {
        if Path(h, x, k, x) {
          var z :| (x, z) in h && Path(h, z, k - 1, x);
          OneMoreArrow(g, a, b, z, k - 1, x);
          ReturnTrip(g, a, b, x, z);
          assert false;
        }
      }
    }
  }

  lemma ReturnTrip(g: Arrows, a: int, b: int, x: int, z: int)
    requires NoCycle(g) && (x, z) in g + {(a, b)}
    requires Reaches(g, z, x) || (Reaches(g, z, a) && Reaches(g, b, x))
    ensures Reaches(g, b, a)
  {
    ReachesSelf(g, x);
    if (x, z) in g {
      ReachesArrow(g, x, x, z);
      if Reaches(g, z, x) {
        var k: nat :| Path(g, z, k, x);
        assert Path(g, x, k + 1, x);
        assert false;
      } else {
        ReachesTrans(g, b, x, z);
        ReachesTrans(g, b, z, a);
      }
    } else if Reaches(g, z, x) {
      assert x == a && z == b;
    }
  }
}
