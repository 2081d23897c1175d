/** Small datatypes and set helpers every module shares. */
module Common {

  datatype Option<+T> = None | Some(value: T)

  /** A service call either answers or raises; a raise rolls the session back. */
  datatype Result<+T, +E> = Ok(value: T) | Err(error: E) {
    predicate IsFailure() {
      Err?
    }

    function PropagateFailure<U>(): Result<U, E>
      requires Err?
    {
      Err(error)
    }

    function Extract(): T
      requires Ok?
    {
      value
    }
  }

  predicate Distinct<T(==)>(s: seq<T>) {
    forall i, j :: 0 <= i < j < |s| ==> s[i] != s[j]
  }

  predicate Ascending(s: seq<int>) {
    forall i, j :: 0 <= i < j < |s| ==> s[i] < s[j]
  }

  function Elems<T>(s: seq<T>): set<T> {
    set x | x in s
  }

  lemma NonEmpty(s: set<int>)
    requires s != {}
    ensures exists x :: x in s
  {
    assert (forall x :: x !in s) ==> s == {};
  }

  ghost function Any(s: set<int>): (x: int)
    requires s != {}
    ensures x in s
  {
    NonEmpty(s);
    var x :| x in s;
    x
  }

  lemma FirstIn<T>(s: seq<T>)
    requires s != []
    ensures s[0] in Elems(s)
  {
  }

  lemma {:induction false} HasLeast(s: set<int>)
    requires s != {}
    ensures exists x :: x in s && forall y :: y in s ==> x <= y
  {
    var x := Any(s);
    if s - {x} != {} {
      HasLeast(s - {x});
      var z :| z in s - {x} && forall y :: y in s - {x} ==> z <= y;
      var w := if x <= z then x else z;
      assert forall y :: y in s && y != x ==> y in s - {x};
      assert w in s && forall y :: y in s ==> w <= y;
    } else {
      assert forall y :: y in s && y != x ==> y in s - {x};
    }
  }

  /** The smallest id of a nonempty set: `ORDER BY id ... .first()`. */
  function Least(s: set<int>): (r: int)
    requires s != {}
    ensures r in s && forall y :: y in s ==> r <= y
  {
    HasLeast(s);
    var x :| x in s && forall y :: y in s ==> x <= y;
    x
  }

  /** The ids of a set in ascending order: `ORDER BY id`. */
  function Sorted(s: set<int>): (r: seq<int>)
    ensures Ascending(r) && Distinct(r)
    ensures Elems(r) == s
    ensures forall x :: x in s <==> x in r
    ensures |r| == |s|
    decreases |s|
  {
    if s == {} then
      []
    else
      var x := Least(s);
      [x] + Sorted(s - {x})
  }

  /** Two ascending sequences with the same elements are the same sequence. */
  lemma {:induction false} AscendingUnique(a: seq<int>, b: seq<int>)
    requires Ascending(a) && Ascending(b) && Elems(a) == Elems(b)
    ensures a == b
  {
    assert forall x :: x in a <==> x in Elems(a);
    assert forall x :: x in b <==> x in Elems(b);
    if a == [] {
      if b != [] {
        FirstIn(b);
        assert false;
      }
    } else {
      assert a[0] in b;
      assert b[0] in a;
      assert a[0] == b[0];
      forall x ensures x in a[1..] <==> x in b[1..] {
        if x in a[1..] { assert x in b && x != b[0]; }
        if x in b[1..] { assert x in a && x != a[0]; }
      }
      assert Elems(a[1..]) == Elems(b[1..]);
      AscendingUnique(a[1..], b[1..]);
    }
  }

  /** The rowid allocator: one past the largest id in use. */
  function NextId(ids: set<int>): (r: int)
    ensures forall x :: x in ids ==> x < r
    ensures r >= 1
  {
    if ids == {} then 1 else
      var top := Greatest(ids);
      if top < 1 then 1 else top + 1
  }

  lemma {:induction false} HasGreatest(s: set<int>)
    requires s != {}
    ensures exists x :: x in s && forall y :: y in s ==> y <= x
  {
    var x := Any(s);
    if s - {x} != {} {
      HasGreatest(s - {x});
      var z :| z in s - {x} && forall y :: y in s - {x} ==> y <= z;
      var w := if x >= z then x else z;
      assert forall y :: y in s && y != x ==> y in s - {x};
      assert w in s && forall y :: y in s ==> y <= w;
    } else {
      assert forall y :: y in s && y != x ==> y in s - {x};
    }
  }

  function Greatest(s: set<int>): (r: int)
    requires s != {}
    ensures r in s && forall y :: y in s ==> y <= r
  {
    HasGreatest(s);
    var x :| x in s && forall y :: y in s ==> y <= x;
    x
  }

  lemma SubsetSize<T>(a: set<T>, b: set<T>)
    requires a <= b
    ensures |a| <= |b|
    ensures a != b ==> |a| < |b|
  {
    assert b == a + (b - a);
    assert |b| == |a| + |b - a|;
  }
}
