/** Definitions shared by every component, and two counting principles. */
module Common {

  datatype Option<+T> = None | Some(value: T)

  /** A set that a function maps injectively into `0..m` has at most `m` elements. */
  lemma {:induction false} InjectionBound<T(!new)>(s: set<T>, f: T -> int, m: nat)
    requires forall x :: x in s ==> 0 <= f(x) < m
    requires forall x, y :: x in s && y in s && f(x) == f(y) ==> x == y
    ensures |s| <= m
    decreases m
  {
    if m == 0 {
      if x :| x in s { var at := f(x); assert false; }
    } else {
      var top := set x | x in s && f(x) == m - 1;
      var rest := s - top;
      if x :| x in top { assert top == {x}; } else { assert top == {}; }
      InjectionBound(rest, f, m - 1);
      assert s == top + rest;
    }
  }

  lemma SubsetSize<T>(a: set<T>, b: set<T>)
    requires a <= b
    ensures |a| <= |b|
  {
    assert b == a + (b - a);
  }

  function Fiber<T(!new), U(==)>(s: set<T>, f: T -> U, u: U): set<T> { set x | x in s && f(x) == u }

  /** If `f` sends `s` into `r` and at most `m` elements to any one point, then `|s| <= |r| * m`. */
  lemma {:induction false} FiberBound<T(!new), U(!new)>(s: set<T>, r: set<U>, f: T -> U, m: nat)
    requires forall x :: x in s ==> f(x) in r
    requires forall u :: u in r ==> |Fiber(s, f, u)| <= m
    ensures |s| <= |r| * m
    decreases r
  {
    if r == {} {
      if x :| x in s { var at := f(x); assert false; }
    } else {
      var u :| u in r;
      var fiber := Fiber(s, f, u);
      var rest := s - fiber;
      forall v | v in r - {u} ensures |Fiber(rest, f, v)| <= m {
        assert Fiber(rest, f, v) == Fiber(s, f, v);
      }
      FiberBound(rest, r - {u}, f, m);
      assert s == fiber + rest;
      var k := |r - {u}|;
      assert |r| == k + 1;
      assert (k + 1) * m == k * m + m;
    }
  }
}
