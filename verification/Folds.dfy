/** Ordering, sums and extremes of finite collections, as the aggregate queries use them. */
module Folds {
  lemma Member<T>(s: set<T>) returns (x: T)
    requires s != {}
    ensures x in s
  {
    x :| x in s;
  }

  /** The members of a set, each once. */
  lemma {:induction false} Listing<T>(xs: set<T>) returns (list: seq<T>)
    ensures forall x :: x in list <==> x in xs
    ensures forall i, j | 0 <= i < j < |list| :: list[i] != list[j]
    decreases |xs|
  {
    if xs == {} {
      list := [];
    } else {
      var x := Member(xs);
      list := Listing(xs - {x});
      list := [x] + list;
    }
  }

  predicate IsLeast(m: int, s: set<int>) {
    m in s && forall x | x in s :: m <= x
  }

  lemma {:induction false} LeastExists(s: set<int>, a: int)
    requires a in s
    ensures exists m :: IsLeast(m, s)
    decreases |s|
  {
    if b: int :| b in s && b < a {
      LeastExists(s - {a}, b);
      var m :| IsLeast(m, s - {a});
      assert forall x | x in s :: x == a || x in s - {a};
      assert IsLeast(m, s);
    } else {
      assert IsLeast(a, s);
    }
  }

  function Least(s: set<int>): (m: int)
    requires s != {}
    ensures IsLeast(m, s)
  {
    assert exists m :: IsLeast(m, s) by {
      var a := Member(s);
      LeastExists(s, a);
    }
    var m :| IsLeast(m, s);
    m
  }

  /** The numbers of a set in ascending order. */
  function Ascending(s: set<int>): (r: seq<int>)
    ensures forall x :: x in r <==> x in s
    ensures forall i, j | 0 <= i < j < |r| :: r[i] < r[j]
    decreases |s|
  {
    if s == {} then []
    else
      var rest := Ascending(s - {Least(s)});
      assert forall i | 0 <= i < |rest| :: rest[i] in rest;
      [Least(s)] + rest
  }

  function Sum(xs: seq<real>): real {
    if xs == [] then 0.0 else xs[0] + Sum(xs[1..])
  }

  function SumInt(xs: seq<int>): int {
    if xs == [] then 0 else xs[0] + SumInt(xs[1..])
  }

  /** `fold(start, max)`. */
  function MaxFrom(start: real, xs: seq<real>): (m: real)
    ensures m >= start && forall x | x in xs :: x <= m
    ensures m == start || m in xs
  {
    if xs == [] then start
    else
      var m := MaxFrom(start, xs[..|xs| - 1]);
      assert xs == xs[..|xs| - 1] + [xs[|xs| - 1]];
      if xs[|xs| - 1] > m then xs[|xs| - 1] else m
  }

  /** The largest of the integers, or `none` when there are none. */
  function MaxIntOr(none: int, xs: seq<int>): (m: int)
    ensures xs == [] ==> m == none
    ensures xs != [] ==> m in xs && forall x | x in xs :: x <= m
  {
    if xs == [] then none
    else if |xs| == 1 then xs[0]
    else
      var m := MaxIntOr(none, xs[1..]);
      assert xs == [xs[0]] + xs[1..];
      if xs[0] > m then xs[0] else m
  }

  /** The least known free-space percentage, -1 when none is known. */
  function MinFree(xs: seq<real>): (m: real)
    ensures (forall x | x in xs :: x < 0.0) ==> m == -1.0
    ensures (exists x | x in xs :: x >= 0.0) ==> m >= 0.0 && m in xs && forall x | x in xs && x >= 0.0 :: m <= x
  {
    if xs == [] then -1.0
    else
      var x, m := xs[0], MinFree(xs[1..]);
      assert x in xs && forall y :: y in xs <==> y == x || y in xs[1..];
      if x >= 0.0 && (m < 0.0 || x < m) then x else m
  }
}
