/** Ascending enumeration of a finite set: what Python's `sorted` gives for ids.
    Agent ids are strings in the program; only their order and equality are ever used,
    so an id is modelled by its position in that order. */
module Ordering {
  ghost predicate Ascending(s: seq<nat>) {
    forall i, j :: 0 <= i < j < |s| ==> s[i] < s[j]
  }

  ghost predicate IsLeast(s: set<nat>, m: nat) { m in s && forall x | x in s :: m <= x }

  lemma {:induction false} LeastBelow(s: set<nat>, y: nat)
    requires y in s
    ensures exists m :: IsLeast(s, m)
  {
    if !IsLeast(s, y) {
      var x :| x in s && x < y;
      LeastBelow(s, x);
    }
  }

  lemma LeastExists(s: set<nat>)
    requires s != {}
    ensures exists m :: m in s && forall x | x in s :: m <= x
  {
    var y :| y in s;
    LeastBelow(s, y);
    var m :| IsLeast(s, m);
  }

  function Least(s: set<nat>): (m: nat)
    requires s != {}
    ensures m in s && forall x | x in s :: m <= x
  {
    LeastExists(s);
    var m :| m in s && forall x | x in s :: m <= x;
    m
  }

  function Sorted(s: set<nat>): (r: seq<nat>)
    ensures Ascending(r)
    ensures |r| == |s|
    ensures forall x :: x in r <==> x in s
    decreases |s|
  {
    if s == {} then [] else [Least(s)] + Sorted(s - {Least(s)})
  }

  /** The elements of a prefix of a sorted enumeration, as a set. */
  function Elements(s: seq<nat>): (r: set<nat>)
    ensures forall x :: x in r <==> x in s
  {
    set x | x in s
  }

  lemma AscendingSize(s: seq<nat>)
    requires Ascending(s)
    ensures |Elements(s)| == |s|
  {
    if |s| > 0 {
      var p := s[..|s| - 1];
      AscendingSize(p);
      assert s == p + [s[|s| - 1]];
      assert Elements(s) == Elements(p) + {s[|s| - 1]};
    }
  }

  lemma AscendingLast(earlier: seq<nat>, x: nat)
    requires Ascending(earlier + [x])
    ensures x !in earlier && Ascending(earlier)
    ensures forall y | y in earlier :: y < x
  {
    var s := earlier + [x];
    forall i | 0 <= i < |earlier| ensures earlier[i] < x { assert s[i] < s[|earlier|]; }
    forall i, j | 0 <= i < j < |earlier| ensures earlier[i] < earlier[j] { assert s[i] < s[j]; }
  }

  lemma AscendingMore(s: seq<nat>, x: nat)
    requires Ascending(s) && forall y | y in s :: y < x
    ensures Ascending(s + [x])
  {
    var all := s + [x];
    forall i, j | 0 <= i < j < |all| ensures all[i] < all[j] {
      if j == |s| { assert s[i] in s; }
    }
  }

  lemma SubsetSize<T>(a: set<T>, b: set<T>)
    requires a <= b
    ensures |a| <= |b|
  {
    assert b == a + (b - a);
  }

  /** The first n numbers. */
  function UpTo(n: nat): (s: set<nat>)
    ensures forall x :: x in s <==> 0 <= x < n
  {
    if n == 0 then {} else UpTo(n - 1) + {n - 1}
  }

  lemma {:induction false} UpToSize(n: nat)
    ensures |UpTo(n)| == n
  {
    if n > 0 {
      UpToSize(n - 1);
      assert n - 1 !in UpTo(n - 1);
      assert UpTo(n) == UpTo(n - 1) + {n - 1};
    }
  }
}
