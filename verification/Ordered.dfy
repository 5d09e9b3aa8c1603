/** Queries of the form `ORDER BY id LIMIT n` over a set of row ids. */
module Ordered {

  /** The largest id of a non-empty set exists. */
  lemma {:induction false} MaxExists(s: set<nat>)
    requires s != {}
    ensures exists m :: m in s && forall k :: k in s ==> k <= m
    decreases |s|
  {
    var x :| x in s;
    if s != {x} {
      var rest := s - {x};
      assert x !in rest && s == rest + {x};
      assert rest != {};
      MaxExists(rest);
      var m :| m in rest && forall k :: k in rest ==> k <= m;
      var top := if m < x then x else m;
      assert top in s && forall k :: k in s ==> k <= top;
    }
  }

  /** The id SQLite gives the next row of a table without AUTOINCREMENT: one more than the largest present. */
  function NextId(s: set<nat>): (id: nat)
    ensures id !in s
    ensures forall k :: k in s ==> k < id
    ensures id > 0
  {
    if s == {} then 1
    else
      MaxExists(s);
      var m :| m in s && forall k :: k in s ==> k <= m;
      m + 1
  }

  lemma SmallerSet(a: set<nat>, b: set<nat>)
    requires a < b
    ensures |a| < |b|
  {
    assert |b - a| > 0;
    assert b == a + (b - a);
  }

  lemma SplitOff(s: set<nat>, x: nat)
    requires x in s && s != {x}
    ensures |s - {x}| == |s| - 1 && s - {x} != {} && s == (s - {x}) + {x}
  {}

  lemma LeastOf(s: set<nat>, x: nat, m: nat)
    requires x in s && m in s - {x} && forall k :: k in s - {x} ==> m <= k
    ensures exists l :: l in s && forall k :: k in s ==> l <= k
  {
    var l := if m < x then m else x;
    assert forall k :: k in s ==> k == x || k in s - {x};
    assert l in s && forall k :: k in s ==> l <= k;
  }

  lemma {:induction false} MinExists(s: set<nat>)
    requires s != {}
    ensures exists m :: m in s && forall k :: k in s ==> m <= k
    decreases |s|
  {
    var x :| x in s;
    if s != {x} {
      var rest := s - {x};
      SplitOff(s, x);
      MinExists(rest);
      var m :| m in rest && forall k :: k in rest ==> m <= k;
      LeastOf(s, x, m);
    }
  }

  function Min(s: set<nat>): (m: nat)
    requires s != {}
    ensures m in s
    ensures forall k :: k in s ==> m <= k
  {
    MinExists(s);
    var m :| m in s && forall k :: k in s ==> m <= k;
    m
  }

  /** The `n` smallest members of `s`. */
  function First(s: set<nat>, n: nat): (r: set<nat>)
    ensures r <= s
    ensures |r| == if |s| <= n then |s| else n
    ensures forall x, y :: x in r && y in s && y !in r ==> x < y
    ensures |s| <= n ==> r == s
    decreases |s|
  {
    if s == {} || n == 0 then {}
    else
      var m := Min(s);
      var rest := s - {m};
      assert |rest| == |s| - 1;
      {m} + First(rest, n - 1)
  }

  /** The members of `s` in increasing order. */
  function Sorted(s: set<nat>): (r: seq<nat>)
    ensures |r| == |s|
    ensures forall k :: k in r <==> k in s
    decreases |s|
  {
    if s == {} then []
    else
      var m := Min(s);
      var rest := s - {m};
      assert |rest| == |s| - 1;
      [m] + Sorted(rest)
  }

  lemma {:induction false} SortedIncreases(s: set<nat>, i: nat, j: nat)
    requires i < j < |s|
    ensures Sorted(s)[i] < Sorted(s)[j]
    decreases |s|
  {
    var m := Min(s);
    var rest := s - {m};
    assert |rest| == |s| - 1;
    assert Sorted(s) == [m] + Sorted(rest);
    assert Sorted(rest)[j - 1] in rest;
    if i > 0 { SortedIncreases(rest, i - 1, j - 1); }
  }
}
