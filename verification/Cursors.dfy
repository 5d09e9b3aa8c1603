/** A pass takes the next `limit` ids after a saved cursor, in order, and wraps when it finds fewer. Reconciliation of bindings
    and both cleanup scans share this shape. No id is starved, even when processed ids stay eligible for ever. */
module Cursors {
  import opened Ordered

  function Beyond(s: set<nat>, after: nat): set<nat> { set x | x in s && x > after }

  function Window(s: set<nat>, after: nat, limit: nat): set<nat> { First(Beyond(s, after), limit) }

  /** The last id of a full window, or the start. */
  function NextCursor(w: set<nat>, limit: nat): nat
    requires limit > 0
  {
    if |w| < limit then 0 else MaxOf(w)
  }

  function MaxOf(s: set<nat>): (m: nat)
    requires s != {}
    ensures m in s && forall k :: k in s ==> k <= m
  {
    MaxExists(s);
    var m :| m in s && forall k :: k in s ==> k <= m;
    m
  }

  /** The pass before `k` works on the ids eligible then; it may remove ids of its window, and no id becomes eligible. */
  ghost predicate PassAt(ss: seq<set<nat>>, cs: seq<nat>, limit: nat, k: nat)
    requires 0 < k < |ss| == |cs| && limit > 0
  {
    && cs[k] == NextCursor(Window(ss[k - 1], cs[k - 1], limit), limit)
    && ss[k] <= ss[k - 1] && ss[k - 1] - ss[k] <= Window(ss[k - 1], cs[k - 1], limit)
  }

  ghost predicate Passes(ss: seq<set<nat>>, cs: seq<nat>, limit: nat) {
    |ss| == |cs| && limit > 0 && forall k: nat :: 0 < k < |ss| ==> PassAt(ss, cs, limit, k)
  }

  lemma LastIsMax(w: set<nat>)
    ensures w != {} ==> Sorted(w)[|w| - 1] == MaxOf(w)
  {
    if w != {} {
      var m := MaxOf(w);
      assert m in Sorted(w);
      var k :| 0 <= k < |w| && Sorted(w)[k] == m;
      assert Sorted(w)[|w| - 1] in Sorted(w);
      if k < |w| - 1 { SortedIncreases(w, k, |w| - 1); }
    }
  }

  /** Pass `k` considers `x`. */
  ghost predicate Seen(ss: seq<set<nat>>, cs: seq<nat>, limit: nat, x: nat, k: nat)
    requires k < |ss| == |cs|
  {
    x in Window(ss[k], cs[k], limit)
  }

  function Between(s: set<nat>, a: nat, b: nat): set<nat> { set y | y in s && a < y < b }

  /** A pass works on an id exactly if it comes after the cursor and fewer than `limit` others stand between. */
  lemma WindowExactly(s: set<nat>, after: nat, limit: nat, x: nat)
    ensures x in Window(s, after, limit) <==> x in s && x > after && |Between(s, after, x)| < limit
  {
    var w, middle := Window(s, after, limit), Between(s, after, x);
    if x in w {
      forall y | y in middle ensures y in w - {x} { assert y in Beyond(s, after); }
      SubsetSize(middle, w - {x});
    } else if x in s && x > after && |middle| < limit {
      assert x in Beyond(s, after);
      assert w <= middle;
      SubsetSize(w, middle);
      assert false;
    }
  }

  function Span(s: set<nat>, a: nat, b: nat): set<nat> { set y | y in s && a < y <= b }

  lemma {:induction false} Shrinks(ss: seq<set<nat>>, cs: seq<nat>, limit: nat, i: nat, k: nat)
    requires Passes(ss, cs, limit) && i <= k < |ss|
    ensures ss[k] <= ss[i]
    decreases k
  {
    if i < k {
      Shrinks(ss, cs, limit, i, k - 1);
      assert PassAt(ss, cs, limit, k);
    }
  }

  lemma SubsetSize(a: set<nat>, b: set<nat>)
    requires a <= b
    ensures |a| <= |b|
  {
    assert b == a + (b - a);
  }

  /** A pass that does not wrap advances over `limit` further ids. */
  lemma FullWindow(s: set<nat>, after: nat, limit: nat)
    requires limit > 0 && NextCursor(Window(s, after, limit), limit) != 0
    ensures var w, c := Window(s, after, limit), NextCursor(Window(s, after, limit), limit);
            |w| == limit && after < c && w <= Span(s, after, c)
  {}

  /** Passes `i` to `k` without a wrap cover `limit * (k - i)` ids. */
  lemma {:induction false} Covers(ss: seq<set<nat>>, cs: seq<nat>, limit: nat, i: nat, k: nat)
    requires Passes(ss, cs, limit) && i <= k < |ss| && forall j :: i < j <= k ==> cs[j] != 0
    ensures cs[i] <= cs[k] && |Span(ss[i], cs[i], cs[k])| >= Product(limit, k - i)
    decreases k
  {
    if i < k {
      Covers(ss, cs, limit, i, k - 1);
      assert PassAt(ss, cs, limit, k);
      FullWindow(ss[k - 1], cs[k - 1], limit);
      Shrinks(ss, cs, limit, i, k - 1);
      SpanGrows(ss[i], cs[i], cs[k - 1], cs[k], Window(ss[k - 1], cs[k - 1], limit));
    }
  }

  function Product(limit: nat, m: nat): (p: nat)
    ensures p == limit * m
  {
    if m == 0 then 0 else Product(limit, m - 1) + limit
  }

  lemma SpanGrows(s: set<nat>, a: nat, b: nat, c: nat, w: set<nat>)
    requires a <= b <= c && w <= Span(s, b, c)
    ensures |Span(s, a, c)| >= |Span(s, a, b)| + |w|
  {
    assert w !! Span(s, a, b) && w + Span(s, a, b) <= Span(s, a, c);
    SubsetSize(w + Span(s, a, b), Span(s, a, c));
  }

  /** So a wrap comes within ⌊n / limit⌋ + 1 passes. */
  lemma WrapsWithin(ss: seq<set<nat>>, cs: seq<nat>, limit: nat, i: nat, m: nat)
    requires Passes(ss, cs, limit) && i + m < |ss| && m > |ss[i]| / limit
    ensures exists k :: i < k <= i + m && cs[k] == 0
  {
    if forall k :: i < k <= i + m ==> cs[k] != 0 {
      Covers(ss, cs, limit, i, i + m);
      SubsetSize(Span(ss[i], cs[i], cs[i + m]), ss[i]);
      TooMany(|ss[i]|, limit, m);
    }
  }

  lemma TooMany(n: nat, limit: nat, m: nat)
    requires limit > 0 && m > n / limit
    ensures limit * m > n
  {
    assert limit * m >= limit * (n / limit + 1);
  }

  /** An id after the cursor that a pass does not consider stays after the cursor, and the pass does not wrap. */
  lemma Passed(ss: seq<set<nat>>, cs: seq<nat>, limit: nat, x: nat, k: nat)
    requires Passes(ss, cs, limit) && 0 < k < |ss| && x in ss[k - 1] && cs[k - 1] < x && !Seen(ss, cs, limit, x, k - 1)
    ensures x in ss[k] && 0 < cs[k] < x
  {
    assert PassAt(ss, cs, limit, k);
    var w := Window(ss[k - 1], cs[k - 1], limit);
    assert x in Beyond(ss[k - 1], cs[k - 1]);
    assert |w| == limit;
  }

  lemma {:induction false} StillAhead(ss: seq<set<nat>>, cs: seq<nat>, limit: nat, x: nat, i: nat, k: nat)
    requires Passes(ss, cs, limit) && i <= k < |ss| && x in ss[i] && cs[i] < x
    requires forall j :: i <= j < k ==> !Seen(ss, cs, limit, x, j)
    ensures x in ss[k] && cs[k] < x && (forall j :: i < j <= k ==> cs[j] != 0)
    decreases k
  {
    if i < k {
      StillAhead(ss, cs, limit, x, i, k - 1);
      Passed(ss, cs, limit, x, k);
    }
  }

  /** An id after the cursor is considered within ⌊n / limit⌋ + 1 passes. */
  lemma SeenAhead(ss: seq<set<nat>>, cs: seq<nat>, limit: nat, x: nat, i: nat)
    requires Passes(ss, cs, limit) && i < |ss| && x in ss[i] && cs[i] < x && i + |ss[i]| / limit + 1 < |ss|
    ensures exists k :: i <= k <= i + |ss[i]| / limit && Seen(ss, cs, limit, x, k)
  {
    var m := |ss[i]| / limit + 1;
    if forall k :: i <= k < i + m ==> !Seen(ss, cs, limit, x, k) {
      StillAhead(ss, cs, limit, x, i, i + m);
      WrapsWithin(ss, cs, limit, i, m);
    }
  }

  lemma {:induction false} Unremoved(ss: seq<set<nat>>, cs: seq<nat>, limit: nat, x: nat, i: nat, k: nat)
    requires Passes(ss, cs, limit) && i <= k < |ss| && x in ss[i] && forall j :: i <= j < k ==> !Seen(ss, cs, limit, x, j)
    ensures x in ss[k]
    decreases k
  {
    if i < k {
      Unremoved(ss, cs, limit, x, i, k - 1);
      assert !Seen(ss, cs, limit, x, k - 1);
      assert PassAt(ss, cs, limit, k);
    }
  }

  /** From a reset cursor every eligible id is considered within ⌊n / limit⌋ + 1 passes; from any cursor, within twice that. */
  lemma NoStarvation(ss: seq<set<nat>>, cs: seq<nat>, limit: nat, x: nat)
    requires Passes(ss, cs, limit) && |ss| > 0 && x in ss[0] && x > 0 && |ss| > 2 * (|ss[0]| / limit + 1)
    ensures cs[0] == 0 ==> exists k :: 0 <= k <= |ss[0]| / limit && Seen(ss, cs, limit, x, k)
    ensures exists k :: 0 <= k < 2 * (|ss[0]| / limit + 1) && Seen(ss, cs, limit, x, k)
  {
    var q := |ss[0]| / limit;
    if cs[0] < x {
      SeenAhead(ss, cs, limit, x, 0);
    } else {
      WrapsWithin(ss, cs, limit, 0, q + 1);
      var r: nat :| 0 < r <= q + 1 && cs[r] == 0;
      if forall k :: 0 <= k < r ==> !Seen(ss, cs, limit, x, k) {
        Unremoved(ss, cs, limit, x, 0, r);
        Shrinks(ss, cs, limit, 0, r);
        SubsetSize(ss[r], ss[0]);
        FewerPasses(|ss[r]|, |ss[0]|, limit);
        SeenAhead(ss, cs, limit, x, r);
      }
    }
  }

  lemma FewerPasses(a: nat, b: nat, limit: nat)
    requires limit > 0 && a <= b
    ensures a / limit <= b / limit
  {
    var p, q := a / limit, b / limit;
    if p > q { Scaled(limit, q + 1, p); }
  }

  lemma Scaled(limit: nat, x: nat, y: nat)
    requires x <= y
    ensures limit * x <= limit * y
  {
    assert limit * (y - x) >= 0;
  }
}
