/** The least free suffix: a search over an injective sequence of keys against a finite set of used ones. */
module FirstFree {

  ghost predicate Injective(c: nat -> string) { forall m: nat, n: nat {:trigger c(m), c(n)} :: c(m) == c(n) ==> m == n }

  /** The used keys that a search from `suffix` can still meet. */
  ghost function Ahead(used: set<string>, c: nat -> string, suffix: nat): set<string> {
    set u | u in used && exists s: nat :: s >= suffix && c(s) == u
  }

  lemma AheadShrinks(used: set<string>, c: nat -> string, suffix: nat)
    requires Injective(c) && c(suffix) in used
    ensures |Ahead(used, c, suffix + 1)| < |Ahead(used, c, suffix)|
  {
    var a, b := Ahead(used, c, suffix), Ahead(used, c, suffix + 1);
    assert c(suffix) in a && c(suffix) !in b && b <= a;
    assert a - {c(suffix)} == b + (a - {c(suffix)} - b);
  }

  lemma AheadFewer(used: set<string>, c: nat -> string, suffix: nat)
    ensures |Ahead(used, c, suffix + 1)| <= |Ahead(used, c, suffix)|
  {
    var a, b := Ahead(used, c, suffix), Ahead(used, c, suffix + 1);
    assert a == b + (a - b);
  }

  /** Suffixes `from` to `end - 1` are taken. */
  ghost predicate AllTaken(used: set<string>, c: nat -> string, from: nat, end: nat) {
    forall s: nat {:trigger c(s)} :: from <= s < end ==> c(s) in used
  }

  /** The least free suffix from `suffix` on. It exists because the keys differ and finitely many are used. */
  ghost function Free(used: set<string>, c: nat -> string, suffix: nat): (r: nat)
    requires Injective(c)
    ensures r >= suffix && c(r) !in used && AllTaken(used, c, suffix, r)
    decreases |Ahead(used, c, suffix)|
  {
    if c(suffix) in used then
      AheadShrinks(used, c, suffix);
      Free(used, c, suffix + 1)
    else suffix
  }

  lemma LeastIs(used: set<string>, c: nat -> string, from: nat, r: nat)
    requires Injective(c) && r >= from && c(r) !in used && AllTaken(used, c, from, r)
    ensures Free(used, c, from) == r
  {
    var f := Free(used, c, from);
    assert c(f) !in used;
  }

  /** The loop: `names(s)` is tried and counts as `lower(names(s))`; the cache remembers where to go on. */
  method Search(used: set<string>, names: nat -> string, lower: string -> string, cache: map<string, nat>, key: string, first: string, start: nat, ghost c: nat -> string)
    returns (candidate: string, next: map<string, nat>, ghost suffix: nat)
    requires Injective(c) && (forall s: nat {:trigger names(s)} :: lower(names(s)) == c(s))
    requires lower(first) in used && 2 <= start && AllTaken(used, c, 2, start)
    ensures suffix >= start && candidate == names(suffix) && suffix == Free(used, c, 2) && next == cache[key := suffix + 1]
  {
    var s := start;
    candidate, next := first, cache;
    while lower(candidate) in used
      invariant start <= s
      invariant s == start ==> candidate == first && next == cache && AllTaken(used, c, 2, s)
      invariant s > start ==> candidate == names(s - 1) && next == cache[key := s] && AllTaken(used, c, 2, s - 1)
      decreases |Ahead(used, c, s)| + if s == start then 1 else 0, if lower(candidate) in used then 1 else 0
    {
      candidate := names(s);
      next := next[key := s + 1];
      if c(s) in used { AheadShrinks(used, c, s); } else { AheadFewer(used, c, s); }
      s := s + 1;
    }
    suffix := s - 1;
    LeastIs(used, c, 2, suffix);
  }
}
