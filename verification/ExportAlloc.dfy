/** Distinct export names: the allocator with its cache of next suffixes against plain first fit. */
module ExportAlloc {
  import opened Text
  import opened FirstFree

  /** Lower-casing maps code points one by one; it leaves digits, `_` and `.` alone and makes no other `.`. */
  ghost predicate Lowers(lower: char -> char) {
    && (forall c :: lower(c) == '.' <==> c == '.') && lower('_') == '_' && forall c :: '0' <= c <= '9' ==> lower(c) == c
  }

  /** Where the last dot of the first `n` code points is, or the end of `s`. */
  function DotBefore(s: string, n: nat): (r: nat)
    requires n <= |s|
    ensures r <= |s|
  {
    if n == 0 then |s| else if s[n - 1] == '.' then n - 1 else DotBefore(s, n - 1)
  }

  /** The extension: from the last dot on. */
  function Ext(s: string): string { s[DotBefore(s, |s|)..] }

  function Stem(s: string): string { s[..DotBefore(s, |s|)] }

  function Candidate(name: string, suffix: nat): string { Stem(name) + "_" + Decimal(suffix) + Ext(name) }

  /** What first fit compares: candidate `suffix`, ignoring case. */
  function Key(name: string, suffix: nat, lower: char -> char): string { Mapped(Candidate(name, suffix), lower) }

  lemma LowJoin(a: string, b: string, lower: char -> char)
    ensures Mapped(a + b, lower) == Mapped(a, lower) + Mapped(b, lower)
  {}

  lemma LowDecimal(n: nat, lower: char -> char)
    requires Lowers(lower)
    ensures Mapped(Decimal(n), lower) == Decimal(n)
  {}

  lemma KeyIs(name: string, suffix: nat, lower: char -> char)
    requires Lowers(lower)
    ensures Key(name, suffix, lower) == Mapped(Stem(name), lower) + "_" + Decimal(suffix) + Mapped(Ext(name), lower)
  {
    LowJoin(Stem(name) + "_" + Decimal(suffix), Ext(name), lower);
    LowJoin(Stem(name) + "_", Decimal(suffix), lower);
    LowJoin(Stem(name), "_", lower);
    LowDecimal(suffix, lower);
    assert Mapped("_", lower) == "_";
  }

  /** Different suffixes give different candidates. */
  lemma KeyInjective(name: string, m: nat, n: nat, lower: char -> char)
    requires Lowers(lower) && Key(name, m, lower) == Key(name, n, lower)
    ensures m == n
  {
    KeyIs(name, m, lower);
    KeyIs(name, n, lower);
    var head, tail := Mapped(Stem(name), lower) + "_", Mapped(Ext(name), lower);
    Middle(head, Decimal(m), Decimal(n), tail);
    DecimalInjective(m, n);
  }

  lemma Middle(head: string, a: string, b: string, tail: string)
    requires head + a + tail == head + b + tail
    ensures a == b
  {
    assert |a| == |b|;
    forall i | 0 <= i < |a| ensures a[i] == b[i] { assert (head + a + tail)[|head| + i] == (head + b + tail)[|head| + i]; }
  }

  lemma {:induction false} LowDot(s: string, n: nat, lower: char -> char)
    requires Lowers(lower) && n <= |s|
    ensures DotBefore(Mapped(s, lower), n) == DotBefore(s, n)
    decreases n
  {
    if n > 0 { LowDot(s, n - 1, lower); }
  }

  /** Names that differ only in case have the same candidates, ignoring case. */
  lemma SameKeys(a: string, b: string, suffix: nat, lower: char -> char)
    requires Lowers(lower) && Mapped(a, lower) == Mapped(b, lower)
    ensures Key(a, suffix, lower) == Key(b, suffix, lower)
  {
    KeyIs(a, suffix, lower);
    KeyIs(b, suffix, lower);
    Parts(a, lower);
    Parts(b, lower);
  }

  /** Stem and extension commute with lower-casing. */
  lemma Parts(s: string, lower: char -> char)
    requires Lowers(lower)
    ensures Mapped(Stem(s), lower) == Stem(Mapped(s, lower)) && Mapped(Ext(s), lower) == Ext(Mapped(s, lower))
  {
    LowDot(s, |s|, lower);
    LowParts(s, DotBefore(s, |s|), lower);
  }

  lemma LowParts(s: string, n: nat, lower: char -> char)
    requires n <= |s|
    ensures Mapped(s[..n], lower) == Mapped(s, lower)[..n] && Mapped(s[n..], lower) == Mapped(s, lower)[n..]
  {}

  // ---------------------------------------------------------------- first fit

  /** The keys of the candidates of `name`. */
  function Keys(name: string, lower: char -> char): nat -> string { (s: nat) => Key(name, s, lower) }

  lemma KeysInjective(name: string, lower: char -> char)
    requires Lowers(lower)
    ensures Injective(Keys(name, lower))
  {
    forall m: nat, n: nat | Keys(name, lower)(m) == Keys(name, lower)(n) ensures m == n { KeyInjective(name, m, n, lower); }
  }

  /** Plain first fit: the name itself, or the first free suffix from 2. */
  ghost function Fit(used: set<string>, name: string, lower: char -> char): string
    requires Lowers(lower)
  {
    KeysInjective(name, lower);
    if Mapped(name, lower) in used then Candidate(name, Free(used, Keys(name, lower), 2)) else name
  }

  ghost function Taken(names: seq<string>, lower: char -> char): set<string> {
    set i | 0 <= i < |names| :: Mapped(names[i], lower)
  }

  /** First fit for a list of names, one after the other. */
  ghost function FirstFit(names: seq<string>, lower: char -> char): (r: seq<string>)
    requires Lowers(lower)
    ensures |r| == |names|
  {
    if names == [] then []
    else
      var before := FirstFit(names[..|names| - 1], lower);
      before + [Fit(Taken(before, lower), names[|names| - 1], lower)]
  }

  /** No two export names are equal, ignoring case. */
  lemma {:induction false} Distinct(names: seq<string>, lower: char -> char, i: nat, j: nat)
    requires Lowers(lower) && i < j < |names|
    ensures Mapped(FirstFit(names, lower)[i], lower) != Mapped(FirstFit(names, lower)[j], lower)
    decreases |names|
  {
    var before := FirstFit(names[..|names| - 1], lower);
    if j < |names| - 1 {
      Distinct(names[..|names| - 1], lower, i, j);
    } else {
      assert Mapped(before[i], lower) in Taken(before, lower);
    }
  }

  /** The cache never skips a free suffix: all below the cached one are taken. */
  ghost predicate CacheOk(next: map<string, nat>, used: set<string>, lower: char -> char) {
    forall name :: Mapped(name, lower) in next ==> AllTaken(used, Keys(name, lower), 2, next[Mapped(name, lower)])
  }

  /** One name: the search starts at the cached suffix and ends where first fit ends. */
  method Allocate(used: set<string>, next: map<string, nat>, name: string, lower: char -> char) returns (candidate: string, cache: map<string, nat>)
    requires Lowers(lower) && CacheOk(next, used, lower)
    ensures candidate == Fit(used, name, lower)
    ensures CacheOk(cache, used + {Mapped(candidate, lower)}, lower)
  {
    candidate, cache := name, next;
    var key := Mapped(name, lower);
    if key !in used {
      CacheMore(next, used, used + {key}, lower);
      return;
    }
    var start: nat := if key in next && next[key] > 2 then next[key] else 2;
    KeysInjective(name, lower);
    ghost var suffix;
    candidate, cache, suffix := Search(used, (s: nat) => Candidate(name, s), (n: string) => Mapped(n, lower), next, key, name, start, Keys(name, lower));
    CacheGrows(next, used, name, suffix, lower);
  }

  lemma TakenByMore(used: set<string>, more: set<string>, c: nat -> string, d: nat -> string, end: nat)
    requires used <= more && AllTaken(used, c, 2, end) && forall s: nat {:trigger d(s)} :: d(s) == c(s)
    ensures AllTaken(more, d, 2, end)
  {}

  lemma CacheMore(next: map<string, nat>, used: set<string>, more: set<string>, lower: char -> char)
    requires used <= more && CacheOk(next, used, lower)
    ensures CacheOk(next, more, lower)
  {
    forall name | Mapped(name, lower) in next ensures AllTaken(more, Keys(name, lower), 2, next[Mapped(name, lower)]) {
      TakenByMore(used, more, Keys(name, lower), Keys(name, lower), next[Mapped(name, lower)]);
    }
  }

  lemma OneMoreTaken(used: set<string>, c: nat -> string, end: nat)
    requires AllTaken(used, c, 2, end)
    ensures AllTaken(used + {c(end)}, c, 2, end + 1)
  {}

  lemma SameKeysAll(a: string, b: string, lower: char -> char)
    requires Lowers(lower) && Mapped(a, lower) == Mapped(b, lower)
    ensures forall s: nat :: Keys(a, lower)(s) == Keys(b, lower)(s)
  {
    forall s: nat ensures Keys(a, lower)(s) == Keys(b, lower)(s) { SameKeys(a, b, s, lower); }
  }

  lemma CacheGrows(next: map<string, nat>, used: set<string>, name: string, suffix: nat, lower: char -> char)
    requires Lowers(lower) && CacheOk(next, used, lower) && AllTaken(used, Keys(name, lower), 2, suffix)
    ensures CacheOk(next[Mapped(name, lower) := suffix + 1], used + {Key(name, suffix, lower)}, lower)
  {
    var cache, more := next[Mapped(name, lower) := suffix + 1], used + {Key(name, suffix, lower)};
    OneMoreTaken(used, Keys(name, lower), suffix);
    forall other | Mapped(other, lower) in cache ensures AllTaken(more, Keys(other, lower), 2, cache[Mapped(other, lower)]) {
      if Mapped(other, lower) == Mapped(name, lower) {
        SameKeysAll(other, name, lower);
        TakenByMore(more, more, Keys(name, lower), Keys(other, lower), suffix + 1);
      } else {
        TakenByMore(used, more, Keys(other, lower), Keys(other, lower), next[Mapped(other, lower)]);
      }
    }
  }

  /** All names: the cached allocator gives exactly what first fit gives. */
  method Filenames(names: seq<string>, lower: char -> char) returns (result: seq<string>)
    requires Lowers(lower)
    ensures result == FirstFit(names, lower)
  {
    var used: set<string>, next: map<string, nat> := {}, map[];
    result := [];
    var i := 0;
    while i < |names|
      invariant 0 <= i <= |names| && result == FirstFit(names[..i], lower)
      invariant used == Taken(result, lower) && CacheOk(next, used, lower)
    {
      var candidate;
      candidate, next := Allocate(used, next, names[i], lower);
      assert names[..i + 1][..i] == names[..i];
      TakenMore(result, candidate, lower);
      used := used + {Mapped(candidate, lower)};
      result := result + [candidate];
      i := i + 1;
    }
    assert names[..|names|] == names;
  }

  lemma TakenMore(names: seq<string>, name: string, lower: char -> char)
    ensures Taken(names + [name], lower) == Taken(names, lower) + {Mapped(name, lower)}
  {
    var all := names + [name];
    assert forall i :: 0 <= i < |names| ==> all[i] == names[i];
    assert all[|names|] == name;
    forall x | x in Taken(names, lower) ensures x in Taken(all, lower) {
      var i :| 0 <= i < |names| && x == Mapped(names[i], lower);
      assert x == Mapped(all[i], lower);
    }
  }
}
