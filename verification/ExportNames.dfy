/** Export file names: sanitizing one name, and giving every asset a name no other has, ignoring case. A `char` is a Unicode
    code point and sizes are in UTF-8 bytes. Case mapping is a parameter. */
module ExportNames {
  import opened Text

  const MAX_BYTES := 180

  function Width(c: char): nat {
    if c as int < 0x80 then 1 else if c as int < 0x800 then 2 else if c as int < 0x1_0000 then 3 else 4
  }

  function Size(s: string): nat { if s == [] then 0 else Size(s[..|s| - 1]) + Width(s[|s| - 1]) }

  predicate Control(c: char) { c as int < 0x20 || 0x7f <= c as int < 0xa0 }

  predicate Forbidden(c: char) {
    c == '<' || c == '>' || c == ':' || c == '\"' || c == '/' || c == '\\' || c == '|' || c == '?' || c == '*'
  }

  predicate Unsafe(c: char) { Control(c) || Forbidden(c) }

  predicate Padding(c: char) { c == ' ' || c == '.' }

  // ---------------------------------------------------------------- Filename

  /** What follows the last separator of either platform. */
  function Leaf(s: string): string {
    if s == [] then [] else if s[|s| - 1] == '/' || s[|s| - 1] == '\\' then [] else Leaf(s[..|s| - 1]) + [s[|s| - 1]]
  }

  function Clean(s: string): (r: string)
    ensures |r| == |s|
  {
    seq(|s|, i requires 0 <= i < |s| => if Unsafe(s[i]) then '_' else s[i])
  }

  /** Where the padding at the start of `s`, from `i`, ends. */
  function Skip(s: string, i: nat): (k: nat)
    requires i <= |s|
    ensures i <= k <= |s| && (k < |s| ==> !Padding(s[k])) && forall j :: i <= j < k ==> Padding(s[j])
    decreases |s| - i
  {
    if i < |s| && Padding(s[i]) then Skip(s, i + 1) else i
  }

  /** Where the padding at the end of `s[..i]` begins. */
  function Keep(s: string, i: nat): (k: nat)
    requires i <= |s|
    ensures k <= i && (k > 0 ==> !Padding(s[k - 1])) && forall j :: k <= j < i ==> Padding(s[j])
    decreases i
  {
    if i > 0 && Padding(s[i - 1]) then Keep(s, i - 1) else i
  }

  function TrimRight(s: string): (r: string)
    ensures r <= s
    ensures r != [] ==> !Padding(r[|r| - 1])
    ensures forall i :: |r| <= i < |s| ==> Padding(s[i])
  {
    s[..Keep(s, |s|)]
  }

  function TrimLeft(s: string): (r: string)
    ensures |r| <= |s| && r == s[|s| - |r|..] && (r != [] ==> !Padding(r[0]))
  {
    s[Skip(s, 0)..]
  }

  function Trimmed(s: string): string { TrimRight(TrimLeft(s)) }

  function Named(s: string): string { if s == [] then "photo" else s }

  /** What precedes the first dot. */
  function Base(s: string): string { if s == [] || s[0] == '.' then [] else [s[0]] + Base(s[1..]) }

  /** A Windows device name, in upper case. */
  predicate Device(base: string) {
    || base in ["CON", "PRN", "AUX", "NUL"]
    || (|base| == 4 && base[..3] in ["COM", "LPT"] && base[3] in "123456789¹²³")
  }

  predicate IsDevice(s: string, upper: char -> char) { Device(Mapped(Base(s), upper)) }

  /** What the check recognizes: it also takes COMLPT and a digit for a device. */
  predicate Suspect(base: string) { Device(base) || (|base| == 7 && base[..3] == "COM" && base[3..6] == "LPT" && base[6] in "123456789¹²³") }

  predicate IsSuspect(s: string, upper: char -> char) { Suspect(Mapped(Base(s), upper)) }

  function Guarded(s: string, upper: char -> char): string { if IsSuspect(s, upper) then "_" + s else s }

  /** The longest prefix of at most 180 bytes. */
  function Cut(s: string): (r: string)
    ensures r <= s && Size(r) <= MAX_BYTES
    ensures Size(s) <= MAX_BYTES ==> r == s
    ensures forall i :: |r| < i <= |s| ==> Size(s[..i]) > MAX_BYTES
  {
    if Size(s) > MAX_BYTES then
      assert forall i :: 0 <= i <= |s| - 1 ==> s[..|s| - 1][..i] == s[..i];
      assert s[..|s|] == s;
      Cut(s[..|s| - 1])
    else s
  }

  /** The name before it is cut to size. */
  function Whole(name: string, upper: char -> char): string { Guarded(Named(Trimmed(Clean(Leaf(name)))), upper) }

  function Filename(name: string, upper: char -> char): string { TrimRight(Cut(Whole(name, upper))) }

  method SafeName(input: string, upper: char -> char) returns (name: string)
    ensures name == Filename(input, upper)
  {
    name := Named(Trimmed(Clean(Leaf(input))));
    if IsSuspect(name, upper) { name := "_" + name; }
    ghost var whole := name;
    while Size(name) > MAX_BYTES
      invariant Cut(name) == Cut(whole)
      decreases |name|
    {
      name := name[..|name| - 1];
    }
    name := TrimRight(name);
  }

  predicate Plain(s: string) { forall i :: 0 <= i < |s| ==> s[i] != '/' && s[i] != '\\' }

  lemma {:induction false} LeafPlain(s: string)
    requires Plain(s)
    ensures Leaf(s) == s
  {
    if s != [] {
      LeafPlain(s[..|s| - 1]);
      assert s[..|s| - 1] + [s[|s| - 1]] == s;
    }
  }

  predicate Safe(s: string) { forall i :: 0 <= i < |s| ==> !Unsafe(s[i]) }

  predicate Tidy(s: string) { s != [] && !Padding(s[0]) && !Padding(s[|s| - 1]) && Safe(s) }

  lemma CleanSafe(s: string)
    ensures Safe(Clean(s))
    ensures Safe(s) ==> Clean(s) == s
  {}

  lemma SafeSlice(s: string, a: nat, b: nat)
    requires Safe(s) && a <= b <= |s|
    ensures Safe(s[a..b])
  {
    forall i | 0 <= i < b - a ensures !Unsafe(s[a..b][i]) { assert s[a..b][i] == s[a + i]; }
  }

  /** Trimming keeps one slice, from the first character that is no padding to the last. */
  lemma TrimmedSlice(s: string) returns (a: nat, b: nat)
    ensures a <= b <= |s| && Trimmed(s) == s[a..b]
    ensures a < b ==> !Padding(s[a]) && !Padding(s[b - 1])
  {
    var t := TrimLeft(s);
    var r := TrimRight(t);
    a, b := |s| - |t|, |s| - |t| + |r|;
    assert r == t[..|r|] && t == s[a..];
    if r != [] { assert s[a] == t[0] && r[|r| - 1] == t[|r| - 1] == s[b - 1]; }
  }

  lemma TrimmedTidy(s: string)
    requires Safe(s)
    ensures Trimmed(s) == [] || Tidy(Trimmed(s))
  {
    var a, b := TrimmedSlice(s);
    SafeSlice(s, a, b);
  }

  lemma WholeTidy(name: string, upper: char -> char)
    ensures Tidy(Whole(name, upper))
  {
    CleanSafe(Leaf(name));
    TrimmedTidy(Clean(Leaf(name)));
    GuardedTidy(Named(Trimmed(Clean(Leaf(name)))), upper);
  }

  lemma GuardedTidy(s: string, upper: char -> char)
    requires Tidy(s)
    ensures Tidy(Guarded(s, upper))
  {}

  lemma {:induction false} SizeGrows(s: string, n: nat)
    requires n <= |s|
    ensures n <= Size(s[..n]) <= Size(s)
    ensures Size(s) <= 4 * |s|
    decreases |s|
  {
    if n == |s| { assert s[..n] == s; }
    if |s| > 0 {
      if n < |s| { SizeGrows(s[..|s| - 1], n); assert s[..|s| - 1][..n] == s[..n]; }
      else { SizeGrows(s[..|s| - 1], n - 1); assert s[..|s| - 1][..n - 1] == s[..n - 1]; assert s[..|s| - 1] == s[..n - 1]; }
    }
  }

  lemma CutTidy(w: string)
    requires Tidy(w)
    ensures Tidy(TrimRight(Cut(w))) && Size(TrimRight(Cut(w))) <= MAX_BYTES
  {
    var c := Cut(w);
    SizeGrows(w[..1], 1);
    var r := TrimRight(c);
    SizeGrows(c, |r|);
    assert c[0] == w[0] && r == c[..|r|] == w[..|r|];
  }

  /** The name is not empty, at most 180 bytes, free of separators, control and forbidden characters, and neither starts nor
      ends with a space or a dot. */
  lemma FilenameSafe(name: string, upper: char -> char)
    ensures Tidy(Filename(name, upper)) && Size(Filename(name, upper)) <= MAX_BYTES
  {
    WholeTidy(name, upper);
    CutTidy(Whole(name, upper));
  }

  lemma UnderscoreFree(base: string)
    requires base != [] && base[0] == '_'
    ensures !Suspect(base)
  {}

  lemma BaseUnderscore(s: string, upper: char -> char)
    requires upper('_') == '_'
    ensures !IsSuspect("_" + s, upper)
  {
    assert Base("_" + s) == ['_'] + Base(s);
    UnderscoreFree(Mapped(Base("_" + s), upper));
  }

  /** The guard works: before cutting, no name is a device name. */
  lemma WholeNoDevice(name: string, upper: char -> char)
    requires upper('_') == '_'
    ensures !IsSuspect(Whole(name, upper), upper) && !IsDevice(Whole(name, upper), upper)
  {
    BaseUnderscore(Named(Trimmed(Clean(Leaf(name)))), upper);
  }

  lemma Untrimmed(s: string)
    requires s != [] && !Padding(s[0]) && !Padding(s[|s| - 1])
    ensures TrimLeft(s) == s && TrimRight(s) == s
  {
    assert s[0..] == s && s[..|s|] == s;
  }

  lemma TidyWhole(s: string, upper: char -> char)
    requires Tidy(s) && !IsSuspect(s, upper)
    ensures Whole(s, upper) == s
  {
    assert Plain(s) by { forall i | 0 <= i < |s| ensures s[i] != '/' && s[i] != '\\' { assert !Unsafe(s[i]); } }
    LeafPlain(s);
    CleanSafe(s);
    Untrimmed(s);
  }

  lemma UncutKept(w: string)
    requires Tidy(w) && Size(w) <= MAX_BYTES
    ensures TrimRight(Cut(w)) == w
  {
    Untrimmed(w);
  }

  /** Sanitizing a tidy name that the check lets pass and that needs no cutting changes nothing. */
  lemma TidyUnchanged(s: string, upper: char -> char)
    requires Tidy(s) && !IsSuspect(s, upper) && Size(s) <= MAX_BYTES
    ensures Filename(s, upper) == s
  {
    TidyWhole(s, upper);
    UncutKept(s);
  }

  /** Sanitizing twice is sanitizing once, unless the name had to be cut. */
  lemma FilenameIdempotent(name: string, upper: char -> char)
    requires upper('_') == '_' && Size(Whole(name, upper)) <= MAX_BYTES
    ensures Filename(Filename(name, upper), upper) == Filename(name, upper) == Whole(name, upper)
  {
    WholeTidy(name, upper);
    WholeNoDevice(name, upper);
    UncutKept(Whole(name, upper));
    TidyUnchanged(Whole(name, upper), upper);
  }

  // ---------------------------------------------------------------- what is kept of the name

  predicate Separator(c: char) { c == '/' || c == '\\' }

  /** The last path component starts at `from`. */
  ghost predicate LeafAt(s: string, from: nat) {
    from <= |s| && (from > 0 ==> Separator(s[from - 1])) && forall i :: from <= i < |s| ==> !Separator(s[i])
  }

  lemma {:induction false} LeafFrom(s: string)
    ensures |Leaf(s)| <= |s| && LeafAt(s, |s| - |Leaf(s)|) && Leaf(s) == s[|s| - |Leaf(s)|..]
  {
    if s != [] && !Separator(s[|s| - 1]) {
      LeafFrom(s[..|s| - 1]);
      assert s == s[..|s| - 1] + [s[|s| - 1]];
    }
  }

  /** `r` is what stands at `a` to `b - 1` in `s`, with `_` for each control and each forbidden character. */
  ghost predicate Copies(s: string, a: nat, b: nat, r: string) {
    a < b <= |s| && |r| == b - a && forall i :: 0 <= i < |r| ==> CopyOf(s[a + i], r[i])
  }

  predicate CopyOf(c: char, d: char) { d == if Control(c) || c in "<>:\"/\\|?*" then '_' else c }

  predicate AllPadding(s: string, a: nat, b: nat)
    requires b <= |s|
  {
    forall i :: a <= i < b ==> Padding(s[i])
  }

  /** From the first to the last character of `s` that is neither a space nor a dot. */
  ghost predicate Kept(s: string, a: nat, b: nat, r: string) {
    Copies(s, a, b, r) && !Padding(s[a]) && !Padding(s[b - 1]) && AllPadding(s, 0, a) && AllPadding(s, b, |s|)
  }

  /** A name without such a character becomes "photo". */
  ghost predicate Keeps(leaf: string, r: string) {
    if AllPadding(leaf, 0, |leaf|) then r == "photo" else exists a, b :: Kept(leaf, a, b, r)
  }

  /** `r` is so made from the last path component of `s`. */
  ghost predicate Sanitizes(s: string, r: string) { exists from: nat :: LeafAt(s, from) && Keeps(s[from..], r) }

  lemma CleanedAt(c: char)
    ensures CopyOf(c, if Unsafe(c) then '_' else c)
    ensures Padding(if Unsafe(c) then '_' else c) <==> Padding(c)
  {}

  lemma CleanPads(s: string)
    ensures forall i :: 0 <= i < |s| ==> CopyOf(s[i], Clean(s)[i]) && (Padding(Clean(s)[i]) <==> Padding(s[i]))
  {
    forall i | 0 <= i < |s| ensures CopyOf(s[i], Clean(s)[i]) && (Padding(Clean(s)[i]) <==> Padding(s[i])) { CleanedAt(s[i]); }
  }

  lemma TrimmedAll(s: string) returns (a: nat, b: nat)
    ensures a <= b <= |s| && Trimmed(s) == s[a..b] && AllPadding(s, 0, a) && AllPadding(s, b, |s|)
    ensures a < b ==> !Padding(s[a]) && !Padding(s[b - 1])
  {
    var t := TrimLeft(s);
    var r := TrimRight(t);
    a, b := |s| - |t|, |s| - |t| + |r|;
    assert a == Skip(s, 0);
    assert r == t[..|r|] && t == s[a..];
    if r != [] { assert s[a] == t[0] && r[|r| - 1] == t[|r| - 1] == s[b - 1]; }
    forall i | b <= i < |s| ensures Padding(s[i]) { assert s[i] == t[i - a]; }
  }

  lemma CleanKept(leaf: string, c: string, a: nat, b: nat)
    requires |c| == |leaf| && a < b <= |c| && !Padding(c[a]) && !Padding(c[b - 1]) && AllPadding(c, 0, a) && AllPadding(c, b, |c|)
    requires forall i :: 0 <= i < |leaf| ==> CopyOf(leaf[i], c[i]) && (Padding(c[i]) <==> Padding(leaf[i]))
    ensures Kept(leaf, a, b, c[a..b])
  {
    var r := c[a..b];
    forall i | 0 <= i < |r| ensures CopyOf(leaf[a + i], r[i]) { assert r[i] == c[a + i]; }
  }

  lemma NamedKeeps(leaf: string)
    ensures Keeps(leaf, Named(Trimmed(Clean(leaf))))
  {
    var c := Clean(leaf);
    CleanPads(leaf);
    var a, b := TrimmedAll(c);
    if a < b { CleanKept(leaf, c, a, b); } else { assert AllPadding(c, 0, |c|); }
  }

  lemma NamedSanitizes(s: string)
    ensures Sanitizes(s, Named(Trimmed(Clean(Leaf(s)))))
  {
    LeafFrom(s);
    NamedKeeps(Leaf(s));
    FromLeaf(s, |s| - |Leaf(s)|, Leaf(s), Named(Trimmed(Clean(Leaf(s)))));
  }

  lemma FromLeaf(s: string, from: nat, leaf: string, r: string)
    requires LeafAt(s, from) && leaf == s[from..] && Keeps(leaf, r)
    ensures Sanitizes(s, r)
  {}

  /** `r` is the longest prefix of `w` of at most 180 bytes, without the padding at its end. */
  ghost predicate CutDown(w: string, r: string) {
    && r <= w && Size(r) <= 180 && (r != [] ==> !Padding(r[|r| - 1])) && (Size(w) <= 180 && w != [] && !Padding(w[|w| - 1]) ==> r == w)
    && forall n :: |r| < n <= |w| && Size(w[..n]) <= 180 ==> Padding(w[n - 1])
  }

  lemma CutsDown(w: string)
    requires Tidy(w)
    ensures CutDown(w, TrimRight(Cut(w)))
  {
    CutTidy(w);
    KeptPrefix(w);
    if Size(w) <= MAX_BYTES { UncutKept(w); }
  }

  /** The exported name is made from the last path component, with a leading `_` if it looks like a device, and cut down. */
  lemma NameKept(name: string, upper: char -> char)
    ensures exists s :: Sanitizes(name, s) && CutDown(if IsSuspect(s, upper) then "_" + s else s, Filename(name, upper))
  {
    var s := Named(Trimmed(Clean(Leaf(name))));
    NamedSanitizes(name);
    WholeTidy(name, upper);
    CutsDown(Whole(name, upper));
    assert Sanitizes(name, s);
  }

  // ---------------------------------------------------------------- cutting can make a device name

  /** `s` starts with the device name `d`, and the rest of its first 180 bytes is padding that starts with a space. */
  ghost predicate CutsTo(s: string, d: nat, upper: char -> char) {
    && d < |Cut(s)| && Device(Mapped(s[..d], upper)) && s[d] == ' '
    && forall i :: d <= i < |Cut(s)| ==> Padding(s[i])
  }

  ghost predicate CutsToDevice(s: string, upper: char -> char) { Size(s) > MAX_BYTES && exists d :: CutsTo(s, d, upper) }

  lemma {:induction false} BaseOf(s: string, n: nat)
    requires n <= |s| && (forall i :: 0 <= i < n ==> s[i] != '.') && (n == |s| || s[n] == '.')
    ensures Base(s) == s[..n]
    decreases n
  {
    if n > 0 { BaseOf(s[1..], n - 1); assert s[..n] == [s[0]] + s[1..][..n - 1]; }
  }

  lemma {:induction false} BaseIs(s: string)
    ensures Base(s) <= s && (forall i :: 0 <= i < |Base(s)| ==> s[i] != '.') && (|Base(s)| == |s| || s[|Base(s)|] == '.')
    decreases |s|
  {
    if s != [] && s[0] != '.' { BaseIs(s[1..]); }
  }

  /** What the cut and the trim keep. */
  lemma KeptPrefix(w: string)
    ensures var c, r := Cut(w), TrimRight(Cut(w));
            && |r| <= |c| <= |w| && r == w[..|r|] && c == w[..|c|] && (forall i :: |r| <= i < |c| ==> Padding(w[i]))
  {
    var c, r := Cut(w), TrimRight(Cut(w));
    assert r == c[..|r|];
    forall i | |r| <= i < |c| ensures Padding(w[i]) { assert Padding(c[i]) && c[i] == w[i]; }
  }

  lemma DeviceShort(base: string)
    requires Device(base)
    ensures |base| <= 4
  {}

  lemma CutMaximal(w: string, n: nat)
    requires n <= |w| && Size(w[..n]) <= MAX_BYTES
    ensures n <= |Cut(w)|
  {}

  /** The cut keeps more than four characters, if there are more. */
  lemma CutLong(w: string, n: nat)
    requires n <= 4 && n < |w|
    ensures n < |Cut(w)|
  {
    var start := w[..n + 1];
    SizeGrows(start, 0);
    CutMaximal(w, n + 1);
  }

  /** The base of a prefix is the base of the whole, unless it is all of the prefix and the whole goes on. */
  lemma PrefixBase(w: string, k: nat)
    requires k <= |w|
    ensures Base(w[..k]) == Base(w) || (|Base(w[..k])| == k < |w| && w[k] != '.')
  {
    var r := w[..k];
    BaseIs(r);
    var n := |Base(r)|;
    assert Base(r) == w[..n];
    if n == |w| || w[n] == '.' {
      BaseOf(w, n);
    } else {
      assert n == k;
    }
  }

  /** A device name at the end of the cut name was the start of the whole name, and padding followed it. */
  lemma DeviceStarts(w: string, upper: char -> char)
    requires Tidy(w) && !IsDevice(w, upper)
    requires IsDevice(TrimRight(Cut(w)), upper)
    ensures CutsToDevice(w, upper)
  {
    var c, r := Cut(w), TrimRight(Cut(w));
    KeptPrefix(w);
    PrefixBase(w, |r|);
    DeviceShort(Mapped(Base(r), upper));
    var n := |r|;
    BaseIs(r);
    assert Base(r) == w[..n];
    CutLong(w, n);
    if Size(w) <= MAX_BYTES { UncutKept(w); }
    assert CutsTo(w, n, upper);
  }

  lemma StartsToDevice(w: string, d: nat, upper: char -> char)
    requires CutsTo(w, d, upper) && (forall c :: upper(c) == '.' <==> c == '.') && (forall c :: upper(c) == ' ' <==> c == ' ')
    ensures IsDevice(TrimRight(Cut(w)), upper)
  {
    var c, r := Cut(w), TrimRight(Cut(w));
    DevicePlain(Mapped(w[..d], upper));
    forall i | 0 <= i < d ensures !Padding(w[i]) { assert Mapped(w[..d], upper)[i] == upper(w[i]); }
    assert c[d - 1] == w[d - 1];
    assert |r| == d;
    assert r == w[..d];
    BaseOf(r, d);
    assert r[..d] == r;
  }

  /** The exported name is a device name exactly when the whole name is longer than 180 bytes and those are a device name
      and padding. */
  lemma DeviceExactly(name: string, upper: char -> char)
    requires upper('_') == '_' && (forall c :: upper(c) == '.' <==> c == '.') && (forall c :: upper(c) == ' ' <==> c == ' ')
    ensures IsDevice(Filename(name, upper), upper) <==> CutsToDevice(Whole(name, upper), upper)
  {
    var w := Whole(name, upper);
    WholeTidy(name, upper);
    WholeNoDevice(name, upper);
    if IsDevice(Filename(name, upper), upper) { DeviceStarts(w, upper); }
    if CutsToDevice(w, upper) {
      var d :| CutsTo(w, d, upper);
      StartsToDevice(w, d, upper);
    }
  }

  lemma DevicePlain(d: string)
    requires Device(d)
    ensures d != [] && forall i :: 0 <= i < |d| ==> !Padding(d[i])
  {}

  /** "CON", two hundred spaces and an "x". */
  const LONG_CON: string := "CON" + seq(200, _ => ' ') + "x"

  /** The guard is not enough: a valid upload name whose exported name is the device CON. */
  lemma DeviceWitness()
    ensures IsDevice(Filename(LONG_CON, c => c), c => c)
  {
    var s, id := LONG_CON, (c: char) => c;
    LongPlain();
    TidyWhole(s, id);
    LongCuts();
    StartsToDevice(s, 3, id);
  }

  lemma LongPlain()
    ensures Tidy(LONG_CON) && !IsSuspect(LONG_CON, c => c)
  {
    BaseOf(LONG_CON, |LONG_CON|);
  }

  lemma LongCuts()
    ensures CutsTo(LONG_CON, 3, c => c)
  {
    var s := LONG_CON;
    SizeGrows(s, |s|);
    SizeGrows(s[..4], 0);
    SizeGrows(Cut(s), |Cut(s)|);
    assert |Cut(s)| <= MAX_BYTES;
    assert |Cut(s)| >= 4;
    assert Mapped(s[..3], c => c) == "CON";
  }
}
