/** Classification of media by its first 512 bytes: the File Type Box of ISO/IEC 14496-12 (section 4.3), whose header is a
    32-bit size and a four-character type (section 4.2), or else the general image detector. */
module Sniff {
  import opened Wrappers

  type Byte = c: char | c as int < 256
  type Bytes = seq<Byte>
  type Brand = b: Bytes | |b| == 4 witness ['\0', '\0', '\0', '\0']

  datatype Error = ErrEmpty | ErrType

  const WINDOW := 512
  const VETOED: seq<string> := ["avif", "avis"]
  const HEIC: seq<string> := ["heic", "heix", "heim", "heis", "hevc", "hevx"]
  const HEIF: seq<string> := ["mif1", "msf1"]
  const MOVIES: seq<string> := ["isom", "iso2", "iso3", "iso4", "iso5", "iso6", "iso7", "iso8", "iso9", "mp41", "mp42", "avc1", "M4V ", "MSNV"]
  const IMAGES: seq<string> := ["image/jpeg", "image/png", "image/webp", "image/gif", "image/heic", "image/heif"]

  /** A big-endian integer. */
  function Be(p: Bytes): nat { if p == [] then 0 else Be(p[..|p| - 1]) * 256 + p[|p| - 1] as int }

  /** The major brand at offset 8 and the compatible brands from offset 16 to the end of the box. */
  function Brands(p: Bytes, size: nat): (r: seq<Bytes>)
    requires 16 <= size <= |p| && size % 4 == 0
    ensures 4 * |r| == size - 12 && forall b :: b in r ==> |b| == 4
    decreases size
  {
    if size == 16 then [p[8..12]] else Brands(p, size - 4) + [p[size - 4..size]]
  }

  datatype Family = Vetoed | Heic | Heif | QuickTime | Movie

  predicate Listed(b: Bytes, f: Family) {
    match f
    case Vetoed => b in VETOED
    case Heic => b in HEIC
    case Heif => b in HEIF
    case QuickTime => b == "qt  "
    case Movie => b in MOVIES
  }

  predicate AnyOf(brands: seq<Bytes>, f: Family) { exists b :: b in brands && Listed(b, f) }

  /** The box after the File Type Box, as far as the window shows it: a 32-bit size, or 1 and a 64-bit size, or 0 for
      "to the end"; it must hold its own header and fit the object if the object's size is known. */
  predicate BoxOk(rest: Bytes, room: Option<nat>) {
    && |rest| >= 8
    && var short := Be(rest[..4]);
       if short == 1 then |rest| >= 16 && var long := Be(rest[8..16]); long >= 16 && (room.None? || long <= room.value)
       else short == 0 || (short >= 8 && (room.None? || short <= room.value))
  }

  /** The precedence of brands: veto, HEIC, HEIF, QuickTime, MP4 by major brand. */
  function Ruling(brands: seq<Bytes>, rest: Bytes, room: Option<nat>): Result<string, Error>
    requires |brands| > 0
  {
    if AnyOf(brands, Vetoed) then Err(ErrType)
    else if AnyOf(brands, Heic) then Ok("image/heic")
    else if AnyOf(brands, Heif) then Ok("image/heif")
    else if !BoxOk(rest, room) then Err(ErrType)
    else if AnyOf(brands, QuickTime) then Ok("video/quicktime")
    else if Listed(brands[0], Movie) then Ok("video/mp4")
    else Err(ErrType)
  }

  function Truncated(prefix: Bytes): Bytes { if |prefix| > WINDOW then prefix[..WINDOW] else prefix }

  /** The size a short stream is known to have. */
  function Known(p: Bytes, size: int): int { if size < 0 && |p| < WINDOW then |p| else size }

  predicate HasFtyp(p: Bytes) { |p| >= 8 && p[4..8] == "ftyp" }

  predicate BoxFits(p: Bytes)
    requires |p| >= 8
  {
    var n := Be(p[..4]);
    16 <= n <= |p| && n % 4 == 0
  }

  /** What an object of `size` bytes has left after `n`, if its size is known. */
  function Room(size: int, n: nat): Option<nat>
    requires size < 0 || size >= n
  {
    if size < 0 then None else Some(size - n)
  }

  function BoxVerdict(p: Bytes, size: int): Result<string, Error>
    requires HasFtyp(p) && (size < 0 || size >= |p|)
  {
    if BoxFits(p) then Ruling(Brands(p, Be(p[..4])), p[Be(p[..4])..], Room(size, Be(p[..4]))) else Err(ErrType)
  }

  /** What Sniff answers; `detect` is the general detector. A negative `size` means that it is not known yet. */
  function Verdict(prefix: Bytes, size: int, detect: Bytes -> string): Result<string, Error> {
    if prefix == [] then Err(ErrEmpty)
    else
      var p := Truncated(prefix);
      var known := Known(p, size);
      if 0 <= known < |p| then Err(ErrType)
      else if HasFtyp(p) then BoxVerdict(p, known)
      else if detect(p) in IMAGES then Ok(detect(p))
      else Err(ErrType)
  }

  // ---------------------------------------------------------------- the loops

  method Scan(brands: seq<Bytes>, f: Family) returns (found: bool)
    ensures found <==> AnyOf(brands, f)
  {
    var i := 0;
    while i < |brands|
      invariant 0 <= i <= |brands|
      invariant forall k :: 0 <= k < i ==> !Listed(brands[k], f)
    {
      if Listed(brands[i], f) { return true; }
      i := i + 1;
    }
    return false;
  }

  method ReadBrands(p: Bytes, size: nat) returns (brands: seq<Bytes>)
    requires 16 <= size <= |p| && size % 4 == 0
    ensures brands == Brands(p, size)
  {
    brands := [p[8..12]];
    var i := 16;
    while i < size
      invariant 16 <= i <= size && i % 4 == 0
      invariant brands == Brands(p, i)
    {
      brands := brands + [p[i..i + 4]];
      i := i + 4;
    }
  }

  /** The header checks of the box after the File Type Box. */
  method NextBoxOk(rest: Bytes, room: Option<nat>) returns (ok: bool)
    ensures ok <==> BoxOk(rest, room)
  {
    if |rest| < 8 { return false; }
    var next := Be(rest[..4]);
    var minimum := 8;
    if next == 1 {
      if |rest| < 16 { return false; }
      next := Be(rest[8..16]);
      minimum := 16;
      if next < minimum { return false; }
    }
    if next != 0 && (next < minimum || (room.Some? && next > room.value)) { return false; }
    return true;
  }

  method Rule(brands: seq<Bytes>, rest: Bytes, room: Option<nat>) returns (kind: Result<string, Error>)
    requires |brands| > 0
    ensures kind == Ruling(brands, rest, room)
  {
    var found := Scan(brands, Vetoed);
    if found { return Err(ErrType); }
    found := Scan(brands, Heic);
    if found { return Ok("image/heic"); }
    found := Scan(brands, Heif);
    if found { return Ok("image/heif"); }
    var ok := NextBoxOk(rest, room);
    if !ok { return Err(ErrType); }
    found := Scan(brands, QuickTime);
    if found { return Ok("video/quicktime"); }
    return if Listed(brands[0], Movie) then Ok("video/mp4") else Err(ErrType);
  }

  method SniffBox(p: Bytes, size: int) returns (kind: Result<string, Error>)
    requires HasFtyp(p) && (size < 0 || size >= |p|)
    ensures kind == BoxVerdict(p, size)
  {
    var n := Be(p[..4]);
    if n < 16 || n > |p| || n % 4 != 0 { return Err(ErrType); }
    var brands := ReadBrands(p, n);
    kind := Rule(brands, p[n..], Room(size, n));
  }

  method SniffPrefix(prefix: Bytes, size: int, detect: Bytes -> string) returns (kind: Result<string, Error>)
    ensures kind == Verdict(prefix, size, detect)
  {
    if |prefix| == 0 { return Err(ErrEmpty); }
    var p := if |prefix| > WINDOW then prefix[..WINDOW] else prefix;
    var known := if size < 0 && |p| < WINDOW then |p| else size;
    if 0 <= known < |p| { return Err(ErrType); }
    if |p| >= 8 && p[4..8] == "ftyp" {
      kind := SniffBox(p, known);
      return;
    }
    return if detect(p) in IMAGES then Ok(detect(p)) else Err(ErrType);
  }

  // ---------------------------------------------------------------- an encoder and its inverse

  /** `n` in `k` big-endian bytes. */
  function Encoded(n: nat, k: nat): (p: Bytes)
    ensures |p| == k
  {
    if k == 0 then [] else Encoded(n / 256, k - 1) + [(n % 256) as char]
  }

  function Power(k: nat): nat { if k == 0 then 1 else 256 * Power(k - 1) }

  lemma {:induction false} EncodedBe(n: nat, k: nat)
    requires n < Power(k)
    ensures Be(Encoded(n, k)) == n
  {
    if k > 0 {
      EncodedBe(n / 256, k - 1);
      assert Encoded(n, k)[..k - 1] == Encoded(n / 256, k - 1);
    }
  }

  function Joined(brands: seq<Brand>): (p: Bytes)
    ensures |p| == 4 * |brands|
  {
    if brands == [] then [] else Joined(brands[..|brands| - 1]) + brands[|brands| - 1]
  }

  const FTYP: Brand := ['f', 't', 'y', 'p']

  /** size, "ftyp", major brand, minor version, compatible brands. */
  function FileTypeBox(major: Brand, minor: Brand, compatible: seq<Brand>): (p: Bytes)
    requires 16 + 4 * |compatible| <= WINDOW
    ensures |p| == 16 + 4 * |compatible|
  {
    Encoded(16 + 4 * |compatible|, 4) + FTYP + major + minor + Joined(compatible)
  }

  predicate BrandAt(p: Bytes, brands: seq<Brand>, i: nat)
    requires i < |brands| && 16 + 4 * |brands| <= |p|
  {
    p[16 + 4 * i..20 + 4 * i] == brands[i]
  }

  lemma {:induction false} BrandsRead(p: Bytes, brands: seq<Brand>, k: nat)
    requires k <= |brands| && 16 + 4 * |brands| <= |p| && forall i: nat :: i < |brands| ==> BrandAt(p, brands, i)
    ensures Brands(p, 16 + 4 * k) == [p[8..12]] + brands[..k]
    decreases k
  {
    if k > 0 {
      var j: nat := k - 1;
      BrandsRead(p, brands, j);
      assert BrandAt(p, brands, j);
      assert brands[..k] == brands[..j] + [brands[j]];
    }
  }

  lemma {:induction false} JoinedAt(brands: seq<Brand>, i: nat)
    requires i < |brands|
    ensures Joined(brands)[4 * i..4 * i + 4] == brands[i]
    decreases |brands|
  {
    var n := |brands| - 1;
    if i < n {
      JoinedAt(brands[..n], i);
      assert Joined(brands)[4 * i..4 * i + 4] == Joined(brands[..n])[4 * i..4 * i + 4];
    }
  }

  lemma BrandsOfJoined(head: Bytes, compatible: seq<Brand>, rest: Bytes)
    requires |head| == 16
    ensures Brands(head + Joined(compatible) + rest, 16 + 4 * |compatible|) == [head[8..12]] + compatible
  {
    var p, k := head + Joined(compatible) + rest, |compatible|;
    forall i: nat | i < k ensures BrandAt(p, compatible, i) {
      JoinedAt(compatible, i);
      assert p[16 + 4 * i..20 + 4 * i] == Joined(compatible)[4 * i..4 * i + 4];
    }
    BrandsRead(p, compatible, k);
    assert compatible[..k] == compatible && p[8..12] == head[8..12];
  }

  lemma BoxHeader(major: Brand, minor: Brand, compatible: seq<Brand>, rest: Bytes)
    requires 16 + 4 * |compatible| <= WINDOW
    ensures var p, n := FileTypeBox(major, minor, compatible) + rest, 16 + 4 * |compatible|;
            && HasFtyp(p) && Be(p[..4]) == n && BoxFits(p) && p[n..] == rest
            && Brands(p, n) == [major] + compatible
  {
    var box, n := FileTypeBox(major, minor, compatible), 16 + 4 * |compatible|;
    var p, head := box + rest, Encoded(n, 4) + FTYP + major + minor;
    assert p == head + Joined(compatible) + rest;
    assert p[..4] == Encoded(n, 4) && p[4..8] == FTYP && head[8..12] == major;
    BrandsOfJoined(head, compatible, rest);
    assert Power(4) == 256 * 256 * 256 * 256;
    EncodedBe(n, 4);
  }

  /** Classification inverts the encoder: the answer is the brand precedence on exactly the brands that were encoded. */
  lemma SniffsEncoded(major: Brand, minor: Brand, compatible: seq<Brand>, rest: Bytes, size: int, detect: Bytes -> string)
    requires 16 + 4 * |compatible| + |rest| <= WINDOW
    requires size < 0 || size >= 16 + 4 * |compatible| + |rest|
    ensures var p := FileTypeBox(major, minor, compatible) + rest;
            Verdict(p, size, detect)
            == Ruling([major] + compatible, rest, Room(Known(p, size), 16 + 4 * |compatible|))
  {
    BoxHeader(major, minor, compatible, rest);
    VerdictOfBox(FileTypeBox(major, minor, compatible) + rest, size, [major] + compatible, rest, 16 + 4 * |compatible|, detect);
  }

  lemma VerdictOfBox(p: Bytes, size: int, brands: seq<Bytes>, rest: Bytes, n: nat, detect: Bytes -> string)
    requires |p| <= WINDOW && HasFtyp(p) && BoxFits(p) && Be(p[..4]) == n && p[n..] == rest && Brands(p, n) == brands && (size < 0 || size >= |p|)
    ensures Verdict(p, size, detect) == Ruling(brands, rest, Room(Known(p, size), n))
  {
    BoxOfEncoded(p, Known(p, size), brands, rest, n);
  }

  lemma BoxOfEncoded(p: Bytes, size: int, brands: seq<Bytes>, rest: Bytes, n: nat)
    requires HasFtyp(p) && BoxFits(p) && Be(p[..4]) == n && p[n..] == rest && Brands(p, n) == brands && (size < 0 || size >= |p|)
    ensures BoxVerdict(p, size) == Ruling(brands, rest, Room(size, n))
  {}

  // ---------------------------------------------------------------- what is accepted, by the bytes

  /** A brand of the list stands at offset 8, or at a multiple of 4 from 16 up to the end of the box. */
  ghost predicate Carries(p: Bytes, n: nat, names: seq<string>) {
    |p| >= 12 && (p[8..12] in names || exists o :: 16 <= o && o + 4 <= n && o + 4 <= |p| && o % 4 == 0 && p[o..o + 4] in names)
  }

  /** What follows the box at `n` is the header of one that the object of `size` bytes can hold: a 32-bit size of 8 or more, or 1
      and a 64-bit size of 16 or more, or 0. */
  predicate Continues(p: Bytes, n: nat, size: int) {
    && n + 8 <= |p|
    && var short := Be(p[n..n + 4]);
       if short == 1 then n + 16 <= |p| && Be(p[n + 8..n + 16]) >= 16 && (size < 0 || n + Be(p[n + 8..n + 16]) <= size)
       else short == 0 || (short >= 8 && (size < 0 || n + short <= size))
  }

  lemma {:induction false} BrandsAre(p: Bytes, n: nat, b: Bytes)
    requires 16 <= n <= |p| && n % 4 == 0
    ensures b in Brands(p, n) <==> b == p[8..12] || exists o :: 16 <= o && o + 4 <= n && o % 4 == 0 && b == p[o..o + 4]
    decreases n
  {
    if n > 16 {
      BrandsAre(p, n - 4, b);
      assert Brands(p, n) == Brands(p, n - 4) + [p[n - 4..n]];
      if o :| 16 <= o && o + 4 <= n && o % 4 == 0 && b == p[o..o + 4] {
        if o + 4 == n { assert b == p[n - 4..n]; }
      }
      if b == p[n - 4..n] { assert 16 <= n - 4 && (n - 4) % 4 == 0; }
    }
  }

  lemma CarriesExactly(p: Bytes, n: nat, f: Family, names: seq<string>)
    requires 16 <= n <= |p| && n % 4 == 0 && forall b: Bytes :: Listed(b, f) <==> b in names
    ensures AnyOf(Brands(p, n), f) <==> Carries(p, n, names)
  {
    if AnyOf(Brands(p, n), f) {
      var b :| b in Brands(p, n) && Listed(b, f);
      BrandsAre(p, n, b);
    }
    if Carries(p, n, names) {
      if p[8..12] in names {
        BrandsAre(p, n, p[8..12]);
        assert Listed(p[8..12], f);
      } else {
        var o :| 16 <= o && o + 4 <= n && o + 4 <= |p| && o % 4 == 0 && p[o..o + 4] in names;
        BrandsAre(p, n, p[o..o + 4]);
        assert Listed(p[o..o + 4], f);
      }
    }
  }

  lemma ContinuesExactly(p: Bytes, n: nat, size: int)
    requires n <= |p| && (size < 0 || size >= |p|)
    ensures BoxOk(p[n..], Room(size, n)) <==> Continues(p, n, size)
  {
    if |p| - n >= 8 {
      assert p[n..][..4] == p[n..n + 4];
      if |p| - n >= 16 { assert p[n..][8..16] == p[n + 8..n + 16]; }
    }
  }

  const HEIC_NAMES: seq<string> := ["heic", "heix", "heim", "heis", "hevc", "hevx"]
  const MP4_NAMES: seq<string> :=
    ["isom", "iso2", "iso3", "iso4", "iso5", "iso6", "iso7", "iso8", "iso9", "mp41", "mp42", "avc1", "M4V ", "MSNV"]

  /** How a readable box is ruled on. */
  lemma RulingByBytes(p: Bytes, size: int)
    requires HasFtyp(p) && BoxFits(p) && (size < 0 || size >= |p|)
    ensures var n, v := Be(p[..4]), BoxVerdict(p, size);
            if Carries(p, n, ["avif", "avis"]) then v.Err?
            else if Carries(p, n, HEIC_NAMES) then v == Ok("image/heic")
            else if Carries(p, n, ["mif1", "msf1"]) then v == Ok("image/heif")
            else if !Continues(p, n, size) then v.Err?
            else if Carries(p, n, ["qt  "]) then v == Ok("video/quicktime")
            else if p[8..12] in MP4_NAMES then v == Ok("video/mp4") else v.Err?
  {
    var n := Be(p[..4]);
    CarriesExactly(p, n, Vetoed, ["avif", "avis"]);
    CarriesExactly(p, n, Heic, HEIC_NAMES);
    CarriesExactly(p, n, Heif, ["mif1", "msf1"]);
    CarriesExactly(p, n, QuickTime, ["qt  "]);
    ContinuesExactly(p, n, size);
    MajorFirst(p, n);
  }

  /** Which objects with a File Type Box are accepted, and as what: `p` are the first 512 bytes or all, `known` is the size of the
      object if it is known. */
  lemma BoxAccepted(prefix: Bytes, size: int, detect: Bytes -> string)
    requires HasFtyp(Truncated(prefix)) && (Known(Truncated(prefix), size) < 0 || Known(Truncated(prefix), size) >= |Truncated(prefix)|)
    ensures var p, v := Truncated(prefix), Verdict(prefix, size, detect);
            var n, known := Be(p[..4]), Known(p, size);
            if !(16 <= n <= |p| && n % 4 == 0) || Carries(p, n, ["avif", "avis"]) then v.Err?
            else if Carries(p, n, HEIC_NAMES) then v == Ok("image/heic")
            else if Carries(p, n, ["mif1", "msf1"]) then v == Ok("image/heif")
            else if !Continues(p, n, known) then v.Err?
            else if Carries(p, n, ["qt  "]) then v == Ok("video/quicktime")
            else if p[8..12] in MP4_NAMES then v == Ok("video/mp4") else v.Err?
  {
    var p := Truncated(prefix);
    if BoxFits(p) { RulingByBytes(p, Known(p, size)); }
  }

  lemma {:induction false} MajorFirst(p: Bytes, n: nat)
    requires 16 <= n <= |p| && n % 4 == 0
    ensures |Brands(p, n)| > 0 && Brands(p, n)[0] == p[8..12]
    decreases n
  {
    if n > 16 { MajorFirst(p, n - 4); }
  }

  /** Other objects are accepted exactly if they are not empty, no shorter than the bytes read, and detected as one of the six
      image types. */
  lemma ImageAccepted(prefix: Bytes, size: int, detect: Bytes -> string)
    requires !HasFtyp(Truncated(prefix))
    ensures var p, v := Truncated(prefix), Verdict(prefix, size, detect);
            && (v.Ok? <==> && prefix != [] && (size < 0 || size >= |p|)
                           && detect(p) in ["image/jpeg", "image/png", "image/webp", "image/gif", "image/heic", "image/heif"])
            && (v.Ok? ==> v.value == detect(p))
  {}

  lemma RulingMonotone(brands: seq<Bytes>, rest: Bytes, small: Option<nat>, large: Option<nat>)
    requires |brands| > 0 && Ruling(brands, rest, small).Ok? && (large.None? || (small.Some? && small.value <= large.value))
    ensures Ruling(brands, rest, large) == Ruling(brands, rest, small)
  {}

  /** A larger object, or one of unknown size behind a full window, is accepted as what a smaller one is accepted as. */
  lemma Monotone(prefix: Bytes, small: nat, large: int, detect: Bytes -> string)
    requires Verdict(prefix, small, detect).Ok?
    requires small <= large || (large < 0 && |prefix| >= WINDOW)
    ensures Verdict(prefix, large, detect) == Verdict(prefix, small, detect)
  {
    var p := Truncated(prefix);
    if HasFtyp(p) { RulingMonotone(Brands(p, Be(p[..4])), p[Be(p[..4])..], Room(Known(p, small), Be(p[..4])), Room(Known(p, large), Be(p[..4]))); }
  }

  /** Two accepting calls on the same bytes agree on the type, whatever sizes they were given. */
  lemma Agree(prefix: Bytes, a: int, b: int, detect: Bytes -> string)
    requires Verdict(prefix, a, detect).Ok? && Verdict(prefix, b, detect).Ok?
    ensures Verdict(prefix, a, detect) == Verdict(prefix, b, detect)
  {
    var p := Truncated(prefix);
    if HasFtyp(p) {
      var brands, rest := Brands(p, Be(p[..4])), p[Be(p[..4])..];
      var x, y := Room(Known(p, a), Be(p[..4])), Room(Known(p, b), Be(p[..4]));
      if x.None? || (y.Some? && y.value <= x.value) { RulingMonotone(brands, rest, y, x); } else { RulingMonotone(brands, rest, x, y); }
    }
  }

  /** Upload reserves the class it finally records: `prefix` is the first 512 bytes, or the whole stream of `size` bytes. The
      first call refuses nothing the second would accept. */
  lemma ReservedClassIsFinal(prefix: Bytes, size: nat, detect: Bytes -> string)
    requires |prefix| == if size < WINDOW then size else WINDOW
    ensures Verdict(prefix, size, detect).Ok? ==> Verdict(prefix, -1, detect) == Verdict(prefix, size, detect)
  {
    if Verdict(prefix, size, detect).Ok? && size >= WINDOW { Monotone(prefix, size, -1, detect); }
  }
}
