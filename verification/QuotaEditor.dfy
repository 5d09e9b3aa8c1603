/** The organizer's quota form: drafts, automatic totals, payloads and the "limit reached" notices. A displayed number is an
    arbitrary function of the stored one. */
module QuotaEditor {
  import opened Wrappers
  import opened MediaModel
  import opened MediaStats

  datatype Field = Photos | PhotoFile | PhotoStorage | Videos | VideoFile | VideoStorage | Assets | Bytes

  /** The stored limits of an event. */
  type Record = Field -> Option<nat>
  /** What the form shows or the organizer typed. */
  type Draft = Field -> Option<real>
  type Display = (Field, nat) -> real
  datatype Modes = Modes(photo: bool, video: bool)    // true means automatic
  datatype Total = NoTotal | Total(bytes: nat) | Invalid

  const MAX_BYTES: nat := 1_125_899_906_842_624
  const MAX_COUNT: nat := 1_000_000
  const MAX_SAFE: int := 9_007_199_254_740_991

  function Unit(f: Field): nat {
    match f
    case Photos => 1
    case Videos => 1
    case Assets => 1
    case PhotoFile => 1_048_576
    case VideoFile => 1_048_576
    case PhotoStorage => 1_073_741_824
    case VideoStorage => 1_073_741_824
    case Bytes => 1_073_741_824
  }

  function CountOf(m: Media): Field { if m.Photo? then Photos else Videos }
  function FileOf(m: Media): Field { if m.Photo? then PhotoFile else VideoFile }
  function StorageOf(m: Media): Field { if m.Photo? then PhotoStorage else VideoStorage }

  predicate Automatic(modes: Modes, m: Media) { if m.Photo? then modes.photo else modes.video }

  /** What opening the form shows. */
  function Shown(event: Option<Record>, show: Display): Draft {
    (f: Field) => if event.None? || event.value(f).None? then None else Some(show(f, event.value(f).value))
  }

  /** Math.round. */
  function Round(x: real): int { (x + 0.5).Floor }

  /** A field the organizer did not touch keeps its stored value exactly. */
  function Explicit(draft: Draft, event: Option<Record>, show: Display, f: Field): Option<real> {
    if event.Some? && draft(f) == Shown(event, show)(f) then
      if event.value(f).None? then None else Some(event.value(f).value as real)
    else if draft(f).None? then None
    else if Unit(f) == 1 then draft(f)
    else Some(Round(draft(f).value * Unit(f) as real) as real)
  }

  predicate SafeInteger(x: real) { x == x.Floor as real && -MAX_SAFE <= x.Floor <= MAX_SAFE }

  predicate CountOk(x: real) { SafeInteger(x) && 1.0 <= x <= MAX_COUNT as real }

  predicate FileOk(x: real) { SafeInteger(x) && 1.0 <= x <= MAX_BYTES as real }

  function Product(event: Record, m: Media): Option<nat> {
    if event(CountOf(m)).None? || event(FileOf(m)).None? then None else Some(event(CountOf(m)).value * event(FileOf(m)).value)
  }

  /** A class is automatic when its stored total is the product of its count and file size. */
  function ModesOf(event: Option<Record>): Modes {
    if event.None? then Modes(true, true) else Modes(IsProduct(event.value, Photo), IsProduct(event.value, Video))
  }

  predicate IsProduct(event: Record, m: Media) { Product(event, m).Some? && event(StorageOf(m)) == Product(event, m) }

  function Calculated(draft: Draft, event: Option<Record>, show: Display, m: Media): Total {
    var count, size := Explicit(draft, event, show, CountOf(m)), Explicit(draft, event, show, FileOf(m));
    if count.None? || size.None? then NoTotal
    else if !CountOk(count.value) || !FileOk(size.value) then Invalid
    else if count.value.Floor * size.value.Floor > MAX_BYTES then Invalid
    else Multiplied(count.value.Floor, size.value.Floor)
  }

  function Multiplied(count: int, size: int): Total
    requires count >= 1 && size >= 1
  {
    assert count * size >= 0;
    Total(count * size)
  }

  /** The value the form sends for one field. */
  function Sent(draft: Draft, event: Option<Record>, show: Display, modes: Modes, f: Field): Option<real> {
    var m := if f == PhotoStorage then Photo else Video;
    if (f == PhotoStorage || f == VideoStorage) && Automatic(modes, m) then
      match Calculated(draft, event, show, m)
      case Total(bytes) => Some(bytes as real)
      case _ => None
    else Explicit(draft, event, show, f)
  }

  /** The whole payload, or None when an automatic total is invalid. */
  function Payload(draft: Draft, event: Option<Record>, show: Display, modes: Modes): Option<Draft> {
    if (modes.photo && Calculated(draft, event, show, Photo).Invalid?) || (modes.video && Calculated(draft, event, show, Video).Invalid?) then None
    else Some((f: Field) => Sent(draft, event, show, modes, f))
  }

  /** Editing a field; typing a total makes its class custom. */
  function Edit(draft: Draft, modes: Modes, f: Field, value: Option<real>): (Draft, Modes) {
    ((g: Field) => if g == f then value else draft(g),
     Modes(modes.photo && f != PhotoStorage, modes.video && f != VideoStorage))
  }

  // ---------------------------------------------------------------- properties

  /** What the server accepts as stored limits. */
  ghost predicate InBounds(event: Record) {
    forall f :: event(f).Some? ==> 1 <= event(f).value <= (if Unit(f) == 1 then MAX_COUNT else MAX_BYTES)
  }

  /** The stored limits, as a payload. */
  function Stored(event: Record): Draft { (f: Field) => if event(f).None? then None else Some(event(f).value as real) }

  lemma UntouchedClass(event: Record, show: Display, m: Media)
    requires InBounds(event) && IsProduct(event, m)
    ensures Calculated(Shown(Some(event), show), Some(event), show, m) == Total(event(StorageOf(m)).value)
  {
    var count, size := event(CountOf(m)).value, event(FileOf(m)).value;
    assert (count as real).Floor == count && (size as real).Floor == size;
  }

  /** Opening the form and saving without an edit sends exactly the stored limits, whatever rounding the display uses. */
  lemma OpenSave(event: Record, show: Display)
    requires InBounds(event)
    ensures Payload(Shown(Some(event), show), Some(event), show, ModesOf(Some(event))).Some?
    ensures forall f :: Payload(Shown(Some(event), show), Some(event), show, ModesOf(Some(event))).value(f) == Stored(event)(f)
  {
    if IsProduct(event, Photo) { UntouchedClass(event, show, Photo); }
    if IsProduct(event, Video) { UntouchedClass(event, show, Video); }
  }

  /** The record the server stores for a payload of whole numbers. */
  ghost predicate Saved(payload: Draft, event: Record) { forall f :: payload(f) == Stored(event)(f) }

  /** With a count and a file size, an automatic total is their exact product, and the saved event opens as automatic. */
  lemma AutomaticReopens(draft: Draft, event: Option<Record>, show: Display, modes: Modes, m: Media, saved: Record)
    requires Automatic(modes, m) && Payload(draft, event, show, modes).Some? && Saved(Payload(draft, event, show, modes).value, saved)
    requires saved(CountOf(m)).Some? && saved(FileOf(m)).Some?
    ensures saved(StorageOf(m)) == Product(saved, m) && Automatic(ModesOf(Some(saved)), m)
  {
    var payload := Payload(draft, event, show, modes).value;
    assert payload(CountOf(m)) == Stored(saved)(CountOf(m)) && payload(FileOf(m)) == Stored(saved)(FileOf(m));
    assert payload(StorageOf(m)) == Stored(saved)(StorageOf(m));
    var count, size := saved(CountOf(m)).value, saved(FileOf(m)).value;
    assert (count as real).Floor == count && (size as real).Floor == size;
    match Calculated(draft, event, show, m) {
      case Total(bytes) => WholeNumber(bytes, saved(StorageOf(m)).value);
      case NoTotal => {}
      case Invalid => {}
    }
  }

  lemma WholeNumber(a: nat, b: nat)
    requires a as real == b as real
    ensures a == b
  {}

  predicate OfMedia(f: Field, m: Media) { f == CountOf(m) || f == FileOf(m) || f == StorageOf(m) }

  lemma SameField(draft: Draft, edited: Draft, event: Option<Record>, show: Display, f: Field)
    requires edited(f) == draft(f)
    ensures Explicit(edited, event, show, f) == Explicit(draft, event, show, f)
  {}

  lemma SameTotal(draft: Draft, edited: Draft, event: Option<Record>, show: Display, m: Media)
    requires edited(CountOf(m)) == draft(CountOf(m)) && edited(FileOf(m)) == draft(FileOf(m))
    ensures Calculated(edited, event, show, m) == Calculated(draft, event, show, m)
  {
    SameField(draft, edited, event, show, CountOf(m));
    SameField(draft, edited, event, show, FileOf(m));
  }

  lemma SameSent(draft: Draft, edited: Draft, event: Option<Record>, show: Display, modes: Modes, after: Modes, m: Media, g: Field)
    requires edited(g) == draft(g) && edited(CountOf(m)) == draft(CountOf(m)) && edited(FileOf(m)) == draft(FileOf(m))
    requires Automatic(after, m) == Automatic(modes, m)
    requires (g != PhotoStorage && g != VideoStorage) || g == StorageOf(m)
    ensures Sent(edited, event, show, after, g) == Sent(draft, event, show, modes, g)
  {
    SameField(draft, edited, event, show, g);
    SameTotal(draft, edited, event, show, m);
  }

  /** Editing a field of one class leaves what is sent for every field of the other as it was. */
  lemma ClassesIndependent(draft: Draft, event: Option<Record>, show: Display, modes: Modes, f: Field, value: Option<real>, m: Media, g: Field)
    requires OfMedia(f, m) && !OfMedia(g, m)
    requires Payload(draft, event, show, modes).Some?
    requires Payload(Edit(draft, modes, f, value).0, event, show, Edit(draft, modes, f, value).1).Some?
    ensures Payload(Edit(draft, modes, f, value).0, event, show, Edit(draft, modes, f, value).1).value(g) == Payload(draft, event, show, modes).value(g)
  {
    var (edited, after) := Edit(draft, modes, f, value);
    SameSent(draft, edited, event, show, modes, after, if m.Photo? then Video else Photo, g);
  }

  // ---------------------------------------------------------------- what any form sends

  /** What a typed number is worth: a count as it is, file sizes in MiB and totals in GiB, rounded to whole bytes. */
  function Worth(f: Field, v: real): real {
    match f
    case Photos => v
    case Videos => v
    case Assets => v
    case PhotoFile => ((v * 1048576.0) + 0.5).Floor as real
    case VideoFile => ((v * 1048576.0) + 0.5).Floor as real
    case PhotoStorage => ((v * 1073741824.0) + 0.5).Floor as real
    case VideoStorage => ((v * 1073741824.0) + 0.5).Floor as real
    case Bytes => ((v * 1073741824.0) + 0.5).Floor as real
  }

  predicate Whole(x: real) { x == x.Floor as real }

  /** A count and a file size whose product the form accepts as a total: whole numbers, at most a million files, and nothing above
      1 PiB. */
  predicate Multiplies(count: real, size: real) {
    && Whole(count) && Whole(size) && 1.0 <= count <= 1000000.0 && 1.0 <= size <= 1125899906842624.0
    && count.Floor * size.Floor <= 1125899906842624
  }

  /** The automatic total of a class: none without a count or a file size, else their product. */
  function TotalOf(r: Draft, m: Media): Option<int> {
    if r(CountOf(m)).None? || r(FileOf(m)).None? then None else Some(r(CountOf(m)).value.Floor * r(FileOf(m)).value.Floor)
  }

  predicate TotalOk(r: Draft, m: Media) { TotalOf(r, m).None? || Multiplies(r(CountOf(m)).value, r(FileOf(m)).value) }

  lemma WorthIs(f: Field, v: real)
    ensures Worth(f, v) == if Unit(f) == 1 then v else Round(v * Unit(f) as real) as real
  {
    match f case Photos => case PhotoFile => case PhotoStorage => case Videos => case VideoFile => case VideoStorage => case Assets => case Bytes =>
  }

  /** What each field of a form is worth: untouched ones what is stored, the others what was typed. */
  function Effective(draft: Draft, event: Option<Record>, show: Display): Draft {
    (f: Field) =>
      if event.Some? && draft(f) == Shown(event, show)(f) then Stored(event.value)(f)
      else if draft(f).None? then None else Some(Worth(f, draft(f).value))
  }

  lemma ExplicitExactly(draft: Draft, event: Option<Record>, show: Display, f: Field)
    ensures Explicit(draft, event, show, f) == Effective(draft, event, show)(f)
  {
    if draft(f).Some? { WorthIs(f, draft(f).value); }
  }

  lemma CalculatedExactly(draft: Draft, event: Option<Record>, show: Display, m: Media)
    ensures var r, total := Effective(draft, event, show), Calculated(draft, event, show, m);
            && (total.Invalid? <==> !TotalOk(r, m)) && (total.NoTotal? <==> TotalOf(r, m).None?)
            && (total.Total? ==> Some(total.bytes as int) == TotalOf(r, m))
  {
    ExplicitExactly(draft, event, show, CountOf(m));
    ExplicitExactly(draft, event, show, FileOf(m));
  }

  /** Saving any form, of a new or a stored event: nothing is sent exactly if an automatic total is not acceptable; else each limit is
      sent as its worth, and each automatic total as its product, if it has one. */
  lemma SendsExactly(draft: Draft, event: Option<Record>, show: Display, modes: Modes)
    ensures var sent, r := Payload(draft, event, show, modes), Effective(draft, event, show);
            && (sent.None? <==> (modes.photo && !TotalOk(r, Photo)) || (modes.video && !TotalOk(r, Video)))
            && (sent.Some? ==> forall f :: sent.value(f) == Limit(r, modes, f))
  {
    CalculatedExactly(draft, event, show, Photo);
    CalculatedExactly(draft, event, show, Video);
    forall f: Field ensures Explicit(draft, event, show, f) == Effective(draft, event, show)(f) { ExplicitExactly(draft, event, show, f); }
  }

  function Limit(r: Draft, modes: Modes, f: Field): Option<real> {
    match f
    case PhotoStorage => if modes.photo then (if TotalOf(r, Photo).None? then None else Some(TotalOf(r, Photo).value as real)) else r(f)
    case VideoStorage => if modes.video then (if TotalOf(r, Video).None? then None else Some(TotalOf(r, Video).value as real)) else r(f)
    case _ => r(f)
  }

  // ---------------------------------------------------------------- notices

  datatype Notice = ClassCount(media: Media) | ClassStorage(media: Media) | OverallCount | OverallStorage

  predicate Reached(n: nat, max: Option<nat>) { max.Some? && n >= max.value }

  method Statuses(x: Event, s: Stats) returns (notices: seq<Notice>)
    ensures forall n :: n in notices <==> Shows(x, s, n)
  {
    notices := [];
    var kinds := [Photo, Video];
    var i := 0;
    while i < 2
      invariant 0 <= i <= 2
      invariant forall n :: n in notices <==> (n.ClassCount? || n.ClassStorage?) && n.media in kinds[..i] && Shows(x, s, n)
    {
      var m := kinds[i];
      var usage, limits := ClassStats(s, m), ClassLimits(x, m);
      if Reached(usage.ready + usage.pending, limits.count) { notices := notices + [ClassCount(m)]; }
      if Reached(usage.bytes + usage.reserved, limits.bytes) { notices := notices + [ClassStorage(m)]; }
      i := i + 1;
    }
    forall m: Media ensures m in kinds[..i] { assert m == kinds[if m.Photo? then 0 else 1]; }
    if Reached(s.total.ready + s.total.pending, x.total.count) { notices := notices + [OverallCount]; }
    if Reached(s.total.bytes + s.total.reserved, x.total.bytes) { notices := notices + [OverallStorage]; }
  }

  predicate Shows(x: Event, s: Stats, n: Notice) {
    match n
    case ClassCount(m) => Reached(ClassStats(s, m).ready + ClassStats(s, m).pending, ClassLimits(x, m).count)
    case ClassStorage(m) => Reached(ClassStats(s, m).bytes + ClassStats(s, m).reserved, ClassLimits(x, m).bytes)
    case OverallCount => Reached(s.total.ready + s.total.pending, x.total.count)
    case OverallStorage => Reached(s.total.bytes + s.total.reserved, x.total.bytes)
  }

  /** The server's test behind a notice refuses a reservation of `size` bytes. */
  predicate Refuses(db: Db, e: nat, n: Notice, size: nat)
    requires e in db.events
  {
    var x := db.events[e];
    match n
    case ClassCount(m) => Full(Count(db.assets, OfClass(e, m)), ClassLimits(x, m).count)
    case ClassStorage(m) => Beyond(Used(db.assets, OfClass(e, m)), size, ClassLimits(x, m).bytes)
    case OverallCount => Full(Count(db.assets, OfEvent(e)), x.total.count)
    case OverallStorage => Beyond(Used(db.assets, OfEvent(e)), size, x.total.bytes)
  }

  /** The measure of a notice, its limit, and whether it counts files. */
  function Measure(db: Db, e: nat, n: Notice): (nat, Option<nat>)
    requires e in db.events
  {
    var x := db.events[e];
    match n
    case ClassCount(m) => (Count(db.assets, OfClass(e, m)), ClassLimits(x, m).count)
    case ClassStorage(m) => (Used(db.assets, OfClass(e, m)), ClassLimits(x, m).bytes)
    case OverallCount => (Count(db.assets, OfEvent(e)), x.total.count)
    case OverallStorage => (Used(db.assets, OfEvent(e)), x.total.bytes)
  }

  lemma ShowsMeasure(db: Db, e: nat, n: Notice)
    requires e in db.events
    ensures Shows(db.events[e], StatsOf(db.assets, e), n) <==> Reached(Measure(db, e, n).0, Measure(db, e, n).1)
  {
    StatsAgree(db.assets, e, if n.ClassCount? || n.ClassStorage? then n.media else Photo);
  }

  lemma RefusesAll(count: nat, max: Option<nat>)
    ensures Reached(count, max) <==> Full(count, max)
    ensures Reached(count, max) <==> forall size: nat :: size > 0 ==> Beyond(count, size, max)
  {
    assert Beyond(count, 1, max) ==> Reached(count, max);
  }

  /** A notice is shown exactly when the server's test behind it refuses every reservation of a positive size. */
  lemma NoticeExactly(db: Db, e: nat, n: Notice)
    requires e in db.events
    ensures Shows(db.events[e], StatsOf(db.assets, e), n) <==> forall size: nat :: size > 0 ==> Refuses(db, e, n, size)
  {
    ShowsMeasure(db, e, n);
    RefusesAll(Measure(db, e, n).0, Measure(db, e, n).1);
    RefusesMeasure(db, e, n);
  }

  lemma RefusesMeasure(db: Db, e: nat, n: Notice)
    requires e in db.events
    ensures forall size: nat :: Refuses(db, e, n, size) <==>
              if n.ClassCount? || n.OverallCount? then Full(Measure(db, e, n).0, Measure(db, e, n).1)
              else Beyond(Measure(db, e, n).0, size, Measure(db, e, n).1)
  {}
}
