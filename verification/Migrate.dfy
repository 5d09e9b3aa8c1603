/** The migration runner: one transaction checks the recorded history against the binary's scripts and applies the rest. The
    effect of a script on the schema, and the checksum, are parameters. */
module Migrate {
  import opened Wrappers
  import opened Text

  datatype File = File(name: string, script: string)
  datatype Row = Row(version: nat, name: string, checksum: string)
  /** `history` holds the rows in the order of their versions; an absent table reads as no rows. */
  datatype Db<S> = Db(schema: S, history: seq<Row>)

  /** How the database runs one script, which may fail, and the checksum of a script. */
  datatype Engine<!S> = Engine(apply: (S, string) -> Option<S>, sum: string -> string)

  function Padded(n: nat): string { if n < 10 then "00" + Decimal(n) else if n < 100 then "0" + Decimal(n) else Decimal(n) }

  predicate NumberedAt(files: seq<File>, i: nat)
    requires i < |files|
  {
    Padded(i + 1) + "_" <= files[i].name
  }

  /** Names carry contiguous numbers from 001. */
  predicate Numbered(files: seq<File>) { files != [] && forall i :: 0 <= i < |files| ==> NumberedAt(files, i) }

  /** Windows line ends count as Unix ones. */
  function Unix(s: string): string {
    if |s| < 2 then s
    else if s[0] == '\r' && s[1] == '\n' then "\n" + Unix(s[2..])
    else [s[0]] + Unix(s[1..])
  }

  function Sum<S>(e: Engine<S>, f: File): string { e.sum(Unix(f.script)) }

  /** The history of a binary's first `n` files. */
  function History<S>(e: Engine<S>, files: seq<File>, n: nat): (r: seq<Row>)
    requires n <= |files|
    ensures |r| == n && forall i :: 0 <= i < n ==> r[i] == Row(i + 1, files[i].name, Sum(e, files[i]))
  {
    if n == 0 then [] else History(e, files, n - 1) + [Row(n, files[n - 1].name, Sum(e, files[n - 1]))]
  }

  /** The schema after all of `files`, or None if one fails. */
  function Applied<S>(e: Engine<S>, schema: S, files: seq<File>): Option<S>
    decreases |files|
  {
    if files == [] then Some(schema)
    else match Applied(e, schema, files[..|files| - 1])
         case None => None
         case Some(t) => e.apply(t, Unix(files[|files| - 1].script))
  }

  /** Version `i + 1` is recorded, under the name this binary has for it. */
  predicate NameMatches(row: Row, files: seq<File>, i: nat) { i < |files| && row.version == i + 1 && row.name == files[i].name }

  predicate NamesMatch(history: seq<Row>, files: seq<File>) { forall i: nat :: i < |history| ==> NameMatches(history[i], files, i) }

  predicate SumsMatch<S(!new)>(e: Engine<S>, history: seq<Row>, files: seq<File>) {
    forall i :: 0 <= i < |history| && i < |files| ==> history[i].checksum == Sum(e, files[i])
  }

  /** The database after a successful run, or None: then nothing was committed. */
  function Migrated<S(!new)>(e: Engine<S>, db: Db<S>, files: seq<File>): Option<Db<S>> {
    if !Numbered(files) || !NamesMatch(db.history, files) || |db.history| > |files| || !SumsMatch(e, db.history, files) then None
    else match Applied(e, db.schema, files[|db.history|..])
         case None => None
         case Some(schema) => Some(Db(schema, History(e, files, |files|)))
  }

  // ---------------------------------------------------------------- the loops

  method CheckNumbers(files: seq<File>) returns (ok: bool)
    ensures ok <==> Numbered(files)
  {
    if |files| == 0 { return false; }
    var i := 0;
    while i < |files|
      invariant 0 <= i <= |files| && forall k :: 0 <= k < i ==> NumberedAt(files, k)
    {
      if !(Padded(i + 1) + "_" <= files[i].name) {
        assert !NumberedAt(files, i);
        return false;
      }
      i := i + 1;
    }
    return true;
  }

  /** Fills the map of applied versions. */
  method ReadHistory(rows: seq<Row>, files: seq<File>) returns (ok: bool, applied: map<nat, Row>)
    ensures ok <==> NamesMatch(rows, files)
    ensures ok ==> |rows| <= |files| && forall v: nat :: (v in applied <==> 1 <= v <= |rows|) && (v in applied ==> applied[v] == rows[v - 1])
  {
    applied := map[];
    var i := 0;
    while i < |rows|
      invariant 0 <= i <= |rows| && i <= |files| && |applied| == i
      invariant forall k :: 0 <= k < i ==> NameMatches(rows[k], files, k)
      invariant forall v: nat :: (v in applied <==> 1 <= v <= i) && (v in applied ==> applied[v] == rows[v - 1])
    {
      var version := rows[i].version;
      if version != |applied| + 1 || version > |files| || rows[i].name != files[version - 1].name {
        assert !NameMatches(rows[i], files, i);
        return false, applied;
      }
      applied := applied[version := rows[i]];
      i := i + 1;
    }
    ok := true;
  }

  /** Checks the recorded files. */
  method CheckSums<S(!new)>(e: Engine<S>, applied: map<nat, Row>, ghost rows: seq<Row>, files: seq<File>) returns (ok: bool)
    requires |rows| <= |files| && forall v: nat :: (v in applied <==> 1 <= v <= |rows|) && (v in applied ==> applied[v] == rows[v - 1])
    ensures ok <==> SumsMatch(e, rows, files)
  {
    var i := 0;
    while i < |files| && i + 1 in applied
      invariant 0 <= i <= |rows| && forall k :: 0 <= k < i ==> rows[k].checksum == Sum(e, files[k])
    {
      if applied[i + 1].checksum != e.sum(Unix(files[i].script)) { return false; }
      i := i + 1;
    }
    return true;
  }

  /** Runs the scripts that are not applied yet, and records them. */
  method RunScripts<S(!new)>(e: Engine<S>, db: Db<S>, files: seq<File>) returns (result: Option<Db<S>>)
    requires |db.history| <= |files| && db.history == History(e, files, |db.history|)
    ensures result == match Applied(e, db.schema, files[|db.history|..]) case None => None case Some(t) => Some(Db(t, History(e, files, |files|)))
  {
    var n := |db.history|;
    var i, now := n, db;
    RanNone(e, db.schema, files, n);
    while i < |files|
      invariant n <= i <= |files| && now.history == History(e, files, i)
      invariant RanTo(e, db.schema, files, n, i, now.schema)
    {
      var next := RunScript(e, now, files, i);
      AppliedNext(e, db.schema, files, n, i, now.schema);
      if next.None? { return None; }
      now := next.value;
      i := i + 1;
    }
    RanAll(e, db.schema, files, n, now.schema);
    result := Some(now);
  }

  method RunScript<S(!new)>(e: Engine<S>, db: Db<S>, files: seq<File>, i: nat) returns (result: Option<Db<S>>)
    requires i < |files| && db.history == History(e, files, i)
    ensures match e.apply(db.schema, Unix(files[i].script))
            case None => result.None?
            case Some(t) => result.Some? && result.value.schema == t && result.value.history == History(e, files, i + 1)
  {
    var next := e.apply(db.schema, Unix(files[i].script));
    if next.None? { return None; }
    result := Some(Db(next.value, db.history + [Row(i + 1, files[i].name, e.sum(Unix(files[i].script)))]));
  }

  /** Scripts `n` to `i - 1` turn `schema` into `t`. */
  ghost predicate RanTo<S>(e: Engine<S>, schema: S, files: seq<File>, n: nat, i: nat, t: S)
    requires n <= i <= |files|
  {
    Applied(e, schema, files[n..i]) == Some(t)
  }

  lemma RanAll<S>(e: Engine<S>, schema: S, files: seq<File>, n: nat, t: S)
    requires n <= |files| && RanTo(e, schema, files, n, |files|, t)
    ensures Applied(e, schema, files[n..]) == Some(t)
  {
    assert files[n..|files|] == files[n..];
  }

  lemma RanNone<S>(e: Engine<S>, schema: S, files: seq<File>, n: nat)
    requires n <= |files|
    ensures RanTo(e, schema, files, n, n, schema)
  {
    assert files[n..n] == [];
  }

  /** The rows up to the binary's own are what it would have recorded. */
  lemma RecordedHistory<S(!new)>(e: Engine<S>, history: seq<Row>, files: seq<File>)
    requires |history| <= |files| && NamesMatch(history, files) && SumsMatch(e, history, files)
    ensures history == History(e, files, |history|)
  {
    forall i: nat | i < |history| ensures history[i] == History(e, files, |history|)[i] { assert NameMatches(history[i], files, i); }
  }

  method Run<S(!new)>(e: Engine<S>, db: Db<S>, files: seq<File>) returns (result: Option<Db<S>>)
    ensures result == Migrated(e, db, files)
  {
    var ok := CheckNumbers(files);
    if !ok { return None; }
    var named, applied := ReadHistory(db.history, files);
    if !named { return None; }
    ok := CheckSums(e, applied, db.history, files);
    if !ok { return None; }
    RecordedHistory(e, db.history, files);
    result := RunScripts(e, db, files);
  }

  lemma AppliedNext<S>(e: Engine<S>, schema: S, files: seq<File>, n: nat, i: nat, t: S)
    requires n <= i < |files| && RanTo(e, schema, files, n, i, t)
    ensures match e.apply(t, Unix(files[i].script))
            case None => Applied(e, schema, files[n..]).None?
            case Some(u) => RanTo(e, schema, files, n, i + 1, u)
  {
    assert files[n..i + 1][..i - n] == files[n..i];
    if e.apply(t, Unix(files[i].script)).None? { AppliedStops(e, schema, files, n, i + 1); }
  }

  lemma {:induction false} AppliedStops<S>(e: Engine<S>, schema: S, files: seq<File>, n: nat, k: nat)
    requires n < k <= |files| && Applied(e, schema, files[n..k]).None?
    ensures Applied(e, schema, files[n..]).None?
    decreases |files| - k
  {
    if k < |files| {
      assert files[n..k + 1][..k - n] == files[n..k];
      AppliedStops(e, schema, files, n, k + 1);
    } else {
      assert files[n..k] == files[n..];
    }
  }

  // ---------------------------------------------------------------- properties

  lemma {:induction false} AppliedJoin<S>(e: Engine<S>, schema: S, a: seq<File>, b: seq<File>)
    ensures Applied(e, schema, a + b) == match Applied(e, schema, a) case None => None case Some(t) => Applied(e, t, b)
    decreases |b|
  {
    if b == [] {
      assert a + b == a;
    } else {
      assert (a + b)[..|a + b| - 1] == a + b[..|b| - 1];
      AppliedJoin(e, schema, a, b[..|b| - 1]);
    }
  }

  /** The scripts run one after the other, first to last. */
  function Executed<S>(e: Engine<S>, schema: S, files: seq<File>): Option<S> {
    if files == [] then Some(schema)
    else match e.apply(schema, Unix(files[0].script))
         case None => None
         case Some(t) => Executed(e, t, files[1..])
  }

  lemma {:induction false} AppliedInOrder<S>(e: Engine<S>, schema: S, files: seq<File>)
    ensures Applied(e, schema, files) == Executed(e, schema, files)
    decreases |files|
  {
    if files != [] {
      var one := [files[0]];
      assert one + files[1..] == files && one[..0] == [];
      AppliedJoin(e, schema, one, files[1..]);
      assert Applied(e, schema, one) == e.apply(schema, Unix(files[0].script));
      match e.apply(schema, Unix(files[0].script))
      case None =>
      case Some(t) => AppliedInOrder(e, t, files[1..]);
    }
  }

  /** From an empty history, every script runs once, first to last; if all succeed the history is the full list of numbers, names
      and checksums, and else nothing is committed. */
  lemma FreshInstall<S(!new)>(e: Engine<S>, schema: S, files: seq<File>)
    requires Numbered(files)
    ensures var result := Migrated(e, Db(schema, []), files);
            match Executed(e, schema, files)
            case None => result.None?
            case Some(t) => result.Some? && result.value.schema == t && |result.value.history| == |files|
                            && forall i :: 0 <= i < |files| ==> result.value.history[i] == Row(i + 1, files[i].name, Sum(e, files[i]))
  {
    assert files[0..] == files;
    AppliedInOrder(e, schema, files);
  }

  /** A run succeeds exactly if the files carry the numbers 001, 002 and so on, the recorded rows are those of the first of them,
      and the scripts of the others, run first to last, all succeed; the schema is then theirs. */
  lemma RunsExactly<S(!new)>(e: Engine<S>, db: Db<S>, files: seq<File>)
    ensures Migrated(e, db, files).Some? <==>
              && files != [] && (forall i :: 0 <= i < |files| ==> Padded(i + 1) + "_" <= files[i].name)
              && |db.history| <= |files|
              && (forall i :: 0 <= i < |db.history| ==> db.history[i] == Row(i + 1, files[i].name, e.sum(Unix(files[i].script))))
              && Executed(e, db.schema, files[|db.history|..]).Some?
    ensures Migrated(e, db, files).Some? ==> Executed(e, db.schema, files[|db.history|..]) == Some(Migrated(e, db, files).value.schema)
  {
    if |db.history| <= |files| {
      AppliedInOrder(e, db.schema, files[|db.history|..]);
      RecordedExactly(e, db.history, files);
    }
    NumberedExactly(files);
  }

  lemma NumberedExactly(files: seq<File>)
    ensures Numbered(files) <==> files != [] && forall i :: 0 <= i < |files| ==> Padded(i + 1) + "_" <= files[i].name
  {
    forall i: nat | i < |files| ensures NumberedAt(files, i) <==> Padded(i + 1) + "_" <= files[i].name {}
  }

  lemma RecordedExactly<S(!new)>(e: Engine<S>, history: seq<Row>, files: seq<File>)
    requires |history| <= |files|
    ensures NamesMatch(history, files) && SumsMatch(e, history, files)
            <==> forall i :: 0 <= i < |history| ==> history[i] == Row(i + 1, files[i].name, e.sum(Unix(files[i].script)))
  {
    if NamesMatch(history, files) && SumsMatch(e, history, files) { RecordedHistory(e, history, files); }
    if forall i :: 0 <= i < |history| ==> history[i] == Row(i + 1, files[i].name, e.sum(Unix(files[i].script))) {
      forall i: nat | i < |history| ensures NameMatches(history[i], files, i) {}
    }
  }

  /** A recorded prefix is accepted as it is, and only the rest runs. */
  lemma PrefixAccepted<S(!new)>(e: Engine<S>, schema: S, files: seq<File>, k: nat)
    requires Numbered(files) && k <= |files|
    ensures Migrated(e, Db(schema, History(e, files, k)), files)
            == match Applied(e, schema, files[k..]) case None => None case Some(t) => Some(Db(t, History(e, files, |files|)))
  {}

  lemma SameHistory<S>(e: Engine<S>, files: seq<File>, k: nat, n: nat)
    requires n <= k <= |files|
    ensures History(e, files[..k], n) == History(e, files, n)
  {}

  /** Upgrading through a binary that has only the first `k` scripts gives the same database as upgrading at once. */
  lemma ThroughPrefix<S(!new)>(e: Engine<S>, db: Db<S>, files: seq<File>, k: nat)
    requires 0 < k <= |files| && Numbered(files) && Migrated(e, db, files[..k]).Some?
    ensures Migrated(e, Migrated(e, db, files[..k]).value, files) == Migrated(e, db, files)
  {
    var n, part := |db.history|, files[..k];
    RecordedHistory(e, db.history, part);
    SameHistory(e, files, k, n);
    SameHistory(e, files, k, k);
    PrefixAccepted(e, db.schema, files, n);
    PrefixAccepted(e, Migrated(e, db, part).value.schema, files, k);
    assert files[n..] == part[n..] + files[k..];
    AppliedJoin(e, db.schema, part[n..], files[k..]);
  }

  /** Running the same binary again changes nothing. */
  lemma SecondRun<S(!new)>(e: Engine<S>, db: Db<S>, files: seq<File>)
    requires Migrated(e, db, files).Some?
    ensures Migrated(e, Migrated(e, db, files).value, files) == Migrated(e, db, files)
  {
    assert files[..|files|] == files;
    ThroughPrefix(e, db, files, |files|);
  }

  /** An older binary refuses a database that a newer one migrated, and so does one whose recorded script changed. */
  lemma OthersRefuse<S(!new)>(e: Engine<S>, db: Db<S>, files: seq<File>, other: seq<File>, i: nat)
    requires Migrated(e, db, files).Some? && i < |files|
    requires |other| <= i || files[i].name != other[i].name || Sum(e, files[i]) != Sum(e, other[i])
    ensures Migrated(e, Migrated(e, db, files).value, other).None?
  {
    var h := Migrated(e, db, files).value.history;
    assert h[i] == Row(i + 1, files[i].name, Sum(e, files[i]));
    if NamesMatch(h, other) { assert NameMatches(h[i], other, i); }
  }
}
