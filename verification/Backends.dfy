/** Startup reconciliation of storage backends: configured destinations are registered for ever, and rows from before the
    registry are bound to the one backend that has their target. All of it is one transaction. */
module Backends {
  import opened Wrappers
  import opened Ordered

  datatype Address = Address(endpoint: string, bucket: string, region: string, pathStyle: bool, prefix: string)
  /** `valid` and `credentials` are what the key syntax and the runtime configuration say. */
  datatype Named = Named(key: string, address: Address, valid: bool, credentials: bool)
  datatype Kind = Local | S3
  datatype Entry = Entry(key: string, kind: Kind, address: Address)
  /** An asset or a retired key. A retired key counts as an S3 row. */
  datatype Row = Row(backend: Option<nat>, s3: bool, target: string)
  datatype Db = Db(entries: map<nat, Entry>, assets: map<nat, Row>, retired: map<nat, Row>)
  /** `named` is in the order of the keys, which differ. */
  datatype Config = Config(named: seq<Named>, s3: bool, active: string)
  datatype Error = ErrKey | ErrCredentials | ErrMismatch | ErrAmbiguous | ErrUnresolved | ErrActive

  const LOCAL_KEY := "local-default"

  function WithKey(entries: map<nat, Entry>, key: string): set<nat> { set i | i in entries && entries[i].key == key }

  /** Registers or checks one destination. */
  function Register(entries: map<nat, Entry>, c: Named): Result<map<nat, Entry>, Error> {
    if !c.valid || c.key == LOCAL_KEY then Err(ErrKey)
    else if !c.credentials then Err(ErrCredentials)
    else
      var found := WithKey(entries, c.key);
      if found == {} then Ok(entries[NextId(entries.Keys) := Entry(c.key, S3, c.address)])
      else if entries[Min(found)].kind.Local? || entries[Min(found)].address != c.address then Err(ErrMismatch)
      else Ok(entries)
  }

  function RegisterAll(entries: map<nat, Entry>, named: seq<Named>): Result<map<nat, Entry>, Error> {
    if named == [] then Ok(entries)
    else match RegisterAll(entries, named[..|named| - 1])
         case Err(x) => Err(x)
         case Ok(m) => Register(m, named[|named| - 1])
  }

  predicate Configured(named: seq<Named>, key: string) { exists c :: c in named && c.key == key }

  /** The configured backends whose address has this target. */
  function Owners(entries: map<nat, Entry>, named: seq<Named>, target: Address -> string, t: string): set<nat> {
    set i | i in entries && Configured(named, entries[i].key) && target(entries[i].address) == t
  }

  /** The targets of S3 rows that are not bound. */
  function Unbound(rows: map<nat, Row>): set<string> { set i | i in rows && rows[i].backend.None? && rows[i].s3 :: rows[i].target }

  function Legacy(db: Db): set<string> { Unbound(db.assets) + Unbound(db.retired) }

  /** UPDATE ... SET storage_backend_id WHERE it is null and the target is one of `legacy`. */
  function Bind(rows: map<nat, Row>, legacy: set<string>, owner: map<string, nat>): map<nat, Row>
    requires legacy <= owner.Keys
  {
    map i | i in rows :: if rows[i].backend.None? && rows[i].target in legacy then rows[i].(backend := Some(owner[rows[i].target])) else rows[i]
  }

  predicate AllBound(rows: map<nat, Row>) { forall i :: i in rows ==> rows[i].backend.Some? }

  /** The backend new uploads go to: 1 is the local directory. */
  function ActiveId(entries: map<nat, Entry>, c: Config): nat {
    var found := WithKey(entries, c.active);
    if c.s3 && found != {} then Min(found) else 1
  }

  predicate ActiveOk(entries: map<nat, Entry>, c: Config) {
    var i := ActiveId(entries, c);
    && i in entries && (entries[i].kind.S3? ==> Configured(c.named, entries[i].key)) && (c.s3 ==> entries[i].kind.S3?)
  }

  function OwnerOf(entries: map<nat, Entry>, c: Config, target: Address -> string, legacy: set<string>): map<string, nat>
    requires forall t :: t in legacy ==> |Owners(entries, c.named, target, t)| == 1
  {
    map t | t in legacy :: assert Owners(entries, c.named, target, t) != {}; Min(Owners(entries, c.named, target, t))
  }

  predicate Unique(entries: map<nat, Entry>, c: Config, target: Address -> string, legacy: set<string>) {
    forall t :: t in legacy ==> |Owners(entries, c.named, target, t)| == 1
  }

  /** The whole reconciliation; on an error nothing is committed. */
  function Reconciled(db: Db, c: Config, target: Address -> string): Result<Db, Error> {
    match RegisterAll(db.entries, c.named)
    case Err(x) => Err(x)
    case Ok(entries) =>
      var legacy := Legacy(db);
      if !Unique(entries, c, target, legacy) then Err(ErrAmbiguous)
      else
        var n := Bound(db, entries, c, target, legacy);
        if !AllBound(n.assets) || !AllBound(n.retired) then Err(ErrUnresolved)
        else if !ActiveOk(entries, c) then Err(ErrActive)
        else Ok(n)
  }

  // ---------------------------------------------------------------- registration

  ghost predicate UniqueKeys(entries: map<nat, Entry>) {
    forall i, j {:trigger entries[i], entries[j]} :: i in entries && j in entries && entries[i].key == entries[j].key ==> i == j
  }

  /** Existing registrations stay as they are. */
  ghost predicate Extends(a: map<nat, Entry>, b: map<nat, Entry>) { forall i :: i in a ==> i in b && b[i] == a[i] }

  ghost predicate Has(entries: map<nat, Entry>, c: Named) { exists i :: i in entries && entries[i] == Entry(c.key, S3, c.address) }

  lemma RegisterOne(entries: map<nat, Entry>, c: Named)
    requires UniqueKeys(entries) && Register(entries, c).Ok?
    ensures var n := Register(entries, c).value;
            UniqueKeys(n) && Extends(entries, n) && Has(n, c) && Register(n, c) == Ok(n)
            && forall i :: i in n && i !in entries ==> n[i] == Entry(c.key, S3, c.address)
  {
    var n := Register(entries, c).value;
    var found := WithKey(entries, c.key);
    if found == {} {
      var id := NextId(entries.Keys);
      forall i | i in entries ensures entries[i].key != c.key { assert i !in found; }
      assert n[id] == Entry(c.key, S3, c.address);
      assert WithKey(n, c.key) == {id};
    } else {
      assert Min(found) in found;
    }
  }

  lemma {:induction false} RegisterGrows(entries: map<nat, Entry>, named: seq<Named>)
    requires UniqueKeys(entries) && RegisterAll(entries, named).Ok?
    ensures UniqueKeys(RegisterAll(entries, named).value) && Extends(entries, RegisterAll(entries, named).value)
    ensures forall c :: c in named ==> Has(RegisterAll(entries, named).value, c)
    decreases |named|
  {
    if named != [] {
      var last := |named| - 1;
      RegisterGrows(entries, named[..last]);
      RegisterOne(RegisterAll(entries, named[..last]).value, named[last]);
      assert named == named[..last] + [named[last]];
    }
  }

  /** A registered destination is found as it is. */
  lemma RegisterKnown(entries: map<nat, Entry>, c: Named)
    requires UniqueKeys(entries) && Has(entries, c) && c.valid && c.credentials && c.key != LOCAL_KEY
    ensures Register(entries, c) == Ok(entries)
  {
    var i :| i in entries && entries[i] == Entry(c.key, S3, c.address);
    assert i in WithKey(entries, c.key);
    assert Min(WithKey(entries, c.key)) == i;
  }

  predicate Usable(c: Named) { c.valid && c.credentials && c.key != LOCAL_KEY }

  lemma {:induction false} RegisterUsable(entries: map<nat, Entry>, named: seq<Named>)
    requires RegisterAll(entries, named).Ok?
    ensures forall c :: c in named ==> Usable(c)
    decreases |named|
  {
    if named != [] {
      RegisterUsable(entries, named[..|named| - 1]);
      assert named == named[..|named| - 1] + [named[|named| - 1]];
    }
  }

  lemma {:induction false} RegisterAgain(entries: map<nat, Entry>, named: seq<Named>)
    requires UniqueKeys(entries) && forall c :: c in named ==> Has(entries, c) && Usable(c)
    ensures RegisterAll(entries, named) == Ok(entries)
    decreases |named|
  {
    if named != [] {
      RegisterAgain(entries, named[..|named| - 1]);
      RegisterKnown(entries, named[|named| - 1]);
    }
  }

  // ---------------------------------------------------------------- main results

  /** A row keeps its binding; one without goes to the only configured backend that has its target. */
  ghost predicate BoundWell(rows: map<nat, Row>, n: map<nat, Row>, entries: map<nat, Entry>, c: Config, target: Address -> string) {
    n.Keys == rows.Keys && forall i :: i in rows ==>
      && n[i].backend.Some? && n[i] == rows[i].(backend := n[i].backend)
      && if rows[i].backend.Some? then n[i] == rows[i] else Owners(entries, c.named, target, rows[i].target) == {n[i].backend.value}
  }

  lemma OnlyMember(s: set<nat>)
    requires |s| == 1
    ensures s != {} && s == {Min(s)}
  {
    var m := Min(s);
    assert |s - {m}| == 0;
  }

  lemma BindWell(rows: map<nat, Row>, legacy: set<string>, entries: map<nat, Entry>, c: Config, target: Address -> string)
    requires Unique(entries, c, target, legacy) && AllBound(Bind(rows, legacy, OwnerOf(entries, c, target, legacy)))
    ensures BoundWell(rows, Bind(rows, legacy, OwnerOf(entries, c, target, legacy)), entries, c, target)
  {
    var owner := OwnerOf(entries, c, target, legacy);
    var n := Bind(rows, legacy, owner);
    forall i | i in rows && rows[i].backend.None? ensures Owners(entries, c.named, target, rows[i].target) == {n[i].backend.value} {
      assert n[i].backend.Some?;
      OnlyMember(Owners(entries, c.named, target, rows[i].target));
    }
  }

  /** Success: registrations only grow and contain every configured destination as configured; every asset and retired key is
      bound; bound rows are unchanged, and each other row has the unique configured backend with its target. */
  lemma Success(db: Db, c: Config, target: Address -> string)
    requires UniqueKeys(db.entries) && Reconciled(db, c, target).Ok?
    ensures var n := Reconciled(db, c, target).value;
            && UniqueKeys(n.entries) && Extends(db.entries, n.entries) && (forall x :: x in c.named ==> Has(n.entries, x))
            && BoundWell(db.assets, n.assets, n.entries, c, target) && BoundWell(db.retired, n.retired, n.entries, c, target)
            && ActiveOk(n.entries, c)
  {
    RegisterGrows(db.entries, c.named);
    var entries := RegisterAll(db.entries, c.named).value;
    BindWell(db.assets, Legacy(db), entries, c, target);
    BindWell(db.retired, Legacy(db), entries, c, target);
  }

  lemma NothingToDo(n: Db, c: Config, target: Address -> string)
    requires AllBound(n.assets) && AllBound(n.retired) && ActiveOk(n.entries, c) && RegisterAll(n.entries, c.named) == Ok(n.entries)
    ensures Reconciled(n, c, target) == Ok(n)
  {
    assert Legacy(n) == {};
    var owner := OwnerOf(n.entries, c, target, Legacy(n));
    assert Bind(n.assets, Legacy(n), owner) == n.assets;
    assert Bind(n.retired, Legacy(n), owner) == n.retired;
  }

  /** A second run changes nothing. */
  lemma SecondRun(db: Db, c: Config, target: Address -> string)
    requires UniqueKeys(db.entries) && Reconciled(db, c, target).Ok?
    ensures Reconciled(Reconciled(db, c, target).value, c, target) == Reconciled(db, c, target)
  {
    var n := Reconciled(db, c, target).value;
    RegisterGrows(db.entries, c.named);
    RegisterUsable(db.entries, c.named);
    RegisterAgain(n.entries, c.named);
    NothingToDo(n, c, target);
  }

  /** A configured key keeps the destination it was first registered with, or reconciliation fails. */
  lemma Immutable(db: Db, c: Config, target: Address -> string, i: nat, x: Named)
    requires UniqueKeys(db.entries) && Reconciled(db, c, target).Ok? && i in db.entries && x in c.named && x.key == db.entries[i].key
    ensures x.address == db.entries[i].address && db.entries[i].kind.S3?
  {
    RegisterGrows(db.entries, c.named);
    var entries := RegisterAll(db.entries, c.named).value;
    assert Has(entries, x);
    var j :| j in entries && entries[j] == Entry(x.key, S3, x.address);
    assert entries[i].key == entries[j].key;
  }

  // ---------------------------------------------------------------- when it succeeds

  /** The keys of the configuration differ, and row 1 of the registry is the local directory. */
  ghost predicate Sound(entries: map<nat, Entry>, c: Config) {
    && UniqueKeys(entries) && 1 in entries && entries[1].kind.Local? && entries[1].key == LOCAL_KEY
    && forall i, j :: 0 <= i < j < |c.named| ==> c.named[i].key != c.named[j].key
  }

  /** A destination can be registered: it is usable, and a row with its key is an S3 one with the same address. */
  ghost predicate Registers(entries: map<nat, Entry>, c: Named) {
    c.valid && c.credentials && c.key != LOCAL_KEY && forall i :: i in entries && entries[i].key == c.key ==> entries[i] == Entry(c.key, S3, c.address)
  }

  lemma RegisterExactly(entries: map<nat, Entry>, c: Named)
    requires UniqueKeys(entries)
    ensures Register(entries, c).Ok? <==> Registers(entries, c)
  {
    var found := WithKey(entries, c.key);
    if found != {} {
      assert Min(found) in found;
      forall i | i in entries && entries[i].key == c.key ensures i == Min(found) { assert entries[Min(found)].key == entries[i].key; }
    } else {
      forall i | i in entries ensures entries[i].key != c.key { assert i !in found; }
    }
  }

  /** Registering destinations with other keys does not touch a key's row. */
  lemma RegistersStill(entries: map<nat, Entry>, n: map<nat, Entry>, named: seq<Named>, c: Named)
    requires Extends(entries, n) && (forall i :: i in n && i !in entries ==> exists x :: x in named && n[i].key == x.key)
    requires forall x :: x in named ==> x.key != c.key
    ensures Registers(n, c) <==> Registers(entries, c)
  {}

  lemma {:induction false} RegisterAllExactly(entries: map<nat, Entry>, named: seq<Named>)
    requires UniqueKeys(entries) && forall i, j :: 0 <= i < j < |named| ==> named[i].key != named[j].key
    ensures RegisterAll(entries, named).Ok? <==> forall c :: c in named ==> Registers(entries, c)
    ensures RegisterAll(entries, named).Ok? ==>
              var n := RegisterAll(entries, named).value;
              Extends(entries, n) && forall i :: i in n && i !in entries ==> exists x :: x in named && n[i].key == x.key
    decreases |named|
  {
    if named != [] {
      var rest, last := named[..|named| - 1], named[|named| - 1];
      assert named == rest + [last];
      RegisterAllExactly(entries, rest);
      if RegisterAll(entries, rest).Ok? {
        var m := RegisterAll(entries, rest).value;
        RegisterGrows(entries, rest);
        RegisterExactly(m, last);
        RegistersStill(entries, m, rest, last);
        if Register(m, last).Ok? { RegisterOne(m, last); }
      }
    }
  }

  /** Exactly one configured destination has the target. */
  ghost predicate OneOwner(c: Config, target: Address -> string, t: string) {
    exists x :: x in c.named && target(x.address) == t && forall y :: y in c.named && target(y.address) == t ==> y == x
  }

  lemma NamedOwner(entries: map<nat, Entry>, c: Config, target: Address -> string, t: string, x: Named)
    requires x in c.named && target(x.address) == t && Has(entries, x)
    ensures exists i :: i in Owners(entries, c.named, target, t) && entries[i].key == x.key
  {
    var i :| i in entries && entries[i] == Entry(x.key, S3, x.address);
    assert i in Owners(entries, c.named, target, t) && entries[i].key == x.key;
  }

  /** In the registry the configured destinations of a target are found by their keys. */
  lemma OwnersExactly(entries: map<nat, Entry>, c: Config, target: Address -> string, t: string)
    requires UniqueKeys(entries) && (forall i, j :: 0 <= i < j < |c.named| ==> c.named[i].key != c.named[j].key)
    requires forall x :: x in c.named ==> Has(entries, x)
    ensures |Owners(entries, c.named, target, t)| == 1 <==> OneOwner(c, target, t)
  {
    var owners := Owners(entries, c.named, target, t);
    if |owners| == 1 {
      OnlyMember(owners);
      OwnerNamed(entries, c, target, t, Min(owners));
      var x :| x in c.named && target(x.address) == t && x.key == entries[Min(owners)].key;
      forall y | y in c.named && target(y.address) == t ensures y == x {
        NamedOwner(entries, c, target, t, y);
        SameNamed(c, x, y);
      }
    }
    if OneOwner(c, target, t) {
      var x :| x in c.named && target(x.address) == t && forall y :: y in c.named && target(y.address) == t ==> y == x;
      SingleOwner(entries, c, target, t, x);
    }
  }

  lemma SingleOwner(entries: map<nat, Entry>, c: Config, target: Address -> string, t: string, x: Named)
    requires UniqueKeys(entries) && (forall y :: y in c.named ==> Has(entries, y))
    requires x in c.named && target(x.address) == t && forall y :: y in c.named && target(y.address) == t ==> y == x
    ensures |Owners(entries, c.named, target, t)| == 1
  {
    var owners := Owners(entries, c.named, target, t);
    NamedOwner(entries, c, target, t, x);
    var i :| i in owners && entries[i].key == x.key;
    forall j | j in owners ensures j == i {
      OwnerNamed(entries, c, target, t, j);
      assert entries[i].key == entries[j].key;
    }
    assert owners == {i};
  }

  lemma SameNamed(c: Config, x: Named, y: Named)
    requires x in c.named && y in c.named && (forall i, j :: 0 <= i < j < |c.named| ==> c.named[i].key != c.named[j].key)
    ensures x.key == y.key ==> x == y
  {
    var i :| 0 <= i < |c.named| && c.named[i] == x;
    var j :| 0 <= j < |c.named| && c.named[j] == y;
    if i < j { assert c.named[i].key != c.named[j].key; } else if j < i { assert c.named[j].key != c.named[i].key; }
  }

  lemma OwnerNamed(entries: map<nat, Entry>, c: Config, target: Address -> string, t: string, i: nat)
    requires UniqueKeys(entries) && (forall x :: x in c.named ==> Has(entries, x)) && i in Owners(entries, c.named, target, t)
    ensures exists x :: x in c.named && target(x.address) == t && x.key == entries[i].key
  {
    var x :| x in c.named && x.key == entries[i].key;
    assert Has(entries, x);
    var j :| j in entries && entries[j] == Entry(x.key, S3, x.address);
    assert entries[i].key == entries[j].key;
  }

  predicate Unassigned(rows: map<nat, Row>, i: nat) { i in rows && rows[i].backend == None }

  /** Some unbound S3 row of either table has the target. */
  ghost predicate OldTarget(db: Db, t: string) {
    || (exists i :: Unassigned(db.assets, i) && db.assets[i].s3 && db.assets[i].target == t)
    || (exists i :: Unassigned(db.retired, i) && db.retired[i].s3 && db.retired[i].target == t)
  }

  lemma LegacyExactly(db: Db, t: string)
    ensures t in Legacy(db) <==> OldTarget(db, t)
  {
    if i :| Unassigned(db.assets, i) && db.assets[i].s3 && db.assets[i].target == t { assert i in db.assets; }
    if i :| Unassigned(db.retired, i) && db.retired[i].s3 && db.retired[i].target == t { assert i in db.retired; }
    if t in Unbound(db.assets) {
      var i :| i in db.assets && db.assets[i].backend.None? && db.assets[i].s3 && db.assets[i].target == t;
      assert Unassigned(db.assets, i);
    }
    if t in Unbound(db.retired) {
      var i :| i in db.retired && db.retired[i].backend.None? && db.retired[i].s3 && db.retired[i].target == t;
      assert Unassigned(db.retired, i);
    }
  }

  /** Every configured destination can be registered, exactly one has the target of each old S3 row, every unbound row has such a
      target, and uploads to S3 go to a configured key. */
  ghost predicate Reconcilable(db: Db, c: Config, target: Address -> string) {
    && (forall x :: x in c.named ==> Registers(db.entries, x))
    && (forall t :: OldTarget(db, t) ==> OneOwner(c, target, t))
    && (forall i :: Unassigned(db.assets, i) ==> OldTarget(db, db.assets[i].target))
    && (forall i :: Unassigned(db.retired, i) ==> OldTarget(db, db.retired[i].target))
    && (c.s3 ==> exists x :: x in c.named && x.key == c.active)
  }

  lemma BoundExactly(rows: map<nat, Row>, legacy: set<string>, owner: map<string, nat>)
    requires legacy <= owner.Keys
    ensures AllBound(Bind(rows, legacy, owner)) <==> forall i :: Unassigned(rows, i) ==> rows[i].target in legacy
  {
    var n := Bind(rows, legacy, owner);
    if AllBound(n) { forall i | Unassigned(rows, i) ensures rows[i].target in legacy { assert n[i].backend.Some?; } }
    if forall i :: Unassigned(rows, i) ==> rows[i].target in legacy {
      forall i | i in n ensures n[i].backend.Some? { if rows[i].backend.None? { assert Unassigned(rows, i); } }
    }
  }

  lemma ActiveExactly(entries: map<nat, Entry>, c: Config)
    requires Sound(entries, c) && forall x :: x in c.named ==> Has(entries, x) && x.key != LOCAL_KEY
    ensures ActiveOk(entries, c) <==> (c.s3 ==> exists x :: x in c.named && x.key == c.active)
  {
    var found := WithKey(entries, c.active);
    if found != {} { assert Min(found) in found; }
    if x :| x in c.named && x.key == c.active {
      var i :| i in entries && entries[i] == Entry(x.key, S3, x.address);
      assert i in found;
      assert entries[Min(found)].key == entries[i].key;
    }
  }

  /** Reconciliation succeeds exactly then. */
  lemma SucceedsExactly(db: Db, c: Config, target: Address -> string)
    requires Sound(db.entries, c)
    ensures Reconciled(db, c, target).Ok? <==> Reconcilable(db, c, target)
  {
    RegisterAllExactly(db.entries, c.named);
    if RegisterAll(db.entries, c.named).Ok? {
      var entries, legacy := RegisterAll(db.entries, c.named).value, Legacy(db);
      RegisterGrows(db.entries, c.named);
      ActiveExactly(entries, c);
      LegacyBound(db, entries, c, target);
    }
  }

  lemma LegacyBound(db: Db, entries: map<nat, Entry>, c: Config, target: Address -> string)
    requires UniqueKeys(entries) && (forall i, j :: 0 <= i < j < |c.named| ==> c.named[i].key != c.named[j].key)
    requires forall x :: x in c.named ==> Has(entries, x)
    ensures Unique(entries, c, target, Legacy(db)) <==> forall t :: OldTarget(db, t) ==> OneOwner(c, target, t)
    ensures Unique(entries, c, target, Legacy(db)) ==>
              var n := Bound(db, entries, c, target, Legacy(db));
              && (AllBound(n.assets) <==> forall i :: Unassigned(db.assets, i) ==> OldTarget(db, db.assets[i].target))
              && (AllBound(n.retired) <==> forall i :: Unassigned(db.retired, i) ==> OldTarget(db, db.retired[i].target))
  {
    var legacy := Legacy(db);
    forall t ensures t in legacy <==> OldTarget(db, t) { LegacyExactly(db, t); }
    forall t | OldTarget(db, t) ensures |Owners(entries, c.named, target, t)| == 1 <==> OneOwner(c, target, t) { OwnersExactly(entries, c, target, t); }
    if Unique(entries, c, target, legacy) {
      BoundExactly(db.assets, legacy, OwnerOf(entries, c, target, legacy));
      BoundExactly(db.retired, legacy, OwnerOf(entries, c, target, legacy));
    }
  }

  // ---------------------------------------------------------------- the loops

  method RegisterLoop(start: map<nat, Entry>, named: seq<Named>) returns (result: Result<map<nat, Entry>, Error>)
    ensures result == RegisterAll(start, named)
  {
    var entries, i := start, 0;
    while i < |named|
      invariant 0 <= i <= |named| && RegisterAll(start, named[..i]) == Ok(entries)
    {
      var c := named[i];
      assert named[..i + 1][..i] == named[..i];
      RegisterStops(start, named, i + 1);
      if !c.valid || c.key == LOCAL_KEY { return Err(ErrKey); }
      if !c.credentials { return Err(ErrCredentials); }
      var found := set k | k in entries && entries[k].key == c.key;
      assert found == WithKey(entries, c.key);
      if found == {} {
        entries := entries[NextId(entries.Keys) := Entry(c.key, S3, c.address)];
      } else if entries[Min(found)].kind.Local? || entries[Min(found)].address != c.address {
        return Err(ErrMismatch);
      }
      i := i + 1;
    }
    assert named[..|named|] == named;
    result := Ok(entries);
  }

  lemma {:induction false} RegisterStops(start: map<nat, Entry>, named: seq<Named>, i: nat)
    requires i <= |named|
    ensures RegisterAll(start, named[..i]).Err? ==> RegisterAll(start, named) == RegisterAll(start, named[..i])
    decreases |named| - i
  {
    if i < |named| {
      assert named[..i + 1][..i] == named[..i];
      RegisterStops(start, named, i + 1);
    } else {
      assert named[..i] == named;
    }
  }

  /** The tables once the rows of the targets in `legacy` are bound. */
  function Bound(db: Db, entries: map<nat, Entry>, c: Config, target: Address -> string, legacy: set<string>): Db
    requires Unique(entries, c, target, legacy)
  {
    var owner := OwnerOf(entries, c, target, legacy);
    Db(entries, Bind(db.assets, legacy, owner), Bind(db.retired, legacy, owner))
  }

  /** One UPDATE of each table. */
  function BindTarget(rows: map<nat, Row>, t: string, id: nat): map<nat, Row> {
    map i | i in rows :: if rows[i].backend.None? && rows[i].target == t then rows[i].(backend := Some(id)) else rows[i]
  }

  lemma BindMore(rows: map<nat, Row>, entries: map<nat, Entry>, c: Config, target: Address -> string, done: set<string>, t: string)
    requires Unique(entries, c, target, done) && |Owners(entries, c.named, target, t)| == 1 && t !in done
    ensures Unique(entries, c, target, done + {t}) && Owners(entries, c.named, target, t) != {}
    ensures BindTarget(Bind(rows, done, OwnerOf(entries, c, target, done)), t, Min(Owners(entries, c.named, target, t)))
            == Bind(rows, done + {t}, OwnerOf(entries, c, target, done + {t}))
  {
    OnlyMember(Owners(entries, c.named, target, t));
    var a, b := OwnerOf(entries, c, target, done), OwnerOf(entries, c, target, done + {t});
    assert forall u :: u in done ==> a[u] == b[u];
  }

  lemma BoundMore(db: Db, entries: map<nat, Entry>, c: Config, target: Address -> string, done: set<string>, t: string)
    requires Unique(entries, c, target, done) && |Owners(entries, c.named, target, t)| == 1 && t !in done
    ensures Unique(entries, c, target, done + {t}) && Owners(entries, c.named, target, t) != {}
    ensures var id, d := Min(Owners(entries, c.named, target, t)), Bound(db, entries, c, target, done);
            Db(entries, BindTarget(d.assets, t, id), BindTarget(d.retired, t, id)) == Bound(db, entries, c, target, done + {t})
  {
    BindMore(db.assets, entries, c, target, done, t);
    BindMore(db.retired, entries, c, target, done, t);
  }

  lemma BoundNone(db: Db, entries: map<nat, Entry>, c: Config, target: Address -> string)
    ensures Bound(db, entries, c, target, {}) == Db(entries, db.assets, db.retired)
  {}

  /** Binds the rows of one legacy target after the other. */
  method BindLoop(db: Db, entries: map<nat, Entry>, c: Config, target: Address -> string, legacy: set<string>) returns (result: Result<Db, Error>)
    ensures result == if Unique(entries, c, target, legacy) then Ok(Bound(db, entries, c, target, legacy)) else Err(ErrAmbiguous)
  {
    var todo, assets, retired := legacy, db.assets, db.retired;
    ghost var done := {};
    BoundNone(db, entries, c, target);
    while todo != {}
      invariant done + todo == legacy && done !! todo && Unique(entries, c, target, done)
      invariant Db(entries, assets, retired) == Bound(db, entries, c, target, done)
      decreases |todo|
    {
      var t :| t in todo;
      var ids := Owners(entries, c.named, target, t);
      if |ids| != 1 { return Err(ErrAmbiguous); }
      BoundMore(db, entries, c, target, done, t);
      assets := BindTarget(assets, t, Min(ids));
      retired := BindTarget(retired, t, Min(ids));
      done, todo := done + {t}, todo - {t};
    }
    assert done == legacy;
    result := Ok(Db(entries, assets, retired));
  }

  method Reconcile(db: Db, c: Config, target: Address -> string) returns (result: Result<Db, Error>)
    ensures result == Reconciled(db, c, target)
  {
    var registered := RegisterLoop(db.entries, c.named);
    if registered.Err? { return Err(registered.error); }
    var bound := BindLoop(db, registered.value, c, target, Legacy(db));
    if bound.Err? { return bound; }
    if !AllBound(bound.value.assets) || !AllBound(bound.value.retired) { return Err(ErrUnresolved); }
    if !ActiveOk(registered.value, c) { return Err(ErrActive); }
    result := bound;
  }
}
