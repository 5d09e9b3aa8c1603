/** The tables of the Immich import engine and its SQL transactions, each as one function from tables to tables.
    Import rows are kept inside their binding: they are read, written and cascaded with it. */
module ImmichModel {
  import opened Wrappers
  import opened Ordered

  datatype AlbumState = NewAlbum | Creating | AlbumReady
  datatype RowStatus = Pending | Importing | Imported | Duplicate | Failed
  datatype Row = Row(remote: Option<nat>, duplicate: bool, status: RowStatus, attempts: nat)
  datatype Binding = Binding(event: nat, target: nat, name: string, marker: nat, auto: bool,
                             state: AlbumState, album: Option<nat>, imports: map<nat, Row>)

  datatype Mode = NewMedia | RetryMedia
  datatype JobStatus = Queued | Running | Completed | JobFailed | Cancelled
  /** `albumOnly` records how the job was created; the table does not store it and no transaction reads it. */
  datatype Job = Job(binding: nat, mode: Mode, albumOnly: bool, status: JobStatus, cancel: bool)

  datatype Event = Event(name: string, deleting: bool)
  datatype Asset = Asset(event: nat, ready: bool, content: nat, created: nat)
  datatype Db = Db(events: map<nat, Event>, assets: map<nat, Asset>, bindings: map<nat, Binding>, jobs: map<nat, Job>)

  datatype Error = ErrInput | ErrTarget | ErrCredentials | ErrNoEvent | ErrDeleting | ErrActive | ErrNoBinding

  /** A manual send, retry or album setup. `known` and `credentials` are what the target catalog answers. */
  datatype Request = Request(event: nat, target: nat, name: string, mode: string, albumOnly: bool,
                             known: bool, credentials: bool, requireCredentials: bool, marker: nat)

  const MAX_NAME := 200
  const BATCH: nat := 256
  const FRESH_ROW := Row(None, false, Pending, 0)

  predicate Active(j: Job) { j.status.Queued? || j.status.Running? }

  predicate Open(r: Row) { r.status.Pending? || r.status.Importing? }

  predicate Settled(r: Row) { r.status.Imported? || r.status.Duplicate? }

  predicate OpenRows(x: Binding) { exists a :: a in x.imports && Open(x.imports[a]) }

  predicate HasActive(db: Db, b: nat) { exists j :: j in db.jobs && db.jobs[j].binding == b && Active(db.jobs[j]) }

  predicate ControlFree(name: string) { forall c :: c in name ==> c != '\0' && c != '\r' && c != '\n' }

  function ReadyAssets(db: Db, e: nat): set<nat> { set a | a in db.assets && db.assets[a].event == e && db.assets[a].ready }

  function BindingsOf(db: Db, e: nat, t: nat): set<nat> {
    set b | b in db.bindings && db.bindings[b].event == e && db.bindings[b].target == t
  }

  /** INSERT OR IGNORE of a pending row for each selected asset. */
  function Select(imports: map<nat, Row>, chosen: set<nat>): map<nat, Row> {
    (map a | a in chosen :: FRESH_ROW) + imports
  }

  /** UPDATE ... SET status='pending' WHERE status IN ('failed','importing'). */
  function Reset(imports: map<nat, Row>): map<nat, Row> {
    map a | a in imports :: if imports[a].status.Failed? || imports[a].status.Importing?
                            then imports[a].(status := Pending) else imports[a]
  }

  /** UPDATE ... SET status='failed' WHERE status='pending'. */
  function FailPending(imports: map<nat, Row>): map<nat, Row> {
    map a | a in imports :: if imports[a].status.Pending? then imports[a].(status := Failed) else imports[a]
  }

  /** UPDATE ... SET status='pending' WHERE status='importing'. */
  function Requeue(imports: map<nat, Row>): map<nat, Row> {
    map a | a in imports :: if imports[a].status.Importing? then imports[a].(status := Pending) else imports[a]
  }

  function Resolved(name: string, stored: string, event: string): string {
    if name != "" then name else if stored != "" then stored else event
  }

  /** White space, as strings.TrimSpace sees it. */
  predicate IsSpace(c: char) {
    var n := c as int;
    9 <= n <= 13 || n == 0x20 || n == 0x85 || n == 0xa0 || n == 0x1680 || 0x2000 <= n <= 0x200a || n == 0x2028 || n == 0x2029
    || n == 0x202f || n == 0x205f || n == 0x3000
  }

  function TrimStart(s: string): string { if s != [] && IsSpace(s[0]) then TrimStart(s[1..]) else s }

  function TrimEnd(s: string): string { if s != [] && IsSpace(s[|s| - 1]) then TrimEnd(s[..|s| - 1]) else s }

  function Trim(s: string): string { TrimEnd(TrimStart(s)) }

  /** The album name an accepted request resolves to. */
  function NameFor(db: Db, r: Request): string
    requires r.event in db.events
  {
    var found := BindingsOf(db, r.event, r.target);
    Resolved(Trim(r.name), if found == {} then "" else db.bindings[Min(found)].name, db.events[r.event].name)
  }

  /** jobs.go enqueueTx: an error rolls the whole transaction back. */
  function EnqueueTx(db: Db, r: Request): Result<Db, Error> {
    if (r.mode != "new" && r.mode != "retry") || |Trim(r.name)| > MAX_NAME || !ControlFree(Trim(r.name)) then Err(ErrInput)
    else if !r.known then Err(ErrTarget)
    else if r.requireCredentials && !r.credentials then Err(ErrCredentials)
    else if r.event !in db.events then Err(ErrNoEvent)
    else if db.events[r.event].deleting then Err(ErrDeleting)
    else if !ControlFree(NameFor(db, r)) then Err(ErrInput)
    else
      var found := BindingsOf(db, r.event, r.target);
      if found == {} then
        var b := NextId(db.bindings.Keys);
        Submit(db.(bindings := db.bindings[b := NewBinding(r, NameFor(db, r))]), b, NameFor(db, r), r)
      else Submit(db, Min(found), NameFor(db, r), r)
  }

  function NewBinding(r: Request, name: string): Binding { Binding(r.event, r.target, name, r.marker, false, NewAlbum, None, map[]) }

  /** The part of enqueueTx after the binding row exists. */
  function Submit(db: Db, b: nat, name: string, r: Request): Result<Db, Error>
    requires b in db.bindings
  {
    if HasActive(db, b) then Err(ErrActive)
    else
      var x := db.bindings[b];
      var named := if x.state.NewAlbum? then x.(name := name) else x;
      if r.albumOnly && x.imports != map[] then Err(ErrInput)
      else
        var imports := if r.albumOnly then x.imports
                       else if r.mode == "new" then Select(x.imports, ReadyAssets(db, x.event))
                       else Reset(x.imports);
        var mode := if r.mode == "new" then NewMedia else RetryMedia;
        Ok(db.(bindings := db.bindings[b := named.(imports := imports)],
               jobs := db.jobs[NextId(db.jobs.Keys) := Job(b, mode, r.albumOnly, Queued, false)]))
  }

  /** The binding an accepted enqueue works on. */
  function Landing(db: Db, r: Request): nat {
    if BindingsOf(db, r.event, r.target) == {} then NextId(db.bindings.Keys) else Min(BindingsOf(db, r.event, r.target))
  }

  /** jobs.go CreateEvent: the event, its binding, its album job and the policy commit together. */
  function CreateEventTx(db: Db, name: string, r: Request, auto: bool): Result<Db, Error> {
    var e := NextId(db.events.Keys);
    var base := db.(events := db.events[e := Event(name, false)]);
    match EnqueueTx(base, r.(event := e, mode := "new", albumOnly := true, requireCredentials := false))
    case Err(x) => Err(x)
    case Ok(d) => Ok(WithPolicy(d, e, auto))
  }

  function WithPolicy(d: Db, e: nat, auto: bool): Db {
    d.(bindings := map b | b in d.bindings ::
         if d.bindings[b].event == e then d.bindings[b].(auto := auto) else d.bindings[b])
  }

  /** jobs.go Cancel. */
  function CancelTx(db: Db, e: nat, t: nat): Db {
    var owned := BindingsOf(db, e, t);
    db.(jobs := map j | j in db.jobs ::
          if Active(db.jobs[j]) && db.jobs[j].binding in owned then db.jobs[j].(cancel := true) else db.jobs[j])
  }

  /** auto.go SetAutoImport. */
  function SetAutoTx(db: Db, e: nat, t: nat, on: bool): Result<Db, Error> {
    var owned := BindingsOf(db, e, t);
    if owned == {} || e !in db.events || db.events[e].deleting then Err(ErrNoBinding)
    else Ok(db.(bindings := db.bindings[Min(owned) := db.bindings[Min(owned)].(auto := on)]))
  }

  /** jobs.go recover. */
  function RecoverTx(db: Db): Db {
    db.(bindings := map b | b in db.bindings :: db.bindings[b].(imports := Requeue(db.bindings[b].imports)),
        jobs := map j | j in db.jobs :: if db.jobs[j].status.Running? then db.jobs[j].(status := Queued) else db.jobs[j])
  }

  function QueuedJobs(db: Db): set<nat> { set j | j in db.jobs && db.jobs[j].status.Queued? }

  /** jobs.go claim: the oldest queued job, if any. */
  function ClaimTx(db: Db): Option<(nat, Db)> {
    var q := QueuedJobs(db);
    if q == {} then None
    else Some((Min(q), db.(jobs := db.jobs[Min(q) := db.jobs[Min(q)].(status := Running)])))
  }

  /** jobs.go execute, final transaction: `err` is what importJob returned. A vanished job row ends it with no write. */
  function FinishTx(db: Db, j: nat, b: nat, err: bool): Db {
    if j !in db.jobs then db
    else
      var status := if db.jobs[j].cancel then Cancelled else if err then JobFailed else Completed;
      var rows := if status.JobFailed? && b in db.bindings
                  then db.bindings[b := db.bindings[b].(imports := FailPending(db.bindings[b].imports))] else db.bindings;
      db.(bindings := rows, jobs := db.jobs[j := db.jobs[j].(status := status)])
  }

  predicate Eligible(db: Db, b: nat) {
    && b in db.bindings
    && var x := db.bindings[b];
    && x.auto && x.state.AlbumReady? && x.album.Some?
    && x.event in db.events && !db.events[x.event].deleting
    && !HasActive(db, b) && !OpenRows(x)
  }

  function Unselected(db: Db, b: nat): set<nat>
    requires b in db.bindings
  {
    ReadyAssets(db, db.bindings[b].event) - db.bindings[b].imports.Keys
  }

  /** ORDER BY created_at, id. */
  predicate Before(assets: map<nat, Asset>, x: nat, y: nat)
    requires x in assets && y in assets
  {
    assets[x].created < assets[y].created || (assets[x].created == assets[y].created && x < y)
  }

  predicate IsEarliest(assets: map<nat, Asset>, s: set<nat>, m: nat)
    requires s <= assets.Keys
  {
    m in s && forall k :: k in s && k != m ==> Before(assets, m, k)
  }

  lemma {:induction false} EarliestExists(assets: map<nat, Asset>, s: set<nat>)
    requires s != {} && s <= assets.Keys
    ensures exists m :: IsEarliest(assets, s, m)
    decreases |s|
  {
    var x :| x in s;
    if s == {x} {
      assert IsEarliest(assets, s, x);
    } else {
      SplitOff(s, x);
      EarliestExists(assets, s - {x});
      var m :| IsEarliest(assets, s - {x}, m);
      assert IsEarliest(assets, s, if Before(assets, m, x) then m else x);
    }
  }

  /** The first `n` of `s` in that order. */
  function Earliest(assets: map<nat, Asset>, s: set<nat>, n: nat): (r: set<nat>)
    requires s <= assets.Keys
    ensures r <= s
    ensures |r| == if |s| <= n then |s| else n
    ensures forall x, y :: x in r && y in s && y !in r ==> Before(assets, x, y)
    decreases |s|
  {
    if s == {} || n == 0 then {}
    else
      EarliestExists(assets, s);
      var m :| IsEarliest(assets, s, m);
      assert |s - {m}| == |s| - 1;
      {m} + Earliest(assets, s - {m}, n - 1)
  }

  /** What one automatic job takes. */
  function Batch(db: Db, b: nat): (r: set<nat>)
    requires b in db.bindings
    ensures r <= Unselected(db, b) && |r| == if |Unselected(db, b)| <= BATCH then |Unselected(db, b)| else BATCH
    ensures forall x, y :: x in r && y in Unselected(db, b) && y !in r ==> Before(db.assets, x, y)
  {
    Earliest(db.assets, Unselected(db, b), BATCH)
  }

  /** auto.go reconcileBinding: at most 256 never-selected ready assets and one job, or nothing. */
  function ReconcileTx(db: Db, b: nat): Db {
    if !Eligible(db, b) then db
    else
      var chosen := Batch(db, b);
      if chosen == {} then db
      else
        db.(bindings := db.bindings[b := db.bindings[b].(imports := Select(db.bindings[b].imports, chosen))],
            jobs := db.jobs[NextId(db.jobs.Keys) := Job(b, NewMedia, false, Queued, false)])
  }

  /** One column update of an import row; a missing row is left alone, as an UPDATE leaves it. */
  function SetRow(db: Db, b: nat, a: nat, r: Row): Db {
    if b in db.bindings && a in db.bindings[b].imports
    then db.(bindings := db.bindings[b := db.bindings[b].(imports := db.bindings[b].imports[a := r])])
    else db
  }

  /** DELETE of an asset row cascades to its import rows. */
  function WithoutAsset(d: Db, a: nat): Db {
    d.(assets := d.assets - {a},
       bindings := map b | b in d.bindings :: d.bindings[b].(imports := d.bindings[b].imports - {a}))
  }

  /** DELETE of an event row cascades to its bindings and their jobs. */
  function WithoutEvent(d: Db, e: nat): Db {
    var gone := set b | b in d.bindings && d.bindings[b].event == e;
    d.(events := d.events - {e}, bindings := d.bindings - gone,
       jobs := map j | j in d.jobs && d.jobs[j].binding !in gone :: d.jobs[j])
  }
}
