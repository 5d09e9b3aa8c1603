/** Every step of the import engine keeps the invariant. */
module ImmichSafety {
  import opened Wrappers
  import opened Ordered
  import opened ImmichModel
  import opened ImmichSteps
  import opened ImmichInvariant
  import opened ImmichTables
  import opened ImmichRunner

  // ---------------------------------------------------------------- requests from outside

  lemma NewEventQuiet(s: State, name: string)
    requires Inv(s)
    ensures Quiet(s, NewEventStep(s, name))
  {}

  lemma NewEventSafe(s: State, name: string)
    requires Inv(s)
    ensures Inv(NewEventStep(s, name))
  {
    NewEventKeeps(s.db, name, s.remote.creates, s.usedAssets, s.usedMarkers);
    NewEventQuiet(s, name);
    QuietKeeps(s, NewEventStep(s, name));
  }

  lemma MediaReadyQuiet(s: State, a: nat, e: nat, content: nat, created: nat)
    requires Inv(s) && MediaStep(s, a, e, content, created).Some?
    ensures Quiet(s, MediaStep(s, a, e, content, created).value)
  {
    var n := MediaStep(s, a, e, content, created).value;
    forall b, c | b in n.db.bindings && c in n.db.bindings[b].imports ensures RowFrom(s.db, n.db, b, c) {
      assert Sourced(s.db, s.db.bindings[b].event, c);
    }
  }

  lemma MediaReadySafe(s: State, a: nat, e: nat, content: nat, created: nat)
    requires Inv(s) && MediaStep(s, a, e, content, created).Some?
    ensures Inv(MediaStep(s, a, e, content, created).value)
  {
    MediaKeeps(s.db, a, e, content, created, s.remote.creates, s.usedAssets, s.usedMarkers);
    MediaReadyQuiet(s, a, e, content, created);
    QuietKeeps(s, MediaStep(s, a, e, content, created).value);
  }

  lemma BeginDeleteQuiet(s: State, e: nat)
    requires Inv(s) && BeginDeleteStep(s, e).Some?
    ensures Quiet(s, BeginDeleteStep(s, e).value)
  {}

  lemma BeginDeleteSafe(s: State, e: nat)
    requires Inv(s) && BeginDeleteStep(s, e).Some?
    ensures Inv(BeginDeleteStep(s, e).value)
  {
    DeletingKeeps(s.db, e, s.remote.creates, s.usedAssets, s.usedMarkers);
    BeginDeleteQuiet(s, e);
    QuietKeeps(s, BeginDeleteStep(s, e).value);
  }

  lemma UnreadyQuiet(s: State, a: nat)
    requires Inv(s) && UnreadyStep(s, a).Some?
    ensures Quiet(s, UnreadyStep(s, a).value)
  {
    UnreadyFrom(s.exec, s.db, UnreadyStep(s, a).value.db, a);
  }

  lemma UnreadyFrom(x: Exec, d: Db, n: Db, a: nat)
    requires a in d.assets && n == d.(assets := d.assets[a := d.assets[a].(ready := false)])
    requires x.Exec? ==> (x.job in d.jobs ==> Active(d.jobs[x.job])) && (x.binding in d.bindings ==> HasActive(d, x.binding))
    ensures RowsFrom(d, n) && (x.Exec? ==> JobFrom(x, d, n))
  {}

  lemma UnreadySafe(s: State, a: nat)
    requires Inv(s) && UnreadyStep(s, a).Some?
    ensures Inv(UnreadyStep(s, a).value)
  {
    UnreadyKeeps(s.db, a, s.remote.creates, s.usedAssets, s.usedMarkers);
    UnreadyQuiet(s, a);
    QuietKeeps(s, UnreadyStep(s, a).value);
  }

  lemma CancelQuiet(s: State, e: nat, g: nat)
    requires ProcOk(s)
    ensures Quiet(s, CancelStep(s, e, g))
  {
    if s.exec.Exec? { StillActive(s.db, CancelStep(s, e, g).db, s.exec.binding); }
  }

  /** Jobs that stay active keep their binding's. */
  lemma StillActive(d: Db, n: Db, b: nat)
    requires forall j :: j in d.jobs && d.jobs[j].binding == b && Active(d.jobs[j]) ==> j in n.jobs && n.jobs[j].binding == b && Active(n.jobs[j])
    ensures HasActive(d, b) ==> HasActive(n, b)
  {}

  lemma CancelSafe(s: State, e: nat, g: nat)
    requires Inv(s)
    ensures Inv(CancelStep(s, e, g))
  {
    CancelKeeps(s.db, e, g, s.remote.creates, s.usedAssets, s.usedMarkers);
    CancelQuiet(s, e, g);
    QuietKeeps(s, CancelStep(s, e, g));
  }

  lemma SetAutoQuiet(s: State, e: nat, g: nat, on: bool)
    requires ProcOk(s) && SetAutoStep(s, e, g, on).Some?
    ensures Quiet(s, SetAutoStep(s, e, g, on).value)
  {}

  lemma SetAutoSafe(s: State, e: nat, g: nat, on: bool)
    requires Inv(s) && SetAutoStep(s, e, g, on).Some?
    ensures Inv(SetAutoStep(s, e, g, on).value)
  {
    var b := Min(BindingsOf(s.db, e, g));
    ColumnKeeps(s.db, b, s.db.bindings[b].(auto := on), s.remote.creates, s.usedAssets, s.usedMarkers);
    SetAutoQuiet(s, e, g, on);
    QuietKeeps(s, SetAutoStep(s, e, g, on).value);
  }

  /** Media of an event being deleted is not media of the held one, and has no row of such media's event. */
  lemma ForeignAsset(s: State, a: nat)
    requires Inv(s) && RemoveAssetStep(s, a).Some? && Holding(s.exec)
    ensures !Sourced(s.db, s.exec.event, a) && HeldFrom(s.exec, s.db, WithoutAsset(s.db, a))
    ensures Intact(s) ==> WithoutAsset(s.db, a).bindings[s.exec.binding].imports == s.db.bindings[s.exec.binding].imports
  {
    if Intact(s) {
      var x := s.db.bindings[s.exec.binding];
      assert forall c :: c in x.imports ==> Sourced(s.db, s.exec.event, c);
      assert x.imports - {a} == x.imports;
    }
  }

  lemma RemoveAssetQuiet(s: State, a: nat)
    requires Inv(s) && RemoveAssetStep(s, a).Some?
    ensures Quiet(s, RemoveAssetStep(s, a).value)
  {
    if s.exec.Exec? { StillActive(s.db, WithoutAsset(s.db, a), s.exec.binding); }
    if Holding(s.exec) { ForeignAsset(s, a); }
  }

  lemma RemoveAssetSafe(s: State, a: nat)
    requires Inv(s) && RemoveAssetStep(s, a).Some?
    ensures Inv(RemoveAssetStep(s, a).value)
  {
    RemoveAssetKeeps(s.db, a, s.remote.creates, s.usedAssets, s.usedMarkers);
    RemoveAssetQuiet(s, a);
    QuietKeeps(s, RemoveAssetStep(s, a).value);
  }

  /** The held event is not the removed one, so its media and their rows stay. */
  lemma RemoveEventHeld(s: State, e: nat)
    requires Inv(s) && RemoveEventStep(s, e).Some? && s.exec.Exec?
    ensures HeldFrom(s.exec, s.db, WithoutEvent(s.db, e))
  {
    var n := WithoutEvent(s.db, e);
    if Holding(s.exec) {
      forall a | Sourced(s.db, s.exec.event, a) ensures RowStays(s.exec.binding, s.db, n, a) {
        assert s.exec.binding in s.db.bindings && a in s.db.bindings[s.exec.binding].imports ==> Sourced(s.db, s.db.bindings[s.exec.binding].event, a);
      }
    }
  }

  lemma RemoveEventQuiet(s: State, e: nat)
    requires Inv(s) && RemoveEventStep(s, e).Some?
    ensures Quiet(s, RemoveEventStep(s, e).value)
  {
    var n := RemoveEventStep(s, e).value;
    if s.exec.Exec? {
      RemoveEventHeld(s, e);
      if s.exec.binding in n.db.bindings { StillActive(s.db, n.db, s.exec.binding); }
    }
  }

  lemma RemoveEventSafe(s: State, e: nat)
    requires Inv(s) && RemoveEventStep(s, e).Some?
    ensures Inv(RemoveEventStep(s, e).value)
  {
    RemoveEventKeeps(s.db, e, s.remote.creates, s.usedAssets, s.usedMarkers);
    RemoveEventQuiet(s, e);
    QuietKeeps(s, RemoveEventStep(s, e).value);
  }

  /** A binding, old or new, gets rows and a job in one transaction. */
  ghost predicate Insertion(d: Db, b: nat, y: Binding, job: Job, markers: set<nat>) {
    && job.binding == b && job.status.Queued? && !job.cancel
    && if b in d.bindings
       then !HasActive(d, b) && Replaces(y, d.bindings[b])
            && forall a :: a in y.imports ==> y.imports[a] == FRESH_ROW || (a in d.bindings[b].imports && Softer(d.bindings[b].imports[a], y.imports[a]))
       else y.marker !in markers && y.state.NewAlbum? && y.album.None? && (forall a :: a in y.imports ==> y.imports[a] == FRESH_ROW)
  }

  function Inserted(d: Db, b: nat, y: Binding, job: Job): Db {
    d.(bindings := d.bindings[b := y], jobs := d.jobs[NextId(d.jobs.Keys) := job])
  }

  lemma SubmitInserts(d: Db, b: nat, name: string, r: Request) returns (y: Binding, job: Job)
    requires b in d.bindings && Submit(d, b, name, r).Ok?
    ensures Submit(d, b, name, r).value == Inserted(d, b, y, job) && job.albumOnly == r.albumOnly
    ensures job.binding == b && job.status.Queued? && !job.cancel && !HasActive(d, b) && Replaces(y, d.bindings[b])
    ensures forall a :: a in y.imports ==> y.imports[a] == FRESH_ROW || (a in d.bindings[b].imports && Softer(d.bindings[b].imports[a], y.imports[a]))
    ensures r.albumOnly ==> y.imports == map[]
  {
    y := Submit(d, b, name, r).value.bindings[b];
    job := Job(b, if r.mode == "new" then NewMedia else RetryMedia, r.albumOnly, Queued, false);
  }

  /** An accepted enqueue touches only a binding with no active job, old or new. */
  lemma EnqueueInserts(d: Db, r: Request, markers: set<nat>) returns (b: nat, y: Binding, job: Job)
    requires EnqueueTx(d, r).Ok? && r.marker !in markers
    ensures EnqueueTx(d, r).value == Inserted(d, b, y, job) && Insertion(d, b, y, job, markers) && job.albumOnly == r.albumOnly
    ensures b == if BindingsOf(d, r.event, r.target) == {} then NextId(d.bindings.Keys) else Min(BindingsOf(d, r.event, r.target))
    ensures r.albumOnly ==> y.imports == map[]
  {
    var found := BindingsOf(d, r.event, r.target);
    if found == {} {
      b := NextId(d.bindings.Keys);
      var x := NewBinding(r, NameFor(d, r));
      var base := d.(bindings := d.bindings[b := x]);
      y, job := SubmitInserts(base, b, NameFor(d, r), r);
      assert base.bindings[b := y] == d.bindings[b := y];
      assert forall a :: a in y.imports ==> a !in x.imports;
    } else {
      b := Min(found);
      y, job := SubmitInserts(d, b, NameFor(d, r), r);
    }
  }

  lemma InsertionTables(d: Db, b: nat, y: Binding, job: Job, markers: set<nat>)
    requires Insertion(d, b, y, job, markers)
    ensures var n := Inserted(d, b, y, job); RowsFrom(d, n) && RunningFrom(d, n) && BindingsFrom(d, n, markers)
  {
    var n := Inserted(d, b, y, job);
    forall c, a | c in n.bindings && a in n.bindings[c].imports ensures RowFrom(d, n, c, a) {
      assert c != b ==> Softer(d.bindings[c].imports[a], d.bindings[c].imports[a]);
    }
  }

  /** The claimed job is not the inserted one: its binding has an active job, or is gone. */
  lemma InsertionJob(x: Exec, d: Db, b: nat, y: Binding, job: Job, markers: set<nat>)
    requires x.Exec? && x.marker in markers && Insertion(d, b, y, job, markers) && (x.binding in d.bindings ==> HasActive(d, x.binding))
    requires x.job in d.jobs ==> Active(d.jobs[x.job])
    ensures JobFrom(x, d, Inserted(d, b, y, job))
  {
    var n := Inserted(d, b, y, job);
    assert b == x.binding ==> b !in d.bindings;
    if x.binding in d.bindings { StillActive(d, n, x.binding); } else if x.binding == b { assert Active(n.jobs[NextId(d.jobs.Keys)]); }
  }

  lemma EnqueueSafe(s: State, r: Request)
    requires Inv(s) && EnqueueStep(s, r).Some?
    ensures Inv(EnqueueStep(s, r).value)
  {
    EnqueueKeeps(s.db, r, s.remote.creates, s.usedAssets, s.usedMarkers);
    var b, y, job := EnqueueInserts(s.db, r, s.usedMarkers);
    InsertionTables(s.db, b, y, job, s.usedMarkers);
    if s.exec.Exec? { InsertionJob(s.exec, s.db, b, y, job, s.usedMarkers); }
    QuietKeeps(s, EnqueueStep(s, r).value);
  }

  lemma PolicyQuiet(d: Db, n: Db, e: nat, auto: bool, markers: set<nat>)
    requires RowsFrom(d, n) && RunningFrom(d, n) && BindingsFrom(d, n, markers)
    ensures RowsFrom(d, WithPolicy(n, e, auto)) && RunningFrom(d, WithPolicy(n, e, auto)) && BindingsFrom(d, WithPolicy(n, e, auto), markers)
  {
    var m := WithPolicy(n, e, auto);
    forall b, a | b in m.bindings && a in m.bindings[b].imports ensures RowFrom(d, m, b, a) { assert RowFrom(d, n, b, a); }
  }

  lemma PolicyJob(x: Exec, d: Db, n: Db, e: nat, auto: bool)
    requires x.Exec? && JobFrom(x, d, n)
    ensures JobFrom(x, d, WithPolicy(n, e, auto))
  {
    var m := WithPolicy(n, e, auto);
    assert HasClaim(x, m) ==> HasClaim(x, n);
    StillActive(n, m, x.binding);
    forall a | Holding(x) && Sourced(d, x.event, a) ensures RowStays(x.binding, d, m, a) { assert RowStays(x.binding, d, n, a); }
  }

  /** A new event touches neither rows nor the job. */
  lemma EventAside(x: Exec, d: Db, n: Db, f: map<nat, Event>, markers: set<nat>)
    requires n.events == f && RowsFrom(d.(events := f), n) && RunningFrom(d.(events := f), n) && BindingsFrom(d.(events := f), n, markers)
    requires forall e :: e in d.events ==> e in f && f[e] == d.events[e]
    requires x.Exec? ==> JobFrom(x, d.(events := f), n)
    ensures RowsFrom(d, n) && RunningFrom(d, n) && BindingsFrom(d, n, markers) && (x.Exec? ==> JobFrom(x, d, n))
  {
    var base := d.(events := f);
    forall b, a | b in n.bindings && a in n.bindings[b].imports ensures RowFrom(d, n, b, a) { assert RowFrom(base, n, b, a); }
    if x.Exec? {
      forall a | Holding(x) && Sourced(d, x.event, a) ensures Sourced(n, x.event, a) && n.assets[a].content == d.assets[a].content && RowStays(x.binding, d, n, a) {
        assert Sourced(base, x.event, a) && RowStays(x.binding, base, n, a);
      }
      assert HasActive(d, x.binding) == HasActive(base, x.binding);
    }
  }

  lemma CreateEventQuiet(s: State, name: string, r: Request, auto: bool)
    requires ProcOk(s) && CreateEventStep(s, name, r, auto).Some?
    ensures Quiet(s, CreateEventStep(s, name, r, auto).value)
  {
    var e := NextId(s.db.events.Keys);
    var base := s.db.(events := s.db.events[e := Event(name, false)]);
    var q := r.(event := e, mode := "new", albumOnly := true, requireCredentials := false);
    var b, y, job := EnqueueInserts(base, q, s.usedMarkers);
    var n := Inserted(base, b, y, job);
    InsertionTables(base, b, y, job, s.usedMarkers);
    if s.exec.Exec? {
      assert HasActive(s.db, s.exec.binding) == HasActive(base, s.exec.binding);
      InsertionJob(s.exec, base, b, y, job, s.usedMarkers);
    }
    EventAside(s.exec, s.db, n, base.events, s.usedMarkers);
    PolicyQuiet(s.db, n, e, auto, s.usedMarkers);
    if s.exec.Exec? { PolicyJob(s.exec, s.db, n, e, auto); }
  }

  lemma CreateEventSafe(s: State, name: string, r: Request, auto: bool)
    requires Inv(s) && CreateEventStep(s, name, r, auto).Some?
    ensures Inv(CreateEventStep(s, name, r, auto).value)
  {
    CreateEventKeeps(s.db, name, r, auto, s.remote.creates, s.usedAssets, s.usedMarkers);
    CreateEventQuiet(s, name, r, auto);
    QuietKeeps(s, CreateEventStep(s, name, r, auto).value);
  }

  // ---------------------------------------------------------------- the runner

  lemma CrashSafe(s: State)
    requires Inv(s)
    ensures Inv(CrashStep(s))
  {}

  lemma StopSafe(s: State)
    requires Inv(s)
    ensures Inv(StopStep(s))
  {}

  lemma ObserveSafe(s: State)
    requires Inv(s) && ObserveStep(s).Some?
    ensures Inv(ObserveStep(s).value)
  {}

  lemma RecoverProc(s: State)
    requires ProcOk(s) && RecoverStep(s).Some?
    ensures ProcOk(RecoverStep(s).value)
  {
    var n := RecoverStep(s).value;
    forall b, a | b in n.db.bindings && a in n.db.bindings[b].imports && a in n.db.assets
      ensures RowTrue(n.db.bindings[b].imports[a], n.db.assets[a].content, n.remote)
    {
      assert RowTrue(s.db.bindings[b].imports[a], s.db.assets[a].content, s.remote);
    }
  }

  lemma RecoverSafe(s: State)
    requires Inv(s) && RecoverStep(s).Some?
    ensures Inv(RecoverStep(s).value)
  {
    RecoverKeeps(s.db, s.remote.creates, s.usedAssets, s.usedMarkers);
    RecoverProc(s);
  }

  lemma ReconcileQuiet(s: State, b: nat)
    requires ProcOk(s) && ReconcileStep(s, b).Some?
    ensures Quiet(s, ReconcileStep(s, b).value)
  {
    ReconcileGrows(s.db, b);
  }

  lemma ReconcileGrows(d: Db, b: nat)
    ensures RowsFrom(d, ReconcileTx(d, b)) && RunningFrom(d, ReconcileTx(d, b))
  {
    if Eligible(d, b) && Batch(d, b) != {} { SelectGrows(d, ReconcileTx(d, b), b, Batch(d, b)); }
  }

  lemma SelectGrows(d: Db, n: Db, b: nat, chosen: set<nat>)
    requires b in d.bindings && n.bindings == d.bindings[b := d.bindings[b].(imports := Select(d.bindings[b].imports, chosen))]
    requires n.assets == d.assets && n.jobs == d.jobs[NextId(d.jobs.Keys) := Job(b, NewMedia, false, Queued, false)]
    ensures RowsFrom(d, n) && RunningFrom(d, n)
  {}

  lemma ReconcileSafe(s: State, b: nat)
    requires Inv(s) && ReconcileStep(s, b).Some?
    ensures Inv(ReconcileStep(s, b).value)
  {
    ReconcileKeeps(s.db, b, s.remote.creates, s.usedAssets, s.usedMarkers);
    ReconcileQuiet(s, b);
    QuietKeeps(s, ReconcileStep(s, b).value);
  }

  /** The claimed job is now the only running one. */
  lemma ClaimRunner(s: State)
    requires Inv(s) && ClaimStep(s).Some?
    ensures RunnerOk(ClaimStep(s).value) && ImportingHeld(ClaimStep(s).value)
  {
    var n := ClaimStep(s).value;
    assert n.db.jobs[n.exec.job].binding == n.exec.binding && Active(n.db.jobs[n.exec.job]);
    HeldMoves(s, n);
  }

  lemma ClaimSafe(s: State)
    requires Inv(s) && ClaimStep(s).Some?
    ensures Inv(ClaimStep(s).value)
  {
    ClaimKeeps(s.db, s.remote.creates, s.usedAssets, s.usedMarkers);
    ClaimRunner(s);
  }

  lemma FinishProc(s: State)
    requires ProcOk(s) && FinishStep(s).Some? && ImportingHeld(FinishStep(s).value)
    ensures ProcOk(FinishStep(s).value)
  {
    var n := FinishStep(s).value;
    forall b, a | b in n.db.bindings && a in n.db.bindings[b].imports && a in n.db.assets
      ensures RowTrue(n.db.bindings[b].imports[a], n.db.assets[a].content, n.remote)
    {
      assert RowTrue(s.db.bindings[b].imports[a], s.db.assets[a].content, s.remote);
    }
  }

  /** Once the job's work is done, no row anywhere is importing. */
  lemma NoneImporting(s: State)
    requires ImportingHeld(s) && s.recovered && s.exec.Exec? && s.exec.phase.Done?
    ensures forall b :: b in s.db.bindings ==> NoImporting(s.db.bindings[b])
  {
    forall b, a | b in s.db.bindings && a in s.db.bindings[b].imports ensures !s.db.bindings[b].imports[a].status.Importing? {
      assert !Held(s, b, a);
    }
  }

  lemma FinishHeld(s: State)
    requires ImportingHeld(s) && s.recovered && FinishStep(s).Some?
    ensures ImportingHeld(FinishStep(s).value)
  {
    NoneImporting(s);
    var n := FinishStep(s).value;
    forall b, a | b in n.db.bindings && a in n.db.bindings[b].imports ensures !n.db.bindings[b].imports[a].status.Importing? {
      assert a in s.db.bindings[b].imports && NoImporting(s.db.bindings[b]);
    }
  }

  /** Ending a job keeps the invariant, whichever job has its id by now. */
  lemma FinishSafe(s: State)
    requires Inv(s) && FinishStep(s).Some?
    ensures Inv(FinishStep(s).value)
  {
    FinishKeeps(s.db, s.exec.job, s.exec.binding, s.exec.phase.err, s.remote.creates, s.usedAssets, s.usedMarkers);
    FinishHeld(s);
    FinishProc(s);
  }

  // ---------------------------------------------------------------- the job

  lemma FailEarlySafe(s: State)
    requires Inv(s) && FailEarlyStep(s).Some?
    ensures Inv(FailEarlyStep(s).value)
  {}

  /** Every pending row of the claimed binding is in the snapshot: its media was ready when selected and still is. */
  lemma TakeSnapshotSafe(s: State)
    requires Inv(s) && SnapshotStep(s).Some?
    ensures Inv(SnapshotStep(s).value)
  {
    var n := SnapshotStep(s).value;
    assert Intact(n) <==> Intact(s);
    if Intact(s) {
      forall a | a in s.db.bindings[s.exec.binding].imports ensures a in ReadyAssets(s.db, s.exec.event) {
        assert Sourced(s.db, s.exec.event, a);
      }
    }
  }

  lemma AlbumKnownSafe(s: State, ok: bool)
    requires Inv(s) && AlbumKnownStep(s, ok).Some?
    ensures Inv(AlbumKnownStep(s, ok).value)
  {}

  lemma FindAlbumSafe(s: State, ok: bool)
    requires Inv(s) && FindAlbumStep(s, ok).Some?
    ensures Inv(FindAlbumStep(s, ok).value)
  {}

  /** With nothing queued and no worker left, an uncancelled job whose binding is there has no open row. */
  lemma NothingOpen(s: State)
    requires Inv(s) && InWork(s.exec) && s.exec.phase.todo == {} && s.exec.phase.workers == map[] && !s.exec.cancelled && Intact(s)
    ensures !OpenRows(s.db.bindings[s.exec.binding])
  {
    var x := s.db.bindings[s.exec.binding];
    forall a | a in x.imports ensures !Open(x.imports[a]) {
      assert x.imports[a].status.Importing? ==> Held(s, s.exec.binding, a);
    }
  }

  lemma EndWorkSafe(s: State)
    requires Inv(s) && EndWorkStep(s).Some?
    ensures Inv(EndWorkStep(s).value)
  {
    assert Intact(EndWorkStep(s).value) <==> Intact(s);
    if !s.exec.cancelled && Intact(s) { NothingOpen(s); }
  }

  /** Columns of one binding other than its rows. */
  lemma ColumnRows(d: Db, b: nat, x: Binding, remote: Remote)
    requires RowsTrue(d, remote) && b in d.bindings && x.imports == d.bindings[b].imports
    ensures RowsTrue(d.(bindings := d.bindings[b := x]), remote)
  {
    var n := d.(bindings := d.bindings[b := x]);
    forall c, a | c in n.bindings && a in n.bindings[c].imports && a in n.assets
      ensures RowTrue(n.bindings[c].imports[a], n.assets[a].content, remote)
    {
      assert RowTrue(d.bindings[c].imports[a], d.assets[a].content, remote);
    }
  }

  /** The claimed binding id gets other album columns, and the job moves on from looking the album up. */
  ghost predicate Albums(s: State, n: State, x: Binding) {
    && s.exec.Exec? && Holding(s.exec) && Holding(n.exec) && Todo(n.exec.phase) == Todo(s.exec.phase)
    && s.exec.binding in s.db.bindings && x.imports == s.db.bindings[s.exec.binding].imports
    && x.event == s.db.bindings[s.exec.binding].event && x.marker == s.db.bindings[s.exec.binding].marker
    && n == s.(db := s.db.(bindings := s.db.bindings[s.exec.binding := x]), exec := s.exec.(phase := n.exec.phase))
  }

  lemma AlbumsProc(s: State, n: State, x: Binding)
    requires ProcOk(s) && Albums(s, n, x) && !s.exec.phase.Work?
    ensures RunnerOk(n) && ImportingHeld(n) && RowsTrue(n.db, n.remote)
    ensures Media(n.db, n.exec.event, Todo(n.exec.phase)) && (Intact(n) <==> Intact(s))
  {
    ColumnRows(s.db, s.exec.binding, x, s.remote);
    StillActive(s.db, n.db, s.exec.binding);
    HeldMoves(s, n);
    forall a | a in Todo(n.exec.phase) ensures Sourced(n.db, n.exec.event, a) { assert Sourced(s.db, s.exec.event, a); }
  }

  lemma MarkCreatingSafe(s: State)
    requires Inv(s) && MarkCreatingStep(s).Some?
    ensures Inv(MarkCreatingStep(s).value)
  {
    var b, n := s.exec.binding, MarkCreatingStep(s).value;
    var x := s.db.bindings[b].(state := Creating);
    ColumnKeeps(s.db, b, x, s.remote.creates, s.usedAssets, s.usedMarkers);
    AlbumsProc(s, n, x);
    forall c | c in n.db.bindings && n.db.bindings[c].marker == x.marker ensures !n.db.bindings[c].state.NewAlbum? {
      assert SameMarker(s.db.bindings[c], s.db.bindings[b]);
    }
  }

  lemma SaveAlbumSafe(s: State)
    requires Inv(s) && SaveAlbumStep(s).Some?
    ensures Inv(SaveAlbumStep(s).value)
  {
    var b, n := s.exec.binding, SaveAlbumStep(s).value;
    if b in s.db.bindings {
      var x := s.db.bindings[b].(album := Some(s.exec.phase.reply), state := AlbumReady);
      ColumnKeeps(s.db, b, x, s.remote.creates, s.usedAssets, s.usedMarkers);
      AlbumsProc(s, n, x);
    } else {
      PhaseMoves(s, n);
    }
  }

  /** Only the phase changes. */
  lemma PhaseMoves(s: State, n: State)
    requires ProcOk(s) && s.exec.Exec? && n.exec.Exec? && n == s.(exec := s.exec.(phase := n.exec.phase)) && !s.exec.phase.Work?
    ensures RunnerOk(n) && ImportingHeld(n) && RowsTrue(n.db, n.remote) && (Intact(n) <==> Intact(s))
  {
    HeldMoves(s, n);
  }

  /** No row becomes importing, and no holder lets go. */
  lemma HeldMoves(s: State, n: State)
    requires ImportingHeld(s) && n.db.bindings.Keys <= s.db.bindings.Keys
    requires forall b :: b in n.db.bindings ==> n.db.bindings[b].imports == s.db.bindings[b].imports
    requires forall b, a :: Held(s, b, a) ==> Held(n, b, a)
    ensures ImportingHeld(n)
  {
    forall b, a | b in n.db.bindings && a in n.db.bindings[b].imports && n.db.bindings[b].imports[a].status.Importing? ensures Held(n, b, a) {
      assert Held(s, b, a);
    }
  }

  /** A CreateAlbum request is counted once per marker. */
  lemma SendCreateAlbums(d: Db, m: nat, creates: map<nat, nat>, markers: set<nat>)
    requires AlbumOk(d, creates, markers) && Unsent(d, m, creates) && m in markers
    ensures AlbumOk(d, Bump(creates, m), markers)
  {}

  lemma SendCreateProc(s: State, o: Outcome, id: nat)
    requires ProcOk(s) && SendCreateStep(s, o, id).Some?
    ensures ProcOk(SendCreateStep(s, o, id).value)
  {
    var n := SendCreateStep(s, o, id).value;
    RowsGrow(s.db, s.remote, n.remote);
    PhaseMoves(s, s.(exec := n.exec));
    assert Intact(n) <==> Intact(s);
    HeldMoves(s, n);
  }

  lemma RowsGrow(d: Db, r: Remote, n: Remote)
    requires RowsTrue(d, r) && n.copies == r.copies
    ensures RowsTrue(d, n)
  {
    forall b, a | b in d.bindings && a in d.bindings[b].imports && a in d.assets ensures RowTrue(d.bindings[b].imports[a], d.assets[a].content, n) {
      assert RowTrue(d.bindings[b].imports[a], d.assets[a].content, r);
    }
  }

  lemma SendCreateSafe(s: State, o: Outcome, id: nat)
    requires Inv(s) && SendCreateStep(s, o, id).Some?
    ensures Inv(SendCreateStep(s, o, id).value)
  {
    SendCreateAlbums(s.db, s.exec.phase.marker, s.remote.creates, s.usedMarkers);
    SendCreateProc(s, o, id);
  }

  // ---------------------------------------------------------------- the workers

  /** A worker that has not written anything yet: it takes an asset, drops it, or reads its row. */
  ghost predicate Unwritten(s: State, n: State, a: nat) {
    && InWork(s.exec) && InWork(n.exec) && n == s.(exec := s.exec.(phase := n.exec.phase))
    && n.exec.phase.target == s.exec.phase.target && (a in s.exec.phase.workers ==> !Marks(s.exec.phase.workers[a]))
    && n.exec.phase.workers - {a} == s.exec.phase.workers - {a} && n.exec.phase.workers.Keys !! n.exec.phase.todo
    && n.exec.phase.todo <= s.exec.phase.todo && (a in n.exec.phase.workers ==> Sourced(s.db, s.exec.event, a) && WorkerOk(s.db, s.exec.binding, a, n.exec.phase.workers[a], s.exec.phase.target, s.remote))
    && (s.exec.cancelled || s.exec.phase.todo <= n.exec.phase.todo + n.exec.phase.workers.Keys)
    && (s.exec.cancelled || a in n.exec.phase.workers || !HasRow(s, a) || !RowOf(s, a).status.Pending?)
  }

  lemma UnwrittenRunner(s: State, n: State, a: nat)
    requires ProcOk(s) && Unwritten(s, n, a)
    ensures RunnerOk(n) && ImportingHeld(n)
  {
    assert Intact(n) <==> Intact(s);
    forall b, e | b in n.db.bindings && e in n.db.bindings[b].imports && n.db.bindings[b].imports[e].status.Importing? ensures Held(n, b, e) {
      assert Held(s, b, e);
      assert e in s.exec.phase.workers - {a} ==> e in n.exec.phase.workers - {a};
    }
  }

  lemma UnwrittenPhase(s: State, n: State, a: nat)
    requires ProcOk(s) && Unwritten(s, n, a)
    ensures PhaseOk(n)
  {
    forall e | e in n.exec.phase.workers
      ensures Sourced(n.db, n.exec.event, e) && WorkerOk(n.db, n.exec.binding, e, n.exec.phase.workers[e], n.exec.phase.target, n.remote)
    {
      if e != a { assert e in n.exec.phase.workers - {a} && e in s.exec.phase.workers - {a}; assert Sourced(s.db, s.exec.event, e); }
    }
    forall e | e in n.exec.phase.todo ensures Sourced(n.db, n.exec.event, e) { assert Sourced(s.db, s.exec.event, e); }
  }

  lemma UnwrittenProgress(s: State, n: State, a: nat)
    requires ProcOk(s) && Unwritten(s, n, a)
    ensures ProgressOk(n)
  {
    assert Intact(n) <==> Intact(s);
    if Intact(n) && !n.exec.cancelled {
      var x := s.db.bindings[s.exec.binding];
      forall e | e in x.imports && x.imports[e].status.Pending? ensures e in n.exec.phase.todo + n.exec.phase.workers.Keys {
        assert e in s.exec.phase.todo || e in s.exec.phase.workers;
        if e in s.exec.phase.workers && e != a { assert e in s.exec.phase.workers - {a} && e in n.exec.phase.workers - {a}; }
      }
    }
  }

  lemma UnwrittenKeeps(s: State, n: State, a: nat)
    requires Inv(s) && Unwritten(s, n, a)
    ensures Inv(n)
  {
    UnwrittenRunner(s, n, a);
    UnwrittenPhase(s, n, a);
    UnwrittenProgress(s, n, a);
  }

  lemma TakeSafe(s: State, a: nat)
    requires Inv(s) && TakeStep(s, a).Some?
    ensures Inv(TakeStep(s, a).value)
  {
    UnwrittenKeeps(s, TakeStep(s, a).value, a);
  }

  lemma DropSafe(s: State, a: nat)
    requires Inv(s) && DropStep(s, a).Some?
    ensures Inv(DropStep(s, a).value)
  {
    UnwrittenKeeps(s, DropStep(s, a).value, a);
  }

  lemma LoadUnwritten(s: State, a: nat)
    requires s.exec.Exec? && PhaseOk(s) && LoadStep(s, a).Some?
    ensures Unwritten(s, LoadStep(s, a).value, a)
  {
    assert Sourced(s.db, s.exec.event, a);
  }

  lemma LoadSafe(s: State, a: nat)
    requires Inv(s) && LoadStep(s, a).Some?
    ensures Inv(LoadStep(s, a).value)
  {
    LoadUnwritten(s, a);
    UnwrittenKeeps(s, LoadStep(s, a).value, a);
  }

  lemma StopFeedingSafe(s: State)
    requires Inv(s) && StopFeedingStep(s).Some?
    ensures Inv(StopFeedingStep(s).value)
  {
    var n := StopFeedingStep(s).value;
    assert Intact(n) <==> Intact(s);
    HeldMoves(s, n);
  }

  /** The row of a worker past its read, as the worker knows it. */
  ghost predicate RowKnown(s: State, a: nat) {
    && AtWorker(s.exec, a) && HasRow(s, a) && Sourced(s.db, s.exec.event, a)
    && RowTrue(RowOf(s, a), s.db.assets[a].content, s.remote)
    && RowFits(RowOf(s, a), s.exec.phase.workers[a], s.db.assets[a].content, s.exec.phase.target, s.remote)
    && SetRow(s.db, s.exec.binding, a, RowOf(s, a)) == s.db
    && s.db.bindings[s.exec.binding].event == s.exec.event
  }

  lemma WorkerRow(s: State, a: nat)
    requires Inv(s) && AtWorker(s.exec, a) && !s.exec.phase.workers[a].Took?
    ensures RowKnown(s, a) && HasActive(s.db, s.exec.binding)
  {
    assert Sourced(s.db, s.exec.event, a);
    var x := s.db.bindings[s.exec.binding];
    assert Sourced(s.db, x.event, a);
    assert x.imports[a := x.imports[a]] == x.imports;
  }

  lemma MarkMoves(s: State, a: nat)
    requires RowKnown(s, a) && MarkStep(s, a).Some?
    ensures Moves(s, MarkStep(s, a).value, a, RowOf(s, a).(status := Importing, attempts := RowOf(s, a).attempts + 1))
    ensures MoveOk(s, MarkStep(s, a).value, a, RowOf(s, a).(status := Importing, attempts := RowOf(s, a).attempts + 1))
  {}

  lemma MarkSafe(s: State, a: nat)
    requires Inv(s) && MarkStep(s, a).Some?
    ensures Inv(MarkStep(s, a).value)
  {
    WorkerRow(s, a);
    RowWriteKeeps(s.db, s.exec.binding, a, RowOf(s, a).(status := Importing, attempts := RowOf(s, a).attempts + 1), s.remote.creates, s.usedAssets, s.usedMarkers);
    MarkMoves(s, a);
    MoveKeeps(s, MarkStep(s, a).value, a, RowOf(s, a).(status := Importing, attempts := RowOf(s, a).attempts + 1));
  }

  lemma SaveMoves(s: State, a: nat)
    requires RowKnown(s, a) && SaveStep(s, a).Some?
    ensures Moves(s, SaveStep(s, a).value, a, RowOf(s, a).(remote := Some(s.exec.phase.workers[a].id), duplicate := s.exec.phase.workers[a].duplicate))
    ensures MoveOk(s, SaveStep(s, a).value, a, RowOf(s, a).(remote := Some(s.exec.phase.workers[a].id), duplicate := s.exec.phase.workers[a].duplicate))
  {}

  lemma SaveSafe(s: State, a: nat)
    requires Inv(s) && SaveStep(s, a).Some?
    ensures Inv(SaveStep(s, a).value)
  {
    WorkerRow(s, a);
    RowWriteKeeps(s.db, s.exec.binding, a, RowOf(s, a).(remote := Some(s.exec.phase.workers[a].id), duplicate := s.exec.phase.workers[a].duplicate), s.remote.creates, s.usedAssets, s.usedMarkers);
    SaveMoves(s, a);
    MoveKeeps(s, SaveStep(s, a).value, a, RowOf(s, a).(remote := Some(s.exec.phase.workers[a].id), duplicate := s.exec.phase.workers[a].duplicate));
  }

  lemma AddMoves(s: State, a: nat, o: Outcome)
    requires RowKnown(s, a) && AddStep(s, a, o).Some?
    ensures Moves(s, AddStep(s, a, o).value, a, RowOf(s, a))
    ensures MoveOk(s, AddStep(s, a, o).value, a, RowOf(s, a))
  {}

  lemma AddSafe(s: State, a: nat, o: Outcome)
    requires Inv(s) && AddStep(s, a, o).Some?
    ensures Inv(AddStep(s, a, o).value)
  {
    WorkerRow(s, a);
    AddMoves(s, a, o);
    MoveKeeps(s, AddStep(s, a, o).value, a, RowOf(s, a));
  }

  lemma AccountMoves(s: State, a: nat)
    requires RowKnown(s, a) && AccountStep(s, a).Some?
    ensures Moves(s, AccountStep(s, a).value, a, RowOf(s, a).(status := if s.exec.phase.workers[a].duplicate then Duplicate else Imported))
    ensures MoveOk(s, AccountStep(s, a).value, a, RowOf(s, a).(status := if s.exec.phase.workers[a].duplicate then Duplicate else Imported))
  {}

  lemma AccountSafe(s: State, a: nat)
    requires Inv(s) && AccountStep(s, a).Some?
    ensures Inv(AccountStep(s, a).value)
  {
    WorkerRow(s, a);
    RowWriteKeeps(s.db, s.exec.binding, a, RowOf(s, a).(status := if s.exec.phase.workers[a].duplicate then Duplicate else Imported), s.remote.creates, s.usedAssets, s.usedMarkers);
    AccountMoves(s, a);
    MoveKeeps(s, AccountStep(s, a).value, a, RowOf(s, a).(status := if s.exec.phase.workers[a].duplicate then Duplicate else Imported));
  }

  lemma FaultMoves(s: State, a: nat)
    requires RowKnown(s, a) && FaultStep(s, a).Some?
    ensures Moves(s, FaultStep(s, a).value, a, RowOf(s, a).(status := if s.exec.cancelled then Pending else Failed))
    ensures MoveOk(s, FaultStep(s, a).value, a, RowOf(s, a).(status := if s.exec.cancelled then Pending else Failed))
  {}

  lemma FaultSafe(s: State, a: nat)
    requires Inv(s) && FaultStep(s, a).Some?
    ensures Inv(FaultStep(s, a).value)
  {
    WorkerRow(s, a);
    RowWriteKeeps(s.db, s.exec.binding, a, RowOf(s, a).(status := if s.exec.cancelled then Pending else Failed), s.remote.creates, s.usedAssets, s.usedMarkers);
    FaultMoves(s, a);
    MoveKeeps(s, FaultStep(s, a).value, a, RowOf(s, a).(status := if s.exec.cancelled then Pending else Failed));
  }

  /** The remote answers a known content with the copy it has, so an upload never makes a second one. */
  lemma UploadRemote(s: State, a: nat, o: Outcome, id: nat)
    requires OneCopy(s.remote.copies) && UploadStep(s, a, o, id).Some?
    ensures OneCopy(UploadStep(s, a, o, id).value.remote.copies) && Grows(s.remote, UploadStep(s, a, o, id).value.remote)
  {
    var c := s.db.assets[a].content;
    var known := set i | i in s.remote.copies && s.remote.copies[i] == c;
    var n := UploadStep(s, a, o, id).value.remote.copies;
    if known == {} {
      forall i | i in s.remote.copies ensures s.remote.copies[i] != c { assert i !in known; }
    } else {
      assert s.remote.copies[Min(known)] == c;
      assert n == s.remote.copies;
    }
  }

  /** An album-only job has no row to upload while its binding is its own, and a row with a remote id is not uploaded again. */
  lemma UploadCalls(s: State, a: nat, o: Outcome, id: nat)
    requires Inv(s) && RowKnown(s, a) && UploadStep(s, a, o, id).Some?
    ensures CallsOk(UploadStep(s, a, o, id).value.remote.sent)
  {
    assert s.db.bindings[s.exec.binding].imports != map[];
  }

  lemma UploadMoves(s: State, a: nat, o: Outcome, id: nat)
    requires RowKnown(s, a) && UploadStep(s, a, o, id).Some? && Grows(s.remote, UploadStep(s, a, o, id).value.remote)
    ensures Moves(s, UploadStep(s, a, o, id).value, a, RowOf(s, a))
    ensures MoveOk(s, UploadStep(s, a, o, id).value, a, RowOf(s, a))
  {}

  lemma UploadSafe(s: State, a: nat, o: Outcome, id: nat)
    requires Inv(s) && UploadStep(s, a, o, id).Some?
    ensures Inv(UploadStep(s, a, o, id).value)
  {
    WorkerRow(s, a);
    UploadRemote(s, a, o, id);
    UploadCalls(s, a, o, id);
    UploadMoves(s, a, o, id);
    MoveKeeps(s, UploadStep(s, a, o, id).value, a, RowOf(s, a));
  }

  // ---------------------------------------------------------------- all steps

  predicate Outside(t: Step) {
    t.NewEvent? || t.MediaReady? || t.Enqueue? || t.CreateEvent? || t.SetAuto? || t.CancelJob? || t.BeginDelete?
    || t.Unready? || t.RemoveAsset? || t.RemoveEvent?
  }

  predicate ByWorker(t: Step) { BeforeReply(t) || Sends(t) || Writes(t) }

  predicate BeforeReply(t: Step) { t.Take? || t.Drop? || t.Load? || t.Mark? }

  predicate Sends(t: Step) { t.Upload? || t.Add? }

  predicate Writes(t: Step) { t.Save? || t.Account? || t.Fault? }

  lemma OutsideSafe(s: State, t: Step)
    requires Inv(s) && Outside(t) && Next(s, t).Some?
    ensures Inv(Next(s, t).value)
  {
    match t
    case NewEvent(name) => NewEventSafe(s, name);
    case MediaReady(a, e, c, created) => MediaReadySafe(s, a, e, c, created);
    case Enqueue(r) => EnqueueSafe(s, r);
    case CreateEvent(name, r, auto) => CreateEventSafe(s, name, r, auto);
    case SetAuto(e, g, on) => SetAutoSafe(s, e, g, on);
    case CancelJob(e, g) => CancelSafe(s, e, g);
    case BeginDelete(e) => BeginDeleteSafe(s, e);
    case Unready(a) => UnreadySafe(s, a);
    case RemoveAsset(a) => RemoveAssetSafe(s, a);
    case RemoveEvent(e) => RemoveEventSafe(s, e);
  }

  lemma SendsSafe(s: State, t: Step)
    requires Inv(s) && Sends(t) && Next(s, t).Some?
    ensures Inv(Next(s, t).value)
  {
    match t
    case Upload(a, o, id) => UploadSafe(s, a, o, id);
    case Add(a, o) => AddSafe(s, a, o);
  }

  lemma WritesSafe(s: State, t: Step)
    requires Inv(s) && Writes(t) && Next(s, t).Some?
    ensures Inv(Next(s, t).value)
  {
    match t
    case Save(a) => SaveSafe(s, a);
    case Account(a) => AccountSafe(s, a);
    case Fault(a) => FaultSafe(s, a);
  }

  lemma FirstStepsSafe(s: State, t: Step)
    requires Inv(s) && BeforeReply(t) && Next(s, t).Some?
    ensures Inv(Next(s, t).value)
  {
    match t
    case Take(a) => TakeSafe(s, a);
    case Drop(a) => DropSafe(s, a);
    case Load(a) => LoadSafe(s, a);
    case Mark(a) => MarkSafe(s, a);
  }

  lemma JobSafe(s: State, t: Step)
    requires Inv(s) && !Outside(t) && !ByWorker(t) && Next(s, t).Some?
    ensures Inv(Next(s, t).value)
  {
    match t
    case Reconcile(b) => ReconcileSafe(s, b);
    case Crash => CrashSafe(s);
    case Recover => RecoverSafe(s);
    case Stop => StopSafe(s);
    case Observe => ObserveSafe(s);
    case Claim => ClaimSafe(s);
    case FailEarly => FailEarlySafe(s);
    case TakeSnapshot => TakeSnapshotSafe(s);
    case AlbumKnown(ok) => AlbumKnownSafe(s, ok);
    case MarkCreating => MarkCreatingSafe(s);
    case SendCreate(o, id) => SendCreateSafe(s, o, id);
    case FindAlbum(ok) => FindAlbumSafe(s, ok);
    case SaveAlbum => SaveAlbumSafe(s);
    case StopFeeding => StopFeedingSafe(s);
    case EndWork => EndWorkSafe(s);
    case Finish => FinishSafe(s);
  }

  /** Every step keeps the invariant. */
  lemma StepSafe(s: State, t: Step)
    requires Inv(s) && Next(s, t).Some?
    ensures Inv(Next(s, t).value)
  {
    if Outside(t) { OutsideSafe(s, t); } else if BeforeReply(t) { FirstStepsSafe(s, t); } else if Sends(t) { SendsSafe(s, t); }
    else if Writes(t) { WritesSafe(s, t); } else { JobSafe(s, t); }
  }
}
