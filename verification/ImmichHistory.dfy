/** What no step of the import engine ever takes back, and what whole runs therefore guarantee. */
module ImmichHistory {
  import opened Wrappers
  import opened Ordered
  import opened ImmichModel
  import opened ImmichSteps
  import opened ImmichInvariant
  import opened ImmichRunner
  import opened ImmichSafety

  /** A recorded remote id stays, an imported or duplicate row never changes again, and a failed row stays failed
      unless a manual retry was enqueued. */
  predicate RowKept(r: Row, n: Row, retry: bool) {
    && (r.remote.Some? ==> n.remote == r.remote && n.duplicate == r.duplicate)
    && (Settled(r) ==> n == r)
    && (r.status.Failed? && !retry ==> n.status.Failed?)
  }

  predicate IsRetry(t: Step) { t.Enqueue? && t.request.mode == "retry" && !t.request.albumOnly }

  ghost predicate BindingKept(x: Binding, y: Binding, assets: map<nat, Asset>, retry: bool) {
    && (x.album.Some? ==> y.album == x.album)
    && (forall a :: a in x.imports && a in assets ==> a in y.imports && RowKept(x.imports[a], y.imports[a], retry))
  }

  /** Bindings are told apart by their random marker and media by its random id, since table ids can come back. */
  ghost predicate DbKept(d: Db, n: Db, assets: set<nat>, markers: set<nat>, retry: bool) {
    && (forall a :: a in assets && a in n.assets ==> a in d.assets && n.assets[a].content == d.assets[a].content)
    && (forall b :: b in n.bindings && n.bindings[b].marker in markers ==> b in d.bindings && d.bindings[b].marker == n.bindings[b].marker)
    && (forall b :: b in d.bindings && b in n.bindings && n.bindings[b].marker == d.bindings[b].marker
          ==> BindingKept(d.bindings[b], n.bindings[b], n.assets, retry))
  }

  ghost predicate RemoteKept(r: Remote, n: Remote) {
    && (forall i :: i in r.copies ==> i in n.copies && n.copies[i] == r.copies[i])
    && r.added <= n.added && r.creates.Keys <= n.creates.Keys && r.sent <= n.sent
  }

  ghost predicate Keeps(s: State, n: State, retry: bool) {
    && s.usedAssets <= n.usedAssets && s.usedMarkers <= n.usedMarkers
    && DbKept(s.db, n.db, s.usedAssets, s.usedMarkers, retry) && RemoteKept(s.remote, n.remote)
  }

  /** Rows and album of one binding change, nothing else of it does. */
  lemma OneBinding(s: State, n: State, b: nat)
    requires b in s.db.bindings && b in n.db.bindings && n.db.bindings == s.db.bindings[b := n.db.bindings[b]]
    requires n.db.assets == s.db.assets && n.usedAssets == s.usedAssets && n.usedMarkers == s.usedMarkers
    requires n.db.bindings[b].marker == s.db.bindings[b].marker && BindingKept(s.db.bindings[b], n.db.bindings[b], s.db.assets, false)
    requires RemoteKept(s.remote, n.remote)
    ensures Keeps(s, n, false)
  {}

  lemma SameTables(s: State, n: State)
    requires n.db.bindings == s.db.bindings && n.db.assets == s.db.assets
    requires n.usedAssets == s.usedAssets && n.usedMarkers == s.usedMarkers && RemoteKept(s.remote, n.remote)
    ensures Keeps(s, n, false)
  {}

  lemma SubmitKept(d: Db, b: nat, name: string, r: Request, assets: set<nat>, markers: set<nat>)
    requires b in d.bindings && Submit(d, b, name, r).Ok? && (r.mode == "new" || r.mode == "retry")
    ensures DbKept(d, Submit(d, b, name, r).value, assets, markers, r.mode == "retry" && !r.albumOnly)
  {}

  lemma EnqueueKept(d: Db, r: Request, assets: set<nat>, markers: set<nat>)
    requires EnqueueTx(d, r).Ok? && r.marker !in markers
    ensures DbKept(d, EnqueueTx(d, r).value, assets, markers, r.mode == "retry" && !r.albumOnly)
  {
    var found := BindingsOf(d, r.event, r.target);
    var name := NameFor(d, r);
    if found == {} {
      var b := NextId(d.bindings.Keys);
      SubmitKept(d.(bindings := d.bindings[b := NewBinding(r, name)]), b, name, r, assets, markers);
    } else {
      SubmitKept(d, Min(found), name, r, assets, markers);
    }
  }

  lemma CreateKept(d: Db, name: string, r: Request, auto: bool, assets: set<nat>, markers: set<nat>)
    requires CreateEventTx(d, name, r, auto).Ok? && r.marker !in markers
    ensures DbKept(d, CreateEventTx(d, name, r, auto).value, assets, markers, false)
  {
    var e := NextId(d.events.Keys);
    var base := d.(events := d.events[e := Event(name, false)]);
    var q := r.(event := e, mode := "new", albumOnly := true, requireCredentials := false);
    EnqueueKept(base, q, assets, markers);
    PolicyKept(d, EnqueueTx(base, q).value, e, auto, assets, markers);
  }

  lemma PolicyKept(d: Db, n: Db, e: nat, auto: bool, assets: set<nat>, markers: set<nat>)
    requires DbKept(d, n, assets, markers, false)
    ensures DbKept(d, WithPolicy(n, e, auto), assets, markers, false)
  {
    var m := WithPolicy(n, e, auto);
    forall b | b in d.bindings && b in m.bindings && m.bindings[b].marker == d.bindings[b].marker
      ensures BindingKept(d.bindings[b], m.bindings[b], m.assets, false)
    {
      assert BindingKept(d.bindings[b], n.bindings[b], n.assets, false);
    }
  }

  lemma MediaKept(s: State, a: nat, e: nat, content: nat, created: nat)
    requires Inv(s) && MediaStep(s, a, e, content, created).Some?
    ensures Keeps(s, MediaStep(s, a, e, content, created).value, false)
  {
    var n := MediaStep(s, a, e, content, created).value;
    forall b | b in s.db.bindings ensures BindingKept(s.db.bindings[b], n.db.bindings[b], n.db.assets, false) {}
  }

  lemma SetAutoKept(s: State, e: nat, g: nat, on: bool)
    requires SetAutoStep(s, e, g, on).Some?
    ensures Keeps(s, SetAutoStep(s, e, g, on).value, false)
  {
    OneBinding(s, SetAutoStep(s, e, g, on).value, Min(BindingsOf(s.db, e, g)));
  }

  lemma UnreadyKept(s: State, a: nat)
    requires UnreadyStep(s, a).Some?
    ensures Keeps(s, UnreadyStep(s, a).value, false)
  {}

  lemma RemoveAssetKept(s: State, a: nat)
    requires RemoveAssetStep(s, a).Some?
    ensures Keeps(s, RemoveAssetStep(s, a).value, false)
  {}

  lemma RemoveEventKept(s: State, e: nat)
    requires RemoveEventStep(s, e).Some?
    ensures Keeps(s, RemoveEventStep(s, e).value, false)
  {}

  lemma OutsideKeeps(s: State, t: Step)
    requires Inv(s) && Outside(t) && Next(s, t).Some?
    ensures Keeps(s, Next(s, t).value, IsRetry(t))
  {
    match t
    case NewEvent(name) => SameTables(s, NewEventStep(s, name));
    case MediaReady(a, e, c, created) => MediaKept(s, a, e, c, created);
    case Enqueue(r) => EnqueueKept(s.db, r, s.usedAssets, s.usedMarkers);
    case CreateEvent(name, r, auto) => CreateKept(s.db, name, r, auto, s.usedAssets, s.usedMarkers);
    case SetAuto(e, g, on) => SetAutoKept(s, e, g, on);
    case CancelJob(e, g) => SameTables(s, CancelStep(s, e, g));
    case BeginDelete(e) => SameTables(s, BeginDeleteStep(s, e).value);
    case Unready(a) => UnreadyKept(s, a);
    case RemoveAsset(a) => RemoveAssetKept(s, a);
    case RemoveEvent(e) => RemoveEventKept(s, e);
  }

  lemma RowKeeps(s: State, n: State, a: nat, r: Row)
    requires Moves(s, n, a, r) && RowKept(RowOf(s, a), r, false)
    requires n.usedAssets == s.usedAssets && n.usedMarkers == s.usedMarkers && s.remote.sent <= n.remote.sent
    ensures Keeps(s, n, false)
  {
    OneBinding(s, n, s.exec.binding);
  }

  lemma MarkKept(s: State, a: nat)
    requires Inv(s) && MarkStep(s, a).Some?
    ensures Keeps(s, MarkStep(s, a).value, false)
  {
    WorkerRow(s, a);
    MarkMoves(s, a);
    RowKeeps(s, MarkStep(s, a).value, a, RowOf(s, a).(status := Importing, attempts := RowOf(s, a).attempts + 1));
  }

  lemma SaveKept(s: State, a: nat)
    requires Inv(s) && SaveStep(s, a).Some?
    ensures Keeps(s, SaveStep(s, a).value, false)
  {
    WorkerRow(s, a);
    SaveMoves(s, a);
    RowKeeps(s, SaveStep(s, a).value, a, RowOf(s, a).(remote := Some(s.exec.phase.workers[a].id), duplicate := s.exec.phase.workers[a].duplicate));
  }

  lemma AccountKept(s: State, a: nat)
    requires Inv(s) && AccountStep(s, a).Some?
    ensures Keeps(s, AccountStep(s, a).value, false)
  {
    WorkerRow(s, a);
    AccountMoves(s, a);
    RowKeeps(s, AccountStep(s, a).value, a, RowOf(s, a).(status := if s.exec.phase.workers[a].duplicate then Duplicate else Imported));
  }

  lemma FaultKept(s: State, a: nat)
    requires Inv(s) && FaultStep(s, a).Some?
    ensures Keeps(s, FaultStep(s, a).value, false)
  {
    WorkerRow(s, a);
    FaultMoves(s, a);
    RowKeeps(s, FaultStep(s, a).value, a, RowOf(s, a).(status := if s.exec.cancelled then Pending else Failed));
  }

  lemma UploadKept(s: State, a: nat, o: Outcome, id: nat)
    requires Inv(s) && UploadStep(s, a, o, id).Some?
    ensures Keeps(s, UploadStep(s, a, o, id).value, false)
  {
    UploadRemote(s, a, o, id);
    SameTables(s, UploadStep(s, a, o, id).value);
  }

  lemma LookKept(s: State, a: nat)
    ensures TakeStep(s, a).Some? ==> Keeps(s, TakeStep(s, a).value, false)
    ensures DropStep(s, a).Some? ==> Keeps(s, DropStep(s, a).value, false)
    ensures LoadStep(s, a).Some? ==> Keeps(s, LoadStep(s, a).value, false)
  {
    if TakeStep(s, a).Some? { SameTables(s, TakeStep(s, a).value); }
    if DropStep(s, a).Some? { SameTables(s, DropStep(s, a).value); }
    if LoadStep(s, a).Some? { SameTables(s, LoadStep(s, a).value); }
  }

  lemma AddKept(s: State, a: nat, o: Outcome)
    requires AddStep(s, a, o).Some?
    ensures Keeps(s, AddStep(s, a, o).value, false)
  {
    SameTables(s, AddStep(s, a, o).value);
  }

  lemma FirstStepsKeep(s: State, t: Step)
    requires Inv(s) && BeforeReply(t) && Next(s, t).Some?
    ensures Keeps(s, Next(s, t).value, false)
  {
    match t
    case Take(a) => LookKept(s, a);
    case Drop(a) => LookKept(s, a);
    case Load(a) => LookKept(s, a);
    case Mark(a) => MarkKept(s, a);
  }

  lemma SendsKeep(s: State, t: Step)
    requires Inv(s) && Sends(t) && Next(s, t).Some?
    ensures Keeps(s, Next(s, t).value, false)
  {
    match t
    case Upload(a, o, id) => UploadKept(s, a, o, id);
    case Add(a, o) => AddKept(s, a, o);
  }

  lemma WritesKeep(s: State, t: Step)
    requires Inv(s) && Writes(t) && Next(s, t).Some?
    ensures Keeps(s, Next(s, t).value, false)
  {
    match t
    case Save(a) => SaveKept(s, a);
    case Account(a) => AccountKept(s, a);
    case Fault(a) => FaultKept(s, a);
  }

  lemma FinishKept(s: State)
    requires FinishStep(s).Some?
    ensures Keeps(s, FinishStep(s).value, false)
  {}

  lemma RecoverKept(s: State)
    requires RecoverStep(s).Some?
    ensures Keeps(s, RecoverStep(s).value, false)
  {}

  lemma ReconcileKept(s: State, b: nat)
    requires ReconcileStep(s, b).Some?
    ensures Keeps(s, ReconcileStep(s, b).value, false)
  {
    var n := ReconcileStep(s, b).value;
    if n.db == s.db { SameTables(s, n); } else { OneBinding(s, n, b); }
  }

  lemma SaveAlbumKept(s: State)
    requires Inv(s) && SaveAlbumStep(s).Some?
    ensures Keeps(s, SaveAlbumStep(s).value, false)
  {
    var n := SaveAlbumStep(s).value;
    if s.exec.binding in s.db.bindings { OneBinding(s, n, s.exec.binding); } else { SameTables(s, n); }
  }

  lemma MarkCreatingKept(s: State)
    requires MarkCreatingStep(s).Some?
    ensures Keeps(s, MarkCreatingStep(s).value, false)
  {
    OneBinding(s, MarkCreatingStep(s).value, s.exec.binding);
  }

  lemma JobKeeps(s: State, t: Step)
    requires Inv(s) && !Outside(t) && !ByWorker(t) && Next(s, t).Some?
    ensures Keeps(s, Next(s, t).value, false)
  {
    match t
    case Finish => FinishKept(s);
    case Recover => RecoverKept(s);
    case Reconcile(b) => ReconcileKept(s, b);
    case SaveAlbum => SaveAlbumKept(s);
    case MarkCreating => MarkCreatingKept(s);
    case Crash => SameTables(s, CrashStep(s));
    case Stop => SameTables(s, StopStep(s));
    case Observe => SameTables(s, ObserveStep(s).value);
    case Claim => SameTables(s, ClaimStep(s).value);
    case FailEarly => SameTables(s, FailEarlyStep(s).value);
    case TakeSnapshot => SameTables(s, SnapshotStep(s).value);
    case AlbumKnown(ok) => SameTables(s, AlbumKnownStep(s, ok).value);
    case FindAlbum(ok) => SameTables(s, FindAlbumStep(s, ok).value);
    case SendCreate(o, id) => SameTables(s, SendCreateStep(s, o, id).value);
    case StopFeeding => SameTables(s, StopFeedingStep(s).value);
    case EndWork => SameTables(s, EndWorkStep(s).value);
  }

  lemma StepKeeps(s: State, t: Step)
    requires Inv(s) && Next(s, t).Some?
    ensures Keeps(s, Next(s, t).value, IsRetry(t))
  {
    if Outside(t) { OutsideKeeps(s, t); } else if BeforeReply(t) { FirstStepsKeep(s, t); } else if Sends(t) { SendsKeep(s, t); }
    else if Writes(t) { WritesKeep(s, t); } else { JobKeeps(s, t); }
  }

  lemma KeepsTransitive(s: State, n: State, u: State, retry: bool)
    requires Keeps(s, n, retry) && Keeps(n, u, retry)
    requires Tables(s.db, s.usedAssets, s.usedMarkers) && Sources(s.db)
    ensures Keeps(s, u, retry)
  {
    forall b | b in s.db.bindings && b in u.db.bindings && u.db.bindings[b].marker == s.db.bindings[b].marker
      ensures BindingKept(s.db.bindings[b], u.db.bindings[b], u.db.assets, retry)
    {
      assert BindingKept(s.db.bindings[b], n.db.bindings[b], n.db.assets, retry);
      assert BindingKept(n.db.bindings[b], u.db.bindings[b], u.db.assets, retry);
      forall a | a in s.db.bindings[b].imports && a in u.db.assets
        ensures a in u.db.bindings[b].imports && RowKept(s.db.bindings[b].imports[a], u.db.bindings[b].imports[a], retry)
      {
        assert Sourced(s.db, s.db.bindings[b].event, a);
      }
    }
  }

  lemma KeepsWeaken(s: State, n: State)
    requires Keeps(s, n, false)
    ensures Keeps(s, n, true)
  {
    forall b | b in s.db.bindings && b in n.db.bindings && n.db.bindings[b].marker == s.db.bindings[b].marker
      ensures BindingKept(s.db.bindings[b], n.db.bindings[b], n.db.assets, true)
    {
      assert BindingKept(s.db.bindings[b], n.db.bindings[b], n.db.assets, false);
    }
  }

  // ---------------------------------------------------------------- whole runs

  predicate Retries(ts: seq<Step>) { exists i :: 0 <= i < |ts| && IsRetry(ts[i]) }

  /** Every run keeps the invariant, whatever the interleaving, the lost replies and the crashes. */
  lemma {:induction false} RunSafe(s: State, ts: seq<Step>)
    requires Inv(s) && Run(s, ts).Some?
    ensures Inv(Run(s, ts).value)
    decreases |ts|
  {
    if ts != [] {
      StepSafe(s, ts[0]);
      RunSafe(Next(s, ts[0]).value, ts[1..]);
    }
  }

  /** Over a whole run: recorded remote ids, settled rows and album ids are never changed, remote copies never vanish,
      and without a manual retry a failed row stays failed. */
  lemma {:induction false} RunKeeps(s: State, ts: seq<Step>)
    requires Inv(s) && Run(s, ts).Some?
    ensures Keeps(s, Run(s, ts).value, Retries(ts))
    decreases |ts|
  {
    if ts == [] {
      SameTables(s, s);
    } else {
      var n, rest := Next(s, ts[0]).value, ts[1..];
      var u := Run(s, ts).value;
      StepSafe(s, ts[0]);
      StepKeeps(s, ts[0]);
      RunKeeps(n, rest);
      assert Retries(rest) ==> Retries(ts) by {
        if Retries(rest) {
          var i :| 0 <= i < |rest| && IsRetry(rest[i]);
          assert IsRetry(ts[i + 1]);
        }
      }
      if Retries(ts) {
        if !IsRetry(ts[0]) { KeepsWeaken(s, n); }
        if !Retries(rest) { KeepsWeaken(n, u); }
      }
      KeepsTransitive(s, n, u, Retries(ts));
    }
  }

  lemma StartSafe()
    ensures Inv(START)
  {}
}
