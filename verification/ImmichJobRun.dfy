/** A job that runs without a failure settles exactly the rows that were open when it was created, whatever else happens
    meanwhile: other jobs, new media, other events, crashes and lost replies. */
module ImmichJobRun {
  import opened Wrappers
  import opened Ordered
  import opened ImmichModel
  import opened ImmichSteps
  import opened ImmichInvariant
  import opened ImmichTables
  import opened ImmichSafety
  import opened ImmichOwnership
  import opened ImmichHistory
  import opened ImmichTheorems
  import opened ImmichBacklog

  /** Job `j` is active on the binding `b`, which has its album, of an event that is not being deleted. */
  ghost predicate Serves(d: Db, b: nat, j: nat) {
    && j in d.jobs && d.jobs[j].binding == b && Active(d.jobs[j])
    && b in d.bindings && d.bindings[b].album.Some? && d.bindings[b].event in d.events && !d.events[d.bindings[b].event].deleting
  }

  ghost predicate RowMoves(x: Row, y: Row) { if Open(x) then Open(y) || Settled(y) else y == x }

  /** The rows of `b` are the same; open ones stay open or settle. */
  ghost predicate RowsMove(x: Binding, y: Binding) {
    y == x.(imports := y.imports, auto := y.auto) && y.imports.Keys == x.imports.Keys && forall a :: a in x.imports ==> RowMoves(x.imports[a], y.imports[a])
  }

  ghost predicate Steady(d: Db, n: Db, b: nat, j: nat) {
    Serves(d, b, j) ==>
      && Serves(n, b, j) && RowsMove(d.bindings[b], n.bindings[b]) && JobsOf(n, b) == JobsOf(d, b)
      && ReadyAssets(d, d.bindings[b].event) <= ReadyAssets(n, d.bindings[b].event)
  }

  /** No transfer of the binding `k` that fails other than by cancellation, no deletion of the event, and no end of job `j` nor of
      a job claimed for an earlier binding with the id `k`. */
  predicate Smooth(s: State, t: Step, e: nat, k: nat, j: nat) {
    && (t.Fault? ==> s.exec.Exec? && (s.exec.binding != k || s.exec.cancelled)) && (t.BeginDelete? ==> t.event != e)
    && (t.Finish? ==> s.exec.Exec? && s.exec.job != j && s.exec.binding != k)
  }

  lemma SameSteady(d: Db, k: nat, j: nat)
    ensures Steady(d, d, k, j)
  {}

  /** A new job of another binding; the binding itself is untouched. */
  lemma JobElsewhere(d: Db, n: Db, k: nat, j: nat, id: nat, job: Job)
    requires id !in d.jobs && n.jobs == d.jobs[id := job] && job.binding != k && n.assets == d.assets
    requires Serves(d, k, j) ==> k in n.bindings && n.bindings[k] == d.bindings[k]
    requires forall e :: e in d.events ==> e in n.events && n.events[e] == d.events[e]
    ensures Steady(d, n, k, j)
  {
    assert JobsOf(n, k) == JobsOf(d, k);
  }

  /** A row of some binding is rewritten. */
  lemma RowWrite(d: Db, b: nat, a: nat, r: Row, k: nat, j: nat)
    requires b in d.bindings && a in d.bindings[b].imports && RowMoves(d.bindings[b].imports[a], r)
    ensures Steady(d, SetRow(d, b, a, r), k, j)
  {
    assert JobsOf(SetRow(d, b, a, r), k) == JobsOf(d, k);
  }

  lemma RowElsewhere(d: Db, b: nat, a: nat, r: Row, k: nat, j: nat)
    requires b in d.bindings && a in d.bindings[b].imports && b != k
    ensures Steady(d, SetRow(d, b, a, r), k, j)
  {
    assert JobsOf(SetRow(d, b, a, r), k) == JobsOf(d, k);
  }

  lemma NewEventSteady(s: State, name: string, k: nat, j: nat)
    requires Inv(s)
    ensures Steady(s.db, NewEventStep(s, name).db, k, j)
  {}

  lemma MediaReadySteady(s: State, a: nat, e: nat, content: nat, created: nat, k: nat, j: nat)
    requires Inv(s) && MediaStep(s, a, e, content, created).Some?
    ensures Steady(s.db, MediaStep(s, a, e, content, created).value.db, k, j)
  {}

  lemma SetAutoSteady(s: State, e: nat, g: nat, on: bool, k: nat, j: nat)
    requires Inv(s) && SetAutoStep(s, e, g, on).Some?
    ensures Steady(s.db, SetAutoStep(s, e, g, on).value.db, k, j)
  {
    assert JobsOf(SetAutoStep(s, e, g, on).value.db, k) == JobsOf(s.db, k);
  }

  lemma ActiveRefuses(d: Db, r: Request, k: nat, j: nat)
    requires Serves(d, k, j) && EnqueueTx(d, r).Ok? && BindingsOf(d, r.event, r.target) != {}
    ensures Min(BindingsOf(d, r.event, r.target)) != k
  {
    assert HasActive(d, k);
  }

  lemma EnqueuedElsewhere(d: Db, r: Request, k: nat, j: nat)
    requires Serves(d, k, j) && EnqueueTx(d, r).Ok?
    ensures var n, b := EnqueueTx(d, r).value, if BindingsOf(d, r.event, r.target) == {} then NextId(d.bindings.Keys) else Min(BindingsOf(d, r.event, r.target));
            && b != k && n.events == d.events && n.assets == d.assets && k in n.bindings && n.bindings[k] == d.bindings[k]
            && NextId(d.jobs.Keys) in n.jobs && n.jobs[NextId(d.jobs.Keys)].binding == b
            && n.jobs == d.jobs[NextId(d.jobs.Keys) := n.jobs[NextId(d.jobs.Keys)]]
  {
    if BindingsOf(d, r.event, r.target) != {} { ActiveRefuses(d, r, k, j); }
  }

  lemma EnqueueSteady(s: State, r: Request, k: nat, j: nat)
    requires Inv(s) && EnqueueStep(s, r).Some?
    ensures Steady(s.db, EnqueueStep(s, r).value.db, k, j)
  {
    if Serves(s.db, k, j) {
      EnqueuedElsewhere(s.db, r, k, j);
      var n, id := EnqueueStep(s, r).value.db, NextId(s.db.jobs.Keys);
      JobElsewhere(s.db, n, k, j, id, n.jobs[id]);
    }
  }

  lemma PolicyElsewhere(d: Db, n: Db, e: nat, auto: bool, k: nat, j: nat)
    requires Steady(d, n, k, j) && (Serves(d, k, j) ==> d.bindings[k].event != e)
    ensures Steady(d, WithPolicy(n, e, auto), k, j)
  {
    assert JobsOf(WithPolicy(n, e, auto), k) == JobsOf(n, k);
  }

  lemma CreateEventSteady(s: State, name: string, r: Request, auto: bool, k: nat, j: nat)
    requires Inv(s) && CreateEventStep(s, name, r, auto).Some?
    ensures Steady(s.db, CreateEventStep(s, name, r, auto).value.db, k, j)
  {
    if Serves(s.db, k, j) {
      var e := NextId(s.db.events.Keys);
      var base := s.db.(events := s.db.events[e := Event(name, false)]);
      var q := r.(event := e, mode := "new", albumOnly := true, requireCredentials := false);
      var n, id := EnqueueTx(base, q).value, NextId(s.db.jobs.Keys);
      EnqueuedElsewhere(base, q, k, j);
      JobElsewhere(s.db, n, k, j, id, n.jobs[id]);
      PolicyElsewhere(s.db, n, e, auto, k, j);
    }
  }

  lemma CancelJobSteady(s: State, e: nat, t: nat, k: nat, j: nat)
    requires Inv(s)
    ensures Steady(s.db, CancelStep(s, e, t).db, k, j)
  {}

  lemma BusyIneligible(d: Db, k: nat, j: nat)
    requires Serves(d, k, j)
    ensures !Eligible(d, k)
  {
    assert HasActive(d, k);
  }

  /** A batch for another binding. */
  lemma BatchElsewhere(d: Db, b: nat, k: nat, j: nat)
    requires Eligible(d, b) && b != k && Unselected(d, b) != {}
    ensures Steady(d, ReconcileTx(d, b), k, j)
  {
    Reconciled(d, b);
    JobElsewhere(d, ReconcileTx(d, b), k, j, NextId(d.jobs.Keys), AutoJob(b));
  }

  lemma ReconcileElsewhere(d: Db, b: nat, k: nat, j: nat)
    requires Eligible(d, b) && Serves(d, k, j)
    ensures Steady(d, ReconcileTx(d, b), k, j)
  {
    BusyIneligible(d, k, j);
    Reconciled(d, b);
    if Unselected(d, b) != {} { BatchElsewhere(d, b, k, j); } else { SameSteady(d, k, j); }
  }

  lemma ReconcileSteady(s: State, b: nat, k: nat, j: nat)
    requires Inv(s) && ReconcileStep(s, b).Some?
    ensures Steady(s.db, ReconcileStep(s, b).value.db, k, j)
  {
    if Eligible(s.db, b) && Serves(s.db, k, j) { ReconcileElsewhere(s.db, b, k, j); } else { SameSteady(s.db, k, j); }
  }

  lemma BeginDeleteSteady(s: State, e: nat, k: nat, j: nat)
    requires Inv(s) && BeginDeleteStep(s, e).Some? && k in s.db.bindings && s.db.bindings[k].event != e
    ensures Steady(s.db, BeginDeleteStep(s, e).value.db, k, j)
  {}

  lemma UnreadySteady(s: State, a: nat, k: nat, j: nat)
    requires Inv(s) && UnreadyStep(s, a).Some?
    ensures Steady(s.db, UnreadyStep(s, a).value.db, k, j)
  {}

  lemma RemoveAssetSteady(s: State, a: nat, k: nat, j: nat)
    requires Inv(s) && RemoveAssetStep(s, a).Some?
    ensures Steady(s.db, RemoveAssetStep(s, a).value.db, k, j)
  {}

  lemma RemoveEventSteady(s: State, e: nat, k: nat, j: nat)
    requires Inv(s) && RemoveEventStep(s, e).Some?
    ensures Steady(s.db, RemoveEventStep(s, e).value.db, k, j)
  {}

  lemma RecoverSteady(s: State, k: nat, j: nat)
    requires Inv(s) && RecoverStep(s).Some?
    ensures Steady(s.db, RecoverStep(s).value.db, k, j)
  {}

  lemma ClaimSteady(s: State, k: nat, j: nat)
    requires Inv(s) && ClaimStep(s).Some?
    ensures Steady(s.db, ClaimStep(s).value.db, k, j)
  {}

  lemma MarkCreatingSteady(s: State, k: nat, j: nat)
    requires Inv(s) && MarkCreatingStep(s).Some?
    ensures Steady(s.db, MarkCreatingStep(s).value.db, k, j)
  {}

  lemma SaveAlbumSteady(s: State, k: nat, j: nat)
    requires Inv(s) && SaveAlbumStep(s).Some?
    ensures Steady(s.db, SaveAlbumStep(s).value.db, k, j)
  {}

  lemma MarkSteady(s: State, a: nat, k: nat, j: nat)
    requires Inv(s) && MarkStep(s, a).Some?
    ensures Steady(s.db, MarkStep(s, a).value.db, k, j)
  {
    WorkerRow(s, a);
    RowWrite(s.db, s.exec.binding, a, RowOf(s, a).(status := Importing, attempts := RowOf(s, a).attempts + 1), k, j);
  }

  lemma SaveSteady(s: State, a: nat, k: nat, j: nat)
    requires Inv(s) && SaveStep(s, a).Some?
    ensures Steady(s.db, SaveStep(s, a).value.db, k, j)
  {
    WorkerRow(s, a);
    var w := s.exec.phase.workers[a];
    RowWrite(s.db, s.exec.binding, a, RowOf(s, a).(remote := Some(w.id), duplicate := w.duplicate), k, j);
  }

  lemma AccountSteady(s: State, a: nat, k: nat, j: nat)
    requires Inv(s) && AccountStep(s, a).Some?
    ensures Steady(s.db, AccountStep(s, a).value.db, k, j)
  {
    WorkerRow(s, a);
    var w := s.exec.phase.workers[a];
    RowWrite(s.db, s.exec.binding, a, RowOf(s, a).(status := if w.duplicate then Duplicate else Imported), k, j);
  }

  /** A failed transfer of another binding, or one that cancellation puts back. */
  lemma FaultSteady(s: State, a: nat, k: nat, j: nat)
    requires Inv(s) && FaultStep(s, a).Some? && (s.exec.binding != k || s.exec.cancelled)
    ensures Steady(s.db, FaultStep(s, a).value.db, k, j)
  {
    WorkerRow(s, a);
    var r := RowOf(s, a).(status := if s.exec.cancelled then Pending else RowStatus.Failed);
    if s.exec.binding != k { RowElsewhere(s.db, s.exec.binding, a, r, k, j); } else { RowWrite(s.db, k, a, r, k, j); }
  }

  lemma FinishSteady(s: State, k: nat, j: nat)
    requires Inv(s) && FinishStep(s).Some? && s.exec.job != j && s.exec.binding != k
    ensures Steady(s.db, FinishStep(s).value.db, k, j)
  {}

  predicate Admin(t: Step) { t.NewEvent? || t.MediaReady? || t.Enqueue? || t.CreateEvent? || t.CancelJob? || t.Reconcile? }

  lemma AdminSteady(s: State, t: Step, k: nat, j: nat)
    requires Inv(s) && Admin(t) && Next(s, t).Some?
    ensures Steady(s.db, Next(s, t).value.db, k, j)
  {
    match t
    case NewEvent(name) => NewEventSteady(s, name, k, j);
    case MediaReady(a, e, c, created) => MediaReadySteady(s, a, e, c, created, k, j);
    case Enqueue(r) => EnqueueSteady(s, r, k, j);
    case CreateEvent(name, r, auto) => CreateEventSteady(s, name, r, auto, k, j);
    case CancelJob(e, g) => CancelJobSteady(s, e, g, k, j);
    case Reconcile(b) => ReconcileSteady(s, b, k, j);
  }

  predicate Deletes(t: Step) { t.BeginDelete? || t.RemoveEvent? }

  predicate Removes(t: Step) { t.Unready? || t.RemoveAsset? }

  lemma DeletesSteady(s: State, t: Step, k: nat, j: nat)
    requires Inv(s) && Deletes(t) && Next(s, t).Some? && k in s.db.bindings && Smooth(s, t, s.db.bindings[k].event, k, j)
    ensures Steady(s.db, Next(s, t).value.db, k, j)
  {
    match t
    case BeginDelete(e) => BeginDeleteSteady(s, e, k, j);
    case RemoveEvent(e) => RemoveEventSteady(s, e, k, j);
  }

  lemma RemovesSteady(s: State, t: Step, k: nat, j: nat)
    requires Inv(s) && Removes(t) && Next(s, t).Some?
    ensures Steady(s.db, Next(s, t).value.db, k, j)
  {
    match t
    case Unready(a) => UnreadySteady(s, a, k, j);
    case RemoveAsset(a) => RemoveAssetSteady(s, a, k, j);
  }

  predicate Runs(t: Step) { t.Recover? || t.Claim? || t.MarkCreating? || t.SaveAlbum? || t.Finish? }

  lemma RunsSteady(s: State, t: Step, k: nat, j: nat)
    requires Inv(s) && Runs(t) && Next(s, t).Some? && k in s.db.bindings && Smooth(s, t, s.db.bindings[k].event, k, j)
    ensures Steady(s.db, Next(s, t).value.db, k, j)
  {
    match t
    case Recover => RecoverSteady(s, k, j);
    case Claim => ClaimSteady(s, k, j);
    case MarkCreating => MarkCreatingSteady(s, k, j);
    case SaveAlbum => SaveAlbumSteady(s, k, j);
    case Finish => FinishSteady(s, k, j);
  }

  predicate Rewrites(t: Step) { t.Mark? || t.Save? || t.Account? }

  lemma RewritesSteady(s: State, t: Step, k: nat, j: nat)
    requires Inv(s) && Rewrites(t) && Next(s, t).Some?
    ensures Steady(s.db, Next(s, t).value.db, k, j)
  {
    match t
    case Mark(a) => MarkSteady(s, a, k, j);
    case Save(a) => SaveSteady(s, a, k, j);
    case Account(a) => AccountSteady(s, a, k, j);
  }

  lemma StepSteady(s: State, t: Step, k: nat, j: nat)
    requires Inv(s) && Serves(s.db, k, j) && Smooth(s, t, s.db.bindings[k].event, k, j) && Next(s, t).Some?
    ensures Steady(s.db, Next(s, t).value.db, k, j)
  {
    if Untouching(t) { TablesUntouched(s, t); SameSteady(s.db, k, j); }
    else if Admin(t) { AdminSteady(s, t, k, j); }
    else if Deletes(t) { DeletesSteady(s, t, k, j); }
    else if Removes(t) { RemovesSteady(s, t, k, j); }
    else if Runs(t) { RunsSteady(s, t, k, j); }
    else if t.SetAuto? { SetAutoSteady(s, t.event, t.target, t.on, k, j); }
    else if t.Fault? { FaultSteady(s, t.asset, k, j); }
    else { RewritesSteady(s, t, k, j); }
  }

  ghost predicate SmoothRun(s: State, ts: seq<Step>, e: nat, k: nat, j: nat)
    decreases |ts|
  {
    ts == [] || (Smooth(s, ts[0], e, k, j) && (Next(s, ts[0]).Some? ==> SmoothRun(Next(s, ts[0]).value, ts[1..], e, k, j)))
  }

  lemma SteadyOn(d: Db, m: Db, n: Db, k: nat, j: nat)
    requires Serves(d, k, j) && Steady(d, m, k, j) && Steady(m, n, k, j)
    ensures Steady(d, n, k, j)
  {
    forall a | a in d.bindings[k].imports ensures RowMoves(d.bindings[k].imports[a], n.bindings[k].imports[a]) {
      assert RowMoves(d.bindings[k].imports[a], m.bindings[k].imports[a]);
    }
  }

  lemma {:induction false} RunSteady(s: State, ts: seq<Step>, k: nat, j: nat)
    requires Inv(s) && Serves(s.db, k, j) && SmoothRun(s, ts, s.db.bindings[k].event, k, j) && Run(s, ts).Some?
    ensures Steady(s.db, Run(s, ts).value.db, k, j)
    decreases |ts|
  {
    if ts == [] {
      SameSteady(s.db, k, j);
    } else {
      var n := Next(s, ts[0]).value;
      StepSafe(s, ts[0]);
      StepSteady(s, ts[0], k, j);
      RunSteady(n, ts[1..], k, j);
      SteadyOn(s.db, n.db, Run(s, ts).value.db, k, j);
    }
  }

  /** The job ends without error and was not cancelled. */
  ghost predicate EndsWell(m: State, j: nat) {
    FinishStep(m).Some? && m.exec.job == j && Intact(m) && j in m.db.jobs && !m.db.jobs[j].cancel && !m.exec.phase.err
  }

  lemma EndRanWell(d: Db, m: State, k: nat, j: nat)
    requires Inv(m) && Serves(d, k, j) && Steady(d, m.db, k, j) && EndsWell(m, j)
    ensures RanWell(d, FinishStep(m).value.db, k)
  {
    var n := FinishStep(m).value.db;
    OneActiveJob(m.db);
    forall i | i in n.jobs && n.jobs[i].binding == k ensures !Active(n.jobs[i]) {
      assert Rivals(m.db.jobs[i], m.db.jobs[j]) ==> i == j;
    }
    assert JobsOf(n, k) == JobsOf(m.db, k);
    assert n.bindings == m.db.bindings && !OpenRows(n.bindings[k]);
    forall a | a in d.bindings[k].imports
      ensures if Open(d.bindings[k].imports[a]) then Settled(n.bindings[k].imports[a]) else n.bindings[k].imports[a] == d.bindings[k].imports[a]
    {
      assert RowMoves(d.bindings[k].imports[a], n.bindings[k].imports[a]) && !Open(n.bindings[k].imports[a]);
    }
  }

  /** A job of a binding with an album, from any moment it is active to its end without failure: exactly the rows that were
      open are settled, in this binding nothing else changes, and media that became ready meanwhile has no row. */
  lemma JobSettlesItsRows(ts: seq<Step>, s: State, us: seq<Step>, m: State, k: nat, j: nat)
    requires Reaches(ts, s) && Serves(s.db, k, j) && Run(s, us) == Some(m)
    requires SmoothRun(s, us, s.db.bindings[k].event, k, j) && EndsWell(m, j)
    ensures RanWell(s.db, FinishStep(m).value.db, k)
  {
    ReachedInv(ts, s);
    RunSafe(s, us);
    RunSteady(s, us, k, j);
    EndRanWell(s.db, m, k, j);
  }
}
