/** What an imported row says of duplicates is what the remote answered: over whole runs, a row is a duplicate exactly if the
    upload that gave it its id found its content on the remote. */
module ImmichDuplicates {
  import opened Wrappers
  import opened Ordered
  import opened ImmichModel
  import opened ImmichSteps
  import opened ImmichInvariant
  import opened ImmichRunner
  import opened ImmichSafety
  import opened ImmichOwnership
  import opened ImmichRuns
  import opened ImmichTheorems

  // ---------------------------------------------------------------- the uploads of a run

  /** An answered upload of `a` for the row in binding `b`. */
  predicate Uploads(s: State, t: Step, b: nat, a: nat) {
    t.Upload? && t.asset == a && t.outcome.Answered? && s.exec.Exec? && s.exec.binding == b
  }

  /** The remote's assets just before the last answered upload of `a` for binding `b` in a run from empty tables, if there was one. */
  function CopiesBefore(ts: seq<Step>, b: nat, a: nat): Option<map<nat, nat>> {
    if ts == [] then None
    else
      var p, t := ts[..|ts| - 1], ts[|ts| - 1];
      match Run(START, p)
      case None => None
      case Some(s) => if Uploads(s, t, b, a) then Some(s.remote.copies) else CopiesBefore(p, b, a)
  }

  /** An upload of `content` that found `copies` gave the id and this answer: a duplicate is an asset that was there. */
  ghost predicate Gave(copies: Option<map<nat, nat>>, content: nat, id: nat, duplicate: bool) {
    && copies.Some?
    && (duplicate <==> exists i :: i in copies.value && copies.value[i] == content)
    && (duplicate <==> id in copies.value)
    && (duplicate ==> copies.value[id] == content)
  }

  ghost predicate RowGiven(ts: seq<Step>, d: Db, b: nat, a: nat)
    requires b in d.bindings && a in d.bindings[b].imports
  {
    var r := d.bindings[b].imports[a];
    r.remote.Some? && a in d.assets ==> Gave(CopiesBefore(ts, b, a), d.assets[a].content, r.remote.value, r.duplicate)
  }

  ghost predicate WorkerGiven(ts: seq<Step>, s: State, a: nat) {
    AtWorker(s.exec, a) && s.exec.phase.workers[a].Uploaded? && a in s.db.assets ==>
      Gave(CopiesBefore(ts, s.exec.binding, a), s.db.assets[a].content, s.exec.phase.workers[a].id, s.exec.phase.workers[a].duplicate)
  }

  /** Every recorded id, and every answer not recorded yet, is that of the last answered upload for its row. */
  ghost predicate Given(ts: seq<Step>, s: State) {
    && (forall b, a :: b in s.db.bindings && a in s.db.bindings[b].imports ==> RowGiven(ts, s.db, b, a))
    && (forall a :: WorkerGiven(ts, s, a))
  }

  lemma CopiesAfter(ts: seq<Step>, s: State, t: Step, b: nat, a: nat)
    requires Run(START, ts) == Some(s)
    ensures CopiesBefore(ts + [t], b, a) == if Uploads(s, t, b, a) then Some(s.remote.copies) else CopiesBefore(ts, b, a)
  {
    assert (ts + [t])[..|ts|] == ts;
  }

  // ---------------------------------------------------------------- steps that only keep

  /** A row with a remote id had it before, with the same answer. */
  ghost predicate TellsFrom(d: Db, n: Db) {
    forall b, a :: b in n.bindings && a in n.bindings[b].imports && n.bindings[b].imports[a].remote.Some? ==>
      && b in d.bindings && a in d.bindings[b].imports
      && d.bindings[b].imports[a].remote == n.bindings[b].imports[a].remote && d.bindings[b].imports[a].duplicate == n.bindings[b].imports[a].duplicate
  }

  ghost predicate AssetsSame(d: Db, n: Db) { forall a :: a in d.assets && a in n.assets ==> n.assets[a].content == d.assets[a].content }

  /** A worker with an unrecorded answer had it before. */
  ghost predicate AnswersFrom(x: Exec, y: Exec) {
    forall a :: AtWorker(y, a) && y.phase.workers[a].Uploaded? ==>
      AtWorker(x, a) && x.phase.workers[a] == y.phase.workers[a] && x.binding == y.binding
  }

  lemma RowsTell(d: Db, n: Db)
    requires RowsFrom(d, n)
    ensures TellsFrom(d, n)
  {
    forall b, a | b in n.bindings && a in n.bindings[b].imports && n.bindings[b].imports[a].remote.Some?
      ensures b in d.bindings && a in d.bindings[b].imports && d.bindings[b].imports[a].remote == n.bindings[b].imports[a].remote
              && d.bindings[b].imports[a].duplicate == n.bindings[b].imports[a].duplicate
    {
      assert RowFrom(d, n, b, a);
    }
  }

  lemma QuietTells(s: State, n: State)
    requires Quiet(s, n)
    ensures TellsFrom(s.db, n.db) && AnswersFrom(s.exec, n.exec)
  {
    RowsTell(s.db, n.db);
  }

  lemma EnqueueTells(s: State, r: Request)
    requires EnqueueStep(s, r).Some?
    ensures TellsFrom(s.db, EnqueueStep(s, r).value.db)
  {
    var b, y, job := EnqueueInserts(s.db, r, s.usedMarkers);
    InsertionTables(s.db, b, y, job, s.usedMarkers);
    RowsTell(s.db, EnqueueStep(s, r).value.db);
  }

  lemma AdminTells(s: State, t: Step)
    requires Inv(s) && (t.NewEvent? || t.MediaReady? || t.Enqueue? || t.CreateEvent? || t.SetAuto?) && Next(s, t).Some?
    ensures TellsFrom(s.db, Next(s, t).value.db) && Next(s, t).value.exec == s.exec
  {
    match t
    case NewEvent(name) => NewEventQuiet(s, name); QuietTells(s, NewEventStep(s, name));
    case MediaReady(a, e, c, created) => MediaReadyQuiet(s, a, e, c, created); QuietTells(s, MediaStep(s, a, e, c, created).value);
    case Enqueue(r) => EnqueueTells(s, r);
    case CreateEvent(name, r, auto) => CreateEventQuiet(s, name, r, auto); QuietTells(s, CreateEventStep(s, name, r, auto).value);
    case SetAuto(e, g, on) => SetAutoQuiet(s, e, g, on); QuietTells(s, SetAutoStep(s, e, g, on).value);
  }

  lemma RemovalTells(s: State, t: Step)
    requires Inv(s) && (t.CancelJob? || t.BeginDelete? || t.Unready? || t.RemoveAsset? || t.RemoveEvent?) && Next(s, t).Some?
    ensures TellsFrom(s.db, Next(s, t).value.db) && Next(s, t).value.exec == s.exec
  {
    match t
    case CancelJob(e, g) => CancelQuiet(s, e, g); QuietTells(s, CancelStep(s, e, g));
    case BeginDelete(e) => BeginDeleteQuiet(s, e); QuietTells(s, BeginDeleteStep(s, e).value);
    case Unready(a) => UnreadyQuiet(s, a); QuietTells(s, UnreadyStep(s, a).value);
    case RemoveAsset(a) => RemoveAssetQuiet(s, a); QuietTells(s, RemoveAssetStep(s, a).value);
    case RemoveEvent(e) => RemoveEventQuiet(s, e); QuietTells(s, RemoveEventStep(s, e).value);
  }

  lemma RecoverTells(d: Db)
    ensures TellsFrom(d, RecoverTx(d))
  {}

  lemma FinishTells(d: Db, j: nat, b: nat, err: bool)
    ensures TellsFrom(d, FinishTx(d, j, b, err))
  {}

  lemma ColumnTells(d: Db, n: Db, b: nat)
    requires b in d.bindings && n.bindings.Keys == d.bindings.Keys && n.bindings[b].imports == d.bindings[b].imports
    requires forall c :: c in d.bindings && c != b ==> n.bindings[c] == d.bindings[c]
    ensures TellsFrom(d, n)
  {}

  lemma ClaimTells(s: State)
    requires ClaimStep(s).Some?
    ensures TellsFrom(s.db, ClaimStep(s).value.db) && AnswersFrom(s.exec, ClaimStep(s).value.exec)
  {}

  lemma MarkCreatingTells(s: State)
    requires MarkCreatingStep(s).Some?
    ensures TellsFrom(s.db, MarkCreatingStep(s).value.db) && AnswersFrom(s.exec, MarkCreatingStep(s).value.exec)
  {
    ColumnTells(s.db, MarkCreatingStep(s).value.db, s.exec.binding);
  }

  lemma SaveAlbumTells(s: State)
    requires SaveAlbumStep(s).Some?
    ensures TellsFrom(s.db, SaveAlbumStep(s).value.db) && AnswersFrom(s.exec, SaveAlbumStep(s).value.exec)
  {
    if s.exec.binding in s.db.bindings { ColumnTells(s.db, SaveAlbumStep(s).value.db, s.exec.binding); }
  }

  lemma RunsTell(s: State, t: Step)
    requires Inv(s) && (RunsTables(t) || t.Finish?) && Next(s, t).Some?
    ensures TellsFrom(s.db, Next(s, t).value.db) && AnswersFrom(s.exec, Next(s, t).value.exec)
  {
    match t
    case Recover => RecoverTells(s.db);
    case Claim => ClaimTells(s);
    case Reconcile(b) => ReconcileQuiet(s, b); QuietTells(s, ReconcileStep(s, b).value);
    case MarkCreating => MarkCreatingTells(s);
    case SaveAlbum => SaveAlbumTells(s);
    case Finish => FinishTells(s.db, s.exec.job, s.exec.binding, s.exec.phase.err);
  }

  lemma RowWriteTells(d: Db, b: nat, a: nat, r: Row)
    requires b in d.bindings && a in d.bindings[b].imports && r.remote == d.bindings[b].imports[a].remote && r.duplicate == d.bindings[b].imports[a].duplicate
    ensures TellsFrom(d, SetRow(d, b, a, r))
  {}

  lemma MarkTells(s: State, a: nat)
    requires MarkStep(s, a).Some?
    ensures TellsFrom(s.db, MarkStep(s, a).value.db) && AnswersFrom(s.exec, MarkStep(s, a).value.exec)
  {
    RowWriteTells(s.db, s.exec.binding, a, RowOf(s, a).(status := Importing, attempts := RowOf(s, a).attempts + 1));
  }

  lemma AccountTells(s: State, a: nat)
    requires AccountStep(s, a).Some?
    ensures TellsFrom(s.db, AccountStep(s, a).value.db) && AnswersFrom(s.exec, AccountStep(s, a).value.exec)
  {
    RowWriteTells(s.db, s.exec.binding, a, RowOf(s, a).(status := if s.exec.phase.workers[a].duplicate then Duplicate else Imported));
  }

  lemma FaultTells(s: State, a: nat)
    requires FaultStep(s, a).Some?
    ensures TellsFrom(s.db, FaultStep(s, a).value.db) && AnswersFrom(s.exec, FaultStep(s, a).value.exec)
  {
    RowWriteTells(s.db, s.exec.binding, a, RowOf(s, a).(status := if s.exec.cancelled then Pending else RowStatus.Failed));
  }

  predicate BetweenTransfers(t: Step) {
    t.Crash? || t.Stop? || t.Observe? || t.FailEarly? || t.TakeSnapshot? || t.AlbumKnown? || t.SendCreate? || t.FindAlbum?
  }

  lemma BetweenTells(s: State, t: Step)
    requires BetweenTransfers(t) && Next(s, t).Some?
    ensures Next(s, t).value.db == s.db && AnswersFrom(s.exec, Next(s, t).value.exec)
  {}

  predicate Transfers(t: Step) { t.StopFeeding? || t.Take? || t.Drop? || t.Load? || t.Add? || t.EndWork? }

  lemma TransfersTell(s: State, t: Step)
    requires Inv(s) && Transfers(t) && Next(s, t).Some?
    ensures Next(s, t).value.db == s.db && AnswersFrom(s.exec, Next(s, t).value.exec)
  {
    match t
    case Load(a) => LoadTells(s, a);
    case Add(a, o) => AddTells(s, a, o);
    case _ =>
  }

  lemma LoadTells(s: State, a: nat)
    requires LoadStep(s, a).Some?
    ensures LoadStep(s, a).value.db == s.db && AnswersFrom(s.exec, LoadStep(s, a).value.exec)
  {}

  lemma AddTells(s: State, a: nat, o: Outcome)
    requires AddStep(s, a, o).Some?
    ensures AddStep(s, a, o).value.db == s.db && AnswersFrom(s.exec, AddStep(s, a, o).value.exec)
  {}

  /** An upload that is not answered. */
  lemma LostUploadTells(s: State, a: nat, o: Outcome, id: nat)
    requires UploadStep(s, a, o, id).Some? && !o.Answered?
    ensures UploadStep(s, a, o, id).value.db == s.db && AnswersFrom(s.exec, UploadStep(s, a, o, id).value.exec)
  {}

  /** Every step but an answered upload and the write of its answer. */
  predicate Carries(t: Step) { !t.Save? && !(t.Upload? && t.outcome.Answered?) }

  lemma WorkTells(s: State, t: Step)
    requires Inv(s) && (t.Mark? || t.Account? || t.Fault? || (t.Upload? && !t.outcome.Answered?)) && Next(s, t).Some?
    ensures TellsFrom(s.db, Next(s, t).value.db) && AnswersFrom(s.exec, Next(s, t).value.exec)
  {
    match t
    case Mark(a) => MarkTells(s, a);
    case Account(a) => AccountTells(s, a);
    case Fault(a) => FaultTells(s, a);
    case Upload(a, o, id) => LostUploadTells(s, a, o, id);
  }

  predicate IsAdmin(t: Step) { t.NewEvent? || t.MediaReady? || t.Enqueue? || t.CreateEvent? || t.SetAuto? }

  lemma CarriesTell(s: State, t: Step)
    requires Inv(s) && Carries(t) && Next(s, t).Some?
    ensures TellsFrom(s.db, Next(s, t).value.db) && AnswersFrom(s.exec, Next(s, t).value.exec)
  {
    if IsAdmin(t) { AdminTells(s, t); }
    else if Outside(t) { RemovalTells(s, t); }
    else if RunsTables(t) || t.Finish? { RunsTell(s, t); }
    else if BetweenTransfers(t) { BetweenTells(s, t); }
    else if Transfers(t) { TransfersTell(s, t); }
    else { WorkTells(s, t); }
  }

  lemma AdminAssets(s: State, t: Step)
    requires Inv(s) && IsAdmin(t) && Next(s, t).Some?
    ensures AssetsSame(s.db, Next(s, t).value.db)
  {
    match t
    case Enqueue(r) => EnqueueAssets(s.db, r);
    case CreateEvent(name, r, auto) => CreateEventAssets(s.db, name, r, auto);
    case MediaReady(a, e, c, created) =>
    case _ => OtherAssets(s, t);
  }

  lemma EnqueueAssets(d: Db, r: Request)
    requires EnqueueTx(d, r).Ok?
    ensures EnqueueTx(d, r).value.assets == d.assets
  {}

  lemma CreateEventAssets(d: Db, name: string, r: Request, auto: bool)
    requires CreateEventTx(d, name, r, auto).Ok?
    ensures CreateEventTx(d, name, r, auto).value.assets == d.assets
  {}

  lemma OtherAssets(s: State, t: Step)
    requires (t.NewEvent? || t.SetAuto?) && Next(s, t).Some?
    ensures Next(s, t).value.db.assets == s.db.assets
  {}

  lemma RemovalAssets(s: State, t: Step)
    requires Outside(t) && !IsAdmin(t) && Next(s, t).Some?
    ensures AssetsSame(s.db, Next(s, t).value.db)
  {}

  lemma InsideAssets(s: State, t: Step)
    requires !Outside(t) && Next(s, t).Some?
    ensures Next(s, t).value.db.assets == s.db.assets
  {}

  lemma AssetsStay(s: State, t: Step)
    requires Inv(s) && Next(s, t).Some?
    ensures AssetsSame(s.db, Next(s, t).value.db)
  {
    if IsAdmin(t) { AdminAssets(s, t); } else if Outside(t) { RemovalAssets(s, t); } else { InsideAssets(s, t); }
  }

  // ---------------------------------------------------------------- over runs

  lemma CarriedRow(ts: seq<Step>, s: State, t: Step, n: State, b: nat, a: nat)
    requires Inv(s) && Run(START, ts) == Some(s) && Given(ts, s) && Carries(t)
    requires TellsFrom(s.db, n.db) && AssetsSame(s.db, n.db) && b in n.db.bindings && a in n.db.bindings[b].imports
    ensures RowGiven(ts + [t], n.db, b, a)
  {
    CopiesAfter(ts, s, t, b, a);
    if n.db.bindings[b].imports[a].remote.Some? {
      assert RowGiven(ts, s.db, b, a);
      assert Sourced(s.db, s.db.bindings[b].event, a);
    }
  }

  lemma CarriedWorker(ts: seq<Step>, s: State, t: Step, n: State, a: nat)
    requires Inv(s) && Run(START, ts) == Some(s) && Given(ts, s) && (Carries(t) || (t.Upload? && t.asset != a) || t.Save?)
    requires AssetsSame(s.db, n.db)
    requires AtWorker(n.exec, a) && n.exec.phase.workers[a].Uploaded? ==>
               AtWorker(s.exec, a) && s.exec.phase.workers[a] == n.exec.phase.workers[a] && s.exec.binding == n.exec.binding
    ensures WorkerGiven(ts + [t], n, a)
  {
    if AtWorker(n.exec, a) && n.exec.phase.workers[a].Uploaded? {
      CopiesAfter(ts, s, t, n.exec.binding, a);
      assert WorkerGiven(ts, s, a);
      assert Sourced(s.db, s.exec.event, a);
    }
  }

  lemma CarriedGiven(ts: seq<Step>, s: State, t: Step)
    requires Inv(s) && Run(START, ts) == Some(s) && Given(ts, s) && Carries(t) && Next(s, t).Some?
    ensures Given(ts + [t], Next(s, t).value)
  {
    var n := Next(s, t).value;
    CarriesTell(s, t);
    AssetsStay(s, t);
    forall b, a | b in n.db.bindings && a in n.db.bindings[b].imports ensures RowGiven(ts + [t], n.db, b, a) { CarriedRow(ts, s, t, n, b, a); }
    forall a ensures WorkerGiven(ts + [t], n, a) { CarriedWorker(ts, s, t, n, a); }
  }

  /** The remote answers an upload with the id that holds the content, and says whether it was there. */
  lemma UploadAnswers(s: State, a: nat, id: nat)
    requires UploadStep(s, a, Answered, id).Some?
    ensures var n := UploadStep(s, a, Answered, id).value;
            && n.db == s.db && AtWorker(n.exec, a) && n.exec.binding == s.exec.binding && n.exec.phase.workers[a].Uploaded?
            && Gave(Some(s.remote.copies), s.db.assets[a].content, n.exec.phase.workers[a].id, n.exec.phase.workers[a].duplicate)
            && forall c :: c != a && AtWorker(n.exec, c) ==> AtWorker(s.exec, c) && s.exec.phase.workers[c] == n.exec.phase.workers[c]
  {
    var known := set i | i in s.remote.copies && s.remote.copies[i] == s.db.assets[a].content;
    if i :| i in s.remote.copies && s.remote.copies[i] == s.db.assets[a].content { assert i in known; }
    if known != {} { assert Min(known) in known; }
  }

  lemma UploadGiven(ts: seq<Step>, s: State, a: nat, id: nat)
    requires Inv(s) && Run(START, ts) == Some(s) && Given(ts, s) && UploadStep(s, a, Answered, id).Some?
    ensures Given(ts + [Upload(a, Answered, id)], UploadStep(s, a, Answered, id).value)
  {
    var n, t := UploadStep(s, a, Answered, id).value, Upload(a, Answered, id);
    UploadAnswers(s, a, id);
    WorkerRow(s, a);
    forall b, c | b in n.db.bindings && c in n.db.bindings[b].imports ensures RowGiven(ts + [t], n.db, b, c) {
      CopiesAfter(ts, s, t, b, c);
      assert RowGiven(ts, s.db, b, c);
    }
    forall c ensures WorkerGiven(ts + [t], n, c) {
      if c == a { CopiesAfter(ts, s, t, s.exec.binding, a); } else { CarriedWorker(ts, s, t, n, c); }
    }
  }

  lemma SaveWrites(s: State, a: nat)
    requires SaveStep(s, a).Some?
    ensures var n, b, w := SaveStep(s, a).value, s.exec.binding, s.exec.phase.workers[a];
            && w.Uploaded? && n.db.assets == s.db.assets && n.exec.binding == b
            && n.db.bindings == s.db.bindings[b := s.db.bindings[b].(imports := s.db.bindings[b].imports[a := RowOf(s, a).(remote := Some(w.id), duplicate := w.duplicate)])]
            && forall c :: AtWorker(n.exec, c) && n.exec.phase.workers[c].Uploaded? ==> AtWorker(s.exec, c) && s.exec.phase.workers[c] == n.exec.phase.workers[c]
  {}

  lemma SaveGiven(ts: seq<Step>, s: State, a: nat)
    requires Inv(s) && Run(START, ts) == Some(s) && Given(ts, s) && SaveStep(s, a).Some?
    ensures Given(ts + [Save(a)], SaveStep(s, a).value)
  {
    var n, t := SaveStep(s, a).value, Save(a);
    SaveWrites(s, a);
    assert WorkerGiven(ts, s, a);
    forall b, c | b in n.db.bindings && c in n.db.bindings[b].imports ensures RowGiven(ts + [t], n.db, b, c) {
      CopiesAfter(ts, s, t, b, c);
      assert b != s.exec.binding || c != a ==> RowGiven(ts, s.db, b, c);
    }
    forall c ensures WorkerGiven(ts + [t], n, c) { CarriedWorker(ts, s, t, n, c); }
  }

  lemma StepGiven(ts: seq<Step>, s: State, t: Step)
    requires Inv(s) && Run(START, ts) == Some(s) && Given(ts, s) && Next(s, t).Some?
    ensures Given(ts + [t], Next(s, t).value)
  {
    if Carries(t) { CarriedGiven(ts, s, t); }
    else if t.Save? { SaveGiven(ts, s, t.asset); }
    else { UploadGiven(ts, s, t.asset, t.id); }
  }

  lemma {:induction false} RunGiven(ts: seq<Step>, n: State)
    requires Reaches(ts, n)
    ensures Given(ts, n)
    decreases |ts|
  {
    if ts != [] {
      var p, t := ts[..|ts| - 1], ts[|ts| - 1];
      LastStep(ts, n);
      var s := Run(START, p).value;
      ReachedInv(p, s);
      RunGiven(p, s);
      assert ts == p + [t];
      StepGiven(p, s, t);
    }
  }

  /** In every run, whatever was lost or repeated: a settled row got its id from the last answered upload for it. It is a duplicate
      exactly if that upload found its content on the remote, and then the id is that of an asset found; it is imported exactly if
      it found none, and then the id is new. */
  lemma DuplicateExactly(ts: seq<Step>, n: State, b: nat, a: nat)
    requires Reaches(ts, n) && b in n.db.bindings && a in n.db.bindings[b].imports && Settled(n.db.bindings[b].imports[a])
    ensures a in n.db.assets && n.db.bindings[b].imports[a].remote.Some? && CopiesBefore(ts, b, a).Some?
    ensures var r, content, copies := n.db.bindings[b].imports[a], n.db.assets[a].content, CopiesBefore(ts, b, a).value;
            && (r.status.Duplicate? <==> exists i :: i in copies && copies[i] == content)
            && (r.status.Imported? <==> forall i :: i in copies ==> copies[i] != content)
            && (if r.status.Duplicate? then r.remote.value in copies && copies[r.remote.value] == content else r.remote.value !in copies)
  {
    ReachedInv(ts, n);
    RunGiven(ts, n);
    assert Sourced(n.db, n.db.bindings[b].event, a);
    assert RowTrue(n.db.bindings[b].imports[a], n.db.assets[a].content, n.remote);
    assert RowGiven(ts, n.db, b, a);
  }
}
