/** Two promises that hold in every run unless SQLite gives the id of a deleted row to a new one while a claimed job still
    works by it, each with the exact step that can break it: open rows belong to a job, and settled rows are in their album. */
module ImmichOwnership {
  import opened Wrappers
  import opened Ordered
  import opened ImmichModel
  import opened ImmichSteps
  import opened ImmichInvariant
  import opened ImmichTables
  import opened ImmichSafety

  // ---------------------------------------------------------------- open rows belong to a job

  lemma SameOwned(d: Db, n: Db)
    requires Owned(d) && n.jobs == d.jobs && n.bindings == d.bindings
    ensures Owned(n)
  {
    SameJobsCovered(d, n);
  }

  lemma SubmitOwned(d: Db, b: nat, name: string, r: Request)
    requires Owned(d) && b in d.bindings && Submit(d, b, name, r).Ok?
    ensures Owned(Submit(d, b, name, r).value)
  {
    var y, job := SubmitInserts(d, b, name, r);
    JobInsertOwned(d, b, y, NextId(d.jobs.Keys), job);
  }

  lemma NewBindingOwned(d: Db, b: nat, x: Binding)
    requires Owned(d) && b !in d.bindings && x.imports == map[]
    ensures Owned(d.(bindings := d.bindings[b := x]))
  {
    var n := d.(bindings := d.bindings[b := x]);
    SameJobsCovered(d, n);
    assert forall c :: c in n.bindings && OpenRows(n.bindings[c]) ==> c in d.bindings && Covered(d, c);
  }

  lemma EnqueueOwned(d: Db, r: Request)
    requires Owned(d) && EnqueueTx(d, r).Ok?
    ensures Owned(EnqueueTx(d, r).value)
  {
    var found := BindingsOf(d, r.event, r.target);
    var name := NameFor(d, r);
    if found == {} {
      var b := NextId(d.bindings.Keys);
      NewBindingOwned(d, b, NewBinding(r, name));
      SubmitOwned(d.(bindings := d.bindings[b := NewBinding(r, name)]), b, name, r);
    } else {
      SubmitOwned(d, Min(found), name, r);
    }
  }

  lemma CreateEventOwned(d: Db, name: string, r: Request, auto: bool)
    requires AlbumColumns(d) && Owned(d) && CreateEventTx(d, name, r, auto).Ok?
    ensures Owned(CreateEventTx(d, name, r, auto).value)
  {
    var e := NextId(d.events.Keys);
    var base := d.(events := d.events[e := Event(name, false)]);
    var q := r.(event := e, mode := "new", albumOnly := true, requireCredentials := false);
    SameOwned(d, base);
    EnqueueOwned(base, q);
    PolicyOwned(EnqueueTx(base, q).value, e, auto);
  }

  lemma PolicyOwned(d: Db, e: nat, auto: bool)
    requires Owned(d)
    ensures Owned(WithPolicy(d, e, auto))
  {
    var n := WithPolicy(d, e, auto);
    SameJobsCovered(d, n);
    forall b | b in n.bindings && OpenRows(n.bindings[b]) ensures Covered(n, b) {
      assert n.bindings[b].imports == d.bindings[b].imports;
      assert OpenRows(d.bindings[b]);
    }
  }

  lemma ReconcileOwned(d: Db, b: nat)
    requires Owned(d)
    ensures Owned(ReconcileTx(d, b))
  {
    if Eligible(d, b) && Batch(d, b) != {} {
      var x := d.bindings[b].(imports := Select(d.bindings[b].imports, Batch(d, b)));
      JobInsertOwned(d, b, x, NextId(d.jobs.Keys), Job(b, NewMedia, false, Queued, false));
    }
  }

  lemma OutsideOwned(s: State, t: Step)
    requires TablesOk(s) && Owned(s.db) && Outside(t) && Next(s, t).Some?
    ensures Owned(Next(s, t).value.db)
  {
    match t
    case NewEvent(name) => SameOwned(s.db, NewEventStep(s, name).db);
    case MediaReady(a, e, c, created) => SameOwned(s.db, MediaStep(s, a, e, c, created).value.db);
    case Enqueue(r) => EnqueueOwned(s.db, r);
    case CreateEvent(name, r, auto) => CreateEventOwned(s.db, name, r, auto);
    case SetAuto(e, g, on) => SetAutoOwned(s.db, e, g, on);
    case CancelJob(e, g) => CancelFrame(s.db, e, g); FrameOwned(s.db, CancelTx(s.db, e, g));
    case BeginDelete(e) => SameOwned(s.db, BeginDeleteStep(s, e).value.db);
    case Unready(a) => SameOwned(s.db, UnreadyStep(s, a).value.db);
    case RemoveAsset(a) => RemoveAssetOwned(s.db, a);
    case RemoveEvent(e) => RemoveEventOwned(s.db, e);
  }

  lemma SetAutoOwned(d: Db, e: nat, g: nat, on: bool)
    requires AlbumColumns(d) && Owned(d) && SetAutoTx(d, e, g, on).Ok?
    ensures Owned(SetAutoTx(d, e, g, on).value)
  {
    var b := Min(BindingsOf(d, e, g));
    ColumnFrame(d, b, d.bindings[b].(auto := on));
    FrameOwned(d, SetAutoTx(d, e, g, on).value);
  }

  lemma RowOwned(s: State, a: nat, r: Row)
    requires TablesOk(s) && RunnerOk(s) && Owned(s.db) && HasRow(s, a)
    ensures Owned(SetRow(s.db, s.exec.binding, a, r))
  {
    RowWriteFrame(s.db, s.exec.binding, a, r);
    FrameOwned(s.db, SetRow(s.db, s.exec.binding, a, r));
  }

  lemma MarkOwned(s: State, a: nat)
    requires TablesOk(s) && RunnerOk(s) && Owned(s.db) && MarkStep(s, a).Some?
    ensures Owned(MarkStep(s, a).value.db)
  {
    RowOwned(s, a, RowOf(s, a).(status := Importing, attempts := RowOf(s, a).attempts + 1));
  }

  lemma WritesOwned(s: State, t: Step)
    requires TablesOk(s) && RunnerOk(s) && Owned(s.db) && Writes(t) && Next(s, t).Some?
    ensures Owned(Next(s, t).value.db)
  {
    match t
    case Save(a) => RowOwned(s, a, RowOf(s, a).(remote := Some(s.exec.phase.workers[a].id), duplicate := s.exec.phase.workers[a].duplicate));
    case Account(a) => RowOwned(s, a, RowOf(s, a).(status := if s.exec.phase.workers[a].duplicate then Duplicate else Imported));
    case Fault(a) => RowOwned(s, a, RowOf(s, a).(status := if s.exec.cancelled then Pending else Failed));
  }

  lemma ColumnOwned(d: Db, b: nat, x: Binding)
    requires AlbumColumns(d) && Owned(d) && b in d.bindings && Kin(d.bindings[b], x) && x.imports == d.bindings[b].imports
    requires (x.state.AlbumReady? <==> x.album.Some?) && (x.state.NewAlbum? ==> d.bindings[b].state.NewAlbum?)
    ensures Owned(d.(bindings := d.bindings[b := x]))
  {
    ColumnFrame(d, b, x);
    FrameOwned(d, d.(bindings := d.bindings[b := x]));
  }

  predicate RunsTables(t: Step) { t.Recover? || t.Claim? || t.Reconcile? || t.MarkCreating? || t.SaveAlbum? }

  lemma RunsOwned(s: State, t: Step)
    requires TablesOk(s) && Owned(s.db) && RunsTables(t) && Next(s, t).Some?
    ensures Owned(Next(s, t).value.db)
  {
    match t
    case Recover => RecoverFrame(s.db); FrameOwned(s.db, RecoverTx(s.db));
    case Claim => ClaimFrame(s.db); FrameOwned(s.db, ClaimTx(s.db).value.1);
    case Reconcile(b) => ReconcileOwned(s.db, b);
    case MarkCreating => ColumnOwned(s.db, s.exec.binding, s.db.bindings[s.exec.binding].(state := Creating));
    case SaveAlbum =>
      if s.exec.binding in s.db.bindings {
        ColumnOwned(s.db, s.exec.binding, s.db.bindings[s.exec.binding].(album := Some(s.exec.phase.reply), state := AlbumReady));
      }
  }

  predicate Untouching(t: Step) {
    t.Crash? || t.Stop? || t.Observe? || t.FailEarly? || t.TakeSnapshot? || t.AlbumKnown? || t.SendCreate? || t.FindAlbum?
    || t.StopFeeding? || t.Take? || t.Drop? || t.Load? || t.Upload? || t.Add? || t.EndWork?
  }

  lemma TablesUntouched(s: State, t: Step)
    requires Untouching(t) && Next(s, t).Some?
    ensures Next(s, t).value.db == s.db && s.remote.added <= Next(s, t).value.remote.added
  {
    if ByWorker(t) { WorkerUntouched(s, t); }
  }

  predicate ByWorker(t: Step) { t.StopFeeding? || t.Take? || t.Drop? || t.Load? || t.Upload? || t.Add? || t.EndWork? }

  lemma WorkerUntouched(s: State, t: Step)
    requires ByWorker(t) && Next(s, t).Some?
    ensures Next(s, t).value.db == s.db && s.remote.added <= Next(s, t).value.remote.added
  {}

  /** Only the end of a job can leave open rows without one. */
  lemma StepOwned(s: State, t: Step)
    requires TablesOk(s) && RunnerOk(s) && Owned(s.db) && Next(s, t).Some? && !t.Finish?
    ensures Owned(Next(s, t).value.db)
  {
    if Outside(t) { OutsideOwned(s, t); }
    else if Writes(t) { WritesOwned(s, t); }
    else if t.Mark? { MarkOwned(s, t.asset); }
    else if RunsTables(t) { RunsOwned(s, t); }
    else { TablesUntouched(s, t); }
  }

  /** What the runner ends keeps every open row owned exactly if `EndsOwn` holds. */
  lemma EndOwned(s: State)
    requires Inv(s) && Owned(s.db) && FinishStep(s).Some?
    ensures Owned(FinishStep(s).value.db) <==> EndsOwn(s.db, s.exec.job, s.exec.binding, s.exec.phase.err)
  {
    NoneImporting(s);
    FinishOwned(s.db, s.exec.job, s.exec.binding, s.exec.phase.err);
  }

  /** The claimed binding is still there, or no job has the claimed id, or one that only sets up an album. */
  ghost predicate OwnJob(s: State) {
    s.exec.Exec? ==> Intact(s) || s.exec.job !in s.db.jobs || s.db.jobs[s.exec.job].albumOnly
  }

  lemma OwnJobEnds(s: State)
    requires Inv(s) && OwnJob(s) && FinishStep(s).Some?
    ensures EndsOwn(s.db, s.exec.job, s.exec.binding, s.exec.phase.err)
  {
    if !Intact(s) && s.exec.job in s.db.jobs {
      var k := s.db.jobs[s.exec.job].binding;
      assert s.db.bindings[k].imports == map[];
      assert !OpenRows(s.db.bindings[k]);
    }
  }

  // ---------------------------------------------------------------- when an id cannot come back

  /** The step gives the claimed job's id to no job with rows. */
  predicate SparesJob(s: State, t: Step) {
    s.exec.Exec? && t.Enqueue? && !t.request.albumOnly ==> NextId(s.db.jobs.Keys) != s.exec.job
  }

  /** The step gives the claimed binding's id to no new binding. */
  predicate SparesBinding(s: State, t: Step) {
    s.exec.Exec? && ((t.Enqueue? && BindingsOf(s.db, t.request.event, t.request.target) == {}) || t.CreateEvent?) ==>
      NextId(s.db.bindings.Keys) != s.exec.binding
  }

  ghost predicate OwnBinding(s: State) { s.exec.Exec? ==> Intact(s) || s.exec.binding !in s.db.bindings }

  predicate SameIds(x: Exec, y: Exec) { x.Exec? && y.Exec? ==> x.job == y.job && x.binding == y.binding && x.marker == y.marker }

  /** The claimed binding goes only together with its job, and a job that has the id was there or only sets up an album. */
  ghost predicate IdsKept(s: State, n: State) {
    && SameIds(s.exec, n.exec) && (n.exec.Exec? ==> s.exec.Exec? || Intact(n))
    && (s.exec.Exec? ==>
          && (Intact(s) ==> HasClaim(s.exec, n.db) || s.exec.job !in n.db.jobs)
          && (s.exec.job in n.db.jobs ==>
                n.db.jobs[s.exec.job].albumOnly || (s.exec.job in s.db.jobs && n.db.jobs[s.exec.job].albumOnly == s.db.jobs[s.exec.job].albumOnly)))
  }

  ghost predicate BindingsKept(s: State, n: State) {
    && SameIds(s.exec, n.exec) && (n.exec.Exec? ==> s.exec.Exec? || Intact(n))
    && (s.exec.Exec? && s.exec.binding in n.db.bindings ==>
          s.exec.binding in s.db.bindings && n.db.bindings[s.exec.binding].marker == s.db.bindings[s.exec.binding].marker)
  }

  /** One new job, and one new binding or none. */
  ghost predicate Adds(d: Db, n: Db, albumOnly: bool, bound: bool) {
    && n.jobs.Keys == d.jobs.Keys + {NextId(d.jobs.Keys)} && n.jobs[NextId(d.jobs.Keys)].albumOnly == albumOnly
    && (forall j :: j in d.jobs ==> n.jobs[j] == d.jobs[j])
    && n.bindings.Keys == d.bindings.Keys + (if bound then {NextId(d.bindings.Keys)} else {})
    && (forall b :: b in d.bindings ==> n.bindings[b].marker == d.bindings[b].marker)
  }

  lemma EnqueueAdds(d: Db, r: Request)
    requires EnqueueTx(d, r).Ok?
    ensures Adds(d, EnqueueTx(d, r).value, r.albumOnly, BindingsOf(d, r.event, r.target) == {})
  {}

  lemma CreateEventAdds(d: Db, name: string, r: Request, auto: bool)
    requires CreateEventTx(d, name, r, auto).Ok? && forall b :: b in d.bindings ==> d.bindings[b].event in d.events
    ensures Adds(d, CreateEventTx(d, name, r, auto).value, true, true)
  {
    var e := NextId(d.events.Keys);
    var base := d.(events := d.events[e := Event(name, false)]);
    EnqueueAdds(base, r.(event := e, mode := "new", albumOnly := true, requireCredentials := false));
  }

  lemma AddedIds(s: State, n: State, albumOnly: bool, bound: bool)
    requires Adds(s.db, n.db, albumOnly, bound) && n.exec == s.exec
    ensures albumOnly || s.exec.Idle? || NextId(s.db.jobs.Keys) != s.exec.job ==> IdsKept(s, n)
    ensures !bound || s.exec.Idle? || NextId(s.db.bindings.Keys) != s.exec.binding ==> BindingsKept(s, n)
  {}

  lemma RemoveEventIds(s: State, e: nat)
    requires RunnerOk(s) && RemoveEventStep(s, e).Some?
    ensures IdsKept(s, RemoveEventStep(s, e).value) && BindingsKept(s, RemoveEventStep(s, e).value)
  {}

  lemma OutsideIds(s: State, t: Step)
    requires TablesOk(s) && RunnerOk(s) && Outside(t) && Next(s, t).Some?
    ensures SparesJob(s, t) ==> IdsKept(s, Next(s, t).value)
    ensures SparesBinding(s, t) ==> BindingsKept(s, Next(s, t).value)
  {
    match t
    case Enqueue(r) =>
      EnqueueAdds(s.db, r);
      AddedIds(s, EnqueueStep(s, r).value, r.albumOnly, BindingsOf(s.db, r.event, r.target) == {});
    case CreateEvent(name, r, auto) =>
      CreateEventAdds(s.db, name, r, auto);
      AddedIds(s, CreateEventStep(s, name, r, auto).value, true, true);
    case RemoveEvent(e) => RemoveEventIds(s, e);
    case _ =>
  }

  /** The runner's own steps add no row to either table. */
  ghost predicate SameRows(d: Db, n: Db) {
    && n.jobs.Keys == d.jobs.Keys && n.bindings.Keys == d.bindings.Keys
    && (forall j :: j in d.jobs ==> n.jobs[j].albumOnly == d.jobs[j].albumOnly)
    && (forall b :: b in d.bindings ==> n.bindings[b].marker == d.bindings[b].marker)
  }

  lemma RowsSame(s: State, t: Step)
    requires !Outside(t) && !t.Reconcile? && Next(s, t).Some?
    ensures SameRows(s.db, Next(s, t).value.db)
  {
    if Untouching(t) { TablesUntouched(s, t); }
  }

  /** A claim is taken with its binding there, and else the ids stay. */
  ghost predicate ClaimStays(s: State, n: State) {
    SameIds(s.exec, n.exec) && (n.exec.Exec? ==> s.exec.Exec? || Intact(n))
  }

  lemma UntouchingStays(s: State, t: Step)
    requires Untouching(t) && Next(s, t).Some?
    ensures ClaimStays(s, Next(s, t).value)
  {
    if ByWorker(t) { WorkerStays(s, t); }
  }

  lemma WorkerStays(s: State, t: Step)
    requires ByWorker(t) && Next(s, t).Some?
    ensures ClaimStays(s, Next(s, t).value)
  {}

  lemma RunsStays(s: State, t: Step)
    requires (RunsTables(t) || t.Finish?) && Next(s, t).Some?
    ensures ClaimStays(s, Next(s, t).value) && (t.Reconcile? ==> s.exec.Idle?)
  {}

  lemma RowsStays(s: State, t: Step)
    requires (Writes(t) || t.Mark?) && Next(s, t).Some?
    ensures ClaimStays(s, Next(s, t).value)
  {}

  lemma RunnerIds(s: State, t: Step)
    requires !Outside(t) && Next(s, t).Some?
    ensures IdsKept(s, Next(s, t).value) && BindingsKept(s, Next(s, t).value)
  {
    if Untouching(t) { UntouchingStays(s, t); } else if Writes(t) || t.Mark? { RowsStays(s, t); } else { RunsStays(s, t); }
    if !t.Reconcile? { RowsSame(s, t); }
  }

  /** While no step takes a claimed id for another row, the claimed ids stay the claimed job's own. */
  lemma StepOwnIds(s: State, t: Step)
    requires Inv(s) && Next(s, t).Some?
    ensures OwnJob(s) && SparesJob(s, t) ==> OwnJob(Next(s, t).value)
    ensures OwnBinding(s) && SparesBinding(s, t) ==> OwnBinding(Next(s, t).value)
  {
    if Outside(t) { OutsideIds(s, t); } else { RunnerIds(s, t); }
  }
}
