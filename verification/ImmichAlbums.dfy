/** Settled rows are in their binding's album after every step, but for one that accounts for a row of a reused binding. */
module ImmichAlbums {
  import opened Wrappers
  import opened Ordered
  import opened ImmichModel
  import opened ImmichSteps
  import opened ImmichInvariant
  import opened ImmichSafety
  import opened ImmichOwnership

  /** No row settles, none that had is changed, and a stored album id stays. */
  ghost predicate SettledStay(d: Db, n: Db) {
    forall b, a :: b in n.bindings && a in n.bindings[b].imports && Settled(n.bindings[b].imports[a]) ==>
      && b in d.bindings && a in d.bindings[b].imports && n.bindings[b].imports[a] == d.bindings[b].imports[a]
      && (d.bindings[b].album.Some? ==> n.bindings[b].album == d.bindings[b].album)
  }

  lemma StayAlbumed(d: Db, n: Db, added: set<(nat, nat)>, more: set<(nat, nat)>)
    requires Albumed(d, added) && SettledStay(d, n) && added <= more
    ensures Albumed(n, more)
  {
    forall b, a | b in n.bindings && a in n.bindings[b].imports ensures RowAlbumed(n.bindings[b].album, n.bindings[b].imports[a], more) {
      if Settled(n.bindings[b].imports[a]) { assert RowAlbumed(d.bindings[b].album, d.bindings[b].imports[a], added); }
    }
  }

  lemma SubmitStays(d: Db, b: nat, name: string, r: Request)
    requires b in d.bindings && Submit(d, b, name, r).Ok?
    ensures SettledStay(d, Submit(d, b, name, r).value)
  {}

  lemma EnqueueStays(d: Db, r: Request)
    requires EnqueueTx(d, r).Ok?
    ensures SettledStay(d, EnqueueTx(d, r).value)
  {
    var found := BindingsOf(d, r.event, r.target);
    var name := NameFor(d, r);
    if found == {} {
      var b := NextId(d.bindings.Keys);
      SubmitStays(d.(bindings := d.bindings[b := NewBinding(r, name)]), b, name, r);
    } else {
      SubmitStays(d, Min(found), name, r);
    }
  }

  lemma CreateEventStays(d: Db, name: string, r: Request, auto: bool)
    requires CreateEventTx(d, name, r, auto).Ok?
    ensures SettledStay(d, CreateEventTx(d, name, r, auto).value)
  {
    var e := NextId(d.events.Keys);
    var base := d.(events := d.events[e := Event(name, false)]);
    EnqueueStays(base, r.(event := e, mode := "new", albumOnly := true, requireCredentials := false));
  }

  lemma OutsideStays(s: State, t: Step)
    requires Outside(t) && Next(s, t).Some?
    ensures SettledStay(s.db, Next(s, t).value.db) && Next(s, t).value.remote == s.remote
  {
    match t
    case Enqueue(r) => EnqueueStays(s.db, r);
    case CreateEvent(name, r, auto) => CreateEventStays(s.db, name, r, auto);
    case _ =>
  }

  lemma SaveAlbumStays(s: State)
    requires s.exec.Exec? && PhaseOk(s) && SaveAlbumStep(s).Some?
    ensures SettledStay(s.db, SaveAlbumStep(s).value.db)
  {}

  lemma FinishStays(d: Db, j: nat, b: nat, err: bool)
    ensures SettledStay(d, FinishTx(d, j, b, err))
  {}

  lemma RecoverStays(d: Db)
    ensures SettledStay(d, RecoverTx(d))
  {}

  lemma SelectStays(d: Db, n: Db, b: nat, chosen: set<nat>)
    requires b in d.bindings && n.bindings == d.bindings[b := d.bindings[b].(imports := Select(d.bindings[b].imports, chosen))]
    ensures SettledStay(d, n)
  {}

  lemma ReconcileStays(d: Db, b: nat)
    ensures SettledStay(d, ReconcileTx(d, b))
  {
    if Eligible(d, b) && Batch(d, b) != {} { SelectStays(d, ReconcileTx(d, b), b, Batch(d, b)); }
  }

  lemma ClaimStays(s: State)
    requires ClaimStep(s).Some?
    ensures SettledStay(s.db, ClaimStep(s).value.db)
  {}

  lemma MarkCreatingStays(s: State)
    requires MarkCreatingStep(s).Some?
    ensures SettledStay(s.db, MarkCreatingStep(s).value.db)
  {}

  lemma RunsStay(s: State, t: Step)
    requires ProcOk(s) && RunsTables(t) && Next(s, t).Some?
    ensures SettledStay(s.db, Next(s, t).value.db) && Next(s, t).value.remote == s.remote
  {
    match t
    case Recover => RecoverStays(s.db);
    case Claim => ClaimStays(s);
    case Reconcile(b) => ReconcileStays(s.db, b);
    case MarkCreating => MarkCreatingStays(s);
    case SaveAlbum => SaveAlbumStays(s);
  }

  lemma RowWriteStays(d: Db, b: nat, a: nat, r: Row)
    requires !Settled(r)
    ensures SettledStay(d, SetRow(d, b, a, r))
  {}

  lemma RowUnsettled(s: State, t: Step)
    requires Inv(s) && (t.Mark? || t.Save? || t.Fault?) && Next(s, t).Some?
    ensures SettledStay(s.db, Next(s, t).value.db) && Next(s, t).value.remote == s.remote
  {
    var a, b := t.asset, s.exec.binding;
    WorkerRow(s, a);
    RowWriteStays(s.db, b, a, Next(s, t).value.db.bindings[b].imports[a]);
  }

  /** Only a step that settles a row can settle one outside its album. */
  lemma StepAlbumed(s: State, t: Step)
    requires Inv(s) && Albumed(s.db, s.remote.added) && Next(s, t).Some? && !t.Account?
    ensures Albumed(Next(s, t).value.db, Next(s, t).value.remote.added)
  {
    var n := Next(s, t).value;
    if Outside(t) { OutsideStays(s, t); }
    else if t.Mark? || t.Save? || t.Fault? { RowUnsettled(s, t); }
    else if RunsTables(t) { RunsStay(s, t); }
    else if t.Finish? { FinishStays(s.db, s.exec.job, s.exec.binding, s.exec.phase.err); }
    else { TablesUntouched(s, t); }
    StayAlbumed(s.db, n.db, s.remote.added, n.remote.added);
  }

  /** The album of the row about to settle holds the worker's remote asset. */
  predicate InAlbum(s: State, a: nat)
    requires AccountStep(s, a).Some?
  {
    var album := s.db.bindings[s.exec.binding].album;
    album.Some? && (album.value, s.exec.phase.workers[a].id) in s.remote.added
  }

  /** The claimed binding is still there, or the binding that now has its id stores the album the job works with, or one
      that holds the worker's remote asset already. */
  predicate SettlesOwn(s: State, a: nat)
    requires AccountStep(s, a).Some?
  {
    var album := s.db.bindings[s.exec.binding].album;
    Intact(s) || album == Some(s.exec.phase.target) || (album.Some? && (album.value, s.exec.phase.workers[a].id) in s.remote.added)
  }

  /** While the claimed binding is there its album is the job's, and a worker about to settle has added its asset to that. */
  lemma OwnInAlbum(s: State, a: nat)
    requires Inv(s) && AccountStep(s, a).Some?
    ensures SettlesOwn(s, a) <==> InAlbum(s, a)
  {
    WorkerRow(s, a);
  }

  /** A worker's last write leaves every settled row in its album exactly if the guard is met. */
  lemma AccountAlbumed(s: State, a: nat)
    requires Inv(s) && Albumed(s.db, s.remote.added) && AccountStep(s, a).Some?
    ensures Albumed(AccountStep(s, a).value.db, s.remote.added) <==> SettlesOwn(s, a)
  {
    OwnInAlbum(s, a);
    AccountInAlbum(s, a);
  }

  lemma AccountInAlbum(s: State, a: nat)
    requires Inv(s) && Albumed(s.db, s.remote.added) && AccountStep(s, a).Some?
    ensures Albumed(AccountStep(s, a).value.db, s.remote.added) <==> InAlbum(s, a)
  {
    WorkerRow(s, a);
    var n, b := AccountStep(s, a).value, s.exec.binding;
    if InAlbum(s, a) {
      forall c, e | c in n.db.bindings && e in n.db.bindings[c].imports
        ensures RowAlbumed(n.db.bindings[c].album, n.db.bindings[c].imports[e], s.remote.added)
      {
        assert c != b || e != a ==> RowAlbumed(s.db.bindings[c].album, s.db.bindings[c].imports[e], s.remote.added);
      }
    } else {
      assert b in n.db.bindings && a in n.db.bindings[b].imports;
      assert !RowAlbumed(n.db.bindings[b].album, n.db.bindings[b].imports[a], s.remote.added);
    }
  }

  /** An upload is sent for the claimed binding itself. */
  lemma OwnUploads(s: State, t: Step)
    requires Inv(s) && OwnBinding(s) && Next(s, t).Some?
    requires forall c :: c in s.remote.sent ==> !c.foreign
    ensures forall c :: c in Next(s, t).value.remote.sent ==> !c.foreign
  {
    if t.Upload? { WorkerRow(s, t.asset); } else { SentOnlyUploads(s, t); }
  }

  lemma SentOnlyUploads(s: State, t: Step)
    requires !t.Upload? && Next(s, t).Some?
    ensures Next(s, t).value.remote.sent == s.remote.sent
  {}
}
