/** What holds after any run of the media service, with any interleaving, lost replies and crashes. */
module MediaTheorems {
  import opened Wrappers
  import opened Ordered
  import opened MediaModel
  import opened MediaSteps
  import opened MediaLedger
  import opened MediaInvariant
  import opened MediaSafety
  import opened MediaHistory

  ghost predicate Reaches(ts: seq<Step>, n: State) { Run(START, ts) == Some(n) }

  lemma ReachedInv(ts: seq<Step>, n: State)
    requires Reaches(ts, n)
    ensures Inv(n)
  {
    StartSafe();
    RunSafe(START, ts);
  }

  /** A ready local asset has a published file of exactly its recorded size; nothing on disk is orphaned. */
  lemma LocalFiles(ts: seq<Step>, n: State)
    requires Reaches(ts, n)
    ensures forall i :: i in n.db.assets && n.db.assets[i].backend.Local? && n.db.assets[i].status.Ready? ==>
              i in n.finals && n.finals[i] == n.db.assets[i].size > 0
    ensures forall i :: i in n.finals || i in n.parts ==> i in n.db.assets && n.db.assets[i].backend.Local?
  {
    ReachedInv(ts, n);
    forall i | i in n.db.assets && n.db.assets[i].backend.Local? && n.db.assets[i].status.Ready?
      ensures i in n.finals && n.finals[i] == n.db.assets[i].size > 0
    {
      assert IsLocal(n.db, i) && RowOk(n.db, n.drawn, i);
    }
  }

  /** Every stored object is accounted for; a ready asset whose key is not retired has an object of exactly its size. */
  lemma StoredObjects(ts: seq<Step>, n: State)
    requires Reaches(ts, n)
    ensures forall i :: i in n.objects ==> i in n.db.assets || i in n.db.retired
    ensures forall i :: i in n.db.assets && n.db.assets[i].backend.S3? && n.db.assets[i].status.Ready? && i !in n.db.retired ==>
              i in n.objects && n.objects[i].size == n.db.assets[i].size
  {
    ReachedInv(ts, n);
    forall i | i in n.objects ensures i in n.db.assets || i in n.db.retired { assert i in n.issued && Known(n.db, i); }
    forall i | i in n.db.assets && n.db.assets[i].backend.S3? && n.db.assets[i].status.Ready? && i !in n.db.retired
      ensures i in n.objects && n.objects[i].size == n.db.assets[i].size
    {
      assert HasObject(n.objects, i, n.db.assets[i].size);
    }
  }

  /** Later, retired keys are still retired, removed assets stay removed, and an asset ready at both times is unchanged: its
      row, its file, and, unless its key was retired, its object. Only deletion of its event takes an asset out of the
      ready state. */
  lemma OverTime(ts: seq<Step>, s: State, us: seq<Step>, n: State, i: nat)
    requires Reaches(ts, s) && Run(s, us) == Some(n)
    ensures s.db.retired <= n.db.retired
    ensures i in s.drawn && i !in s.db.assets ==> i !in n.db.assets
    ensures i in s.db.assets && i in n.db.assets && s.db.assets[i].status.Ready? && n.db.assets[i].status.Ready? ==>
              n.db.assets[i] == s.db.assets[i] && StoredSame(s, n, i)
    ensures i in s.db.assets && i in n.db.assets && s.db.assets[i].status.Ready? && n.db.assets[i].status.Pending? ==>
              Deleting(n.db, n.db.assets[i].event)
  {
    ReachedInv(ts, s);
    RunKeeps(s, us);
    assert i in s.db.assets ==> RowOk(s.db, s.drawn, i);
    assert i in s.drawn ==> AssetKept(s, n, i);
  }

  /** One row per client request id of a session. */
  lemma OneRowPerRequest(ts: seq<Step>, n: State, session: nat, request: nat)
    requires Reaches(ts, n)
    ensures |Requested(n.db.assets, session, request)| <= 1
  {
    ReachedInv(ts, n);
    var rows := Requested(n.db.assets, session, request);
    if rows != {} {
      var i := Min(rows);
      forall k | k in rows ensures k == i { assert SameRequest(n.db.assets[i], n.db.assets[k]); }
      assert rows == {i};
    }
  }

  // ---------------------------------------------------------------- quotas over runs

  /** Every live scope is within its limits. */
  ghost predicate Tight(db: Db) {
    forall c :: Live(db, c) ==> Fits(Count(db.assets, c), LimitsOf(db, c).count) && Fits(Used(db.assets, c), LimitsOf(db, c).bytes)
  }

  /** No step makes a live scope worse than it was, unless it stays within the current limits. */
  lemma StepGuarded(s: State, t: Step, c: Scope)
    requires Inv(s) && Next(s, t).Some?
    ensures Guarded(s.db, Next(s, t).value.db, c)
  {
    if Adds(t) { AddedGuarded(s, t, c); } else if Removes(t) { RemovedGuarded(s, t, c); }
    else if t.Authorize? || t.Unready? { RewrittenGuarded(s, t, c); }
    else if IsUpload(t) || IsEnding(t) || IsCompletion(t) { RequestAssets(s, t); } else { SameAssets(s, t); }
  }

  lemma AddedGuarded(s: State, t: Step, c: Scope)
    requires Inv(s) && Adds(t) && Next(s, t).Some?
    ensures Guarded(s.db, Next(s, t).value.db, c)
  {
    match t
    case Reserve(u, i, now) => ReserveGuarded(s, u, i, now, c);
    case Prepare(p, i, now) => UnissuedGuarded(s, p, i, now, c);
    case Finish(i, now, o) => FinishedGuarded(s, i, now, o, c);
    case Complete(i, ceiling) => CompletedGuarded(s, i, ceiling, c);
  }

  lemma RemovedGuarded(s: State, t: Step, c: Scope)
    requires Inv(s) && Removes(t) && Next(s, t).Some?
    ensures Guarded(s.db, Next(s, t).value.db, c)
  {
    match t
    case UndoRow(i) => RemoveGuarded(s.db, i, c);
    case RemoveRow(e) => RemoveGuarded(s.db, Target(s, e), c);
    case DeleteEvent(e) => EventGone(s.db, s.drawn, e);
  }

  lemma RewrittenGuarded(s: State, t: Step, c: Scope)
    requires Inv(s) && (t.Authorize? || t.Unready?) && Next(s, t).Some?
    ensures Guarded(s.db, Next(s, t).value.db, c)
  {
    match t
    case Authorize(e, link, u, i, until, now) => AuthorizedGuarded(s, e, link, u, i, until, now, c);
    case Unready(e, i) => TakenGuarded(s, e, i, c);
  }

  lemma AuthorizedGuarded(s: State, e: nat, link: nat, u: nat, i: nat, until: nat, now: nat, c: Scope)
    requires Inv(s) && AuthorizeStep(s, e, link, u, i, until, now).Some?
    ensures Guarded(s.db, AuthorizeStep(s, e, link, u, i, until, now).value.db, c)
  {
    AuthorizeGuarded(s.db, e, link, u, i, until, now, c);
  }

  lemma ReserveGuarded(s: State, u: UploadRequest, i: nat, now: nat, c: Scope)
    requires Inv(s) && ReserveStep(s, u, i, now).Some?
    ensures Guarded(s.db, ReserveStep(s, u, i, now).value.db, c)
  {
    Undrawn(s, i);
    UploadGuarded(s.db, u, i, now, c);
  }

  lemma UnissuedGuarded(s: State, p: Preparation, i: nat, now: nat, c: Scope)
    requires Inv(s) && PrepareStep(s, p, i, now).Some?
    ensures Guarded(s.db, PrepareStep(s, p, i, now).value.db, c)
  {
    Undrawn(s, i);
    PrepareGuarded(s.db, p, i, now, c);
  }

  lemma FinishedGuarded(s: State, i: nat, now: nat, o: Outcome, c: Scope)
    requires Inv(s) && MediaSteps.FinishStep(s, i, now, o).Some?
    ensures Guarded(s.db, MediaSteps.FinishStep(s, i, now, o).value.db, c)
  {
    assert OpOk(s, i, s.ops[i]);
    FinishGuarded(s.db, s.ops[i].event, s.ops[i].link, i, s.ops[i].size, now, c);
  }

  lemma CompletedGuarded(s: State, i: nat, ceiling: nat, c: Scope)
    requires Inv(s) && CompleteStep(s, i, ceiling).Some?
    ensures Guarded(s.db, CompleteStep(s, i, ceiling).value.db, c)
  {
    assert OpOk(s, i, s.ops[i]);
    var o := s.ops[i];
    if CompleteTx(s.db, o.row, o.link, i, o.stored.size, o.stored.media.value, ceiling).Ok? {
      CompleteGuarded(s.db, o.link, i, o.stored.media.value, ceiling, c);
    }
  }

  lemma TakenGuarded(s: State, e: nat, i: nat, c: Scope)
    requires Inv(s) && UnreadyStep(s, e, i).Some?
    ensures Guarded(s.db, UnreadyStep(s, e, i).value.db, c)
  {
    assert HolderOk(s, e, s.locks[e]);
    UnreadyGuarded(s.db, i, c);
  }

  predicate Adds(t: Step) { t.Reserve? || t.Prepare? || t.Finish? || t.Complete? }

  predicate Removes(t: Step) { t.UndoRow? || t.RemoveRow? || t.DeleteEvent? }

  lemma SameAssets(s: State, t: Step)
    requires (IsPublic(t) || IsExclusive(t) || IsDeletion(t)) && !Adds(t) && !Removes(t) && !t.Authorize? && !t.Unready? && Next(s, t).Some?
    ensures Next(s, t).value.db.assets == s.db.assets
  {}

  lemma RequestAssets(s: State, t: Step)
    requires (IsUpload(t) || IsEnding(t) || IsCompletion(t)) && !Adds(t) && !Removes(t) && Next(s, t).Some?
    ensures Next(s, t).value.db.assets == s.db.assets
  {}

  /** A scope keeps its limits; a new scope is empty. */
  ghost predicate Stays(d: Db, n: Db, c: Scope) {
    Live(n, c) ==> if Live(d, c) then LimitsOf(n, c) == LimitsOf(d, c) else Members(n.assets, c) == {}
  }

  lemma Unchanged(d: Db, n: Db, c: Scope)
    requires n.events == d.events && n.sessions == d.sessions
    ensures Stays(d, n, c)
  {}

  lemma AddEventStays(s: State, x: Event, c: Scope)
    requires Inv(s) && AddEventStep(s, x).Some?
    ensures Stays(s.db, AddEventStep(s, x).value.db, c)
  {}

  lemma OpenSessionStays(s: State, i: nat, x: Session, link: nat, now: nat, c: Scope)
    requires Inv(s) && OpenSessionStep(s, i, x, link, now).Some?
    ensures Stays(s.db, OpenSessionStep(s, i, x, link, now).value.db, c)
  {}

  lemma ReclaimStays(s: State, i: nat, now: nat, c: Scope)
    requires Inv(s) && ReclaimStep(s, i, now).Some?
    ensures Stays(s.db, ReclaimStep(s, i, now).value.db, c)
  {}

  lemma LockStays(s: State, e: nat, deleting: bool, c: Scope)
    requires Inv(s) && LockStep(s, e, deleting).Some?
    ensures Stays(s.db, LockStep(s, e, deleting).value.db, c)
  {}

  lemma DeleteEventStays(s: State, e: nat, c: Scope)
    requires Inv(s) && DeleteEventStep(s, e).Some?
    ensures Stays(s.db, DeleteEventStep(s, e).value.db, c)
  {}

  predicate ChangesScopes(t: Step) { t.AddEvent? || t.EditEvent? || t.OpenSession? || t.Reclaim? || t.Lock? || t.DeleteEvent? }

  lemma SameScopes(s: State, t: Step)
    requires !ChangesScopes(t) && !IsUpload(t) && !IsEnding(t) && !IsExclusive(t) && Next(s, t).Some?
    ensures Next(s, t).value.db.events == s.db.events && Next(s, t).value.db.sessions == s.db.sessions
  {}

  lemma ExclusiveScopes(s: State, t: Step)
    requires IsExclusive(t) && !t.Lock? && Next(s, t).Some?
    ensures Next(s, t).value.db.events == s.db.events && Next(s, t).value.db.sessions == s.db.sessions
  {}

  lemma EndingScopes(s: State, t: Step)
    requires IsEnding(t) && Next(s, t).Some?
    ensures Next(s, t).value.db.events == s.db.events && Next(s, t).value.db.sessions == s.db.sessions
  {}

  lemma UploadScopes(s: State, t: Step)
    requires IsUpload(t) && Next(s, t).Some?
    ensures Next(s, t).value.db.events == s.db.events && Next(s, t).value.db.sessions == s.db.sessions
  {}

  lemma ScopesStay(s: State, t: Step, c: Scope)
    requires Inv(s) && ChangesScopes(t) && Next(s, t).Some? && !t.EditEvent?
    ensures Stays(s.db, Next(s, t).value.db, c)
  {
    match t
    case AddEvent(x) => AddEventStays(s, x, c);
    case OpenSession(i, x, link, now) => OpenSessionStays(s, i, x, link, now, c);
    case Reclaim(i, now) => ReclaimStays(s, i, now, c);
    case Lock(e, deleting) => LockStays(s, e, deleting, c);
    case DeleteEvent(e) => DeleteEventStays(s, e, c);
  }

  /** Unless an organizer edits an event. */
  lemma LimitsStay(s: State, t: Step, c: Scope)
    requires Inv(s) && Next(s, t).Some? && !t.EditEvent?
    ensures Stays(s.db, Next(s, t).value.db, c)
  {
    if ChangesScopes(t) { ScopesStay(s, t, c); } else if IsUpload(t) { UploadScopes(s, t); Unchanged(s.db, Next(s, t).value.db, c); }
    else if IsExclusive(t) { ExclusiveScopes(s, t); Unchanged(s.db, Next(s, t).value.db, c); }
    else if IsEnding(t) { EndingScopes(s, t); Unchanged(s.db, Next(s, t).value.db, c); }
    else { SameScopes(s, t); Unchanged(s.db, Next(s, t).value.db, c); }
  }

  lemma TightKept(d: Db, n: Db)
    requires Tight(d) && forall c :: Guarded(d, n, c) && Stays(d, n, c)
    ensures Tight(n)
  {
    forall c | Live(n, c) ensures Fits(Count(n.assets, c), LimitsOf(n, c).count) && Fits(Used(n.assets, c), LimitsOf(n, c).bytes) {
      assert Guarded(d, n, c) && Stays(d, n, c);
    }
  }

  lemma StepTight(s: State, t: Step)
    requires Inv(s) && Tight(s.db) && Next(s, t).Some? && !t.EditEvent?
    ensures Tight(Next(s, t).value.db)
  {
    var n := Next(s, t).value.db;
    forall c ensures Guarded(s.db, n, c) && Stays(s.db, n, c) {
      StepGuarded(s, t, c);
      LimitsStay(s, t, c);
    }
    TightKept(s.db, n);
  }

  predicate ScopeFits(assets: map<nat, Asset>, c: Scope, limits: Limits) { Fits(Count(assets, c), limits.count) && Fits(Used(assets, c), limits.bytes) }

  /** The limits of `x` leave room for what event `e` already holds. */
  predicate LeavesRoom(assets: map<nat, Asset>, e: nat, x: Event) {
    ScopeFits(assets, OfEvent(e), x.total) && ScopeFits(assets, OfClass(e, Photo), x.photo) && ScopeFits(assets, OfClass(e, Video), x.video)
  }

  /** The step sets no limit below what its event already holds. */
  predicate EditFits(s: State, t: Step) { t.EditEvent? && EditEventStep(s, t.e, t.event).Some? ==> LeavesRoom(s.db.assets, t.e, t.event) }

  lemma EditTight(s: State, e: nat, x: Event)
    requires Tight(s.db) && EditEventStep(s, e, x).Some?
    ensures Tight(EditEventStep(s, e, x).value.db) <==> LeavesRoom(s.db.assets, e, x)
  {
    var n := EditEventStep(s, e, x).value.db;
    if Tight(n) { assert Live(n, OfEvent(e)) && Live(n, OfClass(e, Photo)) && Live(n, OfClass(e, Video)); }
    if LeavesRoom(s.db.assets, e, x) {
      forall c | Live(n, c) ensures Fits(Count(n.assets, c), LimitsOf(n, c).count) && Fits(Used(n.assets, c), LimitsOf(n, c).bytes) {
        EditedScope(s, e, x, c);
      }
    }
  }

  lemma EditedScope(s: State, e: nat, x: Event, c: Scope)
    requires Tight(s.db) && EditEventStep(s, e, x).Some? && LeavesRoom(s.db.assets, e, x) && Live(EditEventStep(s, e, x).value.db, c)
    ensures ScopeFits(s.db.assets, c, LimitsOf(EditEventStep(s, e, x).value.db, c))
  {
    var n := EditEventStep(s, e, x).value.db;
    match c
    case OfEvent(k) => if k != e { assert Live(s.db, c); }
    case OfClass(k, media) => if k != e { assert Live(s.db, c); } else { assert media.Photo? || media.Video?; }
    case OfSession(u) => assert Live(s.db, c);
  }

  ghost predicate AllTight(s: State, ts: seq<Step>)
    decreases |ts|
  {
    Tight(s.db) && (ts != [] && Next(s, ts[0]).Some? ==> AllTight(Next(s, ts[0]).value, ts[1..]))
  }

  predicate EditsFit(s: State, ts: seq<Step>)
    decreases |ts|
  {
    ts == [] || (EditFits(s, ts[0]) && (Next(s, ts[0]).Some? ==> EditsFit(Next(s, ts[0]).value, ts[1..])))
  }

  lemma {:induction false} RunTight(s: State, ts: seq<Step>)
    requires Inv(s) && Tight(s.db) && Run(s, ts).Some?
    ensures AllTight(s, ts) <==> EditsFit(s, ts)
    ensures EditsFit(s, ts) ==> Tight(Run(s, ts).value.db)
    decreases |ts|
  {
    if ts != [] {
      var n := Next(s, ts[0]).value;
      StepSafe(s, ts[0]);
      if ts[0].EditEvent? { EditTight(s, ts[0].e, ts[0].event); } else { StepTight(s, ts[0]); }
      if Tight(n.db) { RunTight(n, ts[1..]); }
    }
  }

  /** No event, session or media class of a live event exceeds its file or storage limit at any moment of a run, exactly if no
      edit sets a limit below what the event already holds. */
  lemma QuotasHold(ts: seq<Step>, n: State)
    requires Reaches(ts, n)
    ensures AllTight(START, ts) <==> EditsFit(START, ts)
    ensures EditsFit(START, ts) ==> Tight(n.db)
  {
    StartSafe();
    RunTight(START, ts);
  }
}
