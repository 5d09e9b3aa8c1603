/** What no step of the media service undoes. */
module MediaHistory {
  import opened Wrappers
  import opened MediaModel
  import opened MediaSteps
  import opened MediaInvariant
  import opened MediaSafety

  predicate Deleting(db: Db, e: nat) { e in db.events && db.events[e].deleting }

  /** What is stored for a ready asset. A retired key promises nothing. */
  ghost predicate StoredSame(s: State, n: State, i: nat)
    requires i in s.db.assets
  {
    if s.db.assets[i].backend.Local? then i in s.finals && i in n.finals && n.finals[i] == s.finals[i]
    else i !in n.db.retired ==> i in s.objects && i in n.objects && n.objects[i] == s.objects[i]
  }

  /** A row never comes back, keeps its keys and its media class, leaves the ready state only when its event is being
      deleted, and then for good; while it is ready, neither the row nor what is stored for it changes. */
  ghost predicate AssetKept(s: State, n: State, i: nat) {
    i in n.db.assets ==>
      && i in s.db.assets
      && var x, y := s.db.assets[i], n.db.assets[i];
      && SameKeys(x, y)
      && (x.media.Some? ==> y.media == x.media)
      && (x.status.Pending? && Deleting(s.db, x.event) ==> y.status.Pending? && Deleting(n.db, x.event))
      && (x.status.Ready? && y.status.Pending? ==> Deleting(n.db, x.event))
      && (x.status.Ready? && y.status.Ready? ==> x == y && StoredSame(s, n, i))
  }

  ghost predicate Keeps(s: State, n: State) {
    s.db.retired <= n.db.retired && s.drawn <= n.drawn && forall i :: i in s.drawn ==> AssetKept(s, n, i)
  }

  /** The tables, the final files and the objects are the same. */
  lemma NothingStored(s: State, n: State)
    requires Inv(s) && SameStored(s, n)
    ensures Keeps(s, n)
  {}

  /** A pending row becomes ready; its event is not being deleted. */
  lemma RowReadied(s: State, n: State, i: nat, x: Asset)
    requires Inv(s) && i in s.db.assets && SameKeys(s.db.assets[i], x) && s.db.assets[i].status.Pending? && !Deleting(s.db, x.event)
    requires x.status.Ready? && (s.db.assets[i].media.Some? ==> x.media == s.db.assets[i].media)
    requires n == s.(db := s.db.(assets := s.db.assets[i := x]), ops := n.ops)
    ensures Keeps(s, n)
  {}

  lemma AddEventKept(s: State, x: Event)
    requires Inv(s) && AddEventStep(s, x).Some?
    ensures Keeps(s, AddEventStep(s, x).value)
  {}

  lemma EditEventKept(s: State, e: nat, x: Event)
    requires Inv(s) && EditEventStep(s, e, x).Some?
    ensures Keeps(s, EditEventStep(s, e, x).value)
  {}

  lemma OpenSessionKept(s: State, i: nat, x: Session, link: nat, now: nat)
    requires Inv(s) && OpenSessionStep(s, i, x, link, now).Some?
    ensures Keeps(s, OpenSessionStep(s, i, x, link, now).value)
  {}

  lemma ReclaimKept(s: State, i: nat, now: nat)
    requires Inv(s) && ReclaimStep(s, i, now).Some?
    ensures Keeps(s, ReclaimStep(s, i, now).value)
  {}

  lemma ReserveKept(s: State, u: UploadRequest, i: nat, now: nat)
    requires Inv(s) && ReserveStep(s, u, i, now).Some?
    ensures Keeps(s, ReserveStep(s, u, i, now).value)
  {}

  lemma PublishKept(s: State, i: nat)
    requires Inv(s) && PublishStep(s, i).Some?
    ensures Keeps(s, PublishStep(s, i).value)
  {}

  lemma FinishKept(s: State, i: nat, now: nat, o: Outcome)
    requires Inv(s) && FinishStep(s, i, now, o).Some?
    ensures Keeps(s, FinishStep(s, i, now, o).value)
  {
    var n := FinishStep(s, i, now, o).value;
    assert OpOk(s, i, s.ops[i]);
    if o.Refused? { NothingStored(s, n); } else { RowReadied(s, n, i, s.db.assets[i].(status := Ready, size := s.ops[i].size)); }
  }

  lemma UndoFinalKept(s: State, i: nat)
    requires Inv(s) && UndoFinalStep(s, i).Some?
    ensures Keeps(s, UndoFinalStep(s, i).value)
  {}

  lemma UndoRowKept(s: State, i: nat)
    requires Inv(s) && UndoRowStep(s, i).Some?
    ensures Keeps(s, UndoRowStep(s, i).value)
  {}

  lemma PrepareKept(s: State, p: Preparation, i: nat, now: nat)
    requires Inv(s) && PrepareStep(s, p, i, now).Some?
    ensures Keeps(s, PrepareStep(s, p, i, now).value)
  {}

  lemma AuthorizeKept(s: State, e: nat, link: nat, u: nat, i: nat, until: nat, now: nat)
    requires Inv(s) && AuthorizeStep(s, e, link, u, i, until, now).Some?
    ensures Keeps(s, AuthorizeStep(s, e, link, u, i, until, now).value)
  {}

  lemma PutKept(s: State, i: nat, o: Object)
    requires Inv(s) && PutStep(s, i, o).Some?
    ensures Keeps(s, PutStep(s, i, o).value)
  {}

  lemma RejectKept(s: State, i: nat, o: Outcome)
    requires Inv(s) && RejectStep(s, i, o).Some?
    ensures Keeps(s, RejectStep(s, i, o).value)
  {
    assert OpOk(s, i, s.ops[i]);
    ObjectGoneKept(s, RejectStep(s, i, o).value, i);
  }

  /** The object of a row that is not ready, or of a retired key, may go. */
  lemma ObjectGoneKept(s: State, n: State, i: nat)
    requires Inv(s) && n == s.(objects := n.objects, ops := n.ops, locks := n.locks) && (n.objects == s.objects || n.objects == s.objects - {i})
    requires i in s.db.retired || (i in s.db.assets && s.db.assets[i].status.Pending?)
    ensures Keeps(s, n)
  {}

  lemma CompleteKept(s: State, i: nat, ceiling: nat)
    requires Inv(s) && CompleteStep(s, i, ceiling).Some?
    ensures Keeps(s, CompleteStep(s, i, ceiling).value)
  {
    var n := CompleteStep(s, i, ceiling).value;
    assert OpOk(s, i, s.ops[i]);
    var o := s.ops[i];
    if CompleteTx(s.db, o.row, o.link, i, o.stored.size, o.stored.media.value, ceiling).Err? { NothingStored(s, n); }
    else { RowReadied(s, n, i, n.db.assets[i]); }
  }

  lemma LockKept(s: State, e: nat, deleting: bool)
    requires Inv(s) && LockStep(s, e, deleting).Some?
    ensures Keeps(s, LockStep(s, e, deleting).value)
  {}

  lemma UnreadyKept(s: State, e: nat, i: nat)
    requires Inv(s) && UnreadyStep(s, e, i).Some?
    ensures Keeps(s, UnreadyStep(s, e, i).value)
  {}

  lemma RemoveFinalKept(s: State, e: nat)
    requires Inv(s) && RemoveFinalStep(s, e).Some?
    ensures Keeps(s, RemoveFinalStep(s, e).value)
  {}

  lemma RetireKept(s: State, e: nat)
    requires Inv(s) && RetireStep(s, e).Some?
    ensures Keeps(s, RetireStep(s, e).value)
  {}

  lemma DeleteObjectKept(s: State, e: nat, o: Outcome)
    requires Inv(s) && DeleteObjectStep(s, e, o).Some?
    ensures Keeps(s, DeleteObjectStep(s, e, o).value)
  {
    assert HolderOk(s, e, s.locks[e]);
    ObjectGoneKept(s, DeleteObjectStep(s, e, o).value, Target(s, e));
  }

  lemma RemoveRowKept(s: State, e: nat)
    requires Inv(s) && RemoveRowStep(s, e).Some?
    ensures Keeps(s, RemoveRowStep(s, e).value)
  {}

  lemma DeleteEventKept(s: State, e: nat)
    requires Inv(s) && DeleteEventStep(s, e).Some?
    ensures Keeps(s, DeleteEventStep(s, e).value)
  {}

  lemma RetiredDeleteKept(s: State, i: nat, o: Outcome)
    requires Inv(s) && RetiredDeleteStep(s, i, o).Some?
    ensures Keeps(s, RetiredDeleteStep(s, i, o).value)
  {}

  /** Steps that touch no table, final file or object. */
  predicate Idle(t: Step) { IdleRequest(t) || IdleHolder(t) }

  predicate IdleRequest(t: Step) {
    t.OpenPart? || t.Write? || t.Seal? || t.Fail? || t.Undo? || t.UndoPart? || t.Quit? || t.Load? || t.Head? || t.Judge?
  }

  predicate IdleHolder(t: Step) { t.Choose? || t.RemovePart? || t.Abandon? || t.Unlock? || t.Crash? }

  ghost predicate SameStored(s: State, n: State) { n.db == s.db && n.drawn == s.drawn && n.finals == s.finals && n.objects == s.objects }

  lemma RequestIdles(s: State, t: Step)
    requires IdleRequest(t) && Next(s, t).Some?
    ensures SameStored(s, Next(s, t).value)
  {
    if t.OpenPart? || t.Write? || t.Seal? || t.Fail? { UploadIdles(s, t); }
    else if t.Load? || t.Head? || t.Judge? { CompletionIdles(s, t); }
    else { EndIdles(s, t); }
  }

  lemma UploadIdles(s: State, t: Step)
    requires (t.OpenPart? || t.Write? || t.Seal? || t.Fail?) && Next(s, t).Some?
    ensures SameStored(s, Next(s, t).value)
  {}

  lemma EndIdles(s: State, t: Step)
    requires (t.Undo? || t.UndoPart? || t.Quit?) && Next(s, t).Some?
    ensures SameStored(s, Next(s, t).value)
  {}

  lemma CompletionIdles(s: State, t: Step)
    requires (t.Load? || t.Head? || t.Judge?) && Next(s, t).Some?
    ensures SameStored(s, Next(s, t).value)
  {}

  lemma HolderIdles(s: State, t: Step)
    requires IdleHolder(t) && Next(s, t).Some?
    ensures SameStored(s, Next(s, t).value)
  {}

  predicate IsPublic(t: Step) { t.AddEvent? || t.EditEvent? || t.OpenSession? || t.Reclaim? || t.Prepare? || t.Authorize? || t.Put? || t.RetiredDelete? || t.Crash? }

  predicate IsUpload(t: Step) { t.Reserve? || t.OpenPart? || t.Write? || t.Seal? || t.Publish? || t.Finish? || t.Fail? }

  predicate IsEnding(t: Step) { t.Undo? || t.UndoPart? || t.UndoFinal? || t.UndoRow? || t.Quit? }

  predicate IsCompletion(t: Step) { t.Load? || t.Head? || t.Judge? || t.Reject? || t.Complete? }

  predicate IsExclusive(t: Step) { t.Lock? || t.Unready? || t.Choose? || t.RemovePart? || t.RemoveFinal? || t.Retire? }

  predicate IsDeletion(t: Step) { t.DeleteObject? || t.RemoveRow? || t.Abandon? || t.Unlock? || t.DeleteEvent? }

  lemma PublicSafe(s: State, t: Step)
    requires Inv(s) && IsPublic(t) && Next(s, t).Some?
    ensures Inv(Next(s, t).value)
  {
    match t
    case AddEvent(x) => AddEventSafe(s, x);
    case EditEvent(e, x) => EditEventSafe(s, e, x);
    case OpenSession(i, x, link, now) => OpenSessionSafe(s, i, x, link, now);
    case Reclaim(i, now) => ReclaimSafe(s, i, now);
    case Prepare(p, i, now) => PrepareSafe(s, p, i, now);
    case Authorize(e, link, u, i, until, now) => AuthorizeSafe(s, e, link, u, i, until, now);
    case Put(i, o) => PutSafe(s, i, o);
    case RetiredDelete(i, o) => RetiredDeleteSafe(s, i, o);
    case Crash => CrashSafe(s);
  }

  lemma PublicKeeps(s: State, t: Step)
    requires Inv(s) && IsPublic(t) && !Idle(t) && Next(s, t).Some?
    ensures Keeps(s, Next(s, t).value)
  {
    match t
    case AddEvent(x) => AddEventKept(s, x);
    case EditEvent(e, x) => EditEventKept(s, e, x);
    case OpenSession(i, x, link, now) => OpenSessionKept(s, i, x, link, now);
    case Reclaim(i, now) => ReclaimKept(s, i, now);
    case Prepare(p, i, now) => PrepareKept(s, p, i, now);
    case Authorize(e, link, u, i, until, now) => AuthorizeKept(s, e, link, u, i, until, now);
    case Put(i, o) => PutKept(s, i, o);
    case RetiredDelete(i, o) => RetiredDeleteKept(s, i, o);
  }

  lemma UploadSafe(s: State, t: Step)
    requires Inv(s) && IsUpload(t) && Next(s, t).Some?
    ensures Inv(Next(s, t).value)
  {
    match t
    case Reserve(u, i, now) => ReserveSafe(s, u, i, now);
    case OpenPart(i) => OpenPartSafe(s, i);
    case Write(i, size) => WriteSafe(s, i, size);
    case Seal(i) => SealSafe(s, i);
    case Publish(i) => PublishSafe(s, i);
    case Finish(i, now, o) => FinishSafe(s, i, now, o);
    case Fail(i) => FailSafe(s, i);
  }

  lemma UploadKeeps(s: State, t: Step)
    requires Inv(s) && IsUpload(t) && !Idle(t) && Next(s, t).Some?
    ensures Keeps(s, Next(s, t).value)
  {
    match t
    case Reserve(u, i, now) => ReserveKept(s, u, i, now);
    case Publish(i) => PublishKept(s, i);
    case Finish(i, now, o) => FinishKept(s, i, now, o);
  }

  lemma EndingSafe(s: State, t: Step)
    requires Inv(s) && IsEnding(t) && Next(s, t).Some?
    ensures Inv(Next(s, t).value)
  {
    match t
    case Undo(i) => UndoSafe(s, i);
    case UndoPart(i) => UndoPartSafe(s, i);
    case UndoFinal(i) => UndoFinalSafe(s, i);
    case UndoRow(i) => UndoRowSafe(s, i);
    case Quit(i) => QuitSafe(s, i);
  }

  lemma EndingKeeps(s: State, t: Step)
    requires Inv(s) && IsEnding(t) && !Idle(t) && Next(s, t).Some?
    ensures Keeps(s, Next(s, t).value)
  {
    match t
    case UndoFinal(i) => UndoFinalKept(s, i);
    case UndoRow(i) => UndoRowKept(s, i);
  }

  lemma CompletionSafe(s: State, t: Step)
    requires Inv(s) && IsCompletion(t) && Next(s, t).Some?
    ensures Inv(Next(s, t).value)
  {
    match t
    case Load(e, link, u, i) => LoadSafe(s, e, link, u, i);
    case Head(i) => HeadSafe(s, i);
    case Judge(i) => JudgeSafe(s, i);
    case Reject(i, o) => RejectSafe(s, i, o);
    case Complete(i, ceiling) => CompleteSafe(s, i, ceiling);
  }

  lemma CompletionKeeps(s: State, t: Step)
    requires Inv(s) && IsCompletion(t) && !Idle(t) && Next(s, t).Some?
    ensures Keeps(s, Next(s, t).value)
  {
    match t
    case Reject(i, o) => RejectKept(s, i, o);
    case Complete(i, ceiling) => CompleteKept(s, i, ceiling);
  }

  lemma ExclusiveSafe(s: State, t: Step)
    requires Inv(s) && IsExclusive(t) && Next(s, t).Some?
    ensures Inv(Next(s, t).value)
  {
    match t
    case Lock(e, deleting) => LockSafe(s, e, deleting);
    case Unready(e, i) => UnreadySafe(s, e, i);
    case Choose(e, i, now) => ChooseSafe(s, e, i, now);
    case RemovePart(e) => RemovePartSafe(s, e);
    case RemoveFinal(e) => RemoveFinalSafe(s, e);
    case Retire(e) => RetireSafe(s, e);
  }

  lemma ExclusiveKeeps(s: State, t: Step)
    requires Inv(s) && IsExclusive(t) && !Idle(t) && Next(s, t).Some?
    ensures Keeps(s, Next(s, t).value)
  {
    match t
    case Lock(e, deleting) => LockKept(s, e, deleting);
    case Unready(e, i) => UnreadyKept(s, e, i);
    case RemoveFinal(e) => RemoveFinalKept(s, e);
    case Retire(e) => RetireKept(s, e);
  }

  lemma DeletionSafe(s: State, t: Step)
    requires Inv(s) && IsDeletion(t) && Next(s, t).Some?
    ensures Inv(Next(s, t).value)
  {
    match t
    case DeleteObject(e, o) => DeleteObjectSafe(s, e, o);
    case RemoveRow(e) => RemoveRowSafe(s, e);
    case Abandon(e) => AbandonSafe(s, e);
    case Unlock(e) => UnlockSafe(s, e);
    case DeleteEvent(e) => DeleteEventSafe(s, e);
  }

  lemma DeletionKeeps(s: State, t: Step)
    requires Inv(s) && IsDeletion(t) && !Idle(t) && Next(s, t).Some?
    ensures Keeps(s, Next(s, t).value)
  {
    match t
    case DeleteObject(e, o) => DeleteObjectKept(s, e, o);
    case RemoveRow(e) => RemoveRowKept(s, e);
    case DeleteEvent(e) => DeleteEventKept(s, e);
  }

  lemma StepSafe(s: State, t: Step)
    requires Inv(s) && Next(s, t).Some?
    ensures Inv(Next(s, t).value)
  {
    if IsPublic(t) { PublicSafe(s, t); }
    else if IsUpload(t) { UploadSafe(s, t); }
    else if IsEnding(t) { EndingSafe(s, t); }
    else if IsCompletion(t) { CompletionSafe(s, t); }
    else if IsExclusive(t) { ExclusiveSafe(s, t); }
    else { DeletionSafe(s, t); }
  }

  lemma StepKeeps(s: State, t: Step)
    requires Inv(s) && Next(s, t).Some?
    ensures Keeps(s, Next(s, t).value)
  {
    if IdleRequest(t) { RequestIdles(s, t); NothingStored(s, Next(s, t).value); }
    else if IdleHolder(t) { HolderIdles(s, t); NothingStored(s, Next(s, t).value); }
    else if IsPublic(t) { PublicKeeps(s, t); }
    else if IsUpload(t) { UploadKeeps(s, t); }
    else if IsEnding(t) { EndingKeeps(s, t); }
    else if IsCompletion(t) { CompletionKeeps(s, t); }
    else if IsExclusive(t) { ExclusiveKeeps(s, t); }
    else { DeletionKeeps(s, t); }
  }

  lemma KeepsTransitive(s: State, n: State, u: State)
    requires Inv(s) && Inv(n) && Keeps(s, n) && Keeps(n, u)
    ensures Keeps(s, u)
  {
    forall i | i in s.drawn ensures AssetKept(s, u, i) { assert AssetKept(s, n, i) && AssetKept(n, u, i); }
  }

  lemma {:induction false} RunSafe(s: State, ts: seq<Step>)
    requires Inv(s) && Run(s, ts).Some?
    ensures Inv(Run(s, ts).value)
    decreases |ts|
  {
    if ts != [] {
      StepSafe(s, ts[0]);
      RunSafe(Next(s, ts[0]).value, ts[1..]);
    }
  }

  lemma {:induction false} RunKeeps(s: State, ts: seq<Step>)
    requires Inv(s) && Run(s, ts).Some?
    ensures Keeps(s, Run(s, ts).value)
    decreases |ts|
  {
    if ts == [] {
      NothingStored(s, s);
    } else {
      StepSafe(s, ts[0]);
      StepKeeps(s, ts[0]);
      RunKeeps(Next(s, ts[0]).value, ts[1..]);
      KeepsTransitive(s, Next(s, ts[0]).value, Run(s, ts).value);
    }
  }

  lemma StartSafe()
    ensures Inv(START)
  {}
}
