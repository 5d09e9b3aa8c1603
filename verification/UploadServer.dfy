/** The handler of a local upload, executing the machine's own steps one at a time while anything else goes on. */
module UploadServer {
  import opened Wrappers
  import opened Ordered
  import opened MediaModel
  import opened MediaSteps
  import opened MediaInvariant
  import opened MediaAnswers
  import opened MediaHistory
  import opened DirectWatch
  import opened DirectServer

  /** The request on `i` is at `v`'s state, which is a run on from `begin`. */
  ghost predicate At(v: Server, begin: State, i: nat)
    reads v
  {
    Tracked(begin, v.s) && i in v.s.ops
  }

  /** One own step of the request. */
  method Take(v: Server, ghost begin: State, t: Step, n: State)
    requires Tracked(begin, v.s) && Next(v.s, t) == Some(n)
    modifies v`s
    ensures Tracked(begin, v.s) && v.s == n
  {
    TrackedStep(v.s, t);
    TrackedOn(begin, v.s, n);
    v.s := n;
  }

  /** The row is ready, with a whole file of its size. */
  ghost predicate StoredAt(s: State, u: UploadRequest, i: nat) {
    && i in s.db.assets && s.db.assets[i].event == u.event && s.db.assets[i].session == u.session && s.db.assets[i].status.Ready?
    && HasFile(s.finals, i, s.db.assets[i].size) && s.db.assets[i].size > 0
    && (u.claimed.Some? ==> s.db.assets[i].size == u.claimed.value)
  }

  /** The pending row of the request. */
  ghost predicate Pends(s: State, u: UploadRequest, i: nat) {
    i in s.db.assets && s.db.assets[i].event == u.event && s.db.assets[i].session == u.session
  }

  lemma RowStays(made: State, s: State, u: UploadRequest, i: nat)
    requires Tracked(made, s) && i in made.drawn && Pends(made, u, i) && i in s.db.assets
    ensures Pends(s, u, i)
  {
    TrackedKeeps(made, s);
    assert AssetKept(made, s, i);
  }

  lemma OpRow(s: State, i: nat)
    requires Reachable(s) && i in s.ops
    ensures OpOk(s, i, s.ops[i]) && i in s.db.assets && i in s.drawn
  {
    ReachableInv(s);
    OpDrawn(s, i);
    assert OpOk(s, i, s.ops[i]);
  }

  // ---------------------------------------------------------------- why an upload fails

  /** What an upload failed on: trouble with connection, process or storage; a stream of that length; or at that time the event was
      closed, or the reservation refused. */
  datatype Cause = Trouble | Unfit(length: nat) | Closed(now: nat) | Denied(now: nat)

  ghost predicate Heard(cs: seq<Chance>, length: nat) { exists c :: c in cs && c.stored.size == length }

  ghost predicate Timed(cs: seq<Chance>, now: nat) { exists c :: c in cs && c.now == now }

  /** The length of the stream is the one reserved and claimed. */
  predicate Fitting(x: Asset, u: UploadRequest, length: nat) {
    0 < length <= x.expected && match u.claimed case Some(n) => length == n case None => true
  }

  /** The cause is a true one: the stream had that length and does not fit the row, or at some moment of the request, read off the clock
      then, the event was not open, or the upload not to be granted. */
  ghost predicate Because(cs: seq<Chance>, b: State, n: State, s: State, u: UploadRequest, i: nat, smooth: bool, cause: Cause) {
    match cause
    case Trouble => !smooth
    case Unfit(x) => Heard(cs, x) && Between(b, n, s) && i in n.db.assets && !Fitting(n.db.assets[i], u, x)
    case Closed(t) => Timed(cs, t) && Between(b, n, s) && !OpenAt(n.db, u.event, u.link, t)
    case Denied(t) => Timed(cs, t) && Between(b, n, s) && !MayUpload(n.db, u, t)
  }

  /** A later request hears and reads no more than is left. */
  ghost predicate Within(cs: seq<Chance>, ds: seq<Chance>) { forall c :: c in cs ==> c in ds }

  lemma BecauseEarlier(cs: seq<Chance>, ds: seq<Chance>, b: State, m: State, n: State, s: State, u: UploadRequest, i: nat, smooth: bool, cause: Cause)
    requires Within(cs, ds) && Tracked(b, m) && Tracked(m, s) && Because(cs, m, n, s, u, i, smooth, cause)
    ensures Because(ds, b, n, s, u, i, smooth, cause)
  {
    if !cause.Trouble? { TrackedOn(b, m, n); }
  }

  /** How an upload goes on: it is stored at moment `n`, or fails for a cause. */
  ghost predicate Goes(cs: seq<Chance>, b: State, n: State, s: State, u: UploadRequest, i: nat, smooth: bool, ok: bool, cause: Cause) {
    Tracked(b, s) && if ok then Between(b, n, s) && StoredAt(n, u, i) else Because(cs, b, n, s, u, i, smooth, cause)
  }

  lemma GoesEarlier(cs: seq<Chance>, ds: seq<Chance>, b: State, m: State, n: State, s: State, u: UploadRequest, i: nat, smooth: bool, ok: bool, cause: Cause)
    requires Within(cs, ds) && Tracked(b, m) && Goes(cs, m, n, s, u, i, smooth, ok, cause)
    ensures Goes(ds, b, n, s, u, i, smooth, ok, cause)
  {
    TrackedOn(b, m, s);
    if ok { TrackedOn(b, m, n); } else { BecauseEarlier(cs, ds, b, m, n, s, u, i, smooth, cause); }
  }

  // ---------------------------------------------------------------- the upload

  /** Upload: a positive answer means that the row was ready with its whole file at some moment of the request. It fails only for a
      cause: so it succeeds if the connection, the process and the storage hold, the upload is to be granted at the moment it reserves,
      its stream fits, and the event is open when it ends. */
  method Upload(v: Server, ghost begin: State, u: UploadRequest) returns (result: Result<nat, Failure>, ghost n: State, ghost i: nat, ghost cause: Cause)
    requires Tracked(begin, v.s)
    modifies v
    ensures Tracked(begin, v.s)
    ensures result.Ok? ==> Between(begin, n, v.s) && StoredAt(n, u, result.value)
    ensures result.Err? ==> Because(old(v.chances), begin, n, v.s, u, i, v.smooth, cause)
  {
    n := v.s;
    i := 0;
    cause := Trouble;
    var c, ok := v.Acquire(begin, u.event, None);
    if !ok { return Err(Network), n, i, cause; }
    var id := NextId(v.s.drawn);
    i := id;
    var tx := UploadTx(v.s.db, u, id, c.now);
    UploadGranted(v.s.db, u, id, c.now);
    if tx.Err? {
      n := v.s;
      TrackedSelf(n);
      cause := Denied(c.now);
      return Err(Refusal(tx.error)), n, i, cause;
    }
    Reserve(v, begin, u, id, c.now);
    ghost var made, left := v.s, v.chances;
    TrackedSelf(made);
    var failure;
    failure, n, cause := Receive(v, made, u, id);
    GoesEarlier(left, old(v.chances), begin, made, n, v.s, u, id, v.smooth, failure.None?, cause);
    result := if failure.None? then Ok(id) else Err(failure.value);
  }

  method Reserve(v: Server, ghost begin: State, u: UploadRequest, i: nat, now: nat)
    requires Tracked(begin, v.s) && i !in v.s.drawn && Shared(v.s, u.event) && UploadTx(v.s.db, u, i, now).Ok?
    modifies v`s
    ensures At(v, begin, i) && v.s.ops[i] == Op.Reserved(u.event, u.link) && i in v.s.drawn && Pends(v.s, u, i)
  {
    Take(v, begin, Step.Reserve(u, i, now), ReserveStep(v.s, u, i, now).value);
  }

  /** The request is over after a fault: its own cleanup, which leaves a row that became ready, and a pending one if it fails. */
  method Fault(v: Server, ghost made: State, u: UploadRequest, i: nat, ghost cs: seq<Chance>) returns (failure: Option<Failure>, ghost n: State, ghost cause: Cause)
    requires At(v, made, i) && (Uploading(v.s.ops[i]) || v.s.ops[i].Failed?) && !v.smooth
    modifies v
    ensures Goes(cs, made, n, v.s, u, i, v.smooth, false, cause) && failure.Some?
  {
    Abort(v, made, i);
    failure, n, cause := Some(Network), v.s, Trouble;
  }

  method Reject(v: Server, ghost made: State, u: UploadRequest, i: nat, ghost cs: seq<Chance>, ghost why: Cause, error: Failure) returns (failure: Option<Failure>, ghost n: State, ghost cause: Cause)
    requires At(v, made, i) && Uploading(v.s.ops[i]) && Because(cs, made, v.s, v.s, u, i, v.smooth, why) && !why.Trouble?
    modifies v
    ensures Goes(cs, made, n, v.s, u, i, v.smooth, false, cause) && failure.Some?
  {
    n := v.s;
    TrackedSelf(n);
    Abort(v, n, i);
    TrackedOn(made, n, v.s);
    failure, cause := Some(error), why;
  }

  /** The .part file is opened, and the stream arrives. */
  method Receive(v: Server, ghost made: State, u: UploadRequest, i: nat) returns (failure: Option<Failure>, ghost n: State, ghost cause: Cause)
    requires At(v, made, i) && v.s.ops[i] == Op.Reserved(u.event, u.link) && i in made.drawn && Pends(made, u, i)
    modifies v
    ensures Goes(old(v.chances), made, n, v.s, u, i, v.smooth, failure.None?, cause)
  {
    n := v.s;
    cause := Trouble;
    var c, lives := v.Pass(made, Some(i));
    if !lives { return Some(Network), n, cause; }
    OpRow(v.s, i);
    if c.fails {
      failure, n, cause := Fault(v, made, u, i, old(v.chances));
      return;
    }
    if v.s.db.assets[i].expected == 0 {
      TrackedSelf(v.s);
      assert Heard(old(v.chances), c.stored.size);
      failure, n, cause := Reject(v, made, u, i, old(v.chances), Unfit(c.stored.size), Refuse(FileTooLarge));
      return;
    }
    ghost var left := v.chances;
    Open(v, made, i);
    failure, n, cause := Write(v, made, u, i);
    TrackedSelf(made);
    GoesEarlier(left, old(v.chances), made, made, n, v.s, u, i, v.smooth, failure.None?, cause);
  }

  method Open(v: Server, ghost made: State, i: nat)
    requires At(v, made, i) && v.s.ops[i].Reserved? && i !in v.s.parts
    modifies v`s
    ensures At(v, made, i) && v.s.ops[i] == Writing(old(v.s).ops[i].event, old(v.s).ops[i].link) && i in v.s.parts && v.s.parts[i] == 0
  {
    Take(v, made, OpenPart(i), OpenPartStep(v.s, i).value);
  }

  method Write(v: Server, ghost made: State, u: UploadRequest, i: nat) returns (failure: Option<Failure>, ghost n: State, ghost cause: Cause)
    requires At(v, made, i) && v.s.ops[i] == Writing(u.event, u.link) && i in v.s.parts && v.s.parts[i] == 0 && i in made.drawn && Pends(made, u, i)
    modifies v
    ensures Goes(old(v.chances), made, n, v.s, u, i, v.smooth, failure.None?, cause)
  {
    n := v.s;
    cause := Trouble;
    var c, lives := v.Pass(made, Some(i));
    if !lives { return Some(Network), n, cause; }
    OpRow(v.s, i);
    if c.fails || c.lost {
      failure, n, cause := Fault(v, made, u, i, old(v.chances));
      return;
    }
    var limit := v.s.db.assets[i].expected;
    var size := if c.stored.size > limit then limit + 1 else c.stored.size;
    assert Heard(old(v.chances), c.stored.size);
    if size == 0 || size > limit {
      TrackedSelf(v.s);
      failure, n, cause := Reject(v, made, u, i, old(v.chances), Unfit(c.stored.size), if size == 0 then Refuse(EmptyFile) else Refuse(FileTooLarge));
      return;
    }
    Arrive(v, made, i, size);
    failure, n, cause := Publish(v, made, u, i, old(v.chances));
  }

  method Arrive(v: Server, ghost made: State, i: nat, size: nat)
    requires At(v, made, i) && v.s.ops[i].Writing? && i in v.s.parts && i in v.s.db.assets
    requires v.s.parts[i] <= size <= v.s.db.assets[i].expected && size > 0
    modifies v`s
    ensures At(v, made, i) && v.s.ops[i] == Sealed(old(v.s).ops[i].event, old(v.s).ops[i].link, size)
  {
    Fill(v, made, i, size);
    Take(v, made, Seal(i), SealStep(v.s, i).value);
  }

  method Fill(v: Server, ghost made: State, i: nat, size: nat)
    requires At(v, made, i) && v.s.ops[i].Writing? && i in v.s.parts && i in v.s.db.assets
    requires v.s.parts[i] <= size <= v.s.db.assets[i].expected
    modifies v`s
    ensures At(v, made, i) && v.s.ops == old(v.s).ops && i in v.s.parts && v.s.parts[i] == size && v.s.db == old(v.s).db
  {
    Take(v, made, Step.Write(i, size), WriteStep(v.s, i, size).value);
  }

  /** The rename, unless the disk fails. */
  method Publish(v: Server, ghost made: State, u: UploadRequest, i: nat, ghost cs: seq<Chance>) returns (failure: Option<Failure>, ghost n: State, ghost cause: Cause)
    requires At(v, made, i) && v.s.ops[i].Sealed? && v.s.ops[i].event == u.event && v.s.ops[i].link == u.link && i in made.drawn && Pends(made, u, i)
    requires Within(v.chances, cs) && Heard(cs, v.s.ops[i].size)
    modifies v
    ensures Goes(cs, made, n, v.s, u, i, v.smooth, failure.None?, cause)
  {
    n := v.s;
    cause := Trouble;
    var c, lives := v.Pass(made, Some(i));
    if !lives { return Some(Network), n, cause; }
    OpRow(v.s, i);
    if c.fails || i in v.s.finals {
      failure, n, cause := Fault(v, made, u, i, cs);
      return;
    }
    Rename(v, made, i);
    failure, n, cause := Commit(v, made, u, i, cs);
  }

  method Rename(v: Server, ghost made: State, i: nat)
    requires At(v, made, i) && v.s.ops[i].Sealed? && i in v.s.parts && i !in v.s.finals
    modifies v`s
    ensures At(v, made, i) && v.s.ops[i] == Op.Published(old(v.s).ops[i].event, old(v.s).ops[i].link, old(v.s).ops[i].size)
  {
    Take(v, made, Step.Publish(i), PublishStep(v.s, i).value);
  }

  /** The event is looked at again, and the row becomes ready; a commit that reports an error may have been applied. */
  method Commit(v: Server, ghost made: State, u: UploadRequest, i: nat, ghost cs: seq<Chance>) returns (failure: Option<Failure>, ghost n: State, ghost cause: Cause)
    requires At(v, made, i) && v.s.ops[i].Published? && v.s.ops[i].event == u.event && v.s.ops[i].link == u.link && i in made.drawn && Pends(made, u, i)
    requires Within(v.chances, cs) && Heard(cs, v.s.ops[i].size)
    modifies v
    ensures Goes(cs, made, n, v.s, u, i, v.smooth, failure.None?, cause)
  {
    n := v.s;
    cause := Trouble;
    var c, lives := v.Pass(made, Some(i));
    if !lives { return Some(Network), n, cause; }
    OpRow(v.s, i);
    if c.fails {
      failure, n, cause := Fault(v, made, u, i, cs);
      return;
    }
    failure, n, cause := Finish(v, made, u, i, cs, c);
  }

  method Finish(v: Server, ghost made: State, u: UploadRequest, i: nat, ghost cs: seq<Chance>, c: Chance) returns (failure: Option<Failure>, ghost n: State, ghost cause: Cause)
    requires At(v, made, i) && v.s.ops[i].Published? && v.s.ops[i].event == u.event && v.s.ops[i].link == u.link && i in made.drawn && Pends(made, u, i)
    requires c in cs && Heard(cs, v.s.ops[i].size) && (!c.outcome.Answered? ==> !v.smooth)
    modifies v
    ensures Goes(cs, made, n, v.s, u, i, v.smooth, failure.None?, cause)
  {
    OpRow(v.s, i);
    TrackedSelf(v.s);
    var o := v.s.ops[i];
    if u.claimed.Some? && o.size != u.claimed.value {
      failure, n, cause := Reject(v, made, u, i, cs, Unfit(o.size), Refuse(SizeMismatch));
      return;
    }
    FinishGranted(v.s.db, o.event, o.link, i, o.size, c.now);
    if FinishTx(v.s.db, o.event, o.link, i, o.size, c.now).Err? {
      assert Timed(cs, c.now);
      failure, n, cause := Reject(v, made, u, i, cs, Closed(c.now), Refuse(EventClosed));
      return;
    }
    if c.outcome.Answered? {
      Finished(v, made, u, i, c.now);
      TrackedSelf(v.s);
      failure, n, cause := None, v.s, Trouble;
    } else {
      Unsure(v, made, i, c.now, c.outcome);
      failure, n, cause := Fault(v, made, u, i, cs);
    }
  }

  method Finished(v: Server, ghost made: State, u: UploadRequest, i: nat, now: nat)
    requires At(v, made, i) && v.s.ops[i].Published? && i in made.drawn && Pends(made, u, i)
    requires u.claimed.Some? ==> v.s.ops[i].size == u.claimed.value
    requires FinishTx(v.s.db, v.s.ops[i].event, v.s.ops[i].link, i, v.s.ops[i].size, now).Ok?
    modifies v`s
    ensures Tracked(made, v.s) && StoredAt(v.s, u, i)
  {
    OpRow(v.s, i);
    RowStays(made, v.s, u, i);
    CommitRow(v, made, i, now);
  }

  method CommitRow(v: Server, ghost made: State, i: nat, now: nat)
    requires At(v, made, i) && v.s.ops[i].Published? && FinishTx(v.s.db, v.s.ops[i].event, v.s.ops[i].link, i, v.s.ops[i].size, now).Ok?
    modifies v`s
    ensures Tracked(made, v.s) && v.s == FinishStep(old(v.s), i, now, Answered).value
  {
    Take(v, made, Step.Finish(i, now, Answered), FinishStep(v.s, i, now, Answered).value);
  }

  method Unsure(v: Server, ghost made: State, i: nat, now: nat, outcome: Outcome)
    requires At(v, made, i) && v.s.ops[i].Published? && !outcome.Answered?
    requires FinishTx(v.s.db, v.s.ops[i].event, v.s.ops[i].link, i, v.s.ops[i].size, now).Ok?
    modifies v`s
    ensures At(v, made, i) && v.s.ops[i].Failed?
  {
    Take(v, made, Step.Finish(i, now, outcome), FinishStep(v.s, i, now, outcome).value);
  }

  // ---------------------------------------------------------------- removeAttempt after a failure

  /** removeAttempt: it refuses a row that became ready, and leaves a pending one if it fails. */
  method Abort(v: Server, ghost made: State, i: nat)
    requires At(v, made, i) && (Uploading(v.s.ops[i]) || v.s.ops[i].Failed?)
    modifies v
    ensures Tracked(made, v.s) && (v.smooth ==> old(v.smooth))
  {
    if Uploading(v.s.ops[i]) { Mark(v, made, i); }
    var c, lives := v.Pass(made, Some(i));
    if !lives { return; }
    Begin(v, made, i);
    if i in v.s.ops { Remove(v, made, i); }
  }

  method Mark(v: Server, ghost made: State, i: nat)
    requires At(v, made, i) && Uploading(v.s.ops[i])
    modifies v`s
    ensures At(v, made, i) && v.s.ops[i].Failed?
  {
    Take(v, made, Fail(i), FailStep(v.s, i).value);
  }

  method Begin(v: Server, ghost made: State, i: nat)
    requires At(v, made, i) && v.s.ops[i].Failed?
    modifies v`s
    ensures Tracked(made, v.s) && (i in v.s.ops ==> v.s.ops[i].Undoing? && v.s.ops[i].at.Checked?)
  {
    Take(v, made, Undo(i), UndoStep(v.s, i).value);
  }

  method Remove(v: Server, ghost made: State, i: nat)
    requires At(v, made, i) && v.s.ops[i].Undoing? && v.s.ops[i].at.Checked?
    modifies v
    ensures Tracked(made, v.s) && (v.smooth ==> old(v.smooth))
  {
    var c, lives := v.Pass(made, Some(i));
    if !lives { return; }
    if c.fails { Leave(v, made, i); return; }
    DropPart(v, made, i);
    RemoveFinal(v, made, i);
  }

  method DropPart(v: Server, ghost made: State, i: nat)
    requires At(v, made, i) && v.s.ops[i].Undoing? && v.s.ops[i].at.Checked?
    modifies v`s
    ensures At(v, made, i) && v.s.ops[i].Undoing? && v.s.ops[i].at.PartGone?
  {
    Take(v, made, UndoPart(i), UndoPartStep(v.s, i).value);
  }

  method RemoveFinal(v: Server, ghost made: State, i: nat)
    requires At(v, made, i) && v.s.ops[i].Undoing? && v.s.ops[i].at.PartGone?
    modifies v
    ensures Tracked(made, v.s) && (v.smooth ==> old(v.smooth))
  {
    var c, lives := v.Pass(made, Some(i));
    if !lives { return; }
    if c.fails { Leave(v, made, i); return; }
    DropFinal(v, made, i);
    RemoveRow(v, made, i);
  }

  method DropFinal(v: Server, ghost made: State, i: nat)
    requires At(v, made, i) && v.s.ops[i].Undoing? && v.s.ops[i].at.PartGone?
    modifies v`s
    ensures At(v, made, i) && v.s.ops[i].Undoing? && v.s.ops[i].at.FinalGone?
  {
    Take(v, made, UndoFinal(i), UndoFinalStep(v.s, i).value);
  }

  method RemoveRow(v: Server, ghost made: State, i: nat)
    requires At(v, made, i) && v.s.ops[i].Undoing? && v.s.ops[i].at.FinalGone?
    modifies v
    ensures Tracked(made, v.s) && (v.smooth ==> old(v.smooth))
  {
    var c, lives := v.Pass(made, Some(i));
    if !lives { return; }
    DropRow(v, made, i);
  }

  method DropRow(v: Server, ghost made: State, i: nat)
    requires At(v, made, i) && v.s.ops[i].Undoing? && v.s.ops[i].at.FinalGone?
    modifies v`s
    ensures Tracked(made, v.s)
  {
    Take(v, made, UndoRow(i), UndoRowStep(v.s, i).value);
  }

  method Leave(v: Server, ghost made: State, i: nat)
    requires At(v, made, i) && v.s.ops[i].Undoing?
    modifies v`s
    ensures Tracked(made, v.s)
  {
    Take(v, made, Quit(i), QuitStep(v.s, i).value);
  }
}
