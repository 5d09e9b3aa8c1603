/** Whole requests on one asset: a local upload, and the completion of a direct one. Each is first a function of the state and
    of what fails on the way, proved to be a run of the machine, and then the method that computes it in place. */
module MediaRequests {
  import opened Wrappers
  import opened MediaModel
  import opened MediaSteps
  import opened MediaInvariant
  import opened MediaSafety
  import opened MediaRuns
  import opened MediaStore
  import opened MediaAnswers

  /** What happens to an upload after its reservation: `size` bytes arrive; a file operation may fail, its .part may stick,
      or the checks after the rename fail; the event is looked at again `later`; `undo` says how far removeAttempt gets. */
  datatype Course = Course(size: nat, fault: bool, stuck: bool, unsynced: bool, later: nat, undo: Outcome)

  function WithOps(s: State, i: nat, o: Op): State { s.(ops := map[i := o]) }

  /** The state once the reservation is committed. */
  function ReservedState(s: State, u: UploadRequest, i: nat, now: nat): State
    requires UploadTx(s.db, u, i, now).Ok?
  {
    s.(db := UploadTx(s.db, u, i, now).value, drawn := s.drawn + {i})
  }

  /** A published file whose row is made ready. */
  predicate Accepted(s: State, u: UploadRequest, i: nat, c: Course) {
    !c.unsynced && (u.claimed.Some? ==> c.size == u.claimed.value) && FinishTx(s.db, u.event, u.link, i, c.size, c.later).Ok?
  }

  /** What an upload whose reservation was granted leaves, and whether it succeeded. */
  function Stored(a: State, u: UploadRequest, i: nat, c: Course): (State, bool)
    requires i in a.db.assets
  {
    var limit := a.db.assets[i].expected;
    var published := Publishes(a.parts, a.finals, i, c.size, limit, c.fault);
    var p := a.(parts := PutParts(a.parts, i, c.size, limit, published, c.stuck), finals := if published then a.finals[i := c.size] else a.finals);
    if published && Accepted(p, u, i, c) then (p.(db := FinishTx(p.db, u.event, u.link, i, c.size, c.later).value), true)
    else (Attempted(p, i, c.undo), false)
  }

  // ---------------------------------------------------------------- an upload is a run

  /** Upload's own cleanup, from the failed request to its end. */
  lemma UndoingLeads(s: State, e: nat, i: nat, o: Outcome)
    requires s.ops == map[] && i in s.db.assets && s.db.assets[i].status.Pending? && s.db.assets[i].backend.Local?
    ensures Leads(WithOps(s, i, Failed(e)), Attempted(s, i, o))
  {
    var f := WithOps(s, i, Failed(e));
    var a := WithOps(s, i, Undoing(e, Checked));
    assert UndoStep(f, i) == Some(a) by { assert f.ops[i := Undoing(e, Checked)] == a.ops; }
    UndoLeads(f, i);
    assert a.ops - {i} == map[];
    if o.Refused? {
      QuitLeads(a, i);
      LeadsOn(f, a, QuitStep(a, i).value);
    } else {
      var b := WithOps(s.(parts := s.parts - {i}), i, Undoing(e, PartGone));
      assert UndoPartStep(a, i) == Some(b) by { assert a.ops[i := Undoing(e, PartGone)] == b.ops; }
      UndoPartLeads(a, i);
      LeadsOn(f, a, b);
      assert b.ops - {i} == map[];
      if o.ReplyLost? {
        QuitLeads(b, i);
        LeadsOn(f, b, QuitStep(b, i).value);
      } else {
        UndoneLeads(s, b, e, i);
        LeadsOn(f, b, Attempted(s, i, o));
      }
    }
  }

  lemma UndoneLeads(s: State, b: State, e: nat, i: nat)
    requires s.ops == map[] && i in s.db.assets && s.db.assets[i].status.Pending? && s.db.assets[i].backend.Local?
    requires b == WithOps(s.(parts := s.parts - {i}), i, Undoing(e, PartGone))
    ensures Leads(b, Attempted(s, i, Answered))
  {
    var c := WithOps(s.(parts := s.parts - {i}, finals := s.finals - {i}), i, Undoing(e, FinalGone));
    assert UndoFinalStep(b, i) == Some(c) by { assert b.ops[i := Undoing(e, FinalGone)] == c.ops; }
    UndoFinalLeads(b, i);
    UndoRowLeads(c, i);
    assert c.ops - {i} == map[];
    LeadsOn(b, c, Attempted(s, i, Answered));
  }

  lemma FailedLeads(s: State, i: nat, o: Op)
    requires Uploading(o)
    ensures Leads(WithOps(s, i, o), WithOps(s, i, Failed(o.event)))
  {
    assert WithOps(s, i, o).ops[i := Failed(o.event)] == map[i := Failed(o.event)];
    FailLeads(WithOps(s, i, o), i);
  }

  /** Opening and writing the .part file. */
  lemma PartLeads(a: State, e: nat, link: nat, i: nat, size: nat)
    requires i in a.db.assets && i !in a.parts && size <= a.db.assets[i].expected + 1
    ensures Leads(WithOps(a, i, Reserved(e, link)), WithOps(a.(parts := a.parts[i := size]), i, Writing(e, link)))
  {
    var r, w := WithOps(a, i, Reserved(e, link)), WithOps(a.(parts := a.parts[i := 0]), i, Writing(e, link));
    assert OpenPartStep(r, i) == Some(w) by { assert r.ops[i := Writing(e, link)] == w.ops; }
    OpenPartLeads(r, i);
    assert w.parts[i := size] == a.parts[i := size];
    WriteLeads(w, i, size);
    LeadsOn(r, w, WriteStep(w, i, size).value);
  }

  lemma PublishedLeads(a: State, e: nat, link: nat, i: nat, size: nat)
    requires i in a.db.assets && i !in a.parts && i !in a.finals && 0 < size <= a.db.assets[i].expected
    ensures Leads(WithOps(a, i, Reserved(e, link)), WithOps(a.(finals := a.finals[i := size]), i, Op.Published(e, link, size)))
  {
    var x := WithOps(a.(parts := a.parts[i := size]), i, Sealed(e, link, size));
    SealedLeads(a, e, link, i, size);
    assert x.parts - {i} == a.parts && x.ops[i := Op.Published(e, link, size)] == map[i := Op.Published(e, link, size)];
    PublishLeads(x, i);
    LeadsOn(WithOps(a, i, Reserved(e, link)), x, PublishStep(x, i).value);
  }

  lemma SealedLeads(a: State, e: nat, link: nat, i: nat, size: nat)
    requires i in a.db.assets && i !in a.parts && 0 < size <= a.db.assets[i].expected
    ensures Leads(WithOps(a, i, Reserved(e, link)), WithOps(a.(parts := a.parts[i := size]), i, Sealed(e, link, size)))
  {
    var w, x := WithOps(a.(parts := a.parts[i := size]), i, Writing(e, link)), WithOps(a.(parts := a.parts[i := size]), i, Sealed(e, link, size));
    PartLeads(a, e, link, i, size);
    assert SealStep(w, i) == Some(x) by { assert w.ops[i := Sealed(e, link, size)] == x.ops; }
    SealLeads(w, i);
    LeadsOn(WithOps(a, i, Reserved(e, link)), w, x);
  }

  /** After its reservation, an upload is a run of the machine. */
  lemma StoredLeads(a: State, u: UploadRequest, i: nat, c: Course)
    requires a.ops == map[] && i in a.db.assets && a.db.assets[i].status.Pending? && a.db.assets[i].backend.Local? && i !in a.parts && i !in a.finals
    ensures Leads(WithOps(a, i, Reserved(u.event, u.link)), Stored(a, u, i, c).0)
  {
    var limit := a.db.assets[i].expected;
    var r := WithOps(a, i, Reserved(u.event, u.link));
    if Publishes(a.parts, a.finals, i, c.size, limit, c.fault) {
      var p := a.(finals := a.finals[i := c.size]);
      PublishedLeads(a, u.event, u.link, i, c.size);
      LeadsOn(r, WithOps(p, i, Op.Published(u.event, u.link, c.size)), Stored(a, u, i, c).0) by { AcceptedLeads(p, u, i, c); }
    } else {
      var stuck := c.stuck && limit > 0;
      var written := if c.size > limit then limit + 1 else c.size;
      var p := if stuck then a.(parts := a.parts[i := written]) else a;
      var o := if stuck then Writing(u.event, u.link) else Reserved(u.event, u.link);
      if stuck { PartLeads(a, u.event, u.link, i, written); } else { LeadsSelf(r); }
      FailedLeads(p, i, o);
      UndoingLeads(p, u.event, i, c.undo);
      LeadsOn(r, WithOps(p, i, o), WithOps(p, i, Failed(u.event)));
      LeadsOn(r, WithOps(p, i, Failed(u.event)), Attempted(p, i, c.undo));
    }
  }

  lemma AcceptedLeads(p: State, u: UploadRequest, i: nat, c: Course)
    requires p.ops == map[] && i in p.db.assets && p.db.assets[i].status.Pending? && p.db.assets[i].backend.Local?
    ensures Leads(WithOps(p, i, Op.Published(u.event, u.link, c.size)),
                  if Accepted(p, u, i, c) then p.(db := FinishTx(p.db, u.event, u.link, i, c.size, c.later).value) else Attempted(p, i, c.undo))
  {
    var o := Op.Published(u.event, u.link, c.size);
    var x := WithOps(p, i, o);
    assert x.ops - {i} == map[];
    if Accepted(p, u, i, c) {
      FinishLeads(x, i, c.later, Answered);
    } else {
      FailedLeads(p, i, o);
      UndoingLeads(p, u.event, i, c.undo);
      LeadsOn(x, WithOps(p, i, Failed(u.event)), Attempted(p, i, c.undo));
    }
  }

  /** The whole upload. */
  lemma UploadLeads(s: State, u: UploadRequest, i: nat, now: nat, c: Course)
    requires Inv(s) && Alone(s) && i !in s.drawn && UploadTx(s.db, u, i, now).Ok?
    ensures Leads(s, Stored(ReservedState(s, u, i, now), u, i, c).0)
  {
    var a := ReservedState(s, u, i, now);
    Undrawn(s, i);
    NoFiles(s, i);
    assert s.ops[i := Reserved(u.event, u.link)] == map[i := Reserved(u.event, u.link)];
    ReserveLeads(s, u, i, now);
    StoredLeads(a, u, i, c);
    LeadsOn(s, WithOps(a, i, Reserved(u.event, u.link)), Stored(a, u, i, c).0);
  }

  lemma NoFiles(s: State, i: nat)
    requires Inv(s) && i !in s.drawn
    ensures i !in s.parts && i !in s.finals
  {
    Undrawn(s, i);
    assert i in s.parts ==> IsLocal(s.db, i);
    assert i in s.finals ==> IsLocal(s.db, i);
  }

  predicate FreshPending(a: State, i: nat) {
    i in a.db.assets && a.db.assets[i].status.Pending? && a.db.assets[i].backend.Local? && i !in a.parts && i !in a.finals
  }

  lemma SuccessLeaves(a: State, u: UploadRequest, i: nat, c: Course)
    requires FreshPending(a, i) && Stored(a, u, i, c).1
    ensures var n := Stored(a, u, i, c).0;
            && n.parts == a.parts && n.finals == a.finals[i := c.size] && i in n.db.assets && n.db.assets[i].status.Ready?
            && n.db.assets[i].size == c.size > 0 && n.db.assets - {i} == a.db.assets - {i}
  {}

  lemma FailureLeaves(a: State, u: UploadRequest, i: nat, c: Course)
    requires FreshPending(a, i) && !Stored(a, u, i, c).1 && c.undo.Answered?
    ensures Stored(a, u, i, c).0 == a.(db := a.db.(assets := a.db.assets - {i}))
  {
    var n := Stored(a, u, i, c).0;
    assert n.parts == a.parts && n.finals == a.finals;
  }

  /** Whatever fails, cleanup included, at most the pending row, its .part and its final file are left. */
  ghost predicate LeftBehind(s: State, n: State, x: Asset, i: nat) {
    && n.db.events == s.db.events && n.db.sessions == s.db.sessions && n.db.retired == s.db.retired && n.objects == s.objects
    && n.db.assets - {i} == s.db.assets && (i in n.db.assets ==> n.db.assets[i] == x)
    && n.parts - {i} == s.parts && n.finals - {i} == s.finals
  }

  lemma WithoutTwice<T>(m: map<nat, T>, n: map<nat, T>, i: nat)
    requires n == m || n == m - {i}
    ensures n - {i} == m - {i}
  {}

  /** What Put and removeAttempt may change. */
  lemma PutLeft(s: State, a: State, x: Asset, i: nat, parts: map<nat, nat>, finals: map<nat, nat>)
    requires LeftBehind(s, a, x, i) && parts - {i} == a.parts - {i} && finals - {i} == a.finals - {i}
    ensures LeftBehind(s, a.(parts := parts, finals := finals), x, i)
  {}

  lemma AttemptLeft(s: State, p: State, x: Asset, i: nat, o: Outcome)
    requires LeftBehind(s, p, x, i) && i in p.db.assets && p.db.assets[i].backend.Local?
    ensures LeftBehind(s, Attempted(p, i, o), x, i)
  {
    var n := Attempted(p, i, o);
    WithoutTwice(p.parts, n.parts, i);
    WithoutTwice(p.finals, n.finals, i);
    WithoutTwice(p.db.assets, n.db.assets, i);
  }

  lemma FailureLeft(s: State, a: State, u: UploadRequest, i: nat, c: Course)
    requires FreshPending(a, i) && !Stored(a, u, i, c).1 && LeftBehind(s, a, a.db.assets[i], i)
    ensures LeftBehind(s, Stored(a, u, i, c).0, a.db.assets[i], i)
  {
    var limit := a.db.assets[i].expected;
    var published := Publishes(a.parts, a.finals, i, c.size, limit, c.fault);
    var parts, finals := PutParts(a.parts, i, c.size, limit, published, c.stuck), if published then a.finals[i := c.size] else a.finals;
    PutLeft(s, a, a.db.assets[i], i, parts, finals);
    AttemptLeft(s, a.(parts := parts, finals := finals), a.db.assets[i], i, c.undo);
  }

  /** A failed upload whose cleanup succeeds leaves tables and files as they were; a successful one adds exactly its row and
      a final file of the recorded size. */
  lemma UploadLeaves(s: State, u: UploadRequest, i: nat, now: nat, c: Course)
    requires Inv(s) && i !in s.drawn && UploadTx(s.db, u, i, now).Ok?
    ensures var a := ReservedState(s, u, i, now);
            && i in a.db.assets
            && (Stored(a, u, i, c).1 ==>
                  var n := Stored(a, u, i, c).0;
                  && n.parts == s.parts && n.finals == s.finals[i := c.size] && i in n.db.assets && n.db.assets[i].status.Ready?
                  && n.db.assets[i].size == c.size > 0 && n.db.assets - {i} == s.db.assets)
            && (!Stored(a, u, i, c).1 ==> LeftBehind(s, Stored(a, u, i, c).0, a.db.assets[i], i))
            && (!Stored(a, u, i, c).1 && c.undo.Answered? ==> Stored(a, u, i, c).0 == s.(drawn := s.drawn + {i}))
  {
    Undrawn(s, i);
    NoFiles(s, i);
    var a := ReservedState(s, u, i, now);
    assert a.db.assets - {i} == s.db.assets && a.parts - {i} == s.parts && a.finals - {i} == s.finals;
    if !Stored(a, u, i, c).1 { FailureLeft(s, a, u, i, c); }
    if Stored(a, u, i, c).1 { SuccessLeaves(a, u, i, c); } else if c.undo.Answered? { FailureLeaves(a, u, i, c); }
  }

  /** What a granted upload needs to succeed: a stream that is not empty, no longer than reserved and as long as claimed, no failed
      file operation, and an event that is open when the upload ends. */
  predicate Succeeds(s: State, u: UploadRequest, expected: nat, c: Course) {
    && 0 < c.size <= expected && (u.claimed.Some? ==> c.size == u.claimed.value) && !c.fault && !c.unsynced
    && OpenAt(s.db, u.event, u.link, c.later)
  }

  lemma StoredExactly(a: State, u: UploadRequest, i: nat, c: Course)
    requires FreshPending(a, i)
    ensures Stored(a, u, i, c).1 <==> Succeeds(a, u, a.db.assets[i].expected, c)
  {}

  /** A granted upload succeeds exactly then; a claimed size is what it reserves, and otherwise its file limit. */
  lemma UploadExactly(s: State, u: UploadRequest, i: nat, now: nat, c: Course)
    requires Inv(s) && i !in s.drawn && UploadTx(s.db, u, i, now).Ok?
    ensures Stored(ReservedState(s, u, i, now), u, i, c).1 <==> Succeeds(s, u, Reserves(s.db.events[u.event], u), c)
  {
    Undrawn(s, i);
    NoFiles(s, i);
    UploadGranted(s.db, u, i, now);
    StoredExactly(ReservedState(s, u, i, now), u, i, c);
  }

  /** Upload after its reservation, in place. */
  method Transfer(v: Service, u: UploadRequest, i: nat, c: Course) returns (ok: bool)
    requires FreshPending(v.View(), i)
    modifies v`assets, v`retired, v`parts, v`finals, v`objects
    ensures (v.View(), ok) == Stored(old(v.View()), u, i, c) && Stamps(old(v.retired), v.retired, c.later)
  {
    ok := v.Put(i, c.size, v.assets[i].expected, c.fault, c.stuck, c.unsynced);
    if ok && (u.claimed.Some? ==> c.size == u.claimed.value) {
      var finish := FinishTx(Db(v.events, v.sessions, v.assets, v.retired.Keys), u.event, u.link, i, c.size, c.later);
      if finish.Ok? {
        v.assets := finish.value.assets;
        return;
      }
    }
    var removed := v.RemoveAttempt(i, c.undo, c.later);
    ok := false;
  }

  /** A granted upload, in place: the reservation is committed, then the stream arrives. */
  method StoreGranted(v: Service, u: UploadRequest, i: nat, now: nat, c: Course) returns (ok: bool)
    requires Inv(v.View()) && i !in v.drawn && UploadTx(v.View().db, u, i, now).Ok?
    modifies v`assets, v`drawn, v`retired, v`parts, v`finals, v`objects
    ensures (v.View(), ok) == Stored(ReservedState(old(v.View()), u, i, now), u, i, c)
    ensures Leads(old(v.View()), v.View()) && Stamps(old(v.retired), v.retired, c.later)
  {
    UploadLeads(v.View(), u, i, now, c);
    NoFiles(v.View(), i);
    v.assets, v.drawn := UploadTx(Db(v.events, v.sessions, v.assets, v.retired.Keys), u, i, now).value.assets, v.drawn + {i};
    ok := Transfer(v, u, i, c);
  }

  /** Upload, in place. A granted upload succeeds exactly if its stream and the disk are sound and the event is still open, and then
      its row is ready with the whole file. */
  method Upload(v: Service, u: UploadRequest, i: nat, now: nat, c: Course) returns (refused: Option<Error>, ok: bool)
    requires Inv(v.View()) && i !in v.drawn
    modifies v
    ensures refused == (match UploadTx(old(v.View()).db, u, i, now) case Ok(_) => None case Err(x) => Some(x))
    ensures refused.Some? ==> !ok && v.View() == old(v.View())
    ensures refused.None? ==> (v.View(), ok) == Stored(ReservedState(old(v.View()), u, i, now), u, i, c)
    ensures refused.None? ==> u.event in old(v.events) && (ok <==> Succeeds(old(v.View()), u, Reserves(old(v.events)[u.event], u), c))
    ensures ok ==> Holds(v.View(), i, c.size)
    ensures Leads(old(v.View()), v.View())
    ensures v.cleanupAfter == old(v.cleanupAfter) && v.retiredAfter == old(v.retiredAfter) && Stamps(old(v.retired), v.retired, c.later)
  {
    LeadsSelf(v.View());
    var tx := UploadTx(Db(v.events, v.sessions, v.assets, v.retired.Keys), u, i, now);
    if tx.Err? { return Some(tx.error), false; }
    UploadExactly(v.View(), u, i, now, c);
    UploadReady(v.View(), u, i, now, c);
    refused := None;
    ok := StoreGranted(v, u, i, now, c);
  }

  /** The row is ready with the whole file. */
  predicate Holds(s: State, i: nat, size: nat) {
    i in s.db.assets && s.db.assets[i].status.Ready? && s.db.assets[i].size == size && i in s.finals && s.finals[i] == size
  }

  lemma UploadReady(s: State, u: UploadRequest, i: nat, now: nat, c: Course)
    requires Inv(s) && i !in s.drawn && UploadTx(s.db, u, i, now).Ok?
    ensures var a := ReservedState(s, u, i, now);
            i in a.db.assets && u.event in s.db.events && (Stored(a, u, i, c).1 ==> Holds(Stored(a, u, i, c).0, i, c.size))
  {
    UploadLeaves(s, u, i, now, c);
  }

  // ---------------------------------------------------------------- Complete

  /** Whether HEAD and the read of the prefix succeed, and what becomes of a DELETE. */
  datatype Look = Look(head: bool, read: bool, delete: Outcome)

  function Rejected(s: State, i: nat, o: Outcome): State { if o.Refused? then s else s.(objects := s.objects - {i}) }

  predicate WrongSize(x: Asset, o: Object) { o.size != x.expected || o.size == 0 }

  predicate WrongMedia(x: Asset, o: Object) { o.media.None? || (x.media.Some? && x.media != o.media) }

  /** What Complete leaves, and whether it answers that the asset is ready. */
  function Completed(s: State, e: nat, link: nat, session: nat, i: nat, ceiling: nat, look: Look): (State, bool) {
    if !Loads(s, e, link, session, i) || s.db.events[e].deleting then (s, false)
    else if s.db.assets[i].status.Ready? then (s, true)
    else if !look.head || i !in s.objects then (s, false)
    else if WrongSize(s.db.assets[i], s.objects[i]) then (Rejected(s, i, look.delete), false)
    else if !look.read then (s, false)
    else if WrongMedia(s.db.assets[i], s.objects[i]) then (Rejected(s, i, look.delete), false)
    else match CompleteTx(s.db, s.db.assets[i], link, i, s.objects[i].size, s.objects[i].media.value, ceiling)
         case Err(_) => (s, false)
         case Ok(d) => (s.(db := d), true)
  }

  /** What Complete needs to answer that the asset is ready: the asset is one of this event and session, the event is not being
      deleted, and either it is ready already, or S3 answers, and the object is as large as reserved and of the row's class, or of
      one with room for it if the row has none. */
  predicate Finishes(s: State, e: nat, link: nat, session: nat, i: nat, ceiling: nat, look: Look) {
    && e in s.db.events && s.db.events[e].link == link && !s.db.events[e].deleting
    && i in s.db.assets && s.db.assets[i].event == e && s.db.assets[i].session == session && s.db.assets[i].backend == S3
    && (s.db.assets[i].status == Ready
        || (look.head && look.read && i in s.objects && Valid(s.db, s.db.assets[i], s.objects[i], ceiling)))
  }

  /** The object fits the pending row. */
  predicate Valid(d: Db, x: Asset, o: Object, ceiling: nat)
    requires x.event in d.events
  {
    && o.size == x.expected > 0 && o.media.Some?
    && match x.media
       case Some(k) => o.media.value == k
       case None => FileFits(d.events[x.event], o.media.value, o.size, ceiling) && ClassFits(d, x.event, o.media.value, o.size)
  }

  /** Complete answers that the asset is ready exactly then, and then it is. */
  lemma CompletedExactly(s: State, e: nat, link: nat, session: nat, i: nat, ceiling: nat, look: Look)
    ensures Completed(s, e, link, session, i, ceiling, look).1 <==> Finishes(s, e, link, session, i, ceiling, look)
    ensures Completed(s, e, link, session, i, ceiling, look).1 && s.db.assets[i].status == Pending ==>
              Completed(s, e, link, session, i, ceiling, look).0
              == s.(db := s.db.(assets := s.db.assets[i := s.db.assets[i].(status := Ready, size := s.objects[i].size, media := s.objects[i].media)]))
  {
    if Loads(s, e, link, session, i) && s.db.assets[i].status.Pending? && i in s.objects && s.objects[i].media.Some? {
      CompleteGranted(s.db, s.db.assets[i], link, i, s.objects[i].size, s.objects[i].media.value, ceiling);
    }
  }

  /** Disabling the event, or letting it expire, after a plan was handed out changes nothing in the answer. */
  lemma CompletedAfterClosing(s: State, e: nat, link: nat, session: nat, i: nat, ceiling: nat, look: Look, enabled: bool, expires: Option<nat>)
    requires e in s.db.events
    ensures var n := s.(db := s.db.(events := s.db.events[e := s.db.events[e].(enabled := enabled, expires := expires)]));
            && (Completed(n, e, link, session, i, ceiling, look).1 <==> Completed(s, e, link, session, i, ceiling, look).1)
            && Completed(n, e, link, session, i, ceiling, look).0.db.assets == Completed(s, e, link, session, i, ceiling, look).0.db.assets
            && Completed(n, e, link, session, i, ceiling, look).0.objects == Completed(s, e, link, session, i, ceiling, look).0.objects
  {
    var n := s.(db := s.db.(events := s.db.events[e := s.db.events[e].(enabled := enabled, expires := expires)]));
    CompletedExactly(s, e, link, session, i, ceiling, look);
    CompletedExactly(n, e, link, session, i, ceiling, look);
  }

  lemma CompletedLeads(s: State, e: nat, link: nat, session: nat, i: nat, ceiling: nat, look: Look)
    requires Alone(s)
    ensures Leads(s, Completed(s, e, link, session, i, ceiling, look).0)
  {
    LeadsSelf(s);
    var n := Completed(s, e, link, session, i, ceiling, look).0;
    if n != s {
      var x, o := s.db.assets[i], s.objects[i];
      var h := WithOps(s, i, Headed(e, link, x, o));
      HeadedLeads(s, e, link, session, i);
      if WrongSize(x, o) || WrongMedia(x, o) { RejectedLeads(s, h, i, look.delete); } else { VerifiedLeads(s, h, i, ceiling); }
      LeadsOn(s, h, n);
    }
  }

  lemma HeadedLeads(s: State, e: nat, link: nat, session: nat, i: nat)
    requires Alone(s) && MediaSteps.LoadStep(s, e, link, session, i).Some? && i in s.objects
    ensures Leads(s, WithOps(s, i, Headed(e, link, s.db.assets[i], s.objects[i])))
  {
    var a := WithOps(s, i, Loaded(e, link, s.db.assets[i]));
    assert s.ops[i := Loaded(e, link, s.db.assets[i])] == a.ops;
    LoadLeads(s, e, link, session, i);
    var h := WithOps(s, i, Headed(e, link, s.db.assets[i], s.objects[i]));
    assert a.ops[i := Headed(e, link, s.db.assets[i], s.objects[i])] == h.ops;
    HeadLeads(a, i);
    LeadsOn(s, a, h);
  }

  lemma RejectedLeads(s: State, h: State, i: nat, o: Outcome)
    requires Alone(s) && i in h.ops && h.ops[i].Headed? && h == WithOps(s, i, h.ops[i]) && i in s.objects && s.objects[i] == h.ops[i].stored
    requires WrongSize(h.ops[i].row, h.ops[i].stored) || WrongMedia(h.ops[i].row, h.ops[i].stored)
    ensures Leads(h, Rejected(s, i, o))
  {
    var r := WithOps(s, i, Op.Rejected(h.ops[i].event, h.ops[i].row));
    assert h.ops[i := Op.Rejected(h.ops[i].event, h.ops[i].row)] == r.ops;
    JudgeLeads(h, i);
    assert r.ops - {i} == map[];
    RejectLeads(r, i, o);
    LeadsOn(h, r, Rejected(s, i, o));
  }

  lemma VerifiedLeads(s: State, h: State, i: nat, ceiling: nat)
    requires Alone(s) && i in h.ops && h.ops[i].Headed? && h == WithOps(s, i, h.ops[i]) && i in s.objects && s.objects[i] == h.ops[i].stored
    requires !WrongSize(h.ops[i].row, h.ops[i].stored) && !WrongMedia(h.ops[i].row, h.ops[i].stored)
    requires CompleteTx(s.db, h.ops[i].row, h.ops[i].link, i, h.ops[i].stored.size, h.ops[i].stored.media.value, ceiling).Ok?
    ensures Leads(h, s.(db := CompleteTx(s.db, h.ops[i].row, h.ops[i].link, i, h.ops[i].stored.size, h.ops[i].stored.media.value, ceiling).value))
  {
    var o := h.ops[i];
    var y := WithOps(s, i, Verified(o.event, o.link, o.row, o.stored));
    assert h.ops[i := Verified(o.event, o.link, o.row, o.stored)] == y.ops;
    JudgeLeads(h, i);
    assert y.ops - {i} == map[];
    CompleteLeads(y, i, ceiling);
    LeadsOn(h, y, CompleteStep(y, i, ceiling).value);
  }

  /** A positive answer means that the row is ready, with its reserved size and, unless its key is retired, its object. */
  lemma CompletedReady(s: State, e: nat, link: nat, session: nat, i: nat, ceiling: nat, look: Look)
    requires Inv(s) && Alone(s) && Completed(s, e, link, session, i, ceiling, look).1
    ensures var n := Completed(s, e, link, session, i, ceiling, look).0;
            && i in n.db.assets && n.db.assets[i].status.Ready? && n.db.assets[i].session == session && n.db.assets[i].size == s.db.assets[i].expected
            && (i !in n.db.retired ==> i in n.objects && n.objects[i].size == n.db.assets[i].size)
  {
    assert RowOk(s.db, s.drawn, i);
    if s.db.assets[i].status.Ready? && i !in s.db.retired { assert HasObject(s.objects, i, s.db.assets[i].size); }
  }

  /** Complete, in place. */
  method Complete(v: Service, e: nat, link: nat, session: nat, i: nat, ceiling: nat, look: Look) returns (ready: bool)
    modifies v
    ensures (v.View(), ready) == Completed(old(v.View()), e, link, session, i, ceiling, look)
    ensures ready <==> Finishes(old(v.View()), e, link, session, i, ceiling, look)
    ensures Leads(old(v.View()), v.View())
    ensures v.cleanupAfter == old(v.cleanupAfter) && v.retiredAfter == old(v.retiredAfter) && v.retired == old(v.retired)
  {
    CompletedLeads(v.View(), e, link, session, i, ceiling, look);
    CompletedExactly(v.View(), e, link, session, i, ceiling, look);
    if e !in v.events || v.events[e].link != link || i !in v.assets { return false; }
    var x := v.assets[i];
    if x.event != e || x.session != session || x.backend.Local? || v.events[e].deleting { return false; }
    if x.status.Ready? { return true; }
    if !look.head || i !in v.objects { return false; }
    var o := v.objects[i];
    if o.size == x.expected && o.size != 0 && !look.read { return false; }
    if o.size != x.expected || o.size == 0 || o.media.None? || (x.media.Some? && x.media != o.media) {
      if !look.delete.Refused? { v.objects := v.objects - {i}; }
      return false;
    }
    var tx := CompleteTx(Db(v.events, v.sessions, v.assets, v.retired.Keys), x, link, i, o.size, o.media.value, ceiling);
    if tx.Err? { return false; }
    v.assets := tx.value.assets;
    ready := true;
  }
}
