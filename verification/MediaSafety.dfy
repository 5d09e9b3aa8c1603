/** Every step of the media service keeps the invariant. */
module MediaSafety {
  import opened Wrappers
  import opened Ordered
  import opened MediaModel
  import opened MediaSteps
  import opened MediaInvariant

  // ---------------------------------------------------------------- frames

  /** Everything about id `i` but its request in progress is the same. */
  ghost predicate SameAt(s: State, n: State, i: nat) {
    && (i in s.db.assets <==> i in n.db.assets) && (i in s.db.assets ==> n.db.assets[i] == s.db.assets[i])
    && (i in s.parts <==> i in n.parts) && (i in s.parts ==> n.parts[i] == s.parts[i])
    && (i in s.finals <==> i in n.finals) && (i in s.finals ==> n.finals[i] == s.finals[i])
    && (i in s.objects <==> i in n.objects) && (i in s.objects ==> n.objects[i] == s.objects[i])
  }

  ghost predicate Elsewhere(s: State, n: State, j: nat) { forall i :: i != j ==> SameAt(s, n, i) }

  /** Other requests do not notice a step on `j`. */
  lemma OpsKept(s: State, n: State, j: nat)
    requires OpsOk(s) && Elsewhere(s, n, j) && s.db.retired <= n.db.retired && n.locks.Keys <= s.locks.Keys
    requires forall i :: i in n.ops && i != j ==> i in s.ops && n.ops[i] == s.ops[i]
    requires j in n.ops ==> OpOk(n, j, n.ops[j])
    ensures OpsOk(n)
  {
    forall i | i in n.ops ensures OpOk(n, i, n.ops[i]) {
      if i != j { assert SameAt(s, n, i) && OpOk(s, i, s.ops[i]); }
    }
  }

  /** Neither do the holders of other events' locks. */
  lemma LocksKept(s: State, n: State, j: nat)
    requires LocksOk(s) && Elsewhere(s, n, j) && s.db.retired <= n.db.retired && n.locks == s.locks && n.db.events == s.db.events
    requires j in s.db.assets ==> s.db.assets[j].event !in s.locks
    ensures LocksOk(n)
  {
    forall e | e in n.locks ensures HolderOk(n, e, n.locks[e]) {
      assert HolderOk(s, e, s.locks[e]);
      if s.locks[e].job.Some? { assert SameAt(s, n, s.locks[e].job.value.0); }
    }
  }

  /** The columns that tie a row to others stay. */
  ghost predicate SameKeys(x: Asset, y: Asset) {
    x.event == y.event && x.session == y.session && x.backend == y.backend && x.request == y.request && x.expected == y.expected
  }

  lemma RowTables(d: Db, drawn: set<nat>, i: nat, x: Asset)
    requires TablesOk(d, drawn) && i in d.assets && SameKeys(d.assets[i], x)
    requires x.status.Ready? ==> x.size > 0 && (x.backend.S3? ==> x.size == x.expected)
    ensures TablesOk(d.(assets := d.assets[i := x]), drawn)
  {
    var n := d.(assets := d.assets[i := x]);
    forall k | k in n.assets ensures RowOk(n, drawn, k) { assert RowOk(d, drawn, k); }
    forall k, l | k in n.assets && l in n.assets && SameRequest(n.assets[k], n.assets[l]) ensures k == l {
      assert SameRequest(d.assets[k], d.assets[l]);
    }
  }

  lemma InsertTables(d: Db, drawn: set<nat>, i: nat, x: Asset)
    requires TablesOk(d, drawn) && i !in drawn && x.event in d.events && x.status.Pending?
    requires x.session in d.sessions && d.sessions[x.session].event == x.event
    requires x.request.Some? ==> x.backend.S3? && Requested(d.assets, x.session, x.request.value) == {}
    ensures TablesOk(d.(assets := d.assets[i := x]), drawn + {i})
  {
    var n := d.(assets := d.assets[i := x]);
    forall k | k in n.assets ensures RowOk(n, drawn + {i}, k) { assert k != i ==> RowOk(d, drawn, k); }
    forall k, l | k in n.assets && l in n.assets && SameRequest(n.assets[k], n.assets[l]) ensures k == l {
      if k != i && l != i {
        assert SameRequest(d.assets[k], d.assets[l]);
      } else if x.request.Some? {
        assert k !in Requested(d.assets, x.session, x.request.value) && l !in Requested(d.assets, x.session, x.request.value);
      }
    }
  }

  lemma RemoveTables(d: Db, drawn: set<nat>, i: nat)
    requires TablesOk(d, drawn)
    ensures TablesOk(RemoveTx(d, i), drawn)
  {
    var n := RemoveTx(d, i);
    forall k | k in n.assets ensures RowOk(n, drawn, k) { assert RowOk(d, drawn, k); }
    forall k, l | k in n.assets && l in n.assets && SameRequest(n.assets[k], n.assets[l]) ensures k == l {
      assert SameRequest(d.assets[k], d.assets[l]);
    }
  }

  lemma EventTables(d: Db, drawn: set<nat>, e: nat, x: Event)
    requires TablesOk(d, drawn)
    ensures TablesOk(d.(events := d.events[e := x]), drawn)
  {
    var n := d.(events := d.events[e := x]);
    forall k | k in n.assets ensures RowOk(n, drawn, k) { assert RowOk(d, drawn, k); }
  }

  /** A request only moves on. */
  lemma OpMoves(s: State, n: State, i: nat)
    requires Inv(s) && n == s.(ops := n.ops)
    requires forall k :: k in n.ops && k != i ==> k in s.ops && n.ops[k] == s.ops[k]
    requires i in n.ops ==> OpOk(n, i, n.ops[i])
    ensures Inv(n)
  {
    OpsKept(s, n, i);
    forall e | e in n.locks ensures HolderOk(n, e, n.locks[e]) { assert HolderOk(s, e, s.locks[e]); }
  }

  /** A lock holder only moves on, on its target `j`. */
  lemma HolderMoves(s: State, n: State, e: nat, j: nat)
    requires LocksOk(s) && OpsOk(s) && e in s.locks && Elsewhere(s, n, j) && n.db.retired == s.db.retired && n.db.events == s.db.events
    requires n.ops == s.ops && (j in s.db.assets ==> s.db.assets[j].event == e)
    requires forall k :: k in n.locks && k != e ==> k in s.locks && n.locks[k] == s.locks[k]
    requires n.locks.Keys <= s.locks.Keys && (e in n.locks ==> HolderOk(n, e, n.locks[e]))
    ensures LocksOk(n) && OpsOk(n)
  {
    forall k | k in n.locks ensures HolderOk(n, k, n.locks[k]) {
      if k != e {
        assert HolderOk(s, k, s.locks[k]);
        if s.locks[k].job.Some? { assert SameAt(s, n, s.locks[k].job.value.0); }
      }
    }
    forall i | i in n.ops ensures OpOk(n, i, n.ops[i]) { assert SameAt(s, n, i) && OpOk(s, i, s.ops[i]); }
  }

  lemma LocalReady(d: Db, i: nat, x: Asset, parts: map<nat, nat>, finals: map<nat, nat>, objects: map<nat, Object>, issued: set<nat>)
    requires FilesOk(d, parts, finals) && ObjectsOk(d, objects, issued)
    requires IsLocal(d, i) && x.backend.Local? && (x.status.Ready? ==> HasFile(finals, i, x.size))
    ensures FilesOk(d.(assets := d.assets[i := x]), parts, finals) && ObjectsOk(d.(assets := d.assets[i := x]), objects, issued)
  {}

  lemma DirectReady(d: Db, i: nat, x: Asset, parts: map<nat, nat>, finals: map<nat, nat>, objects: map<nat, Object>, issued: set<nat>)
    requires FilesOk(d, parts, finals) && ObjectsOk(d, objects, issued)
    requires i in d.assets && d.assets[i].backend.S3? && x.backend.S3?
    requires x.status.Ready? && i !in d.retired ==> HasObject(objects, i, x.size)
    ensures FilesOk(d.(assets := d.assets[i := x]), parts, finals) && ObjectsOk(d.(assets := d.assets[i := x]), objects, issued)
  {}

  lemma Undrawn(s: State, i: nat)
    requires Inv(s) && i !in s.drawn
    ensures i !in s.db.assets && i !in s.ops
  {
    assert i in s.ops ==> OpOk(s, i, s.ops[i]);
  }

  lemma InsertStored(s: State, i: nat, x: Asset)
    requires FilesOk(s.db, s.parts, s.finals) && ObjectsOk(s.db, s.objects, s.issued) && i !in s.db.assets && x.status.Pending?
    ensures FilesOk(s.db.(assets := s.db.assets[i := x]), s.parts, s.finals)
    ensures ObjectsOk(s.db.(assets := s.db.assets[i := x]), s.objects, s.issued)
  {}

  /** Sessions do not matter to requests and lock holders. */
  lemma SessionsKept(s: State, n: State)
    requires OpsOk(s) && LocksOk(s) && n == s.(db := s.db.(sessions := n.db.sessions), drawn := n.drawn)
    ensures OpsOk(n) && LocksOk(n)
  {
    forall i | i in n.ops ensures OpOk(n, i, n.ops[i]) { assert OpOk(s, i, s.ops[i]); }
    forall k | k in n.locks ensures HolderOk(n, k, n.locks[k]) { assert HolderOk(s, k, s.locks[k]); }
  }

  /** A fresh pending row, and the request that owns it if it is local. */
  lemma InsertedSafe(s: State, n: State, i: nat, x: Asset)
    requires Inv(s) && i !in s.drawn && x.event in s.db.events && x.status.Pending? && Shared(s, x.event)
    requires x.session in s.db.sessions && s.db.sessions[x.session].event == x.event
    requires x.request.Some? ==> x.backend.S3? && Requested(s.db.assets, x.session, x.request.value) == {}
    requires n == s.(db := s.db.(assets := s.db.assets[i := x]), drawn := s.drawn + {i}, ops := n.ops)
    requires n.ops == s.ops || (x.backend.Local? && exists link :: n.ops == s.ops[i := Reserved(x.event, link)])
    ensures Inv(n)
  {
    InsertTables(s.db, s.drawn, i, x);
    Undrawn(s, i);
    InsertStored(s, i, x);
    OpsKept(s, n, i);
    LocksKept(s, n, i);
  }

  ghost predicate Readies(s: State, n: State, i: nat, x: Asset) {
    && i in s.ops && s.ops[i].Published? && i in s.db.assets && x == s.db.assets[i].(status := Ready, size := s.ops[i].size)
    && n == s.(db := s.db.(assets := s.db.assets[i := x]), ops := n.ops)
    && (n.ops == s.ops - {i} || n.ops == s.ops[i := Failed(s.ops[i].event)])
  }

  lemma ReadiedOps(s: State, n: State, i: nat, x: Asset)
    requires Inv(s) && Readies(s, n, i, x)
    ensures OpsOk(n) && LocksOk(n)
  {
    assert OpOk(s, i, s.ops[i]);
    OpsKept(s, n, i);
    LocksKept(s, n, i);
  }

  /** The row of a published file becomes ready. */
  lemma ReadiedSafe(s: State, n: State, i: nat, x: Asset)
    requires Inv(s) && Readies(s, n, i, x)
    ensures Inv(n)
  {
    assert OpOk(s, i, s.ops[i]);
    RowTables(s.db, s.drawn, i, x);
    LocalReady(s.db, i, x, s.parts, s.finals, s.objects, s.issued);
    ReadiedOps(s, n, i, x);
  }

  /** The row of a verified object becomes ready. */
  lemma CompletedSafe(s: State, n: State, i: nat, x: Asset)
    requires Inv(s) && i in s.ops && s.ops[i].Verified? && i in s.db.assets
    requires x == s.db.assets[i].(status := Ready, size := s.ops[i].stored.size, media := s.ops[i].stored.media)
    requires n == s.(db := s.db.(assets := s.db.assets[i := x]), ops := s.ops - {i})
    ensures Inv(n)
  {
    assert OpOk(s, i, s.ops[i]);
    RowTables(s.db, s.drawn, i, x);
    DirectReady(s.db, i, x, s.parts, s.finals, s.objects, s.issued);
    OpsKept(s, n, i);
    LocksKept(s, n, i);
  }

  lemma JudgedOk(s: State, i: nat)
    requires OpsOk(s) && JudgeStep(s, i).Some?
    ensures var n := JudgeStep(s, i).value;
            n == s.(ops := n.ops) && (i in n.ops ==> n.ops == s.ops[i := n.ops[i]] && OpOk(n, i, n.ops[i])) && (i !in n.ops ==> n.ops == s.ops - {i})
  {
    assert OpOk(s, i, s.ops[i]);
  }

  /** An event's columns change, its lock holder appears. */
  lemma HeldSafe(s: State, n: State, e: nat, x: Event, deleting: bool)
    requires Inv(s) && Shared(s, e) && Quiet(s, e) && (deleting ==> e in s.db.events && x.deleting)
    requires n == s.(db := n.db, locks := s.locks[e := Holder(deleting, None)])
    requires n.db == s.db || (deleting && n.db == s.db.(events := s.db.events[e := x]))
    requires deleting ==> n.db == s.db.(events := s.db.events[e := x])
    ensures Inv(n)
  {
    EventTables(s.db, s.drawn, e, x);
    HeldOps(s, n, e, Holder(deleting, None));
    HeldLocks(s, n, e, deleting);
  }

  lemma HeldOps(s: State, n: State, e: nat, h: Holder)
    requires OpsOk(s) && Quiet(s, e) && n == s.(db := s.db.(events := n.db.events), locks := s.locks[e := h])
    ensures OpsOk(n)
  {
    forall i | i in n.ops ensures OpOk(n, i, n.ops[i]) { assert OpOk(s, i, s.ops[i]); }
  }

  lemma HeldLocks(s: State, n: State, e: nat, deleting: bool)
    requires LocksOk(s) && n == s.(db := s.db.(events := n.db.events), locks := s.locks[e := Holder(deleting, None)])
    requires deleting ==> e in n.db.events && n.db.events[e].deleting
    requires forall k :: k in s.db.events && k != e ==> k in n.db.events && n.db.events[k] == s.db.events[k]
    ensures LocksOk(n)
  {
    forall k | k in n.locks ensures HolderOk(n, k, n.locks[k]) { assert k != e ==> HolderOk(s, k, s.locks[k]); }
  }

  /** An event without assets goes, with its sessions. */
  lemma EventGone(d: Db, drawn: set<nat>, e: nat)
    requires TablesOk(d, drawn) && forall i :: i in d.assets ==> d.assets[i].event != e
    ensures TablesOk(DeleteEventTx(d, e), drawn) && DeleteEventTx(d, e).assets == d.assets
  {
    var n := DeleteEventTx(d, e);
    forall k | k in n.assets ensures RowOk(n, drawn, k) { assert RowOk(d, drawn, k); }
    forall k, l | k in n.assets && l in n.assets && SameRequest(n.assets[k], n.assets[l]) ensures k == l {
      assert SameRequest(d.assets[k], d.assets[l]);
    }
  }

  /** A pending row goes once nothing is stored for it but objects of a retired key. */
  lemma RemoveStored(s: State, i: nat)
    requires FilesOk(s.db, s.parts, s.finals) && ObjectsOk(s.db, s.objects, s.issued)
    requires i !in s.parts && i !in s.finals && (i in s.db.assets && s.db.assets[i].backend.S3? ==> i in s.db.retired)
    ensures FilesOk(RemoveTx(s.db, i), s.parts, s.finals) && ObjectsOk(RemoveTx(s.db, i), s.objects, s.issued)
  {}

  lemma DeleteStored(s: State, i: nat)
    requires ObjectsOk(s.db, s.objects, s.issued) && i in s.db.retired
    ensures ObjectsOk(s.db, s.objects - {i}, s.issued)
  {}

  lemma RejectStored(s: State, i: nat)
    requires ObjectsOk(s.db, s.objects, s.issued) && i in s.db.assets && s.db.assets[i].status.Pending?
    ensures ObjectsOk(s.db, s.objects - {i}, s.issued)
  {}

  // ---------------------------------------------------------------- steps

  lemma AddEventSafe(s: State, x: Event)
    requires Inv(s) && AddEventStep(s, x).Some?
    ensures Inv(AddEventStep(s, x).value)
  {
    var n := AddEventStep(s, x).value;
    EventTables(s.db, s.drawn, NextId(s.db.events.Keys), x);
    forall i | i in n.ops ensures OpOk(n, i, n.ops[i]) { assert OpOk(s, i, s.ops[i]); }
    forall e | e in n.locks ensures HolderOk(n, e, n.locks[e]) { assert HolderOk(s, e, s.locks[e]); }
  }

  lemma EditEventSafe(s: State, e: nat, x: Event)
    requires Inv(s) && EditEventStep(s, e, x).Some?
    ensures Inv(EditEventStep(s, e, x).value)
  {
    var n := EditEventStep(s, e, x).value;
    EventTables(s.db, s.drawn, e, x);
    forall i | i in n.ops ensures OpOk(n, i, n.ops[i]) { assert OpOk(s, i, s.ops[i]); }
    forall k | k in n.locks ensures HolderOk(n, k, n.locks[k]) { assert HolderOk(s, k, s.locks[k]); }
  }

  lemma OpenSessionSafe(s: State, i: nat, x: Session, link: nat, now: nat)
    requires Inv(s) && OpenSessionStep(s, i, x, link, now).Some?
    ensures Inv(OpenSessionStep(s, i, x, link, now).value)
  {
    var n := OpenSessionStep(s, i, x, link, now).value;
    forall k | k in n.db.assets ensures RowOk(n.db, n.drawn, k) { assert RowOk(s.db, s.drawn, k); }
    SessionsKept(s, n);
  }

  lemma ReclaimSafe(s: State, i: nat, now: nat)
    requires Inv(s) && ReclaimStep(s, i, now).Some?
    ensures Inv(ReclaimStep(s, i, now).value)
  {
    var n := ReclaimStep(s, i, now).value;
    forall k | k in n.db.assets ensures n.db.assets[k].session != i && RowOk(n.db, n.drawn, k) {
      assert k !in Members(s.db.assets, OfSession(i)) && RowOk(s.db, s.drawn, k);
    }
    SessionsKept(s, n);
  }

  lemma ReserveSafe(s: State, u: UploadRequest, i: nat, now: nat)
    requires Inv(s) && ReserveStep(s, u, i, now).Some?
    ensures Inv(ReserveStep(s, u, i, now).value)
  {
    var n := ReserveStep(s, u, i, now).value;
    InsertedSafe(s, n, i, n.db.assets[i]);
  }

  lemma OpenPartSafe(s: State, i: nat)
    requires Inv(s) && OpenPartStep(s, i).Some?
    ensures Inv(OpenPartStep(s, i).value)
  {
    var n := OpenPartStep(s, i).value;
    assert OpOk(s, i, s.ops[i]);
    OpsKept(s, n, i);
    LocksKept(s, n, i);
  }

  lemma WriteSafe(s: State, i: nat, size: nat)
    requires Inv(s) && WriteStep(s, i, size).Some?
    ensures Inv(WriteStep(s, i, size).value)
  {}

  lemma SealSafe(s: State, i: nat)
    requires Inv(s) && SealStep(s, i).Some?
    ensures Inv(SealStep(s, i).value)
  {
    assert i in s.ops ==> OpOk(s, i, s.ops[i]);
    OpMoves(s, SealStep(s, i).value, i);
  }

  lemma PublishOps(s: State, i: nat)
    requires Inv(s) && PublishStep(s, i).Some?
    ensures OpsOk(PublishStep(s, i).value) && LocksOk(PublishStep(s, i).value)
  {
    var n := PublishStep(s, i).value;
    assert OpOk(s, i, s.ops[i]);
    OpsKept(s, n, i);
    LocksKept(s, n, i);
  }

  lemma PublishSafe(s: State, i: nat)
    requires Inv(s) && PublishStep(s, i).Some?
    ensures Inv(PublishStep(s, i).value)
  {
    assert OpOk(s, i, s.ops[i]);
    PublishOps(s, i);
  }

  lemma FinishSafe(s: State, i: nat, now: nat, o: Outcome)
    requires Inv(s) && FinishStep(s, i, now, o).Some?
    ensures Inv(FinishStep(s, i, now, o).value)
  {
    var n := FinishStep(s, i, now, o).value;
    assert OpOk(s, i, s.ops[i]);
    if o.Refused? { OpMoves(s, n, i); }
    else { ReadiedSafe(s, n, i, s.db.assets[i].(status := Ready, size := s.ops[i].size)); }
  }

  lemma FailSafe(s: State, i: nat)
    requires Inv(s) && FailStep(s, i).Some?
    ensures Inv(FailStep(s, i).value)
  {
    assert i in s.ops ==> OpOk(s, i, s.ops[i]);
    OpMoves(s, FailStep(s, i).value, i);
  }

  lemma UndoSafe(s: State, i: nat)
    requires Inv(s) && UndoStep(s, i).Some?
    ensures Inv(UndoStep(s, i).value)
  {
    assert i in s.ops ==> OpOk(s, i, s.ops[i]);
    OpMoves(s, UndoStep(s, i).value, i);
  }

  lemma UndoPartSafe(s: State, i: nat)
    requires Inv(s) && UndoPartStep(s, i).Some?
    ensures Inv(UndoPartStep(s, i).value)
  {
    var n := UndoPartStep(s, i).value;
    assert OpOk(s, i, s.ops[i]);
    OpsKept(s, n, i);
    LocksKept(s, n, i);
  }

  lemma UndoFinalSafe(s: State, i: nat)
    requires Inv(s) && UndoFinalStep(s, i).Some?
    ensures Inv(UndoFinalStep(s, i).value)
  {
    var n := UndoFinalStep(s, i).value;
    assert OpOk(s, i, s.ops[i]);
    OpsKept(s, n, i);
    LocksKept(s, n, i);
  }

  lemma UndoRowSafe(s: State, i: nat)
    requires Inv(s) && UndoRowStep(s, i).Some?
    ensures Inv(UndoRowStep(s, i).value)
  {
    var n := UndoRowStep(s, i).value;
    assert OpOk(s, i, s.ops[i]);
    RemoveTables(s.db, s.drawn, i);
    RemoveStored(s, i);
    OpsKept(s, n, i);
    LocksKept(s, n, i);
  }

  lemma QuitSafe(s: State, i: nat)
    requires Inv(s) && QuitStep(s, i).Some?
    ensures Inv(QuitStep(s, i).value)
  {
    assert i in s.ops ==> OpOk(s, i, s.ops[i]);
    OpMoves(s, QuitStep(s, i).value, i);
  }

  lemma DrawnSafe(s: State, n: State)
    requires Inv(s) && n == s.(drawn := n.drawn) && s.drawn <= n.drawn
    ensures Inv(n)
  {
    forall k | k in n.db.assets ensures RowOk(n.db, n.drawn, k) { assert RowOk(s.db, s.drawn, k); }
    forall i | i in n.ops ensures OpOk(n, i, n.ops[i]) { assert OpOk(s, i, s.ops[i]); }
    forall k | k in n.locks ensures HolderOk(n, k, n.locks[k]) { assert HolderOk(s, k, s.locks[k]); }
  }

  lemma PrepareSafe(s: State, p: Preparation, i: nat, now: nat)
    requires Inv(s) && PrepareStep(s, p, i, now).Some?
    ensures Inv(PrepareStep(s, p, i, now).value)
  {
    var n := PrepareStep(s, p, i, now).value;
    if Requested(s.db.assets, p.session, p.request) == {} { InsertedSafe(s, n, i, n.db.assets[i]); }
    else { DrawnSafe(s, n); }
  }

  lemma AuthorizeSafe(s: State, e: nat, link: nat, u: nat, i: nat, until: nat, now: nat)
    requires Inv(s) && AuthorizeStep(s, e, link, u, i, until, now).Some?
    ensures Inv(AuthorizeStep(s, e, link, u, i, until, now).value)
  {
    var n := AuthorizeStep(s, e, link, u, i, until, now).value;
    RowTables(s.db, s.drawn, i, s.db.assets[i].(authorized := Some(until)));
    OpsKept(s, n, i);
    LocksKept(s, n, i);
  }

  lemma PutSafe(s: State, i: nat, o: Object)
    requires Inv(s) && PutStep(s, i, o).Some?
    ensures Inv(PutStep(s, i, o).value)
  {}

  lemma LoadSafe(s: State, e: nat, link: nat, u: nat, i: nat)
    requires Inv(s) && LoadStep(s, e, link, u, i).Some?
    ensures Inv(LoadStep(s, e, link, u, i).value)
  {
    OpMoves(s, LoadStep(s, e, link, u, i).value, i);
  }

  lemma HeadSafe(s: State, i: nat)
    requires Inv(s) && HeadStep(s, i).Some?
    ensures Inv(HeadStep(s, i).value)
  {
    assert i in s.ops ==> OpOk(s, i, s.ops[i]);
    OpMoves(s, HeadStep(s, i).value, i);
  }

  lemma JudgeSafe(s: State, i: nat)
    requires Inv(s) && JudgeStep(s, i).Some?
    ensures Inv(JudgeStep(s, i).value)
  {
    JudgedOk(s, i);
    OpMoves(s, JudgeStep(s, i).value, i);
  }

  lemma RejectOps(s: State, i: nat, o: Outcome)
    requires Inv(s) && RejectStep(s, i, o).Some?
    ensures OpsOk(RejectStep(s, i, o).value) && LocksOk(RejectStep(s, i, o).value)
  {
    var n := RejectStep(s, i, o).value;
    assert OpOk(s, i, s.ops[i]);
    OpsKept(s, n, i);
    LocksKept(s, n, i);
  }

  lemma RejectSafe(s: State, i: nat, o: Outcome)
    requires Inv(s) && RejectStep(s, i, o).Some?
    ensures Inv(RejectStep(s, i, o).value)
  {
    assert OpOk(s, i, s.ops[i]);
    RejectOps(s, i, o);
    RejectStored(s, i);
  }

  lemma CompleteSafe(s: State, i: nat, ceiling: nat)
    requires Inv(s) && CompleteStep(s, i, ceiling).Some?
    ensures Inv(CompleteStep(s, i, ceiling).value)
  {
    var n := CompleteStep(s, i, ceiling).value;
    var o := s.ops[i];
    if CompleteTx(s.db, o.row, o.link, i, o.stored.size, o.stored.media.value, ceiling).Err? { OpMoves(s, n, i); }
    else { CompletedSafe(s, n, i, n.db.assets[i]); }
  }

  lemma LockSafe(s: State, e: nat, deleting: bool)
    requires Inv(s) && LockStep(s, e, deleting).Some?
    ensures Inv(LockStep(s, e, deleting).value)
  {
    var n := LockStep(s, e, deleting).value;
    HeldSafe(s, n, e, if deleting then n.db.events[e] else Event(0, false, true, None, Limits(None, None), Limits(None, None), Limits(None, None), None, None), deleting);
  }

  lemma UnreadySafe(s: State, e: nat, i: nat)
    requires Inv(s) && UnreadyStep(s, e, i).Some?
    ensures Inv(UnreadyStep(s, e, i).value)
  {
    var n := UnreadyStep(s, e, i).value;
    RowTables(s.db, s.drawn, i, s.db.assets[i].(status := Pending));
    UnreadyHeld(s, n, e, i);
  }

  lemma UnreadyHeld(s: State, n: State, e: nat, i: nat)
    requires Inv(s) && UnreadyStep(s, e, i) == Some(n)
    ensures OpsOk(n) && LocksOk(n)
  {
    assert HolderOk(s, e, s.locks[e]);
    HolderMoves(s, n, e, i);
  }

  lemma ChooseSafe(s: State, e: nat, i: nat, now: nat)
    requires Inv(s) && ChooseStep(s, e, i, now).Some?
    ensures Inv(ChooseStep(s, e, i, now).value)
  {}

  lemma RemovePartSafe(s: State, e: nat)
    requires Inv(s) && RemovePartStep(s, e).Some?
    ensures Inv(RemovePartStep(s, e).value)
  {
    assert HolderOk(s, e, s.locks[e]);
    HolderMoves(s, RemovePartStep(s, e).value, e, Target(s, e));
  }

  lemma RemoveFinalSafe(s: State, e: nat)
    requires Inv(s) && RemoveFinalStep(s, e).Some?
    ensures Inv(RemoveFinalStep(s, e).value)
  {
    assert HolderOk(s, e, s.locks[e]);
    HolderMoves(s, RemoveFinalStep(s, e).value, e, Target(s, e));
  }

  lemma RetireSafe(s: State, e: nat)
    requires Inv(s) && RetireStep(s, e).Some?
    ensures Inv(RetireStep(s, e).value)
  {}

  lemma DeleteObjectSafe(s: State, e: nat, o: Outcome)
    requires Inv(s) && DeleteObjectStep(s, e, o).Some?
    ensures Inv(DeleteObjectStep(s, e, o).value)
  {
    assert HolderOk(s, e, s.locks[e]);
    DeleteStored(s, Target(s, e));
    HolderMoves(s, DeleteObjectStep(s, e, o).value, e, Target(s, e));
  }

  lemma RemoveRowSafe(s: State, e: nat)
    requires Inv(s) && RemoveRowStep(s, e).Some?
    ensures Inv(RemoveRowStep(s, e).value)
  {
    assert HolderOk(s, e, s.locks[e]);
    RemoveTables(s.db, s.drawn, Target(s, e));
    RemoveStored(s, Target(s, e));
    HolderMoves(s, RemoveRowStep(s, e).value, e, Target(s, e));
  }

  lemma AbandonSafe(s: State, e: nat)
    requires Inv(s) && AbandonStep(s, e).Some?
    ensures Inv(AbandonStep(s, e).value)
  {}

  lemma UnlockSafe(s: State, e: nat)
    requires Inv(s) && UnlockStep(s, e).Some?
    ensures Inv(UnlockStep(s, e).value)
  {}

  lemma DeleteEventSafe(s: State, e: nat)
    requires Inv(s) && DeleteEventStep(s, e).Some?
    ensures Inv(DeleteEventStep(s, e).value)
  {
    var n := DeleteEventStep(s, e).value;
    EventGone(s.db, s.drawn, e);
    forall i | i in n.ops ensures OpOk(n, i, n.ops[i]) { assert OpOk(s, i, s.ops[i]); }
    forall k | k in n.locks ensures HolderOk(n, k, n.locks[k]) { assert HolderOk(s, k, s.locks[k]); }
  }

  lemma RetiredDeleteSafe(s: State, i: nat, o: Outcome)
    requires Inv(s) && RetiredDeleteStep(s, i, o).Some?
    ensures Inv(RetiredDeleteStep(s, i, o).value)
  {
    RetiredDeleteHeld(s, i);
  }

  lemma RetiredDeleteHeld(s: State, i: nat)
    requires Inv(s) && i in s.db.retired
    ensures OpsOk(s.(objects := s.objects - {i})) && LocksOk(s.(objects := s.objects - {i}))
  {
    var n := s.(objects := s.objects - {i});
    forall k | k in n.ops ensures OpOk(n, k, n.ops[k]) { assert OpOk(s, k, s.ops[k]); }
    forall e | e in n.locks ensures HolderOk(n, e, n.locks[e]) { assert HolderOk(s, e, s.locks[e]); }
  }

  lemma CrashSafe(s: State)
    requires Inv(s)
    ensures Inv(CrashStep(s))
  {}
}
