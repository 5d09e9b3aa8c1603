/** Event deletion can always finish: whatever crashes and failures came before, an event no request is working on can be
    deleted, leaving nothing of it behind but retired keys. */
module MediaDeletion {
  import opened Wrappers
  import opened Ordered
  import opened MediaModel
  import opened MediaSteps
  import opened MediaInvariant
  import opened MediaSafety
  import opened MediaTheorems
  import opened MediaRuns

  /** Assets of other events, their files and objects are as they were. */
  ghost predicate Untouched(s: State, n: State, e: nat) {
    forall i :: i in s.db.assets && s.db.assets[i].event != e ==>
      && i in n.db.assets && n.db.assets[i] == s.db.assets[i]
      && (i in s.finals <==> i in n.finals) && (i in s.finals ==> n.finals[i] == s.finals[i])
      && (i in s.objects <==> i in n.objects) && (i in s.objects ==> n.objects[i] == s.objects[i])
  }

  /** From `s`, steps that touch only asset `i` lead to `n`. */
  ghost predicate Onward(s: State, n: State, i: nat) { Inv(n) && Leads(s, n) && Elsewhere(s, n, i) }

  predicate At(s: State, e: nat, i: nat, d: bool, r: Removal) {
    e in s.locks && s.locks[e] == Holder(d, Some((i, r))) && i in s.db.assets && s.db.assets[i].event == e
  }

  predicate AtRest(s: State, e: nat, d: bool) { e in s.locks && s.locks[e] == Holder(d, None) }

  lemma Then(s: State, n: State, m: State, i: nat)
    requires Onward(s, n, i) && Onward(n, m, i)
    ensures Onward(s, m, i)
  {
    LeadsOn(s, n, m);
    forall k | k != i ensures SameAt(s, m, k) { assert SameAt(s, n, k) && SameAt(n, m, k); }
  }

  lemma Unreadied(s: State, e: nat, i: nat) returns (n: State)
    requires Inv(s) && AtRest(s, e, true) && i in s.db.assets && s.db.assets[i].event == e
    ensures Onward(s, n, i) && AtRest(n, e, true) && n.db.assets == s.db.assets[i := s.db.assets[i].(status := Pending)]
  {
    n := UnreadyStep(s, e, i).value;
    UnreadyLeads(s, e, i);
    UnreadySafe(s, e, i);
  }

  lemma Chosen(s: State, e: nat, i: nat, d: bool, now: nat) returns (n: State)
    requires Inv(s) && AtRest(s, e, d) && i in s.db.assets && s.db.assets[i].event == e && s.db.assets[i].status.Pending?
    requires d || Stale(s.db.assets[i], now)
    ensures Onward(s, n, i) && At(n, e, i, d, Checked) && n.db.assets == s.db.assets
  {
    n := ChooseStep(s, e, i, now).value;
    ChooseLeads(s, e, i, now);
    ChooseSafe(s, e, i, now);
  }

  lemma PartOff(s: State, e: nat, i: nat, d: bool) returns (n: State)
    requires Inv(s) && At(s, e, i, d, Checked) && s.db.assets[i].backend.Local?
    ensures Onward(s, n, i) && At(n, e, i, d, PartGone) && n.db.assets == s.db.assets
  {
    n := RemovePartStep(s, e).value;
    RemovePartLeads(s, e);
    RemovePartSafe(s, e);
  }

  lemma FinalOff(s: State, e: nat, i: nat, d: bool) returns (n: State)
    requires Inv(s) && At(s, e, i, d, PartGone)
    ensures Onward(s, n, i) && At(n, e, i, d, FinalGone) && n.db.assets == s.db.assets
  {
    n := RemoveFinalStep(s, e).value;
    RemoveFinalLeads(s, e);
    RemoveFinalSafe(s, e);
  }

  lemma KeyRetired(s: State, e: nat, i: nat, d: bool) returns (n: State)
    requires Inv(s) && At(s, e, i, d, Checked) && s.db.assets[i].backend.S3?
    ensures Onward(s, n, i) && At(n, e, i, d, Retired) && n.db.assets == s.db.assets
  {
    n := RetireStep(s, e).value;
    RetireLeads(s, e);
    RetireSafe(s, e);
  }

  lemma ObjectOff(s: State, e: nat, i: nat, d: bool) returns (n: State)
    requires Inv(s) && At(s, e, i, d, Retired)
    ensures Onward(s, n, i) && At(n, e, i, d, ObjectGone) && n.db.assets == s.db.assets
  {
    n := DeleteObjectStep(s, e, Answered).value;
    DeleteObjectLeads(s, e, Answered);
    DeleteObjectSafe(s, e, Answered);
  }

  lemma RowOff(s: State, e: nat, i: nat, d: bool) returns (n: State)
    requires Inv(s) && (At(s, e, i, d, FinalGone) || At(s, e, i, d, ObjectGone))
    ensures Onward(s, n, i) && AtRest(n, e, d) && n.db.assets == s.db.assets - {i}
  {
    HeldPending(s, e);
    RowElsewhere(s, e, i, d);
    n := RemoveRowStep(s, e).value;
    RemoveRowLeads(s, e);
    RemoveRowSafe(s, e);
  }

  lemma RowElsewhere(s: State, e: nat, i: nat, d: bool)
    requires (At(s, e, i, d, FinalGone) || At(s, e, i, d, ObjectGone)) && s.db.assets[i].status.Pending?
    ensures RemoveRowStep(s, e).Some? && Elsewhere(s, RemoveRowStep(s, e).value, i)
    ensures AtRest(RemoveRowStep(s, e).value, e, d) && RemoveRowStep(s, e).value.db.assets == s.db.assets - {i}
  {}

  /** The row being removed is there and pending. */
  lemma HeldPending(s: State, e: nat)
    requires LocksOk(s) && e in s.locks && s.locks[e].job.Some?
    ensures var i := s.locks[e].job.value.0; i in s.db.assets && s.db.assets[i].status.Pending? && s.db.assets[i].event == e
  {
    assert HolderOk(s, e, s.locks[e]);
  }

  /** removeAttempt runs to its end. */
  lemma Removed(s: State, e: nat, i: nat, d: bool) returns (n: State)
    requires Inv(s) && At(s, e, i, d, Checked)
    ensures Onward(s, n, i) && AtRest(n, e, d) && n.db.assets == s.db.assets - {i}
  {
    var a, b;
    if s.db.assets[i].backend.Local? {
      a := PartOff(s, e, i, d);
      b := FinalOff(a, e, i, d);
    } else {
      a := KeyRetired(s, e, i, d);
      b := ObjectOff(a, e, i, d);
    }
    Then(s, a, b, i);
    n := RowOff(b, e, i, d);
    Then(s, b, n, i);
  }

  /** Steps that touch only event `e`. */
  ghost predicate Within(s: State, n: State, e: nat) { Inv(n) && Leads(s, n) && Untouched(s, n, e) }

  lemma WithinOne(s: State, n: State, e: nat, i: nat)
    requires Onward(s, n, i) && (i in s.db.assets ==> s.db.assets[i].event == e)
    ensures Within(s, n, e)
  {
    forall k | k in s.db.assets && s.db.assets[k].event != e ensures SameAt(s, n, k) {}
  }

  lemma WithinOn(s: State, n: State, m: State, e: nat)
    requires Within(s, n, e) && Within(n, m, e)
    ensures Within(s, m, e)
  {
    LeadsOn(s, n, m);
  }

  lemma MemberOff(s: State, e: nat, i: nat) returns (n: State)
    requires Inv(s) && AtRest(s, e, true) && i in s.db.assets && s.db.assets[i].event == e
    ensures Onward(s, n, i) && AtRest(n, e, true) && n.db.assets == s.db.assets - {i}
  {
    var a := Unreadied(s, e, i);
    var b := Chosen(a, e, i, true, 0);
    Then(s, a, b, i);
    n := Removed(b, e, i, true);
    Then(s, b, n, i);
  }

  lemma AssetOff(s: State, e: nat) returns (n: State)
    requires Inv(s) && AtRest(s, e, true) && Members(s.db.assets, OfEvent(e)) != {}
    ensures Within(s, n, e) && AtRest(n, e, true) && Members(n.db.assets, OfEvent(e)) < Members(s.db.assets, OfEvent(e))
  {
    var i := Min(Members(s.db.assets, OfEvent(e)));
    n := MemberOff(s, e, i);
    WithinOne(s, n, e, i);
    assert Members(n.db.assets, OfEvent(e)) == Members(s.db.assets, OfEvent(e)) - {i};
  }

  /** Every asset of the event can be removed, one after the other. */
  lemma {:induction false} Drained(s: State, e: nat) returns (n: State)
    requires Inv(s) && AtRest(s, e, true)
    ensures Within(s, n, e) && AtRest(n, e, true) && Members(n.db.assets, OfEvent(e)) == {}
    decreases |Members(s.db.assets, OfEvent(e))|
  {
    if Members(s.db.assets, OfEvent(e)) == {} {
      LeadsSelf(s);
      return s;
    }
    var a := AssetOff(s, e);
    SmallerSet(Members(a.db.assets, OfEvent(e)), Members(s.db.assets, OfEvent(e)));
    n := Drained(a, e);
    WithinOn(s, a, n, e);
  }

  lemma EventEnds(s: State, e: nat) returns (n: State)
    requires Inv(s) && AtRest(s, e, true) && Members(s.db.assets, OfEvent(e)) == {}
    ensures Within(s, n, e) && e !in n.db.events
  {
    forall i | i in s.db.assets ensures s.db.assets[i].event != e { assert i !in Members(s.db.assets, OfEvent(e)); }
    n := DeleteEventStep(s, e).value;
    EventGone(s.db, s.drawn, e);
    DeleteEventLeads(s, e);
    DeleteEventSafe(s, e);
  }

  lemma Locked(s: State, e: nat, d: bool) returns (n: State)
    requires Inv(s) && Shared(s, e) && Quiet(s, e) && e in s.db.events
    ensures Inv(n) && Leads(s, n) && AtRest(n, e, d)
    ensures n.db.assets == s.db.assets && n.parts == s.parts && n.finals == s.finals && n.objects == s.objects
  {
    n := LockStep(s, e, d).value;
    LockLeads(s, e, d);
    LockSafe(s, e, d);
  }

  /** Nothing of a deleted event is left on disk or in the tables. */
  ghost predicate Gone(n: State, e: nat) {
    && e !in n.db.events && (forall i :: i in n.db.assets ==> n.db.assets[i].event != e)
    && (forall i :: i in n.finals || i in n.parts ==> i in n.db.assets)
  }

  lemma Emptied(n: State, e: nat)
    requires Inv(n) && e !in n.db.events
    ensures Gone(n, e)
  {
    assert forall i :: i in n.finals || i in n.parts ==> IsLocal(n.db, i);
    assert forall i :: i in n.db.assets ==> RowOk(n.db, n.drawn, i);
  }

  lemma Deletable(s: State, e: nat) returns (n: State)
    requires Inv(s) && Shared(s, e) && Quiet(s, e) && e in s.db.events
    ensures Within(s, n, e) && e !in n.db.events
  {
    var a := Locked(s, e, true);
    var b := Drained(a, e);
    WithinOn(s, a, b, e);
    n := EventEnds(b, e);
    WithinOn(s, b, n, e);
  }

  /** From any reachable state, deletion of an event that is not busy can run to the end: the event, its assets and their
      files are gone, and other events' media is untouched. After a crash no event is busy. */
  lemma DeletionFinishes(ts: seq<Step>, s: State, e: nat)
    requires Reaches(ts, s) && Shared(s, e) && Quiet(s, e) && e in s.db.events
    ensures exists n :: Leads(s, n) && Untouched(s, n, e) && Gone(n, e)
  {
    ReachedInv(ts, s);
    var n := Deletable(s, e);
    Emptied(n, e);
  }

  /** A stale pending row of an event that is not busy can be removed with its files or object; an object of a retired key
      is all that can remain. */
  lemma CleanupFinishes(ts: seq<Step>, s: State, i: nat, now: nat)
    requires Reaches(ts, s) && i in s.db.assets && Stale(s.db.assets[i], now)
    requires Shared(s, s.db.assets[i].event) && Quiet(s, s.db.assets[i].event)
    ensures exists n :: Leads(s, n) && n.db.assets == s.db.assets - {i} && i !in n.parts && i !in n.finals && (i in n.objects ==> i in n.db.retired)
  {
    ReachedInv(ts, s);
    var e := s.db.assets[i].event;
    var a := Locked(s, e, false);
    var b := Chosen(a, e, i, false, now);
    LeadsOn(s, a, b);
    var n := Removed(b, e, i, false);
    LeadsOn(s, b, n);
    assert i in n.objects ==> Known(n.db, i);
    assert i in n.finals || i in n.parts ==> IsLocal(n.db, i);
  }
}
