/** A ready S3 asset can lose its object exactly when its key is retired. That state is reachable: cleanup retires a stale
    key, its DELETE fails, the row stays pending, and the guest completes it later. */
module MediaLoss {
  import opened Wrappers
  import opened Ordered
  import opened MediaModel
  import opened MediaSteps
  import opened MediaInvariant
  import opened MediaHistory
  import opened MediaTheorems
  import opened MediaRuns

  ghost predicate ReadyDirect(s: State, i: nat) { i in s.db.assets && s.db.assets[i].backend.S3? && s.db.assets[i].status.Ready? }

  /** Some step deletes the object of the ready asset `i`. */
  ghost predicate CanLose(s: State, i: nat) {
    exists t :: Next(s, t).Some? && i in Next(s, t).value.db.assets && Next(s, t).value.db.assets[i].status.Ready? && i !in Next(s, t).value.objects
  }

  /** A key is retired on a pending row only. */
  lemma RetiresPending(s: State, t: Step, i: nat)
    requires Inv(s) && Next(s, t).Some? && i in s.db.assets && s.db.assets[i].status.Ready? && i !in s.db.retired
    ensures i !in Next(s, t).value.db.retired
  {
    if t.Retire? { assert HolderOk(s, t.e, s.locks[t.e]); } else { SameRetired(s, t); }
  }

  lemma SameRetired(s: State, t: Step)
    requires Next(s, t).Some? && !t.Retire?
    ensures Next(s, t).value.db.retired == s.db.retired
  {
    if IsPublic(t) { PublicRetired(s, t); }
    else if IsUpload(t) || IsEnding(t) { UploadRetired(s, t); }
    else if IsCompletion(t) { CompletionRetired(s, t); }
    else { HolderRetired(s, t); }
  }

  lemma PublicRetired(s: State, t: Step)
    requires IsPublic(t) && Next(s, t).Some?
    ensures Next(s, t).value.db.retired == s.db.retired
  {}

  lemma UploadRetired(s: State, t: Step)
    requires (IsUpload(t) || IsEnding(t)) && Next(s, t).Some?
    ensures Next(s, t).value.db.retired == s.db.retired
  {}

  lemma CompletionRetired(s: State, t: Step)
    requires IsCompletion(t) && Next(s, t).Some?
    ensures Next(s, t).value.db.retired == s.db.retired
  {}

  lemma HolderRetired(s: State, t: Step)
    requires (IsExclusive(t) || IsDeletion(t)) && !t.Retire? && Next(s, t).Some?
    ensures Next(s, t).value.db.retired == s.db.retired
  {}

  lemma KeptUnlessRetired(s: State, t: Step, i: nat)
    requires Inv(s) && ReadyDirect(s, i) && i !in s.db.retired && Next(s, t).Some?
    requires i in Next(s, t).value.db.assets && Next(s, t).value.db.assets[i].status.Ready?
    ensures i in Next(s, t).value.objects
  {
    RetiresPending(s, t, i);
    StepKeeps(s, t);
    assert RowOk(s.db, s.drawn, i);
    assert AssetKept(s, Next(s, t).value, i);
  }

  lemma LossExactly(ts: seq<Step>, s: State, i: nat)
    requires Reaches(ts, s) && ReadyDirect(s, i) && i in s.objects
    ensures CanLose(s, i) <==> i in s.db.retired
  {
    ReachedInv(ts, s);
    if i in s.db.retired {
      var n := RetiredDeleteStep(s, i, Answered).value;
      assert Next(s, RetiredDelete(i, Answered)) == Some(n);
    } else {
      forall t | Next(s, t).Some? && i in Next(s, t).value.db.assets && Next(s, t).value.db.assets[i].status.Ready? ensures i in Next(s, t).value.objects {
        KeptUnlessRetired(s, t, i);
      }
    }
  }

  // ---------------------------------------------------------------- the state is reachable

  const UNLIMITED := Limits(None, None)
  const EVENT := Event(3, true, false, None, UNLIMITED, UNLIMITED, UNLIMITED, None, None)
  const SESSION := Session(1, 100_000, UNLIMITED)
  const META := Meta("photo.jpg", "image/jpeg")
  const PENDING := Asset(1, 5, S3, Status.Pending, 0, 9, Some(Photo), Some(11), META, 0, None)
  const ISSUED := PENDING.(authorized := Some(10))
  const DONE := ISSUED.(status := Ready, size := 9)
  const OBJECT := Object(9, 77, Some(Photo))
  const LATER: nat := 10_000

  /** Asset 7 of event 1 and session 5. */
  function Scene(a: Asset, retired: set<nat>, objects: map<nat, Object>, ops: map<nat, Op>, locks: map<nat, Holder>): State {
    State(Db(map[1 := EVENT], map[5 := SESSION], map[7 := a], retired), map[], map[], objects, {7}, {5, 7}, ops, locks)
  }

  const OPENED := State(Db(map[1 := EVENT], map[5 := SESSION], map[], {}), map[], map[], map[], {}, {5}, map[], map[])
  const UPLOADED := Scene(ISSUED, {}, map[7 := OBJECT], map[], map[])
  const RETIRED := Scene(ISSUED, {7}, map[7 := OBJECT], map[], map[])
  const COMPLETED := Scene(DONE, {7}, map[7 := OBJECT], map[], map[])
  const LOST := Scene(DONE, {7}, map[], map[], map[])

  lemma Singles<V>(k: nat, v: V, w: V)
    ensures var m: map<nat, V> := map[]; m[k := v] == map[k := v]
    ensures forall s: set<nat> :: {} + s == s
    ensures var m: map<nat, V> := map[k := v]; m[k := w] == map[k := w] && m - {k} == map[]
  {}

  lemma Opening()
    ensures Leads(START, OPENED)
  {
    var a := START.(db := START.db.(events := map[1 := EVENT]));
    assert START.db.events.Keys == {} && NextId({}) == 1;
    Singles(1, EVENT, EVENT);
    Singles(5, SESSION, SESSION);
    assert AddEventStep(START, EVENT) == Some(a);
    AddEventLeads(START, EVENT);
    assert OpenSessionStep(a, 5, SESSION, 3, 0) == Some(OPENED);
    OpenSessionLeads(a, 5, SESSION, 3, 0);
    LeadsOn(START, a, OPENED);
  }

  const PREPARATION := Preparation(1, 3, 5, 11, META, Photo, 9, 100)
  const PREPARED := Scene(PENDING, {}, map[], map[], map[]).(issued := {})
  const AUTHORIZED := Scene(ISSUED, {}, map[], map[], map[])

  lemma Preparing()
    ensures PrepareStep(OPENED, PREPARATION, 7, 0) == Some(PREPARED)
  {
    assert Requested(OPENED.db.assets, 5, 11) == {};
    Singles(7, PENDING, PENDING);
    assert {5} + {7} == {5, 7};
    assert MediaModel.Reserve(OPENED.db, 1, 5, 9, Photo).None?;
  }

  lemma Authorizing()
    ensures AuthorizeStep(PREPARED, 1, 3, 5, 7, 10, 0) == Some(AUTHORIZED)
    ensures PutStep(AUTHORIZED, 7, OBJECT) == Some(UPLOADED)
  {
    Singles(7, PENDING, ISSUED);
    Singles(7, OBJECT, OBJECT);
  }

  lemma Uploads()
    ensures Leads(OPENED, UPLOADED)
  {
    Preparing();
    Authorizing();
    PrepareLeads(OPENED, PREPARATION, 7, 0);
    AuthorizeLeads(PREPARED, 1, 3, 5, 7, 10, 0);
    LeadsOn(OPENED, PREPARED, AUTHORIZED);
    PutLeads(AUTHORIZED, 7, OBJECT);
    LeadsOn(OPENED, AUTHORIZED, UPLOADED);
  }

  function Working(r: Removal): State { Scene(ISSUED, if r.Checked? then {} else {7}, map[7 := OBJECT], map[], map[1 := Holder(false, Some((7, r)))]) }

  function Resting(retired: set<nat>): State { Scene(ISSUED, retired, map[7 := OBJECT], map[], map[1 := Holder(false, None)]) }

  lemma Choosing()
    ensures LockStep(UPLOADED, 1, false) == Some(Resting({}))
    ensures ChooseStep(Resting({}), 1, 7, LATER) == Some(Working(Checked))
  {
    Singles(1, Holder(false, None), Holder(false, Some((7, Checked))));
  }

  lemma Retiring()
    ensures RetireStep(Working(Checked), 1) == Some(Working(Retired))
  {
    Singles(1, Holder(false, Some((7, Checked))), Holder(false, Some((7, Retired))));
    assert RetireTx(Working(Checked).db, 7) == Working(Retired).db;
  }

  lemma Retires()
    ensures Leads(UPLOADED, Working(Retired))
  {
    Choosing();
    Retiring();
    LockLeads(UPLOADED, 1, false);
    ChooseLeads(Resting({}), 1, 7, LATER);
    LeadsOn(UPLOADED, Resting({}), Working(Checked));
    RetireLeads(Working(Checked), 1);
    LeadsOn(UPLOADED, Working(Checked), Working(Retired));
  }

  lemma DeleteFails()
    ensures Leads(Working(Retired), RETIRED)
  {
    Singles(1, Holder(false, Some((7, Retired))), Holder(false, None));
    Singles(1, Holder(false, None), Holder(false, None));
    assert DeleteObjectStep(Working(Retired), 1, Refused) == Some(Resting({7}));
    DeleteObjectLeads(Working(Retired), 1, Refused);
    assert UnlockStep(Resting({7}), 1) == Some(RETIRED);
    UnlockLeads(Resting({7}), 1);
    LeadsOn(Working(Retired), Resting({7}), RETIRED);
  }

  function Completing(o: Op): State { Scene(ISSUED, {7}, map[7 := OBJECT], map[7 := o], map[]) }

  lemma Loads7()
    ensures Leads(RETIRED, Completing(Headed(1, 3, ISSUED, OBJECT)))
  {
    Singles(7, Loaded(1, 3, ISSUED), Headed(1, 3, ISSUED, OBJECT));
    assert LoadStep(RETIRED, 1, 3, 5, 7) == Some(Completing(Loaded(1, 3, ISSUED)));
    LoadLeads(RETIRED, 1, 3, 5, 7);
    assert HeadStep(Completing(Loaded(1, 3, ISSUED)), 7) == Some(Completing(Headed(1, 3, ISSUED, OBJECT)));
    HeadLeads(Completing(Loaded(1, 3, ISSUED)), 7);
    LeadsOn(RETIRED, Completing(Loaded(1, 3, ISSUED)), Completing(Headed(1, 3, ISSUED, OBJECT)));
  }

  lemma Completes()
    ensures Leads(Completing(Headed(1, 3, ISSUED, OBJECT)), COMPLETED)
  {
    var v := Completing(Verified(1, 3, ISSUED, OBJECT));
    Singles(7, Headed(1, 3, ISSUED, OBJECT), Verified(1, 3, ISSUED, OBJECT));
    Singles(7, Verified(1, 3, ISSUED, OBJECT), Verified(1, 3, ISSUED, OBJECT));
    Singles(7, ISSUED, DONE);
    assert JudgeStep(Completing(Headed(1, 3, ISSUED, OBJECT)), 7) == Some(v);
    JudgeLeads(Completing(Headed(1, 3, ISSUED, OBJECT)), 7);
    assert CompleteStep(v, 7, 100) == Some(COMPLETED);
    CompleteLeads(v, 7, 100);
    LeadsOn(Completing(Headed(1, 3, ISSUED, OBJECT)), v, COMPLETED);
  }

  /** A run from empty tables that ends with a ready asset whose object is gone. */
  lemma LossWitness()
    ensures exists ts, n :: Reaches(ts, n) && ReadyDirect(n, 7) && 7 !in n.objects
  {
    Opening();
    Uploads();
    Retires();
    DeleteFails();
    Loads7();
    Completes();
    LeadsOn(START, OPENED, UPLOADED);
    LeadsOn(START, UPLOADED, Working(Retired));
    LeadsOn(START, Working(Retired), RETIRED);
    LeadsOn(START, RETIRED, Completing(Headed(1, 3, ISSUED, OBJECT)));
    LeadsOn(START, Completing(Headed(1, 3, ISSUED, OBJECT)), COMPLETED);
    assert RetiredDeleteStep(COMPLETED, 7, Answered) == Some(LOST);
    RetiredDeleteLeads(COMPLETED, 7, Answered);
    LeadsOn(START, COMPLETED, LOST);
    var ts :| Run(START, ts) == Some(LOST);
    assert Reaches(ts, LOST);
  }
}
