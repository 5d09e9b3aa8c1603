/** The promises that can break because SQLite gives a deleted row's id to the next row: what exactly breaks them, and runs
    that do. */
module ImmichReuse {
  import opened Wrappers
  import opened Ordered
  import opened ImmichModel
  import opened ImmichSteps
  import opened ImmichInvariant
  import opened ImmichTables
  import opened ImmichSafety
  import opened ImmichOwnership
  import opened ImmichRuns
  import opened ImmichTheorems

  // ---------------------------------------------------------------- an enqueue after the claimed event is deleted

  lemma EnqueueLands(db: Db, r: Request)
    requires EnqueueTx(db, r).Ok?
    ensures var n := EnqueueTx(db, r).value;
            Landing(db, r) in n.bindings && n.jobs.Keys == db.jobs.Keys + {NextId(db.jobs.Keys)}
            && n.jobs[NextId(db.jobs.Keys)].binding == Landing(db, r) && !n.jobs[NextId(db.jobs.Keys)].cancel
  {}

  /** The claimed job fails before its snapshot and ends. */
  function Ended(s: State): State
    requires s.exec.Exec? && s.exec.phase.Claimed? && !s.stopping
  {
    FinishStep(FailEarlyStep(s).value).value
  }

  lemma EndedOwned(s: State)
    requires Inv(s) && Owned(s.db) && s.exec.Exec? && s.exec.phase.Claimed? && !s.stopping
    ensures Owned(Ended(s).db) <==> EndsOwn(s.db, s.exec.job, s.exec.binding, true)
  {
    FailEarlySafe(s);
    EndOwned(FailEarlyStep(s).value);
  }

  /** The event of a claimed job is deleted before its snapshot, an enqueue is accepted, and the claimed job ends. Every open
      row is still owned exactly if the new job did not get the claimed id, or works on the claimed binding id as well, or
      selected no row. */
  lemma ReuseExactly(s: State, r: Request)
    requires Inv(s) && Owned(s.db) && s.exec.Exec? && s.exec.phase.Claimed? && !s.stopping
    requires s.exec.binding !in s.db.bindings && s.exec.job !in s.db.jobs && EnqueueStep(s, r).Some?
    ensures Owned(Ended(EnqueueStep(s, r).value).db) <==>
              NextId(s.db.jobs.Keys) != s.exec.job || Landing(s.db, r) == s.exec.binding
              || !OpenRows(EnqueueTx(s.db, r).value.bindings[Landing(s.db, r)])
  {
    EnqueueLands(s.db, r);
    EnqueueSafe(s, r);
    EnqueueOwned(s.db, r);
    EndedOwned(EnqueueStep(s, r).value);
  }

  lemma OwnJobEnded(n: State)
    requires Inv(n) && Owned(n.db) && OwnJob(n) && n.exec.Exec? && n.exec.phase.Claimed? && !n.stopping
    ensures Owned(Ended(n).db)
  {
    FailEarlySafe(n);
    OwnJobEnds(FailEarlyStep(n).value);
    EndedOwned(n);
  }

  lemma CreatedOwnJob(s: State, name: string, r: Request, auto: bool, n: State)
    requires Inv(s) && s.exec.Exec? && s.exec.job !in s.db.jobs && CreateEventStep(s, name, r, auto) == Some(n)
    ensures OwnJob(n)
  {
    StepOwnIds(s, CreateEvent(name, r, auto));
  }

  /** A new event with its album job takes nothing from anyone, whatever ids it gets. */
  lemma CreateEventHarmless(s: State, name: string, r: Request, auto: bool, n: State)
    requires Inv(s) && Owned(s.db) && s.exec.Exec? && s.exec.phase.Claimed? && !s.stopping
    requires s.exec.job !in s.db.jobs && CreateEventStep(s, name, r, auto) == Some(n)
    ensures n.exec == s.exec && n.stopping == s.stopping && Owned(Ended(n).db)
  {
    CreateEventSafe(s, name, r, auto);
    CreateEventOwned(s.db, name, r, auto);
    CreatedOwnJob(s, name, r, auto, n);
    OwnJobEnded(n);
  }

  // ---------------------------------------------------------------- a run that takes a job from its rows

  lemma NextIdIs(s: set<nat>, m: nat)
    requires m in s && forall k :: k in s ==> k <= m
    ensures NextId(s) == m + 1
  {}

  const MEDIA: nat := 7
  const SETUP := Request(1, 0, "album", "new", true, true, true, true, 101)
  const SECOND := Request(2, 0, "other", "new", true, true, true, true, 102)
  const MANUAL := Request(1, 0, "album", "new", false, true, true, true, 103)

  const FIRST_BINDING := Binding(1, 0, "album", 101, false, NewAlbum, None, map[])
  const SECOND_BINDING := Binding(2, 0, "other", 102, false, NewAlbum, None, map[])

  function Witness(events: map<nat, Event>, bindings: map<nat, Binding>, jobs: map<nat, Job>, exec: Exec, markers: set<nat>): State {
    State(Db(events, map[MEDIA := Asset(1, true, 50, 0)], bindings, jobs), START.remote, true, false, exec, {MEDIA}, markers)
  }

  const ONE_EVENT := map[1 := Event("a", false)]
  const BOTH_EVENTS := map[1 := Event("a", false), 2 := Event("b", false)]
  const FAILED_JOB := Job(1, NewMedia, true, JobFailed, false)

  /** An album job of event 1 fails before its snapshot. */
  const AFTER_FIRST := Witness(ONE_EVENT, map[1 := FIRST_BINDING], map[1 := FAILED_JOB], Idle, {101})
  /** Job 2, of event 2, is claimed. */
  const CLAIMED_SECOND := Witness(BOTH_EVENTS, map[1 := FIRST_BINDING, 2 := SECOND_BINDING],
                                  map[1 := FAILED_JOB, 2 := Job(2, NewMedia, true, Running, false)],
                                  Exec(2, 2, 2, 102, true, Claimed, false), {101, 102})
  /** Event 2 is deleted, and with it binding 2 and job 2. */
  const FREED := Witness(ONE_EVENT, map[1 := FIRST_BINDING], map[1 := FAILED_JOB], Exec(2, 2, 2, 102, true, Claimed, false), {101, 102})

  const QUEUED_FIRST := Witness(ONE_EVENT, map[1 := FIRST_BINDING], map[1 := Job(1, NewMedia, true, Queued, false)], Idle, {101})

  const READY_FIRST := Witness(ONE_EVENT, map[], map[], Idle, {}).(recovered := false)

  lemma MediaFirst()
    ensures Leads(START, READY_FIRST)
  {
    var n := NewEventStep(START, "a");
    assert n.db.events == ONE_EVENT;
    var m := MediaStep(n, MEDIA, 1, 50, 0).value;
    assert m.db.assets == READY_FIRST.db.assets && m.usedAssets == {MEDIA};
    assert m == READY_FIRST;
    LeadsTwo(START, NewEvent("a"), MediaReady(MEDIA, 1, 50, 0), n, m);
  }

  lemma FirstEnqueued()
    ensures EnqueueStep(READY_FIRST, SETUP) == Some(QUEUED_FIRST.(recovered := false))
  {
    assert BindingsOf(READY_FIRST.db, 1, 0) == {};
    var n := EnqueueStep(READY_FIRST, SETUP).value;
    assert n.db.bindings == map[1 := FIRST_BINDING] && n.db.jobs == map[1 := Job(1, NewMedia, true, Queued, false)];
    assert n.usedMarkers == {101};
  }

  lemma RecoveredEmpty()
    ensures RecoverStep(QUEUED_FIRST.(recovered := false)) == Some(QUEUED_FIRST)
  {
    var n := RecoverStep(QUEUED_FIRST.(recovered := false)).value;
    assert Requeue(map[]) == map[];
    assert n.db.bindings == QUEUED_FIRST.db.bindings && n.db.jobs == QUEUED_FIRST.db.jobs;
  }

  lemma Queueing()
    ensures Leads(READY_FIRST, QUEUED_FIRST)
  {
    FirstEnqueued();
    RecoveredEmpty();
    EnqueueLeads(READY_FIRST, QUEUED_FIRST.(recovered := false), SETUP);
    RecoverLeads(QUEUED_FIRST.(recovered := false), QUEUED_FIRST);
    LeadsOn(READY_FIRST, QUEUED_FIRST.(recovered := false), QUEUED_FIRST);
  }

  const CLAIMED_FIRST := Witness(ONE_EVENT, map[1 := FIRST_BINDING], map[1 := Job(1, NewMedia, true, Running, false)],
                                 Exec(1, 1, 1, 101, true, Claimed, false), {101})

  lemma FirstClaimed()
    ensures ClaimStep(QUEUED_FIRST) == Some(CLAIMED_FIRST)
  {
    assert QueuedJobs(QUEUED_FIRST.db) == {1};
    var n := ClaimStep(QUEUED_FIRST).value;
    assert n.db.jobs == CLAIMED_FIRST.db.jobs;
  }

  lemma FirstFinished()
    ensures FinishStep(Phased(CLAIMED_FIRST, Done(true))) == Some(AFTER_FIRST)
  {
    var n := FinishStep(Phased(CLAIMED_FIRST, Done(true))).value;
    assert FailPending(map[]) == map[];
    assert n.db.bindings == AFTER_FIRST.db.bindings && n.db.jobs == AFTER_FIRST.db.jobs;
  }

  lemma FirstFails()
    ensures Leads(QUEUED_FIRST, AFTER_FIRST)
  {
    FirstClaimed();
    FirstFinished();
    ClaimLeads(QUEUED_FIRST, CLAIMED_FIRST);
    FailLeads(CLAIMED_FIRST, Phased(CLAIMED_FIRST, Done(true)), AFTER_FIRST);
    LeadsOn(QUEUED_FIRST, CLAIMED_FIRST, AFTER_FIRST);
  }

  const SECOND_EVENT := Witness(BOTH_EVENTS, map[1 := FIRST_BINDING], map[1 := FAILED_JOB], Idle, {101})
  const QUEUED_SECOND := Witness(BOTH_EVENTS, map[1 := FIRST_BINDING, 2 := SECOND_BINDING],
                                 map[1 := FAILED_JOB, 2 := Job(2, NewMedia, true, Queued, false)], Idle, {101, 102})

  lemma SecondCreated()
    ensures NewEventStep(AFTER_FIRST, "b") == SECOND_EVENT
  {
    NextIdIs({1}, 1);
    assert ONE_EVENT.Keys == {1};
    assert NewEventStep(AFTER_FIRST, "b").db.events == BOTH_EVENTS;
  }

  lemma SecondEnqueued()
    ensures EnqueueStep(SECOND_EVENT, SECOND) == Some(QUEUED_SECOND)
  {
    NextIdIs({1}, 1);
    assert SECOND_EVENT.db.bindings.Keys == {1} && SECOND_EVENT.db.jobs.Keys == {1};
    assert BindingsOf(SECOND_EVENT.db, 2, 0) == {};
    var n := EnqueueStep(SECOND_EVENT, SECOND).value;
    assert n.db.bindings == QUEUED_SECOND.db.bindings && n.db.jobs == QUEUED_SECOND.db.jobs;
    assert n.usedMarkers == {101, 102};
  }

  lemma SecondStarted()
    ensures ClaimStep(QUEUED_SECOND) == Some(CLAIMED_SECOND)
  {
    assert QueuedJobs(QUEUED_SECOND.db) == {2};
    var n := ClaimStep(QUEUED_SECOND).value;
    assert n.db.jobs == CLAIMED_SECOND.db.jobs;
  }

  lemma SecondClaimed()
    ensures Leads(AFTER_FIRST, CLAIMED_SECOND)
  {
    SecondCreated();
    SecondEnqueued();
    SecondStarted();
    NewEventLeads(AFTER_FIRST, SECOND_EVENT, "b");
    EnqueueLeads(SECOND_EVENT, QUEUED_SECOND, SECOND);
    ClaimLeads(QUEUED_SECOND, CLAIMED_SECOND);
    LeadsOn(AFTER_FIRST, SECOND_EVENT, QUEUED_SECOND);
    LeadsOn(AFTER_FIRST, QUEUED_SECOND, CLAIMED_SECOND);
  }

  const DELETING_SECOND := CLAIMED_SECOND.(db := CLAIMED_SECOND.db.(events := map[1 := Event("a", false), 2 := Event("b", true)]))

  lemma SecondRemoved()
    ensures RemoveEventStep(DELETING_SECOND, 2) == Some(FREED)
  {
    var n := RemoveEventStep(DELETING_SECOND, 2).value;
    assert n.db.events == ONE_EVENT && n.db.bindings == FREED.db.bindings && n.db.jobs == FREED.db.jobs;
  }

  lemma SecondDeleted()
    ensures Leads(CLAIMED_SECOND, FREED)
  {
    var n := BeginDeleteStep(CLAIMED_SECOND, 2).value;
    assert n.db.events == DELETING_SECOND.db.events;
    SecondRemoved();
    DeleteLeads(CLAIMED_SECOND, DELETING_SECOND, FREED, 2);
  }

  lemma FreedEnqueue()
    ensures EnqueueStep(FREED, MANUAL).Some? && Landing(FREED.db, MANUAL) == 1 && NextId(FREED.db.jobs.Keys) == 2
    ensures OpenRows(EnqueueTx(FREED.db, MANUAL).value.bindings[1])
  {
    NextIdIs({1}, 1);
    assert FREED.db.jobs.Keys == {1};
    assert BindingsOf(FREED.db, 1, 0) == {1};
    assert ReadyAssets(FREED.db, 1) == {MEDIA};
    var x := EnqueueTx(FREED.db, MANUAL).value.bindings[1];
    assert x.imports == Select(map[], {MEDIA});
    assert MEDIA in x.imports && Open(x.imports[MEDIA]);
  }

  lemma EndLeads(n: State)
    requires n.exec.Exec? && n.exec.phase.Claimed? && !n.stopping
    ensures Leads(n, Ended(n))
  {
    FailLeads(n, FailEarlyStep(n).value, Ended(n));
  }

  lemma FreedOwned()
    ensures Owned(FREED.db) && FREED.exec.binding !in FREED.db.bindings && FREED.exec.job !in FREED.db.jobs
  {
    assert FREED.db.bindings[1].imports == map[];
  }

  lemma Freed()
    ensures Leads(START, FREED)
  {
    MediaFirst();
    Queueing();
    FirstFails();
    SecondClaimed();
    SecondDeleted();
    LeadsOn(START, READY_FIRST, QUEUED_FIRST);
    LeadsOn(START, QUEUED_FIRST, AFTER_FIRST);
    LeadsOn(START, AFTER_FIRST, CLAIMED_SECOND);
    LeadsOn(START, CLAIMED_SECOND, FREED);
  }

  lemma Breaks(n: State, m: State)
    requires Leads(START, FREED) && EnqueueStep(FREED, MANUAL) == Some(n) && n.exec == FREED.exec && !n.stopping && m == Ended(n)
    ensures Leads(START, m)
  {
    EnqueueLeads(FREED, n, MANUAL);
    EndLeads(n);
    LeadsOn(START, FREED, n);
    LeadsOn(START, n, m);
  }

  /** A run from empty tables, with no failure of any database write, that leaves a pending row with no active job and no
      cancelled job: the claimed job of the deleted event marks the new job with its id failed. */
  lemma ReuseWitness()
    ensures exists ts, n :: Run(START, ts) == Some(n) && !Owned(n.db)
  {
    Freed();
    FreedOwned();
    FreedEnqueue();
    var before :| Run(START, before) == Some(FREED);
    ReachedInv(before, FREED);
    ReuseExactly(FREED, MANUAL);
    var n := EnqueueStep(FREED, MANUAL).value;
    Breaks(n, Ended(n));
    var ts :| Run(START, ts) == Some(Ended(n));
  }
}
