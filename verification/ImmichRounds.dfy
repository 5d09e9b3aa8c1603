/** The import engine drains a backlog: rounds of its runs are the rounds of ImmichBacklog, and such runs exist. */
module ImmichRounds {
  import opened Wrappers
  import opened Ordered
  import opened ImmichModel
  import opened ImmichSteps
  import opened ImmichInvariant
  import opened ImmichSafety
  import opened ImmichHistory
  import opened ImmichRuns
  import opened ImmichTheorems
  import opened ImmichBacklog
  import opened ImmichJobRun
  import opened ImmichStore

  // ---------------------------------------------------------------- rounds of the engine

  /** Reconciling `b` creates job `j`, which runs by `us` to its end without failure; anything else may go on meanwhile, but
      automatic import is on at the end. */
  ghost predicate JobRound(r: State, us: seq<Step>, m: State, n: State, e: nat, b: nat, j: nat) {
    Run(r, us) == Some(m) && SmoothRun(r, us, e, b, j) && EndsWell(m, j) && n == FinishStep(m).value
    && b in n.db.bindings && n.db.bindings[b].auto
  }

  /** One round of the engine for `b`. With nothing to select no job is created. */
  ghost predicate Round(s: State, n: State, b: nat)
    requires b in s.db.bindings
  {
    && ReconcileStep(s, b).Some?
    && var r := ReconcileStep(s, b).value;
       if r.db == s.db then n == s
       else exists us, m :: JobRound(r, us, m, n, s.db.bindings[b].event, b, NextId(s.db.jobs.Keys))
  }

  lemma NewJobServes(d: Db, b: nat)
    requires Eligible(d, b) && Unselected(d, b) != {}
    ensures Serves(ReconcileTx(d, b), b, NextId(d.jobs.Keys)) && ReconcileTx(d, b).bindings[b].event == d.bindings[b].event
  {
    Reconciled(d, b);
  }

  lemma IdleRound(d: Db, b: nat)
    requires Eligible(d, b) && ReconcileTx(d, b) == d
    ensures Worked(ReconcileTx(d, b), d, b)
  {}

  lemma JobRoundWorks(r: State, us: seq<Step>, m: State, n: State, b: nat, j: nat)
    requires Inv(r) && Serves(r.db, b, j) && JobRound(r, us, m, n, r.db.bindings[b].event, b, j)
    ensures Inv(n) && Worked(r.db, n.db, b)
  {
    RunSafe(r, us);
    RunSteady(r, us, b, j);
    EndRanWell(r.db, m, b, j);
    FinishSafe(m);
  }

  lemma RoundWorks(s: State, n: State, b: nat)
    requires Inv(s) && Eligible(s.db, b) && Round(s, n, b)
    ensures Inv(n) && Worked(ReconcileTx(s.db, b), n.db, b)
  {
    var r := ReconcileStep(s, b).value;
    if r.db == s.db {
      IdleRound(s.db, b);
    } else {
      Reconciled(s.db, b);
      NewJobServes(s.db, b);
      ReconcileSafe(s, b);
      var us, m :| JobRound(r, us, m, n, s.db.bindings[b].event, b, NextId(s.db.jobs.Keys));
      JobRoundWorks(r, us, m, n, b, NextId(s.db.jobs.Keys));
    }
  }

  /** Each state leads to the next by `link`. */
  ghost predicate Linked(ss: seq<State>, link: (State, State) -> bool) {
    |ss| > 0 && forall i: nat :: i + 1 < |ss| ==> link(ss[i], ss[i + 1])
  }

  lemma LinkedMore(ss: seq<State>, n: State, link: (State, State) -> bool)
    requires Linked(ss, link) && link(ss[|ss| - 1], n)
    ensures Linked(ss + [n], link)
  {
    var more := ss + [n];
    forall i: nat | i + 1 < |more| ensures link(more[i], more[i + 1]) {
      assert i + 1 < |ss| ==> link(ss[i], ss[i + 1]);
    }
  }

  ghost function RoundOf(b: nat): (State, State) -> bool { (s: State, n: State) => b in s.db.bindings && Round(s, n, b) }

  ghost predicate EngineRounds(ss: seq<State>, b: nat) { Linked(ss, RoundOf(b)) }

  function Dbs(ss: seq<State>): seq<Db> { seq(|ss|, i requires 0 <= i < |ss| => ss[i].db) }

  lemma {:induction false} RoundsKeep(ss: seq<State>, b: nat, k: nat)
    requires EngineRounds(ss, b) && Inv(ss[0]) && Eligible(ss[0].db, b) && k < |ss|
    ensures Inv(ss[k]) && Eligible(ss[k].db, b)
    decreases k
  {
    if k > 0 {
      var p: nat := k - 1;
      RoundsKeep(ss, b, p);
      assert RoundOf(b)(ss[p], ss[p + 1]);
      RoundWorks(ss[p], ss[p + 1], b);
      RoundKeepsEligible(ss[p].db, ss[k].db, b);
    }
  }

  /** The tables of the engine's rounds are rounds of the backlog. */
  lemma EngineIsRounds(ss: seq<State>, b: nat)
    requires EngineRounds(ss, b) && Inv(ss[0]) && Automatic(ss[0].db, b)
    ensures Rounds(Dbs(ss), b)
  {
    EligibleExactly(ss[0].db, b);
    forall i: nat | i + 1 < |Dbs(ss)| ensures RoundAt(Dbs(ss), b, i) {
      RoundsKeep(ss, b, i);
      assert RoundOf(b)(ss[i], ss[i + 1]);
      RoundWorks(ss[i], ss[i + 1], b);
    }
  }

  /** Rounds of the engine from any reachable state import a backlog of n assets in exactly ⌈n / 256⌉ jobs, as long as no new
      media becomes ready: then every ready asset is selected and all newly selected ones are settled, and not before. */
  lemma EngineDrains(ts: seq<Step>, ss: seq<State>, b: nat, k: nat)
    requires EngineRounds(ss, b) && Reaches(ts, ss[0]) && Automatic(ss[0].db, b)
    requires NoArrivals(Dbs(ss), ss[0].db.bindings[b].event) && k < |ss| && k == Batches(|Unselected(ss[0].db, b)|)
    ensures b in ss[k].db.bindings
    ensures ReadyAssets(ss[0].db, ss[0].db.bindings[b].event) <= ss[k].db.bindings[b].imports.Keys
    ensures forall a :: a in ss[k].db.bindings[b].imports && a !in ss[0].db.bindings[b].imports ==> Settled(ss[k].db.bindings[b].imports[a])
    ensures JobCount(ss[k].db, b) == JobCount(ss[0].db, b) + k
    ensures forall i :: 0 <= i < k && b in ss[i].db.bindings ==> Unselected(ss[i].db, b) != {}
  {
    ReachedInv(ts, ss[0]);
    EngineIsRounds(ss, b);
    BacklogDrained(Dbs(ss), b, k);
    forall i | 0 <= i < k && b in ss[i].db.bindings ensures Unselected(ss[i].db, b) != {} { assert Dbs(ss)[i] == ss[i].db; }
  }

  // ---------------------------------------------------------------- a job that meets no failure

  predicate Calm(t: Step) {
    || t.TakeSnapshot? || t.MarkCreating? || t.SaveAlbum? || t.Take? || t.Load? || t.Mark? || t.Save? || t.Account? || t.EndWork?
    || (t.AlbumKnown? && t.ok) || (t.FindAlbum? && t.ok)
    || (t.SendCreate? && t.outcome.Answered?) || (t.Upload? && t.outcome.Answered?) || (t.Add? && t.outcome.Answered?)
  }

  ghost predicate AllCalm(ts: seq<Step>) { forall t :: t in ts ==> Calm(t) }

  ghost predicate CalmBy(s: State, ts: seq<Step>, n: State) { Run(s, ts) == Some(n) && AllCalm(ts) }

  /** The job reaches `n` by steps of its own, none of which fails. */
  ghost predicate Calmly(s: State, n: State) { exists ts :: CalmBy(s, ts, n) }

  lemma CalmOn(s: State, n: State, m: State)
    requires Calmly(s, n) && Calmly(n, m)
    ensures Calmly(s, m)
  {
    var ts :| CalmBy(s, ts, n);
    var us :| CalmBy(n, us, m);
    RunJoin(s, ts, n, us);
    assert CalmBy(s, ts + us, m);
  }

  lemma CalmStep(s: State, t: Step, n: State)
    requires Calm(t) && Next(s, t) == Some(n)
    ensures Calmly(s, n)
  {
    RunOne(s, t, n);
    assert CalmBy(s, [t], n);
  }

  /** What such a job leaves alone. */
  ghost predicate SameSetting(s: State, n: State) {
    && n.db.assets == s.db.assets && n.db.events == s.db.events && n.db.jobs == s.db.jobs
    && n.stopping == s.stopping && n.recovered == s.recovered
    && s.exec.Exec? && n.exec.Exec? && n.exec.(phase := s.exec.phase) == s.exec
    && n.db.bindings.Keys == s.db.bindings.Keys && forall b :: b in s.db.bindings ==>
         n.db.bindings[b].marker == s.db.bindings[b].marker && n.db.bindings[b].auto == s.db.bindings[b].auto
  }

  lemma CalmLook(s: State, t: Step, n: State)
    requires s.exec.Exec? && (t.Take? || t.EndWork?) && Next(s, t) == Some(n)
    ensures SameSetting(s, n)
  {}

  lemma CalmLoad(s: State, t: Step, n: State)
    requires s.exec.Exec? && t.Load? && Next(s, t) == Some(n)
    ensures SameSetting(s, n)
  {}

  lemma CalmUpload(s: State, t: Step, n: State)
    requires s.exec.Exec? && t.Upload? && Next(s, t) == Some(n)
    ensures SameSetting(s, n)
  {}

  lemma CalmAdd(s: State, t: Step, n: State)
    requires s.exec.Exec? && t.Add? && Next(s, t) == Some(n)
    ensures SameSetting(s, n)
  {}

  lemma CalmAlbum(s: State, t: Step, n: State)
    requires s.exec.Exec? && (t.TakeSnapshot? || t.AlbumKnown? || t.FindAlbum? || t.SendCreate?) && Next(s, t) == Some(n)
    ensures SameSetting(s, n)
  {}

  lemma CalmColumn(s: State, t: Step, n: State)
    requires s.exec.Exec? && (t.MarkCreating? || t.SaveAlbum?) && Next(s, t) == Some(n)
    ensures SameSetting(s, n)
  {}

  lemma CalmWrite(s: State, t: Step, n: State)
    requires s.exec.Exec? && (t.Mark? || t.Save? || t.Account?) && Next(s, t) == Some(n)
    ensures SameSetting(s, n)
  {}

  lemma {:induction false} CalmSetting(s: State, ts: seq<Step>, n: State)
    requires s.exec.Exec? && CalmBy(s, ts, n)
    ensures SameSetting(s, n)
    decreases |ts|
  {
    if ts != [] {
      assert Calm(ts[0]);
      var m := Next(s, ts[0]).value;
      if ts[0].Mark? || ts[0].Save? || ts[0].Account? { CalmWrite(s, ts[0], m); }
      else if ts[0].Take? || ts[0].EndWork? { CalmLook(s, ts[0], m); }
      else if ts[0].Load? { CalmLoad(s, ts[0], m); }
      else if ts[0].Upload? { CalmUpload(s, ts[0], m); }
      else if ts[0].Add? { CalmAdd(s, ts[0], m); }
      else if ts[0].MarkCreating? || ts[0].SaveAlbum? { CalmColumn(s, ts[0], m); }
      else { CalmAlbum(s, ts[0], m); }
      assert AllCalm(ts[1..]);
      CalmSetting(m, ts[1..], n);
    }
  }

  lemma {:induction false} CalmSmooth(s: State, ts: seq<Step>, e: nat, k: nat, j: nat)
    requires AllCalm(ts)
    ensures SmoothRun(s, ts, e, k, j)
    decreases |ts|
  {
    if ts != [] {
      assert Calm(ts[0]) && AllCalm(ts[1..]);
      if Next(s, ts[0]).Some? { CalmSmooth(Next(s, ts[0]).value, ts[1..], e, k, j); }
    }
  }

  // ---------------------------------------------------------------- from the claim to the end

  /** No worker is busy and none failed. */
  predicate Feeding(s: State) {
    InWork(s.exec) && s.exec.phase.workers == map[] && !s.exec.phase.failed && !s.exec.cancelled
  }

  /** The worker takes `a`; what is left is one asset less. */
  lemma TakeOne(s: State, a: nat) returns (n: State)
    requires Inv(s) && Feeding(s) && a in s.exec.phase.todo
    ensures Calmly(s, n) && Inv(n) && AtWorker(n.exec, a) && n.exec.phase.workers == map[a := Took] && !n.exec.phase.failed
    ensures n.exec.phase.todo == s.exec.phase.todo - {a} && !n.exec.cancelled && a in n.db.assets
  {
    assert |s.exec.phase.workers| == 0;
    n := TakeStep(s, a).value;
    var none: map<nat, Worker> := map[];
    assert none[a := Took] == map[a := Took];
    CalmStep(s, Take(a), n);
    TakeSafe(s, a);
    assert Sourced(s.db, s.exec.event, a);
  }

  lemma AssetCalm(x: Row, a: nat, id: nat)
    ensures AllCalm(AssetSteps(x, a, Answered, id, Answered))
  {}

  lemma ImportOne(s: State, a: nat) returns (n: State)
    requires Inv(s) && AtWorker(s.exec, a) && s.exec.phase.workers == map[a := Took] && !s.exec.phase.failed
    requires !s.exec.cancelled && a in s.db.assets && HasRow(s, a)
    ensures Calmly(s, n) && Feeding(n) && n.exec.phase.todo == s.exec.phase.todo
  {
    var id, x := NextId(s.remote.copies.Keys), RowOf(s, a);
    var c := AssetCall(x, s.remote, CallOf(s, a), s.db.assets[a].content, s.exec.phase.target, Answered, id, Answered, false);
    n := AfterAsset(s, a, c);
    AssetRuns(s, a, x, Answered, id, Answered);
    AssetCalm(x, a, id);
    assert CalmBy(s, AssetSteps(x, a, Answered, id, Answered), n);
    assert map[a := Took] - {a} == map[];
  }

  lemma SkipOne(s: State, a: nat) returns (n: State)
    requires AtWorker(s.exec, a) && s.exec.phase.workers == map[a := Took] && !s.exec.phase.failed
    requires !s.exec.cancelled && !HasRow(s, a)
    ensures Calmly(s, n) && Feeding(n) && n.exec.phase.todo == s.exec.phase.todo
  {
    n := LoadStep(s, a).value;
    assert map[a := Took] - {a} == map[];
    CalmStep(s, Load(a), n);
  }

  lemma CalmInv(s: State, n: State)
    requires Inv(s) && Calmly(s, n)
    ensures Inv(n)
  {
    var ts :| CalmBy(s, ts, n);
    RunSafe(s, ts);
  }

  /** One asset after the other, whatever their number. */
  lemma {:induction false} Transfers(s: State) returns (n: State)
    requires Inv(s) && Feeding(s)
    ensures Calmly(s, n) && Inv(n) && Feeding(n) && n.exec.phase.todo == {}
    decreases |s.exec.phase.todo|
  {
    if s.exec.phase.todo == {} {
      n := s;
      assert CalmBy(s, [], s);
    } else {
      var a :| a in s.exec.phase.todo;
      var m := TakeOne(s, a);
      var k;
      if HasRow(m, a) { k := ImportOne(m, a); } else { k := SkipOne(m, a); }
      CalmInv(m, k);
      CalmOn(s, m, k);
      n := Transfers(k);
      CalmOn(s, k, n);
    }
  }

  lemma AlbumCalm(x: Binding, r: Remote, id: nat)
    ensures AllCalm(AlbumSteps(x, r, Answered, id, true))
  {}

  /** The binding's album is stored, not asked for yet, or found again by its marker. */
  predicate AlbumComes(x: Binding, r: Remote) {
    x.album.Some? || !x.state.Creating? || AlbumFor(r, x.marker, true).Some?
  }

  lemma AlbumReached(s: State) returns (n: State)
    requires AtLookup(s) && !s.exec.cancelled && AlbumComes(s.db.bindings[s.exec.binding], s.remote)
    ensures Calmly(s, n) && Feeding(n)
  {
    var x, id := s.db.bindings[s.exec.binding], NextId(s.remote.albums.Keys);
    n := AfterAlbum(s, AlbumCall(x, s.remote, Answered, id, true));
    AlbumRuns(s, Answered, id, true);
    AlbumCalm(x, s.remote, id);
    assert CalmBy(s, AlbumSteps(x, s.remote, Answered, id, true), n);
  }

  lemma WorkEnds(s: State) returns (m: State)
    requires Feeding(s) && s.exec.phase.todo == {}
    ensures Calmly(s, m) && m.exec.Exec? && m.exec.phase == Done(false)
  {
    m := EndWorkStep(s).value;
    CalmStep(s, EndWork, m);
  }

  /** A claimed job of an event that stays, asked neither to cancel nor to stop, can always reach an end without failure. */
  lemma JobCanFinish(s: State) returns (us: seq<Step>, m: State)
    requires Inv(s) && Intact(s) && s.exec.phase.Claimed? && !s.exec.cancelled && !s.stopping && !s.db.jobs[s.exec.job].cancel
    requires s.exec.event in s.db.events && !s.db.events[s.exec.event].deleting
    requires AlbumComes(s.db.bindings[s.exec.binding], s.remote)
    ensures Run(s, us) == Some(m) && AllCalm(us) && EndsWell(m, s.exec.job) && SameSetting(s, m)
  {
    var n := SnapshotStep(s).value;
    CalmStep(s, TakeSnapshot, n);
    var k := AlbumReached(n);
    CalmOn(s, n, k);
    CalmInv(s, k);
    var w := Transfers(k);
    CalmOn(s, k, w);
    m := WorkEnds(w);
    CalmOn(s, w, m);
    us :| CalmBy(s, us, m);
    CalmSetting(s, us, m);
  }

  // ---------------------------------------------------------------- rounds exist

  /** The runner is idle and nothing is queued. */
  ghost predicate Resting(s: State) { s.exec.Idle? && s.recovered && !s.stopping && QueuedJobs(s.db) == {} }

  /** The one queued job is claimed with its binding. */
  lemma OnlyJobClaimed(s: State, b: nat, j: nat) returns (c: State)
    requires s.exec.Idle? && s.recovered && !s.stopping && QueuedJobs(s.db) == {j}
    requires j in s.db.jobs && s.db.jobs[j].binding == b && b in s.db.bindings
    ensures Next(s, Step.Claim) == Some(c) && c.exec.Exec? && c.exec.job == j && c.exec.binding == b && Intact(c)
    ensures c.exec.phase.Claimed? && !c.exec.cancelled && !c.stopping && c.recovered && c.exec.event == s.db.bindings[b].event
    ensures c.db == s.db.(jobs := s.db.jobs[j := s.db.jobs[j].(status := Running)]) && c.remote == s.remote
  {
    c := ClaimStep(s).value;
  }

  lemma NothingQueued(d: Db, c: Db, n: Db, j: nat)
    requires QueuedJobs(d) == {} && j in c.jobs && c.jobs == d.jobs[j := c.jobs[j]]
    requires n.jobs.Keys == c.jobs.Keys && (forall i :: i in c.jobs && i != j ==> n.jobs[i] == c.jobs[i]) && !n.jobs[j].status.Queued?
    ensures QueuedJobs(n) == {}
  {
    forall i | i in n.jobs ensures !n.jobs[i].status.Queued? {
      assert i != j && n.jobs[i].status.Queued? ==> i in QueuedJobs(d);
    }
  }

  lemma FinishRests(m: State, j: nat)
    requires EndsWell(m, j)
    ensures var n := FinishStep(m).value;
            && n.exec.Idle? && n.recovered == m.recovered && !n.stopping && n.db.assets == m.db.assets && n.db.bindings == m.db.bindings
            && n.db.jobs == m.db.jobs[j := m.db.jobs[j].(status := Completed)]
  {}

  lemma ClaimedFinishes(s: State, b: nat, j: nat, c: State) returns (us: seq<Step>, m: State)
    requires Inv(s) && Serves(s.db, b, j) && s.db.jobs[j] == AutoJob(b) && Next(s, Step.Claim) == Some(c)
    requires c.exec.Exec? && c.exec.job == j && c.exec.binding == b && Intact(c) && c.exec.event == s.db.bindings[b].event
    requires c.exec.phase.Claimed? && !c.exec.cancelled && !c.stopping && c.recovered
    requires c.db == s.db.(jobs := s.db.jobs[j := s.db.jobs[j].(status := Running)])
    ensures Run(s, us) == Some(m) && SmoothRun(s, us, s.db.bindings[b].event, b, j) && EndsWell(m, j) && SameSetting(c, m)
  {
    StepSafe(s, Step.Claim);
    var vs;
    vs, m := JobCanFinish(c);
    us := [Step.Claim] + vs;
    ClaimFirst(s, c, vs, m, s.db.bindings[b].event, b, j);
  }

  lemma ClaimFirst(s: State, c: State, vs: seq<Step>, m: State, e: nat, b: nat, j: nat)
    requires Next(s, Step.Claim) == Some(c) && Run(c, vs) == Some(m) && AllCalm(vs)
    ensures Run(s, [Step.Claim] + vs) == Some(m) && SmoothRun(s, [Step.Claim] + vs, e, b, j)
  {
    assert ([Step.Claim] + vs)[1..] == vs;
    CalmSmooth(c, vs, e, b, j);
  }

  /** From rest the engine can take a round, after which it rests again. */
  lemma RoundExists(s: State, b: nat) returns (n: State)
    requires Inv(s) && Resting(s) && Eligible(s.db, b)
    ensures Round(s, n, b) && Inv(n) && Resting(n) && Eligible(n.db, b) && n.db.assets == s.db.assets
  {
    var r := ReconcileStep(s, b).value;
    Reconciled(s.db, b);
    if r.db == s.db {
      n := s;
    } else {
      var j := NextId(s.db.jobs.Keys);
      n := JobRoundExists(s, r, b, j);
      RoundWorks(s, n, b);
      RoundKeepsEligible(s.db, n.db, b);
    }
  }

  lemma JobRoundExists(s: State, r: State, b: nat, j: nat) returns (n: State)
    requires Inv(s) && Resting(s) && Eligible(s.db, b) && Unselected(s.db, b) != {} && j == NextId(s.db.jobs.Keys)
    requires ReconcileStep(s, b) == Some(r)
    ensures exists us, m :: JobRound(r, us, m, n, s.db.bindings[b].event, b, j)
    ensures Resting(n) && n.db.assets == s.db.assets
  {
    Reconciled(s.db, b);
    NewJobServes(s.db, b);
    ReconcileSafe(s, b);
    n := QueuedFinishes(s, r, b, j);
  }

  lemma QueuedFinishes(s: State, r: State, b: nat, j: nat) returns (n: State)
    requires Inv(r) && Resting(s) && r.exec.Idle? && r.recovered && !r.stopping && j !in s.db.jobs
    requires r.db.jobs == s.db.jobs[j := AutoJob(b)] && r.db.assets == s.db.assets && Serves(r.db, b, j) && r.db.bindings[b].auto
    ensures exists us, m :: JobRound(r, us, m, n, r.db.bindings[b].event, b, j)
    ensures Resting(n) && n.db.assets == s.db.assets
  {
    OnlyQueued(s.db, r.db, j, b);
    var c := OnlyJobClaimed(r, b, j);
    var us, m := ClaimedFinishes(r, b, j, c);
    n := JobEnds(s, c, m, j);
    assert JobRound(r, us, m, n, r.db.bindings[b].event, b, j);
  }

  lemma JobEnds(s: State, c: State, m: State, j: nat) returns (n: State)
    requires QueuedJobs(s.db) == {} && j in c.db.jobs && c.db.jobs == s.db.jobs[j := c.db.jobs[j]] && c.db.assets == s.db.assets && c.recovered
    requires SameSetting(c, m) && EndsWell(m, j)
    ensures FinishStep(m) == Some(n) && Resting(n) && n.db.assets == s.db.assets && n.db.bindings == m.db.bindings
  {
    n := FinishStep(m).value;
    FinishRests(m, j);
    NothingQueued(s.db, c.db, n.db, j);
  }

  lemma OnlyQueued(d: Db, r: Db, j: nat, b: nat)
    requires QueuedJobs(d) == {} && j !in d.jobs && r.jobs == d.jobs[j := AutoJob(b)]
    ensures QueuedJobs(r) == {j}
  {
    forall i | i in r.jobs && i != j ensures !r.jobs[i].status.Queued? { assert i !in QueuedJobs(d); }
  }

  /** The engine can take another round. */
  ghost predicate CanGoOn(s: State, b: nat) { Inv(s) && Resting(s) && Eligible(s.db, b) }

  lemma RoundsNext(rs: seq<State>, b: nat) returns (n: State)
    requires EngineRounds(rs, b) && CanGoOn(rs[|rs| - 1], b)
    ensures EngineRounds(rs + [n], b) && CanGoOn(n, b) && n.db.assets == rs[|rs| - 1].db.assets
  {
    n := RoundExists(rs[|rs| - 1], b);
    LinkedMore(rs, n, RoundOf(b));
  }

  /** And so any number of rounds, with no media arriving. */
  lemma {:induction false} RoundsExist(s: State, b: nat, k: nat) returns (ss: seq<State>)
    requires CanGoOn(s, b)
    ensures |ss| == k + 1 && ss[0] == s && EngineRounds(ss, b) && CanGoOn(ss[k], b)
    ensures forall i :: 0 <= i < |ss| ==> ss[i].db.assets == s.db.assets
    decreases k
  {
    if k == 0 {
      ss := [s];
    } else {
      var rs := RoundsExist(s, b, k - 1);
      var n := RoundsNext(rs, b);
      ss := rs + [n];
    }
  }

  /** From every reachable state at rest, a backlog of n assets can be imported by ⌈n / 256⌉ jobs. */
  lemma BacklogCanDrain(ts: seq<Step>, s: State, b: nat) returns (ss: seq<State>)
    requires Reaches(ts, s) && Resting(s) && Automatic(s.db, b)
    ensures ss != [] && ss[0] == s && EngineRounds(ss, b)
    ensures var n, k := ss[|ss| - 1].db, Batches(|Unselected(s.db, b)|);
            && b in n.bindings && ReadyAssets(s.db, s.db.bindings[b].event) <= n.bindings[b].imports.Keys
            && (forall a :: a in n.bindings[b].imports && a !in s.db.bindings[b].imports ==> Settled(n.bindings[b].imports[a]))
            && JobCount(n, b) == JobCount(s.db, b) + k
  {
    ReachedInv(ts, s);
    EligibleExactly(s.db, b);
    var k := Batches(|Unselected(s.db, b)|);
    ss := RoundsExist(s, b, k);
    forall i | 0 <= i < |Dbs(ss)| ensures ReadyAssets(Dbs(ss)[i], s.db.bindings[b].event) == ReadyAssets(Dbs(ss)[0], s.db.bindings[b].event) {
      assert Dbs(ss)[i].assets == s.db.assets;
    }
    EngineDrains(ts, ss, b, k);
  }
}
