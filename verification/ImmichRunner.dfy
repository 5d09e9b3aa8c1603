/** Two frames for the running job: steps outside it leave it alone, and a worker changes only its own row. */
module ImmichRunner {
  import opened ImmichModel
  import opened ImmichSteps
  import opened ImmichInvariant

  // ---------------------------------------------------------------- outside the job

  /** A row inserted as pending, or one that said the same about the remote and was not given a held or final status. */
  predicate Softer(r: Row, n: Row) {
    n.remote == r.remote && n.duplicate == r.duplicate && (n == r || n.status.Pending? || n.status.Failed?)
  }

  ghost predicate RowFrom(d: Db, n: Db, b: nat, a: nat)
    requires b in n.bindings && a in n.bindings[b].imports
  {
    n.bindings[b].imports[a] == FRESH_ROW
    || (b in d.bindings && a in d.bindings[b].imports && Softer(d.bindings[b].imports[a], n.bindings[b].imports[a])
        && (a in n.assets ==> a in d.assets && n.assets[a].content == d.assets[a].content))
  }

  ghost predicate RowsFrom(d: Db, n: Db) {
    forall b, a :: b in n.bindings && a in n.bindings[b].imports ==> RowFrom(d, n, b, a)
  }

  ghost predicate RunningFrom(d: Db, n: Db) {
    forall j :: j in n.jobs && n.jobs[j].status.Running? ==> j in d.jobs && d.jobs[j].status.Running?
  }

  /** A binding with a marker drawn before was there, in the same state. */
  ghost predicate BindingsFrom(d: Db, n: Db, markers: set<nat>) {
    forall b :: b in n.bindings && n.bindings[b].marker in markers ==>
      b in d.bindings && n.bindings[b].marker == d.bindings[b].marker && n.bindings[b].state == d.bindings[b].state
  }

  ghost predicate Grown(x: Binding, y: Binding, exact: bool) {
    && y.event == x.event && y.state == x.state && y.album == x.album
    && (forall a :: a in y.imports ==> a in x.imports && y.imports[a] == x.imports[a])
    && (exact ==> y.imports == x.imports)
  }

  /** If the claimed binding is still there, so is its job, and neither was changed but by a cancellation. */
  ghost predicate ClaimFrom(x: Exec, d: Db, n: Db) {
    HasClaim(x, n) ==>
      && HasClaim(x, d) && Grown(d.bindings[x.binding], n.bindings[x.binding], Holding(x))
      && (x.job in d.jobs ==>
            && x.job in n.jobs && n.jobs[x.job].status == d.jobs[x.job].status && n.jobs[x.job].binding == d.jobs[x.job].binding
            && n.jobs[x.job].albumOnly == d.jobs[x.job].albumOnly && (d.jobs[x.job].cancel ==> n.jobs[x.job].cancel))
  }

  /** The ids the job works by name nothing new but active jobs and bindings without an album. */
  ghost predicate IdsFrom(x: Exec, d: Db, n: Db)
    requires x.Exec?
  {
    && (x.job in n.jobs ==> Active(n.jobs[x.job]) || (x.job in d.jobs && !Active(d.jobs[x.job])))
    && (x.binding in n.bindings ==> HasActive(n, x.binding) || (x.binding in d.bindings && !HasActive(d, x.binding)))
    && (x.binding in n.bindings ==> n.bindings[x.binding].album.None? || (x.binding in d.bindings && n.bindings[x.binding].album == d.bindings[x.binding].album))
  }

  /** The held event keeps its media, and its rows in the binding the job works on. */
  ghost predicate HeldFrom(x: Exec, d: Db, n: Db)
    requires x.Exec?
  {
    Holding(x) ==>
      && (x.event in d.events && !d.events[x.event].deleting ==> x.event in n.events && !n.events[x.event].deleting)
      && forall a :: Sourced(d, x.event, a) ==> Sourced(n, x.event, a) && n.assets[a].content == d.assets[a].content && RowStays(x.binding, d, n, a)
  }

  ghost predicate RowStays(b: nat, d: Db, n: Db, a: nat) {
    b in d.bindings && a in d.bindings[b].imports ==> b in n.bindings && a in n.bindings[b].imports && n.bindings[b].imports[a] == d.bindings[b].imports[a]
  }

  ghost predicate JobFrom(x: Exec, d: Db, n: Db)
    requires x.Exec?
  {
    ClaimFrom(x, d, n) && IdsFrom(x, d, n) && HeldFrom(x, d, n)
  }

  ghost predicate Quiet(s: State, n: State) {
    && n.exec == s.exec && n.remote == s.remote && n.recovered == s.recovered && n.stopping == s.stopping && s.usedMarkers <= n.usedMarkers
    && RowsFrom(s.db, n.db) && RunningFrom(s.db, n.db) && BindingsFrom(s.db, n.db, s.usedMarkers)
    && (s.exec.Exec? ==> JobFrom(s.exec, s.db, n.db))
  }

  lemma QuietRows(d: Db, n: Db, remote: Remote)
    requires RowsTrue(d, remote) && RowsFrom(d, n)
    ensures RowsTrue(n, remote)
  {
    forall b, a | b in n.bindings && a in n.bindings[b].imports && a in n.assets
      ensures RowTrue(n.bindings[b].imports[a], n.assets[a].content, remote)
    {
      assert RowFrom(d, n, b, a);
      if n.bindings[b].imports[a] != FRESH_ROW { assert RowTrue(d.bindings[b].imports[a], d.assets[a].content, remote); }
    }
  }

  lemma QuietHeld(s: State, n: State)
    requires ImportingHeld(s) && Quiet(s, n)
    ensures ImportingHeld(n)
  {
    forall b, a | b in n.db.bindings && a in n.db.bindings[b].imports && n.db.bindings[b].imports[a].status.Importing?
      ensures Held(n, b, a)
    {
      assert RowFrom(s.db, n.db, b, a);
      assert Held(s, b, a);
    }
  }

  lemma QuietRunner(s: State, n: State)
    requires RunnerOk(s) && Quiet(s, n)
    ensures RunnerOk(n)
  {
    if s.exec.Exec? {
      assert Intact(n) ==> HasClaim(s.exec, n.db);
      assert HasClaim(s.exec, s.db) ==> Intact(s);
    }
  }

  lemma WorkersFrom(x: Exec, d: Db, n: Db, remote: Remote, workers: map<nat, Worker>, target: nat)
    requires Holding(x) && HeldFrom(x, d, n) && WorkersOk(d, remote, x.event, x.binding, workers, target)
    ensures WorkersOk(n, remote, x.event, x.binding, workers, target)
  {
    forall a | a in workers ensures Sourced(n, x.event, a) && WorkerOk(n, x.binding, a, workers[a], target, remote) {
      assert Sourced(d, x.event, a) && RowStays(x.binding, d, n, a);
    }
  }

  lemma QuietPhase(s: State, n: State)
    requires s.exec.Exec? && PhaseOk(s) && Quiet(s, n)
    ensures PhaseOk(n)
  {
    match s.exec.phase
    case AlbumIntent(_, m) => assert Unsent(n.db, m, n.remote.creates);
    case Work(_, workers, _, target) => WorkersFrom(s.exec, s.db, n.db, s.remote, workers, target);
    case _ =>
  }

  lemma QuietProgress(s: State, n: State)
    requires s.exec.Exec? && ProgressOk(s) && Quiet(s, n)
    ensures ProgressOk(n)
  {
    assert Intact(n) ==> HasClaim(s.exec, n.db) && Intact(s);
    if Intact(n) && s.exec.phase.Done? && !s.exec.phase.err {
      assert !OpenRows(s.db.bindings[s.exec.binding]);
      assert !OpenRows(n.db.bindings[s.exec.binding]);
    }
  }

  /** Steps outside the job keep everything the job relies on. */
  lemma QuietKeeps(s: State, n: State)
    requires ProcOk(s) && Quiet(s, n)
    ensures ProcOk(n)
  {
    QuietRows(s.db, n.db, s.remote);
    QuietHeld(s, n);
    QuietRunner(s, n);
    if s.exec.Exec? { QuietPhase(s, n); QuietProgress(s, n); }
  }

  // ---------------------------------------------------------------- one worker moves

  ghost predicate Grows(r: Remote, n: Remote) {
    && (forall i :: i in r.copies ==> i in n.copies && n.copies[i] == r.copies[i])
    && r.added <= n.added && r.creates == n.creates
  }

  /** The worker on `a` leaves the row of `a` as `r`, moves or ends, and may add to the remote. */
  ghost predicate Moves(s: State, n: State, a: nat, r: Row) {
    && AtWorker(s.exec, a) && HasRow(s, a) && InWork(n.exec)
    && n.db == SetRow(s.db, s.exec.binding, a, r)
    && n.recovered == s.recovered && n.stopping == s.stopping && n.usedMarkers == s.usedMarkers
    && n.exec == s.exec.(phase := n.exec.phase)
    && n.exec.phase.todo == s.exec.phase.todo && n.exec.phase.target == s.exec.phase.target
    && n.exec.phase.workers - {a} == s.exec.phase.workers - {a}
    && Grows(s.remote, n.remote)
  }

  /** The row left behind is true of the remote, and is open only while a worker or a cancellation explains it. */
  ghost predicate MoveOk(s: State, n: State, a: nat, r: Row)
    requires Moves(s, n, a, r)
  {
    && (a in s.db.assets ==> RowTrue(r, s.db.assets[a].content, n.remote))
    && (r.status.Importing? ==> a in n.exec.phase.workers && Marks(n.exec.phase.workers[a]))
    && (r.status.Pending? ==> a in n.exec.phase.workers || n.exec.cancelled)
    && (a in n.exec.phase.workers && a in s.db.assets ==>
          RowFits(r, n.exec.phase.workers[a], s.db.assets[a].content, n.exec.phase.target, n.remote))
  }

  lemma MoveRows(d: Db, b: nat, a: nat, r: Row, remote: Remote, grown: Remote)
    requires RowsTrue(d, remote) && Grows(remote, grown) && b in d.bindings && a in d.bindings[b].imports
    requires a in d.assets ==> RowTrue(r, d.assets[a].content, grown)
    ensures RowsTrue(SetRow(d, b, a, r), grown)
  {
    var n := SetRow(d, b, a, r);
    forall c, e | c in n.bindings && e in n.bindings[c].imports && e in n.assets
      ensures RowTrue(n.bindings[c].imports[e], n.assets[e].content, grown)
    {
      if c != b || e != a { assert RowTrue(d.bindings[c].imports[e], d.assets[e].content, remote); }
    }
  }

  lemma MoveHeld(s: State, n: State, a: nat, r: Row)
    requires ImportingHeld(s) && Moves(s, n, a, r) && MoveOk(s, n, a, r)
    ensures ImportingHeld(n)
  {
    forall b, e | b in n.db.bindings && e in n.db.bindings[b].imports && n.db.bindings[b].imports[e].status.Importing?
      ensures Held(n, b, e)
    {
      if b != s.exec.binding || e != a {
        assert Held(s, b, e);
        if e != a { assert e in (s.exec.phase.workers - {a}) ==> e in n.exec.phase.workers - {a}; }
      }
    }
  }

  lemma MoveRunner(s: State, n: State, a: nat, r: Row)
    requires RunnerOk(s) && Moves(s, n, a, r)
    ensures RunnerOk(n)
  {
    assert Intact(n) <==> Intact(s);
  }

  lemma MoveWorkers(s: State, n: State, a: nat, r: Row)
    requires Moves(s, n, a, r) && MoveOk(s, n, a, r) && PhaseOk(s)
    ensures WorkersOk(n.db, n.remote, n.exec.event, n.exec.binding, n.exec.phase.workers, n.exec.phase.target)
  {
    forall e | e in n.exec.phase.workers
      ensures Sourced(n.db, n.exec.event, e) && WorkerOk(n.db, n.exec.binding, e, n.exec.phase.workers[e], n.exec.phase.target, n.remote)
    {
      if e == a {
        assert Sourced(s.db, s.exec.event, a);
      } else {
        assert e in n.exec.phase.workers - {a};
        assert e in s.exec.phase.workers && s.exec.phase.workers[e] == n.exec.phase.workers[e];
        assert Sourced(s.db, s.exec.event, e);
      }
    }
  }

  lemma MovePhase(s: State, n: State, a: nat, r: Row)
    requires Moves(s, n, a, r) && MoveOk(s, n, a, r) && PhaseOk(s)
    ensures PhaseOk(n)
  {
    MoveWorkers(s, n, a, r);
    forall e | e in n.exec.phase.workers ensures e !in n.exec.phase.todo { assert e == a || e in s.exec.phase.workers - {a}; }
    forall e | e in n.exec.phase.todo ensures Sourced(n.db, n.exec.event, e) { assert Sourced(s.db, s.exec.event, e); }
  }

  lemma MoveProgress(s: State, n: State, a: nat, r: Row)
    requires Moves(s, n, a, r) && MoveOk(s, n, a, r) && ProgressOk(s)
    ensures ProgressOk(n)
  {
    if Intact(n) && !s.exec.cancelled {
      var x, y := s.db.bindings[s.exec.binding], n.db.bindings[s.exec.binding];
      forall e | e in y.imports && y.imports[e].status.Pending? ensures e in n.exec.phase.todo + n.exec.phase.workers.Keys {
        if e != a {
          assert e in x.imports && x.imports[e].status.Pending?;
          assert e in s.exec.phase.todo || e in s.exec.phase.workers - {a};
        }
      }
    }
  }

  /** A worker's own step keeps everything, given what it leaves behind. */
  lemma MoveKeeps(s: State, n: State, a: nat, r: Row)
    requires ProcOk(s) && Moves(s, n, a, r) && MoveOk(s, n, a, r)
    requires OneCopy(n.remote.copies) && CallsOk(n.remote.sent)
    ensures ProcOk(n)
  {
    MoveRows(s.db, s.exec.binding, a, r, s.remote, n.remote);
    MoveHeld(s, n, a, r);
    MoveRunner(s, n, a, r);
    MovePhase(s, n, a, r);
    MoveProgress(s, n, a, r);
  }
}
