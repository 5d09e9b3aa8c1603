/** The import engine over whole runs: any interleaving of requests, workers, deletions, lost replies, crashes and restarts. */
module ImmichTheorems {
  import opened Wrappers
  import opened ImmichModel
  import opened ImmichSteps
  import opened ImmichInvariant
  import opened ImmichTables
  import opened ImmichSafety
  import opened ImmichOwnership
  import opened ImmichAlbums
  import opened ImmichHistory

  /** `n` is reached from empty tables by `ts`. */
  predicate Reaches(ts: seq<Step>, n: State) { Run(START, ts) == Some(n) }

  lemma ReachedInv(ts: seq<Step>, n: State)
    requires Reaches(ts, n)
    ensures Inv(n)
  {
    RunSafe(START, ts);
  }

  /** Each step of the run satisfies `good` in the state it is taken in. */
  ghost predicate Along(s: State, ts: seq<Step>, good: (State, Step) -> bool)
    decreases |ts|
  {
    ts == [] || (good(s, ts[0]) && (Next(s, ts[0]).Some? ==> Along(Next(s, ts[0]).value, ts[1..], good)))
  }

  // ---------------------------------------------------------------- jobs and their rows

  ghost predicate OwnedAfter(s: State, t: Step) { Next(s, t).Some? ==> Owned(Next(s, t).value.db) }

  /** If the step ends a job, the job with the claimed id leaves no open row unowned. */
  predicate EndsOwnStep(s: State, t: Step) {
    t.Finish? && FinishStep(s).Some? ==> EndsOwn(s.db, s.exec.job, s.exec.binding, s.exec.phase.err)
  }

  lemma OwnedStep(s: State, t: Step)
    requires Inv(s) && Owned(s.db) && Next(s, t).Some?
    ensures Inv(Next(s, t).value) && (Owned(Next(s, t).value.db) <==> EndsOwnStep(s, t))
  {
    StepSafe(s, t);
    if t.Finish? { EndOwned(s); } else { StepOwned(s, t); }
  }

  lemma {:induction false} OwnedAlong(s: State, ts: seq<Step>)
    requires Inv(s) && Owned(s.db) && Run(s, ts).Some?
    ensures Along(s, ts, OwnedAfter) <==> Along(s, ts, EndsOwnStep)
    ensures Along(s, ts, EndsOwnStep) ==> Owned(Run(s, ts).value.db)
    decreases |ts|
  {
    if ts != [] {
      var n := Next(s, ts[0]).value;
      OwnedStep(s, ts[0]);
      if Owned(n.db) { OwnedAlong(n, ts[1..]); }
    }
  }

  /** At every moment of every run each binding has at most one queued or running job. Its pending or importing rows have
      one, or their newest job was cancelled, at every moment exactly if each job that ends leaves no open row unowned. */
  lemma JobsOwnRows(ts: seq<Step>, n: State)
    requires Reaches(ts, n)
    ensures OneActive(n.db)
    ensures Along(START, ts, OwnedAfter) <==> Along(START, ts, EndsOwnStep)
    ensures Along(START, ts, EndsOwnStep) ==>
              forall b :: b in n.db.bindings && OpenRows(n.db.bindings[b]) ==> HasActive(n.db, b) || NewestCancelled(n.db, b)
  {
    ReachedInv(ts, n);
    OneActiveJob(n.db);
    OwnedAlong(START, ts);
    if Along(START, ts, EndsOwnStep) {
      forall b | b in n.db.bindings && OpenRows(n.db.bindings[b]) ensures HasActive(n.db, b) || NewestCancelled(n.db, b) {
        assert Covered(n.db, b);
      }
    }
  }

  lemma SparedJobStep(s: State, t: Step)
    requires Inv(s) && OwnJob(s) && SparesJob(s, t) && Next(s, t).Some?
    ensures Inv(Next(s, t).value) && OwnJob(Next(s, t).value) && EndsOwnStep(s, t)
  {
    StepSafe(s, t);
    StepOwnIds(s, t);
    if t.Finish? { OwnJobEnds(s); }
  }

  lemma {:induction false} SparedJobs(s: State, ts: seq<Step>)
    requires Inv(s) && OwnJob(s) && Run(s, ts).Some? && Along(s, ts, SparesJob)
    ensures Along(s, ts, EndsOwnStep)
    decreases |ts|
  {
    if ts != [] {
      SparedJobStep(s, ts[0]);
      SparedJobs(Next(s, ts[0]).value, ts[1..]);
    }
  }

  /** Rows can lose their job only if an enqueued import gets the id of a claimed job whose event was deleted. */
  lemma JobIdsSpared(ts: seq<Step>, n: State)
    requires Reaches(ts, n) && Along(START, ts, SparesJob)
    ensures forall b :: b in n.db.bindings && OpenRows(n.db.bindings[b]) ==> HasActive(n.db, b) || NewestCancelled(n.db, b)
  {
    SparedJobs(START, ts);
    JobsOwnRows(ts, n);
  }

  /** A job that ends completed or failed leaves the binding of the job with its id a pending or importing row exactly if
      that id has gone to a job with open rows, other than the failed job of the claimed binding id. */
  lemma EndedJobIsDrained(ts: seq<Step>, s: State)
    requires Reaches(ts, s) && FinishStep(s).Some?
    ensures var j, n := s.exec.job, FinishStep(s).value;
            j in n.db.jobs && (n.db.jobs[j].status.Completed? || n.db.jobs[j].status.JobFailed?) ==>
              n.db.jobs[j].binding in n.db.bindings
              && (OpenRows(n.db.bindings[n.db.jobs[j].binding]) <==> !EndsOwn(s.db, j, s.exec.binding, s.exec.phase.err))
    ensures Intact(s) ==> EndsOwn(s.db, s.exec.job, s.exec.binding, s.exec.phase.err)
  {
    ReachedInv(ts, s);
    NoneImporting(s);
    var j := s.exec.job;
    if j in s.db.jobs && !s.db.jobs[j].cancel { EndedRows(s.db, j, s.exec.binding, s.exec.phase.err); }
  }

  // ---------------------------------------------------------------- rows, albums and the remote

  /** Rows of equal content that have remote ids have the same id. That it is the remote's only copy of that content is an
      assumption on the remote, which answers an upload of known content with the id it has. */
  lemma OneRemoteCopy(ts: seq<Step>, n: State, b: nat, a: nat, c: nat, e: nat)
    requires Reaches(ts, n)
    requires b in n.db.bindings && a in n.db.bindings[b].imports && n.db.bindings[b].imports[a].remote.Some?
    requires c in n.db.bindings && e in n.db.bindings[c].imports && n.db.bindings[c].imports[e].remote.Some?
    ensures a in n.db.assets && e in n.db.assets
    ensures n.db.assets[a].content == n.db.assets[e].content
            <==> n.db.bindings[b].imports[a].remote == n.db.bindings[c].imports[e].remote
    ensures forall i, k :: i in n.remote.copies && k in n.remote.copies && n.remote.copies[i] == n.remote.copies[k] ==> i == k
  {
    ReachedInv(ts, n);
    assert Sourced(n.db, n.db.bindings[b].event, a) && Sourced(n.db, n.db.bindings[c].event, e);
    assert RowTrue(n.db.bindings[b].imports[a], n.db.assets[a].content, n.remote);
    assert RowTrue(n.db.bindings[c].imports[e], n.db.assets[e].content, n.remote);
  }

  ghost predicate AlbumedAfter(s: State, t: Step) {
    Next(s, t).Some? ==> Albumed(Next(s, t).value.db, Next(s, t).value.remote.added)
  }

  /** If the step settles a row, the claimed binding is still there, or the binding that now has its id stores the job's own
      album or one that holds the asset already. */
  predicate SettlesOwnStep(s: State, t: Step) { t.Account? && AccountStep(s, t.asset).Some? ==> SettlesOwn(s, t.asset) }

  lemma AlbumedStep(s: State, t: Step)
    requires Inv(s) && Albumed(s.db, s.remote.added) && Next(s, t).Some?
    ensures Inv(Next(s, t).value) && (Albumed(Next(s, t).value.db, Next(s, t).value.remote.added) <==> SettlesOwnStep(s, t))
  {
    StepSafe(s, t);
    if t.Account? { AccountStepAlbumed(s, t); } else { StepAlbumed(s, t); }
  }

  lemma AccountStepAlbumed(s: State, t: Step)
    requires Inv(s) && Albumed(s.db, s.remote.added) && t.Account? && Next(s, t).Some?
    ensures Albumed(Next(s, t).value.db, Next(s, t).value.remote.added) <==> SettlesOwnStep(s, t)
  {
    NextAccount(s, t);
    AccountAlbumed(s, t.asset);
  }

  lemma NextAccount(s: State, t: Step)
    requires t.Account?
    ensures Next(s, t) == AccountStep(s, t.asset) && (Next(s, t).Some? ==> Next(s, t).value.remote == s.remote)
  {}

  lemma {:induction false} AlbumedAlong(s: State, ts: seq<Step>)
    requires Inv(s) && Albumed(s.db, s.remote.added) && Run(s, ts).Some?
    ensures Along(s, ts, AlbumedAfter) <==> Along(s, ts, SettlesOwnStep)
    ensures Along(s, ts, SettlesOwnStep) ==> Albumed(Run(s, ts).value.db, Run(s, ts).value.remote.added)
    decreases |ts|
  {
    if ts != [] {
      var n := Next(s, ts[0]).value;
      AlbumedStep(s, ts[0]);
      if Albumed(n.db, n.remote.added) { AlbumedAlong(n, ts[1..]); }
    }
  }

  /** An imported or duplicate row carries the remote id of its content. Settled rows are in their bindings' albums at
      every moment, exactly if each row settles while the claimed binding is there, or under one with its id that stores the
      job's own album or an album that holds the asset already. */
  lemma SettledInAlbum(ts: seq<Step>, n: State, b: nat, a: nat)
    requires Reaches(ts, n) && b in n.db.bindings && a in n.db.bindings[b].imports && Settled(n.db.bindings[b].imports[a])
    ensures var x := n.db.bindings[b];
            && x.imports[a].remote.Some? && a in n.db.assets && x.imports[a].remote.value in n.remote.copies
            && n.remote.copies[x.imports[a].remote.value] == n.db.assets[a].content
            && (Along(START, ts, SettlesOwnStep) ==> x.album.Some? && (x.album.value, x.imports[a].remote.value) in n.remote.added)
    ensures Along(START, ts, AlbumedAfter) <==> Along(START, ts, SettlesOwnStep)
  {
    ReachedInv(ts, n);
    AlbumedAlong(START, ts);
    assert Sourced(n.db, n.db.bindings[b].event, a);
    assert RowTrue(n.db.bindings[b].imports[a], n.db.assets[a].content, n.remote);
    if Along(START, ts, SettlesOwnStep) { assert RowAlbumed(n.db.bindings[b].album, n.db.bindings[b].imports[a], n.remote.added); }
  }

  /** One CreateAlbum request per binding at most, and the album state is 'ready' exactly when the id is stored. */
  lemma AlbumOnce(ts: seq<Step>, n: State, b: nat)
    requires Reaches(ts, n) && b in n.db.bindings
    ensures n.db.bindings[b].marker in n.remote.creates ==> n.remote.creates[n.db.bindings[b].marker] == 1
    ensures n.db.bindings[b].state.AlbumReady? <==> n.db.bindings[b].album.Some?
  {
    ReachedInv(ts, n);
  }

  lemma SparedBindingStep(s: State, t: Step)
    requires Inv(s) && OwnBinding(s) && SparesBinding(s, t) && Next(s, t).Some? && forall c :: c in s.remote.sent ==> !c.foreign
    ensures Inv(Next(s, t).value) && OwnBinding(Next(s, t).value) && SettlesOwnStep(s, t)
    ensures forall c :: c in Next(s, t).value.remote.sent ==> !c.foreign
  {
    StepSafe(s, t);
    StepOwnIds(s, t);
    OwnUploads(s, t);
  }

  lemma {:induction false} SparedBindings(s: State, ts: seq<Step>)
    requires Inv(s) && OwnBinding(s) && Run(s, ts).Some? && Along(s, ts, SparesBinding)
    requires forall c :: c in s.remote.sent ==> !c.foreign
    ensures Along(s, ts, SettlesOwnStep)
    ensures forall c :: c in Run(s, ts).value.remote.sent ==> !c.foreign
    decreases |ts|
  {
    if ts != [] {
      SparedBindingStep(s, ts[0]);
      SparedBindings(Next(s, ts[0]).value, ts[1..]);
    }
  }

  /** No upload was ever sent for a row that had a remote id, nor by a job created to set up the album only, unless the id
      of its binding had gone to another one. */
  lemma NoNeedlessUpload(ts: seq<Step>, n: State, i: nat)
    requires Reaches(ts, n) && i < |n.remote.sent|
    ensures !n.remote.sent[i].hadId && (n.remote.sent[i].albumOnly ==> n.remote.sent[i].foreign)
  {
    ReachedInv(ts, n);
    assert n.remote.sent[i] in n.remote.sent;
  }

  /** Where no new binding gets the id of a claimed one, every settled row is in its album at every moment, and no job
      created to set up the album only uploads anything. */
  lemma BindingIdsSpared(ts: seq<Step>, n: State)
    requires Reaches(ts, n) && Along(START, ts, SparesBinding)
    ensures Albumed(n.db, n.remote.added)
    ensures forall c :: c in n.remote.sent ==> !c.albumOnly
  {
    SparedBindings(START, ts);
    AlbumedAlong(START, ts);
    ReachedInv(ts, n);
  }

  // ---------------------------------------------------------------- between two moments of one run

  /** From one moment of a run to any later one, for a row of the same binding and media. That the remote keeps its copies and
      album entries is an assumption on the remote: no step takes one away. */
  lemma RowsOverTime(ts: seq<Step>, s: State, us: seq<Step>, n: State, b: nat, a: nat)
    requires Reaches(ts, s) && Run(s, us) == Some(n)
    requires b in s.db.bindings && a in s.db.bindings[b].imports
    requires b in n.db.bindings && n.db.bindings[b].marker == s.db.bindings[b].marker && a in n.db.assets
    ensures a in n.db.bindings[b].imports
    ensures var r, q := s.db.bindings[b].imports[a], n.db.bindings[b].imports[a];
            && (r.remote.Some? ==> q.remote == r.remote)
            && (r.status.Imported? || r.status.Duplicate? ==> q == r)
            && (r.status.Failed? && !Retries(us) ==> q.status.Failed?)
    ensures s.db.bindings[b].album.Some? ==> n.db.bindings[b].album == s.db.bindings[b].album
    ensures forall i :: i in s.remote.copies ==> i in n.remote.copies && n.remote.copies[i] == s.remote.copies[i]
    ensures s.remote.added <= n.remote.added && s.remote.sent <= n.remote.sent
  {
    ReachedInv(ts, s);
    RunKeeps(s, us);
    assert BindingKept(s.db.bindings[b], n.db.bindings[b], n.db.assets, Retries(us));
  }
}
