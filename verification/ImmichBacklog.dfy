/** Automatic import drains any backlog in as few jobs as its batch size allows. */
module ImmichBacklog {
  import opened Ordered
  import opened ImmichModel

  function JobsOf(db: Db, b: nat): set<nat> { set j | j in db.jobs && db.jobs[j].binding == b }

  /** The active job of the binding ran to its end without failure or cancellation: it settled exactly the rows that were open
      before. Media may have become ready meanwhile, and automatic import been switched. */
  ghost predicate RanWell(d: Db, n: Db, b: nat) {
    && b in d.bindings && b in n.bindings
    && n.bindings[b] == d.bindings[b].(imports := n.bindings[b].imports, auto := n.bindings[b].auto)
    && n.bindings[b].imports.Keys == d.bindings[b].imports.Keys
    && (forall a :: a in d.bindings[b].imports ==>
          if Open(d.bindings[b].imports[a]) then Settled(n.bindings[b].imports[a]) else n.bindings[b].imports[a] == d.bindings[b].imports[a])
    && JobsOf(n, b) == JobsOf(d, b) && !HasActive(n, b)
    && d.bindings[b].event in n.events && !n.events[d.bindings[b].event].deleting
    && ReadyAssets(d, d.bindings[b].event) <= ReadyAssets(n, n.bindings[b].event)
  }

  /** And automatic import is on afterwards. */
  ghost predicate Worked(d: Db, n: Db, b: nat) { RanWell(d, n, b) && n.bindings[b].auto }

  ghost predicate RoundAt(ds: seq<Db>, b: nat, i: nat)
    requires i + 1 < |ds|
  {
    Worked(ReconcileTx(ds[i], b), ds[i + 1], b)
  }

  /** Automatic import may create a job for `b`: the binding is there with automatic import on and its album ready and known, its
      event is not being deleted, none of its jobs is queued or running, and none of its rows is pending or importing. A binding
      that has no row yet is no exception. */
  ghost predicate Automatic(d: Db, b: nat) {
    && b in d.bindings && d.bindings[b].auto && d.bindings[b].state.AlbumReady? && d.bindings[b].album.Some?
    && d.bindings[b].event in d.events && !d.events[d.bindings[b].event].deleting
    && (forall j :: j in d.jobs && d.jobs[j].binding == b ==> d.jobs[j].status != Queued && d.jobs[j].status != Running)
    && (forall a :: a in d.bindings[b].imports ==> d.bindings[b].imports[a].status != Pending && d.bindings[b].imports[a].status != Importing)
  }

  lemma EligibleExactly(d: Db, b: nat)
    ensures Eligible(d, b) <==> Automatic(d, b)
  {
    if Automatic(d, b) { assert !HasActive(d, b) && !OpenRows(d.bindings[b]); }
    if Eligible(d, b) {
      forall j | j in d.jobs && d.jobs[j].binding == b ensures !Active(d.jobs[j]) {}
      forall a | a in d.bindings[b].imports ensures !Open(d.bindings[b].imports[a]) {}
    }
  }

  /** A ready asset of the binding's event that has no row. */
  ghost predicate Missing(d: Db, b: nat, a: nat)
    requires b in d.bindings
  {
    a in d.assets && d.assets[a].event == d.bindings[b].event && d.assets[a].ready && a !in d.bindings[b].imports
  }

  /** A reconciliation does something exactly if automatic import may create a job and some ready asset has no row. */
  lemma ReconcileExactly(d: Db, b: nat)
    ensures ReconcileTx(d, b) != d <==> Automatic(d, b) && exists a :: Missing(d, b, a)
  {
    EligibleExactly(d, b);
    if Automatic(d, b) {
      MissingExactly(d, b);
      Reconciled(d, b);
      if Unselected(d, b) != {} { JobAdded(d, b); }
    }
  }

  lemma MissingExactly(d: Db, b: nat)
    requires b in d.bindings
    ensures (exists a :: Missing(d, b, a)) <==> Unselected(d, b) != {}
  {
    if Unselected(d, b) != {} {
      var a :| a in Unselected(d, b);
      assert Missing(d, b, a);
    }
    if a :| Missing(d, b, a) { assert a in Unselected(d, b); }
  }

  /** Each round reconciles the binding and runs the job that made, if any. */
  ghost predicate Rounds(ds: seq<Db>, b: nat) {
    && |ds| > 0 && Automatic(ds[0], b)
    && forall i: nat :: i + 1 < |ds| ==> RoundAt(ds, b, i)
  }

  /** ⌈n / 256⌉. */
  function Batches(n: nat): nat { (n + BATCH - 1) / BATCH }

  function Less(x: nat, y: nat): nat { if x < y then x else y }

  function AutoJob(b: nat): Job { Job(b, NewMedia, false, Queued, false) }

  lemma Reconciled(d: Db, b: nat)
    requires Eligible(d, b)
    ensures var chosen := Batch(d, b);
            ReconcileTx(d, b) == if Unselected(d, b) == {} then d
                                 else d.(bindings := d.bindings[b := d.bindings[b].(imports := Select(d.bindings[b].imports, chosen))],
                                         jobs := d.jobs[NextId(d.jobs.Keys) := AutoJob(b)])
  {
    var chosen := Batch(d, b);
    assert Unselected(d, b) != {} ==> |chosen| > 0;
  }

  lemma OneMore(d: Db, n: Db, b: nat, id: nat, job: Job)
    requires id !in d.jobs && n.jobs == d.jobs[id := job] && job.binding == b
    ensures |JobsOf(n, b)| == |JobsOf(d, b)| + 1
  {
    assert JobsOf(n, b) == JobsOf(d, b) + {id};
  }

  lemma JobAdded(d: Db, b: nat)
    requires Eligible(d, b)
    ensures |JobsOf(ReconcileTx(d, b), b)| == |JobsOf(d, b)| + if Unselected(d, b) == {} then 0 else 1
  {
    Reconciled(d, b);
    if Unselected(d, b) != {} { OneMore(d, ReconcileTx(d, b), b, NextId(d.jobs.Keys), AutoJob(b)); }
  }

  lemma RoundKeepsEligible(d: Db, n: Db, b: nat)
    requires Eligible(d, b) && Worked(ReconcileTx(d, b), n, b)
    ensures Eligible(n, b)
  {}

  /** A round selects the 256 earliest unselected assets by creation time, or all of them, and settles exactly those: a row
      that already existed is untouched, and media that became ready during the job has no row. */
  lemma RoundSelects(d: Db, n: Db, b: nat)
    requires Automatic(d, b) && Worked(ReconcileTx(d, b), n, b)
    ensures n.bindings[b].imports.Keys == d.bindings[b].imports.Keys + Batch(d, b)
    ensures forall x, y :: x in Batch(d, b) && y in Unselected(d, b) && y !in Batch(d, b) ==> Before(d.assets, x, y)
    ensures forall a :: a in Batch(d, b) ==> Settled(n.bindings[b].imports[a])
    ensures forall a :: a in d.bindings[b].imports ==> n.bindings[b].imports[a] == d.bindings[b].imports[a]
  {
    EligibleExactly(d, b);
    Reconciled(d, b);
    SelectedRows(d.bindings[b].imports, Batch(d, b));
  }

  lemma SelectedRows(imports: map<nat, Row>, chosen: set<nat>)
    requires chosen !! imports.Keys
    ensures Select(imports, chosen).Keys == imports.Keys + chosen
    ensures forall a :: a in chosen ==> Select(imports, chosen)[a] == FRESH_ROW
    ensures forall a :: a in imports ==> Select(imports, chosen)[a] == imports[a]
  {}

  lemma RoundShrinks(d: Db, n: Db, b: nat)
    requires Eligible(d, b) && Worked(ReconcileTx(d, b), n, b)
    requires ReadyAssets(n, d.bindings[b].event) == ReadyAssets(d, d.bindings[b].event)
    ensures |Unselected(n, b)| == |Unselected(d, b)| - Less(|Unselected(d, b)|, BATCH)
  {
    EligibleExactly(d, b);
    RoundSelects(d, n, b);
    var left, chosen := Unselected(d, b), Batch(d, b);
    SameEvent(d, n, b);
    UnselectedLess(d, n, b, chosen);
    SizeLess(left, chosen);
  }

  lemma UnselectedLess(d: Db, n: Db, b: nat, chosen: set<nat>)
    requires b in d.bindings && b in n.bindings && n.bindings[b].event == d.bindings[b].event
    requires ReadyAssets(n, d.bindings[b].event) == ReadyAssets(d, d.bindings[b].event)
    requires n.bindings[b].imports.Keys == d.bindings[b].imports.Keys + chosen
    ensures Unselected(n, b) == Unselected(d, b) - chosen
  {}

  lemma SameEvent(d: Db, n: Db, b: nat)
    requires Eligible(d, b) && Worked(ReconcileTx(d, b), n, b)
    ensures n.bindings[b].event == d.bindings[b].event
  {}

  lemma SizeLess(s: set<nat>, c: set<nat>)
    requires c <= s
    ensures |s - c| == |s| - |c|
  {
    assert s == (s - c) + c;
  }

  lemma RoundCounts(d: Db, n: Db, b: nat)
    requires Eligible(d, b) && Worked(ReconcileTx(d, b), n, b)
    requires ReadyAssets(n, d.bindings[b].event) == ReadyAssets(d, d.bindings[b].event)
    ensures b in n.bindings
    ensures |Unselected(n, b)| == |Unselected(d, b)| - Less(|Unselected(d, b)|, BATCH)
    ensures |JobsOf(n, b)| == |JobsOf(d, b)| + if |Unselected(d, b)| == 0 then 0 else 1
  {
    RoundShrinks(d, n, b);
    JobAdded(d, b);
  }

  lemma BatchStep(n: nat, k: nat)
    ensures n - Less(n, BATCH * k) == 0 <==> k >= Batches(n)
    ensures n - Less(n, BATCH * k) - Less(n - Less(n, BATCH * k), BATCH) == n - Less(n, BATCH * (k + 1))
    ensures Less(k, Batches(n)) + (if n - Less(n, BATCH * k) == 0 then 0 else 1) == Less(k + 1, Batches(n))
  {}

  lemma {:induction false} RoundsEligible(ds: seq<Db>, b: nat, k: nat)
    requires Rounds(ds, b) && k < |ds|
    ensures Eligible(ds[k], b) && ds[k].bindings[b].event == ds[0].bindings[b].event
    decreases k
  {
    EligibleExactly(ds[0], b);
    if k > 0 {
      RoundsEligible(ds, b, k - 1);
      assert RoundAt(ds, b, k - 1);
      RoundKeepsEligible(ds[k - 1], ds[k], b);
    }
  }

  /** Media that was ready at the start and became selected is settled, whatever became ready later. */
  lemma {:induction false} SelectedIsSettled(ds: seq<Db>, b: nat, k: nat, a: nat)
    requires Rounds(ds, b) && k < |ds|
    requires b in ds[0].bindings && b in ds[k].bindings && a in ds[k].bindings[b].imports && a !in ds[0].bindings[b].imports
    ensures Settled(ds[k].bindings[b].imports[a])
    decreases k
  {
    RoundsEligible(ds, b, k);
    if k > 0 {
      RoundsEligible(ds, b, k - 1);
      assert RoundAt(ds, b, k - 1);
      EligibleExactly(ds[k - 1], b);
      RoundSelects(ds[k - 1], ds[k], b);
      if a in ds[k - 1].bindings[b].imports { SelectedIsSettled(ds, b, k - 1, a); }
    }
  }

  /** What `k` rounds leave of `n` unselected assets, and the jobs they create. */
  function Left(n: nat, k: nat): nat { if k == 0 then n else Left(n, k - 1) - Less(Left(n, k - 1), BATCH) }

  function Spent(n: nat, k: nat): nat { if k == 0 then 0 else Spent(n, k - 1) + if Left(n, k - 1) == 0 then 0 else 1 }

  lemma {:induction false} ClosedForm(n: nat, k: nat)
    ensures Left(n, k) == n - Less(n, BATCH * k)
    ensures Spent(n, k) == Less(k, Batches(n))
  {
    if k > 0 {
      ClosedForm(n, k - 1);
      BatchStep(n, k - 1);
    }
  }

  /** The ready assets of the binding's event do not change. */
  ghost predicate NoArrivals(ds: seq<Db>, e: nat) {
    forall i :: 0 <= i < |ds| ==> ReadyAssets(ds[i], e) == ReadyAssets(ds[0], e)
  }

  ghost function UnselectedCount(d: Db, b: nat): nat { if b in d.bindings then |Unselected(d, b)| else 0 }

  ghost function JobCount(d: Db, b: nat): nat { |JobsOf(d, b)| }

  lemma RoundAtCounts(ds: seq<Db>, b: nat, p: nat, k: nat)
    requires Rounds(ds, b) && k == p + 1 < |ds| && b in ds[0].bindings && NoArrivals(ds, ds[0].bindings[b].event)
    ensures b in ds[k].bindings
    ensures UnselectedCount(ds[k], b) == UnselectedCount(ds[p], b) - Less(UnselectedCount(ds[p], b), BATCH)
    ensures JobCount(ds[k], b) == JobCount(ds[p], b) + if UnselectedCount(ds[p], b) == 0 then 0 else 1
  {
    RoundsEligible(ds, b, p);
    assert RoundAt(ds, b, p);
    RoundCounts(ds[p], ds[k], b);
  }

  /** With no new media, the unselected assets shrink by 256 a round, at one job a round until none is left. */
  lemma {:induction false} Backlog(ds: seq<Db>, b: nat, k: nat)
    requires Rounds(ds, b) && k < |ds| && b in ds[0].bindings && NoArrivals(ds, ds[0].bindings[b].event)
    ensures b in ds[k].bindings
    ensures UnselectedCount(ds[k], b) == Left(UnselectedCount(ds[0], b), k)
    ensures JobCount(ds[k], b) == JobCount(ds[0], b) + Spent(UnselectedCount(ds[0], b), k)
    decreases k
  {
    if k > 0 {
      var p: nat := k - 1;
      Backlog(ds, b, p);
      RoundAtCounts(ds, b, p, k);
      CountStep(UnselectedCount(ds[0], b), p, k);
    }
  }

  lemma CountStep(n: nat, p: nat, k: nat)
    requires k == p + 1
    ensures Left(n, k) == Left(n, p) - Less(Left(n, p), BATCH) && Spent(n, k) == Spent(n, p) + if Left(n, p) == 0 then 0 else 1
  {}

  /** After ⌈n / 256⌉ rounds every ready asset is selected, those selected since the start are settled, and that took
      exactly ⌈n / 256⌉ jobs; after fewer rounds some asset is still unselected. */
  lemma BacklogDrained(ds: seq<Db>, b: nat, k: nat)
    requires Rounds(ds, b) && b in ds[0].bindings && NoArrivals(ds, ds[0].bindings[b].event)
    requires k < |ds| && k == Batches(UnselectedCount(ds[0], b))
    ensures b in ds[k].bindings
    ensures ReadyAssets(ds[0], ds[0].bindings[b].event) <= ds[k].bindings[b].imports.Keys
    ensures forall a :: a in ds[k].bindings[b].imports && a !in ds[0].bindings[b].imports ==> Settled(ds[k].bindings[b].imports[a])
    ensures JobCount(ds[k], b) == JobCount(ds[0], b) + k
    ensures forall i :: 0 <= i < k && b in ds[i].bindings ==> Unselected(ds[i], b) != {}
  {
    LastRound(ds, b, k);
    forall a | a in ReadyAssets(ds[0], ds[0].bindings[b].event) ensures a in ds[k].bindings[b].imports {
      assert a in ReadyAssets(ds[k], ds[0].bindings[b].event);
      assert a !in Unselected(ds[k], b);
    }
    forall a | a in ds[k].bindings[b].imports && a !in ds[0].bindings[b].imports ensures Settled(ds[k].bindings[b].imports[a]) {
      SelectedIsSettled(ds, b, k, a);
    }
    forall i | 0 <= i < k && b in ds[i].bindings ensures Unselected(ds[i], b) != {} { StillLeft(ds, b, i); }
  }

  lemma LastRound(ds: seq<Db>, b: nat, k: nat)
    requires Rounds(ds, b) && b in ds[0].bindings && NoArrivals(ds, ds[0].bindings[b].event)
    requires k < |ds| && k == Batches(UnselectedCount(ds[0], b))
    ensures b in ds[k].bindings && ds[k].bindings[b].event == ds[0].bindings[b].event
    ensures Unselected(ds[k], b) == {}
    ensures JobCount(ds[k], b) == JobCount(ds[0], b) + k
  {
    Backlog(ds, b, k);
    RoundsEligible(ds, b, k);
    ClosedForm(UnselectedCount(ds[0], b), k);
    BatchStep(UnselectedCount(ds[0], b), k);
  }

  lemma StillLeft(ds: seq<Db>, b: nat, i: nat)
    requires Rounds(ds, b) && i < |ds| && b in ds[0].bindings && NoArrivals(ds, ds[0].bindings[b].event)
    requires i < Batches(UnselectedCount(ds[0], b))
    ensures b in ds[i].bindings && Unselected(ds[i], b) != {}
  {
    Backlog(ds, b, i);
    ClosedForm(UnselectedCount(ds[0], b), i);
    BatchStep(UnselectedCount(ds[0], b), i);
  }
}
