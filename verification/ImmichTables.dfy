/** Each SQL transaction of the import engine keeps the table invariant, whatever the process is doing. */
module ImmichTables {
  import opened Ordered
  import opened ImmichModel
  import opened ImmichInvariant

  // ---------------------------------------------------------------- frames

  ghost predicate Kin(x: Binding, y: Binding) {
    x.event == y.event && x.target == y.target && x.marker == y.marker && x.imports.Keys == y.imports.Keys
  }

  /** The same rows and jobs; only columns other than keys may differ, and no job turns active. */
  ghost predicate SameShape(d: Db, n: Db) {
    && n.events == d.events && n.assets == d.assets && n.bindings.Keys == d.bindings.Keys && n.jobs.Keys == d.jobs.Keys
    && (forall b :: b in d.bindings ==> Kin(d.bindings[b], n.bindings[b]))
    && (forall j :: j in d.jobs ==> n.jobs[j].binding == d.jobs[j].binding && n.jobs[j].albumOnly == d.jobs[j].albumOnly
                                    && (Active(n.jobs[j]) ==> Active(d.jobs[j])))
  }

  /** SameShape, with album columns that move only forward. */
  ghost predicate Frame(d: Db, n: Db) {
    && SameShape(d, n)
    && (forall b :: b in d.bindings ==> (n.bindings[b].state.AlbumReady? <==> n.bindings[b].album.Some?)
                                        && (n.bindings[b].state.NewAlbum? ==> d.bindings[b].state.NewAlbum?))
  }

  /** SameShape, with jobs staying as active or cancelled, and no row reopened without a job. */
  ghost predicate Covers(d: Db, n: Db) {
    && SameShape(d, n)
    && (forall j :: j in d.jobs ==> (Active(d.jobs[j]) ==> Active(n.jobs[j])) && (d.jobs[j].status.Cancelled? ==> n.jobs[j].status.Cancelled?))
    && (forall b :: b in d.bindings && OpenRows(n.bindings[b]) ==> OpenRows(d.bindings[b]) || HasActive(d, b))
  }

  lemma ShapeTables(d: Db, n: Db, assets: set<nat>, markers: set<nat>)
    requires Tables(d, assets, markers) && SameShape(d, n)
    ensures Tables(n, assets, markers)
  {
    forall b, c | b in n.bindings && c in n.bindings && SameMarker(n.bindings[b], n.bindings[c]) ensures b == c {
      assert Kin(d.bindings[b], n.bindings[b]) && Kin(d.bindings[c], n.bindings[c]);
      assert SameMarker(d.bindings[b], d.bindings[c]);
    }
    forall b, c | b in n.bindings && c in n.bindings && SameKey(n.bindings[b], n.bindings[c]) ensures b == c {
      assert Kin(d.bindings[b], n.bindings[b]) && Kin(d.bindings[c], n.bindings[c]);
      assert SameKey(d.bindings[b], d.bindings[c]);
    }
  }

  lemma ShapeRest(d: Db, n: Db)
    requires Sources(d) && ActiveNewest(d) && AlbumOnlyEmpty(d) && SameShape(d, n)
    ensures Sources(n) && ActiveNewest(n) && AlbumOnlyEmpty(n)
  {
    forall b, a | b in n.bindings && a in n.bindings[b].imports ensures Sourced(n, n.bindings[b].event, a) {
      assert Kin(d.bindings[b], n.bindings[b]);
      assert Sourced(d, d.bindings[b].event, a);
    }
    forall j | j in n.jobs && Active(n.jobs[j]) ensures Newest(n, j) { assert Newest(d, j); }
    forall j | j in n.jobs && n.jobs[j].albumOnly && Active(n.jobs[j]) && n.jobs[j].binding in n.bindings
      ensures n.bindings[n.jobs[j].binding].imports == map[]
    {
      var b := n.jobs[j].binding;
      assert Kin(d.bindings[b], n.bindings[b]);
      assert d.bindings[b].imports == map[];
    }
  }

  lemma FrameOwned(d: Db, n: Db)
    requires Owned(d) && Covers(d, n)
    ensures Owned(n)
  {
    forall b | b in n.bindings && OpenRows(n.bindings[b]) ensures Covered(n, b) {
      assert Covered(d, b);
      if HasActive(d, b) {
        var j :| j in d.jobs && d.jobs[j].binding == b && Active(d.jobs[j]);
        assert j in n.jobs && n.jobs[j].binding == b && Active(n.jobs[j]);
      } else {
        var j :| Newest(d, j) && d.jobs[j].binding == b && d.jobs[j].status.Cancelled?;
        assert Newest(n, j);
      }
    }
  }

  lemma FrameAlbum(d: Db, n: Db, creates: map<nat, nat>, markers: set<nat>)
    requires AlbumOk(d, creates, markers) && Frame(d, n)
    ensures AlbumOk(n, creates, markers)
  {
    forall b | b in n.bindings && n.bindings[b].state.NewAlbum? ensures n.bindings[b].marker !in creates {
      assert Kin(d.bindings[b], n.bindings[b]);
    }
  }

  lemma FrameKeeps(d: Db, n: Db, creates: map<nat, nat>, assets: set<nat>, markers: set<nat>)
    requires DbOk(d, creates, assets, markers) && Frame(d, n)
    ensures DbOk(n, creates, assets, markers)
  {
    ShapeTables(d, n, assets, markers);
    ShapeRest(d, n);
    FrameAlbum(d, n, creates, markers);
  }

  // ---------------------------------------------------------------- single statements

  ghost predicate AlbumColumns(d: Db) {
    forall b :: b in d.bindings ==> (d.bindings[b].state.AlbumReady? <==> d.bindings[b].album.Some?)
  }

  lemma RowWriteFrame(d: Db, b: nat, a: nat, r: Row)
    requires AlbumColumns(d) && b in d.bindings && a in d.bindings[b].imports
    ensures Frame(d, SetRow(d, b, a, r)) && (HasActive(d, b) ==> Covers(d, SetRow(d, b, a, r)))
  {
    assert SetRow(d, b, a, r).bindings[b].imports.Keys == d.bindings[b].imports.Keys;
  }

  lemma CancelFrame(d: Db, e: nat, t: nat)
    requires AlbumColumns(d)
    ensures Frame(d, CancelTx(d, e, t)) && Covers(d, CancelTx(d, e, t))
  {}

  lemma RecoverFrame(d: Db)
    requires AlbumColumns(d)
    ensures Frame(d, RecoverTx(d)) && Covers(d, RecoverTx(d))
  {
    var n := RecoverTx(d);
    forall b | b in d.bindings ensures Kin(d.bindings[b], n.bindings[b]) {
      assert n.bindings[b].imports.Keys == d.bindings[b].imports.Keys;
    }
    forall b | b in d.bindings && OpenRows(n.bindings[b]) ensures OpenRows(d.bindings[b]) {
      var a :| a in n.bindings[b].imports && Open(n.bindings[b].imports[a]);
      assert Open(d.bindings[b].imports[a]);
    }
  }

  lemma ClaimFrame(d: Db)
    requires AlbumColumns(d) && ClaimTx(d).Some?
    ensures Frame(d, ClaimTx(d).value.1) && Covers(d, ClaimTx(d).value.1)
  {}

  /** Policy or album columns of one binding. */
  lemma ColumnFrame(d: Db, b: nat, x: Binding)
    requires AlbumColumns(d) && b in d.bindings
    requires Kin(d.bindings[b], x) && x.imports == d.bindings[b].imports
    requires (x.state.AlbumReady? <==> x.album.Some?) && (x.state.NewAlbum? ==> d.bindings[b].state.NewAlbum?)
    ensures Frame(d, d.(bindings := d.bindings[b := x])) && Covers(d, d.(bindings := d.bindings[b := x]))
  {}

  lemma RowWriteKeeps(d: Db, b: nat, a: nat, r: Row, creates: map<nat, nat>, assets: set<nat>, markers: set<nat>)
    requires DbOk(d, creates, assets, markers)
    requires b in d.bindings && a in d.bindings[b].imports
    ensures DbOk(SetRow(d, b, a, r), creates, assets, markers)
  {
    RowWriteFrame(d, b, a, r);
    FrameKeeps(d, SetRow(d, b, a, r), creates, assets, markers);
  }

  lemma CancelKeeps(d: Db, e: nat, t: nat, creates: map<nat, nat>, assets: set<nat>, markers: set<nat>)
    requires DbOk(d, creates, assets, markers)
    ensures DbOk(CancelTx(d, e, t), creates, assets, markers)
  {
    CancelFrame(d, e, t);
    FrameKeeps(d, CancelTx(d, e, t), creates, assets, markers);
  }

  lemma RecoverKeeps(d: Db, creates: map<nat, nat>, assets: set<nat>, markers: set<nat>)
    requires DbOk(d, creates, assets, markers)
    ensures DbOk(RecoverTx(d), creates, assets, markers)
  {
    RecoverFrame(d);
    FrameKeeps(d, RecoverTx(d), creates, assets, markers);
  }

  lemma ClaimKeeps(d: Db, creates: map<nat, nat>, assets: set<nat>, markers: set<nat>)
    requires DbOk(d, creates, assets, markers) && ClaimTx(d).Some?
    ensures DbOk(ClaimTx(d).value.1, creates, assets, markers)
  {
    ClaimFrame(d);
    FrameKeeps(d, ClaimTx(d).value.1, creates, assets, markers);
  }

  lemma ColumnKeeps(d: Db, b: nat, x: Binding, creates: map<nat, nat>, assets: set<nat>, markers: set<nat>)
    requires DbOk(d, creates, assets, markers) && b in d.bindings
    requires Kin(d.bindings[b], x) && x.imports == d.bindings[b].imports
    requires (x.state.AlbumReady? <==> x.album.Some?) && (x.state.NewAlbum? ==> d.bindings[b].state.NewAlbum?)
    ensures DbOk(d.(bindings := d.bindings[b := x]), creates, assets, markers)
  {
    ColumnFrame(d, b, x);
    FrameKeeps(d, d.(bindings := d.bindings[b := x]), creates, assets, markers);
  }

  /** Import rows move within their statuses. */
  lemma ImportsFrame(d: Db, n: Db, b: nat, rows: map<nat, Row>)
    requires AlbumColumns(d) && b in d.bindings && rows.Keys == d.bindings[b].imports.Keys
    requires n == d.(bindings := d.bindings[b := d.bindings[b].(imports := rows)])
    ensures Frame(d, n)
  {}

  lemma StatusFrame(d: Db, j: nat, status: JobStatus)
    requires AlbumColumns(d) && j in d.jobs && !status.Queued? && !status.Running?
    ensures Frame(d, d.(jobs := d.jobs[j := d.jobs[j].(status := status)]))
  {}

  lemma FrameTwice(d: Db, m: Db, n: Db)
    requires Frame(d, m) && Frame(m, n)
    ensures Frame(d, n)
  {}

  lemma FinishFrame(d: Db, j: nat, b: nat, err: bool)
    requires AlbumColumns(d)
    ensures Frame(d, FinishTx(d, j, b, err))
  {
    if j in d.jobs {
      var status := FinishTx(d, j, b, err).jobs[j].status;
      StatusFrame(d, j, status);
      if status.JobFailed? && b in d.bindings {
        var m := d.(jobs := d.jobs[j := d.jobs[j].(status := status)]);
        ImportsFrame(m, FinishTx(d, j, b, err), b, FailPending(d.bindings[b].imports));
        FrameTwice(d, m, FinishTx(d, j, b, err));
      }
    }
  }

  /** Ending a job keeps the tables, whichever job has its id. */
  lemma FinishKeeps(d: Db, j: nat, b: nat, err: bool, creates: map<nat, nat>, assets: set<nat>, markers: set<nat>)
    requires DbOk(d, creates, assets, markers)
    ensures DbOk(FinishTx(d, j, b, err), creates, assets, markers)
  {
    FinishFrame(d, j, b, err);
    FrameKeeps(d, FinishTx(d, j, b, err), creates, assets, markers);
  }

  /** The job that has the ended id keeps its binding's rows owned: it is gone, cancelled, has no open row, or is the failed
      job of the claimed binding. */
  predicate EndsOwn(d: Db, j: nat, b: nat, err: bool) {
    j in d.jobs && !d.jobs[j].cancel && d.jobs[j].binding in d.bindings && OpenRows(d.bindings[d.jobs[j].binding]) ==>
      err && d.jobs[j].binding == b
  }

  ghost predicate NoImporting(x: Binding) { forall a :: a in x.imports ==> !x.imports[a].status.Importing? }

  lemma EndedRows(d: Db, j: nat, b: nat, err: bool)
    requires j in d.jobs && !d.jobs[j].cancel && d.jobs[j].binding in d.bindings && (b in d.bindings ==> NoImporting(d.bindings[b]))
    ensures OpenRows(FinishTx(d, j, b, err).bindings[d.jobs[j].binding]) <==> !EndsOwn(d, j, b, err)
  {
    var k := d.jobs[j].binding;
    var x, y := d.bindings[k], FinishTx(d, j, b, err).bindings[k];
    if OpenRows(x) && !(err && k == b) {
      assert y == x;
    }
  }

  /** Ending a job keeps every open row owned exactly if `EndsOwn` holds. */
  lemma FinishOwned(d: Db, j: nat, b: nat, err: bool)
    requires Owned(d) && ActiveNewest(d) && (j in d.jobs ==> Active(d.jobs[j]) && d.jobs[j].binding in d.bindings)
    requires b in d.bindings ==> NoImporting(d.bindings[b])
    ensures Owned(FinishTx(d, j, b, err)) <==> EndsOwn(d, j, b, err)
  {
    if j in d.jobs {
      var n, k := FinishTx(d, j, b, err), d.jobs[j].binding;
      assert Newest(d, j) && Newest(n, j);
      if !d.jobs[j].cancel { EndedRows(d, j, b, err); }
      if EndsOwn(d, j, b, err) { EndedCovered(d, j, b, err); }
      else { Uncovered(d, j, b, err); }
    }
  }

  lemma Uncovered(d: Db, j: nat, b: nat, err: bool)
    requires ActiveNewest(d) && j in d.jobs && Active(d.jobs[j]) && d.jobs[j].binding in d.bindings && !d.jobs[j].cancel
    requires OpenRows(FinishTx(d, j, b, err).bindings[d.jobs[j].binding])
    ensures !Owned(FinishTx(d, j, b, err))
  {
    var n, k := FinishTx(d, j, b, err), d.jobs[j].binding;
    assert Newest(d, j);
    forall i | i in n.jobs && n.jobs[i].binding == k ensures !Active(n.jobs[i]) {
      assert i != j && Active(d.jobs[i]) ==> Newest(d, i);
    }
    forall i | Newest(n, i) && n.jobs[i].binding == k ensures i == j {
      assert j in n.jobs && n.jobs[j].binding == k && d.jobs[i].binding == k;
    }
    assert !Covered(n, k);
  }

  lemma EndedCovered(d: Db, j: nat, b: nat, err: bool)
    requires Owned(d) && j in d.jobs && Newest(FinishTx(d, j, b, err), j) && d.jobs[j].binding in d.bindings
    requires EndsOwn(d, j, b, err)
    requires !d.jobs[j].cancel ==> !OpenRows(FinishTx(d, j, b, err).bindings[d.jobs[j].binding])
    ensures Owned(FinishTx(d, j, b, err))
  {
    var n, k := FinishTx(d, j, b, err), d.jobs[j].binding;
    forall c | c in n.bindings && OpenRows(n.bindings[c]) ensures Covered(n, c) {
      if c == k {
        assert n.jobs[j].status.Cancelled?;
      } else {
        StillOpen(d, j, b, err, c);
        OtherCovered(d, n, j, c);
      }
    }
  }

  lemma StillOpen(d: Db, j: nat, b: nat, err: bool, c: nat)
    requires c in d.bindings && OpenRows(FinishTx(d, j, b, err).bindings[c])
    ensures OpenRows(d.bindings[c])
  {
    var x, y := d.bindings[c], FinishTx(d, j, b, err).bindings[c];
    var a :| a in y.imports && Open(y.imports[a]);
    assert a in x.imports && Open(x.imports[a]);
  }

  /** A change of one job of another binding does not uncover `c`. */
  lemma OtherCovered(d: Db, n: Db, j: nat, c: nat)
    requires Covered(d, c) && j in d.jobs && d.jobs[j].binding != c
    requires n.jobs.Keys == d.jobs.Keys && n.jobs[j].binding == d.jobs[j].binding
    requires forall k :: k in d.jobs && k != j ==> n.jobs[k] == d.jobs[k]
    ensures Covered(n, c)
  {
    if HasActive(d, c) {
      var k :| k in d.jobs && d.jobs[k].binding == c && Active(d.jobs[k]);
      assert k in n.jobs && n.jobs[k].binding == c && Active(n.jobs[k]);
    } else {
      var k :| Newest(d, k) && d.jobs[k].binding == c && d.jobs[k].status.Cancelled?;
      assert Newest(n, k);
    }
  }

  // ---------------------------------------------------------------- inserts

  lemma NewEventKeeps(d: Db, name: string, creates: map<nat, nat>, assets: set<nat>, markers: set<nat>)
    requires DbOk(d, creates, assets, markers)
    ensures DbOk(d.(events := d.events[NextId(d.events.Keys) := Event(name, false)]), creates, assets, markers)
  {
    var n := d.(events := d.events[NextId(d.events.Keys) := Event(name, false)]);
    SourcesGrow(d, n);
    SameJobsCovered(d, n);
  }

  lemma SourcesGrow(d: Db, n: Db)
    requires Sources(d) && n.bindings == d.bindings
    requires forall a :: a in d.assets ==> a in n.assets && n.assets[a] == d.assets[a]
    ensures Sources(n)
  {
    forall b, a | b in n.bindings && a in n.bindings[b].imports ensures Sourced(n, n.bindings[b].event, a) {
      assert Sourced(d, d.bindings[b].event, a);
    }
  }

  lemma SameJobsCovered(d: Db, n: Db)
    requires n.jobs == d.jobs
    ensures ActiveNewest(d) ==> ActiveNewest(n)
    ensures forall b :: Covered(d, b) ==> Covered(n, b)
  {
    forall j | Newest(d, j) ensures Newest(n, j) {}
    forall b | Covered(d, b) ensures Covered(n, b) {
      assert HasActive(d, b) ==> HasActive(n, b);
      assert NewestCancelled(d, b) ==> NewestCancelled(n, b);
    }
  }

  lemma MediaKeeps(d: Db, a: nat, e: nat, content: nat, created: nat, creates: map<nat, nat>, assets: set<nat>, markers: set<nat>)
    requires DbOk(d, creates, assets, markers) && a !in assets && e in d.events
    ensures DbOk(d.(assets := d.assets[a := Asset(e, true, content, created)]), creates, assets + {a}, markers)
  {
    var n := d.(assets := d.assets[a := Asset(e, true, content, created)]);
    SourcesGrow(d, n);
    SameJobsCovered(d, n);
  }

  ghost predicate FreshBinding(d: Db, x: Binding, markers: set<nat>) {
    && x.event in d.events && x.marker !in markers && BindingsOf(d, x.event, x.target) == {}
    && x.imports == map[] && x.state.NewAlbum? && x.album.None?
  }

  lemma BindingInsertTables(d: Db, x: Binding, b: nat, assets: set<nat>, markers: set<nat>)
    requires Tables(d, assets, markers) && FreshBinding(d, x, markers) && b !in d.bindings
    ensures Tables(d.(bindings := d.bindings[b := x]), assets, markers + {x.marker})
  {
    var n := d.(bindings := d.bindings[b := x]);
    forall c | c in d.bindings ensures !SameKey(d.bindings[c], x) && !SameKey(x, d.bindings[c]) {
      assert c !in BindingsOf(d, x.event, x.target);
    }
    forall c, e | c in n.bindings && e in n.bindings && SameKey(n.bindings[c], n.bindings[e]) ensures c == e {
      if c != b && e != b { assert SameKey(d.bindings[c], d.bindings[e]); }
    }
    forall c, e | c in n.bindings && e in n.bindings && SameMarker(n.bindings[c], n.bindings[e]) ensures c == e {
      if c != b && e != b { assert SameMarker(d.bindings[c], d.bindings[e]); }
    }
  }

  lemma BindingInsertRest(d: Db, x: Binding, b: nat, markers: set<nat>)
    requires Sources(d) && AlbumOnlyEmpty(d) && FreshBinding(d, x, markers) && b !in d.bindings
    requires forall j :: j in d.jobs ==> d.jobs[j].binding in d.bindings
    ensures var n := d.(bindings := d.bindings[b := x]); Sources(n) && AlbumOnlyEmpty(n)
    ensures Owned(d) ==> Owned(d.(bindings := d.bindings[b := x]))
  {
    var n := d.(bindings := d.bindings[b := x]);
    forall c, a | c in n.bindings && a in n.bindings[c].imports ensures Sourced(n, n.bindings[c].event, a) {
      assert Sourced(d, d.bindings[c].event, a);
    }
    SameJobsCovered(d, n);
  }

  lemma BindingInsertKeeps(d: Db, x: Binding, creates: map<nat, nat>, assets: set<nat>, markers: set<nat>)
    requires DbOk(d, creates, assets, markers) && FreshBinding(d, x, markers)
    ensures DbOk(d.(bindings := d.bindings[NextId(d.bindings.Keys) := x]), creates, assets, markers + {x.marker})
  {
    var b := NextId(d.bindings.Keys);
    BindingInsertTables(d, x, b, assets, markers);
    BindingInsertRest(d, x, b, markers);
    SameJobsCovered(d, d.(bindings := d.bindings[b := x]));
  }

  lemma MarkersGrow(d: Db, m: nat, creates: map<nat, nat>, assets: set<nat>, markers: set<nat>)
    requires DbOk(d, creates, assets, markers)
    ensures DbOk(d, creates, assets, markers + {m})
  {}

  ghost predicate Replaces(x: Binding, y: Binding) {
    x.event == y.event && x.target == y.target && x.marker == y.marker && x.state == y.state && x.album == y.album
  }

  lemma JobInsertJobs(d: Db, b: nat, x: Binding, id: nat, job: Job)
    requires ActiveNewest(d) && AlbumOnlyEmpty(d) && b in d.bindings && !HasActive(d, b)
    requires forall k :: k in d.jobs ==> k < id
    requires job.binding == b && job.status.Queued? && (job.albumOnly ==> x.imports == map[])
    ensures var n := d.(bindings := d.bindings[b := x], jobs := d.jobs[id := job]);
            ActiveNewest(n) && AlbumOnlyEmpty(n)
  {
    var n := d.(bindings := d.bindings[b := x], jobs := d.jobs[id := job]);
    forall j | j in n.jobs && Active(n.jobs[j]) ensures Newest(n, j) {
      if j != id {
        assert Newest(d, j);
        assert d.jobs[j].binding != b;
      }
    }
  }

  lemma JobInsertOwned(d: Db, b: nat, x: Binding, id: nat, job: Job)
    requires Owned(d) && b in d.bindings && id !in d.jobs && job.binding == b && job.status.Queued?
    ensures Owned(d.(bindings := d.bindings[b := x], jobs := d.jobs[id := job]))
  {
    var n := d.(bindings := d.bindings[b := x], jobs := d.jobs[id := job]);
    forall c | c in n.bindings && OpenRows(n.bindings[c]) ensures Covered(n, c) {
      if c == b {
        assert n.jobs[id].binding == b && Active(n.jobs[id]);
      } else {
        assert Covered(d, c);
        if HasActive(d, c) {
          var k :| k in d.jobs && d.jobs[k].binding == c && Active(d.jobs[k]);
          assert k in n.jobs && n.jobs[k].binding == c && Active(n.jobs[k]);
        } else {
          var k :| Newest(d, k) && d.jobs[k].binding == c && d.jobs[k].status.Cancelled?;
          assert Newest(n, k);
        }
      }
    }
  }

  lemma JobInsertSources(d: Db, b: nat, x: Binding, id: nat, job: Job)
    requires Sources(d) && b in d.bindings && x.event == d.bindings[b].event
    requires forall a :: a in x.imports ==> Sourced(d, x.event, a)
    ensures Sources(d.(bindings := d.bindings[b := x], jobs := d.jobs[id := job]))
  {
    var n := d.(bindings := d.bindings[b := x], jobs := d.jobs[id := job]);
    forall c, a | c in n.bindings && a in n.bindings[c].imports ensures Sourced(n, n.bindings[c].event, a) {
      assert Sourced(d, n.bindings[c].event, a);
    }
  }

  /** One binding gets new import rows together with its new job. */
  lemma JobInsertKeeps(d: Db, b: nat, x: Binding, job: Job, creates: map<nat, nat>, assets: set<nat>, markers: set<nat>)
    requires DbOk(d, creates, assets, markers) && b in d.bindings && !HasActive(d, b)
    requires job.binding == b && job.status.Queued? && (job.albumOnly ==> x.imports == map[])
    requires Replaces(x, d.bindings[b])
    requires forall a :: a in x.imports ==> Sourced(d, x.event, a)
    ensures DbOk(d.(bindings := d.bindings[b := x], jobs := d.jobs[NextId(d.jobs.Keys) := job]), creates, assets, markers)
  {
    var id := NextId(d.jobs.Keys);
    JobInsertTables(d, b, x, id, job, assets, markers);
    JobInsertJobs(d, b, x, id, job);
    JobInsertSources(d, b, x, id, job);
  }

  lemma JobInsertTables(d: Db, b: nat, x: Binding, id: nat, job: Job, assets: set<nat>, markers: set<nat>)
    requires Tables(d, assets, markers) && b in d.bindings && job.binding == b && id !in d.jobs
    requires x.event == d.bindings[b].event && x.target == d.bindings[b].target && x.marker == d.bindings[b].marker
    ensures Tables(d.(bindings := d.bindings[b := x], jobs := d.jobs[id := job]), assets, markers)
  {
    var n := d.(bindings := d.bindings[b := x], jobs := d.jobs[id := job]);
    forall c, e | c in n.bindings && e in n.bindings && SameKey(n.bindings[c], n.bindings[e]) ensures c == e {
      assert SameKey(d.bindings[c], d.bindings[e]);
    }
    forall c, e | c in n.bindings && e in n.bindings && SameMarker(n.bindings[c], n.bindings[e]) ensures c == e {
      assert SameMarker(d.bindings[c], d.bindings[e]);
    }
  }

  lemma SubmitKeeps(d: Db, b: nat, name: string, r: Request, creates: map<nat, nat>, assets: set<nat>, markers: set<nat>)
    requires DbOk(d, creates, assets, markers) && b in d.bindings && Submit(d, b, name, r).Ok?
    ensures DbOk(Submit(d, b, name, r).value, creates, assets, markers)
  {
    var x := d.bindings[b];
    var named := if x.state.NewAlbum? then x.(name := name) else x;
    var imports := if r.albumOnly then x.imports
                   else if r.mode == "new" then Select(x.imports, ReadyAssets(d, x.event))
                   else Reset(x.imports);
    forall a | a in imports ensures Sourced(d, x.event, a) {
      assert a in x.imports ==> Sourced(d, x.event, a);
    }
    JobInsertKeeps(d, b, named.(imports := imports),
                   Job(b, if r.mode == "new" then NewMedia else RetryMedia, r.albumOnly, Queued, false), creates, assets, markers);
  }

  lemma EnqueueKeeps(d: Db, r: Request, creates: map<nat, nat>, assets: set<nat>, markers: set<nat>)
    requires DbOk(d, creates, assets, markers) && r.marker !in markers && EnqueueTx(d, r).Ok?
    ensures DbOk(EnqueueTx(d, r).value, creates, assets, markers + {r.marker})
  {
    var found := BindingsOf(d, r.event, r.target);
    var name := NameFor(d, r);
    if found == {} {
      var x := NewBinding(r, name);
      BindingInsertKeeps(d, x, creates, assets, markers);
      var b := NextId(d.bindings.Keys);
      SubmitKeeps(d.(bindings := d.bindings[b := x]), b, name, r, creates, assets, markers + {r.marker});
    } else {
      SubmitKeeps(d, Min(found), name, r, creates, assets, markers);
      MarkersGrow(EnqueueTx(d, r).value, r.marker, creates, assets, markers);
    }
  }

  lemma ReconcileKeeps(d: Db, b: nat, creates: map<nat, nat>, assets: set<nat>, markers: set<nat>)
    requires DbOk(d, creates, assets, markers)
    ensures DbOk(ReconcileTx(d, b), creates, assets, markers)
  {
    if Eligible(d, b) {
      var chosen := Batch(d, b);
      if chosen != {} {
        var x := d.bindings[b].(imports := Select(d.bindings[b].imports, chosen));
        forall a | a in x.imports ensures Sourced(d, x.event, a) {
          assert a in d.bindings[b].imports ==> Sourced(d, x.event, a);
        }
        JobInsertKeeps(d, b, x, Job(b, NewMedia, false, Queued, false), creates, assets, markers);
      }
    }
  }

  // ---------------------------------------------------------------- policy and deletion

  /** A change of the automatic policy alone. */
  ghost predicate PolicyOnly(d: Db, n: Db) {
    && n == d.(bindings := n.bindings) && n.bindings.Keys == d.bindings.Keys
    && forall b :: b in d.bindings ==> n.bindings[b] == d.bindings[b].(auto := n.bindings[b].auto)
  }

  lemma PolicyFrame(d: Db, n: Db)
    requires AlbumColumns(d) && PolicyOnly(d, n)
    ensures Frame(d, n) && Covers(d, n)
  {
    forall b | b in d.bindings && OpenRows(n.bindings[b]) ensures OpenRows(d.bindings[b]) {
      var a :| a in n.bindings[b].imports && Open(n.bindings[b].imports[a]);
      assert Open(d.bindings[b].imports[a]);
    }
  }

  lemma PolicyKeeps(d: Db, n: Db, creates: map<nat, nat>, assets: set<nat>, markers: set<nat>)
    requires DbOk(d, creates, assets, markers) && PolicyOnly(d, n)
    ensures DbOk(n, creates, assets, markers)
  {
    PolicyFrame(d, n);
    FrameKeeps(d, n, creates, assets, markers);
  }

  lemma CreatePolicy(d: Db, e: nat, auto: bool)
    ensures PolicyOnly(d, WithPolicy(d, e, auto))
  {}

  lemma CreateEventKeeps(d: Db, name: string, r: Request, auto: bool, creates: map<nat, nat>, assets: set<nat>, markers: set<nat>)
    requires DbOk(d, creates, assets, markers) && r.marker !in markers && CreateEventTx(d, name, r, auto).Ok?
    ensures DbOk(CreateEventTx(d, name, r, auto).value, creates, assets, markers + {r.marker})
  {
    var e := NextId(d.events.Keys);
    var base := d.(events := d.events[e := Event(name, false)]);
    NewEventKeeps(d, name, creates, assets, markers);
    var q := r.(event := e, mode := "new", albumOnly := true, requireCredentials := false);
    EnqueueKeeps(base, q, creates, assets, markers);
    var made := EnqueueTx(base, q).value;
    CreatePolicy(made, e, auto);
    PolicyKeeps(made, WithPolicy(made, e, auto), creates, assets, markers + {r.marker});
  }

  lemma DeletingKeeps(d: Db, e: nat, creates: map<nat, nat>, assets: set<nat>, markers: set<nat>)
    requires DbOk(d, creates, assets, markers) && e in d.events
    ensures DbOk(d.(events := d.events[e := d.events[e].(deleting := true)]), creates, assets, markers)
  {
    var n := d.(events := d.events[e := d.events[e].(deleting := true)]);
    SourcesGrow(d, n);
    SameJobsCovered(d, n);
  }

  lemma UnreadyKeeps(d: Db, a: nat, creates: map<nat, nat>, assets: set<nat>, markers: set<nat>)
    requires DbOk(d, creates, assets, markers) && a in d.assets
    requires d.assets[a].event in d.events && d.events[d.assets[a].event].deleting
    ensures DbOk(d.(assets := d.assets[a := d.assets[a].(ready := false)]), creates, assets, markers)
  {
    var n := d.(assets := d.assets[a := d.assets[a].(ready := false)]);
    forall b, c | b in n.bindings && c in n.bindings[b].imports ensures Sourced(n, n.bindings[b].event, c) {
      assert Sourced(d, d.bindings[b].event, c);
    }
    SameJobsCovered(d, n);
  }

  lemma RemoveAssetKeeps(d: Db, a: nat, creates: map<nat, nat>, assets: set<nat>, markers: set<nat>)
    requires DbOk(d, creates, assets, markers)
    ensures DbOk(WithoutAsset(d, a), creates, assets, markers)
  {
    var n := WithoutAsset(d, a);
    RemoveAssetTables(d, a, assets, markers);
    SameJobsCovered(d, n);
    forall b, c | b in n.bindings && c in n.bindings[b].imports ensures Sourced(n, n.bindings[b].event, c) {
      assert c in d.bindings[b].imports && c != a;
      assert Sourced(d, d.bindings[b].event, c);
    }
    forall j | j in n.jobs && n.jobs[j].albumOnly && Active(n.jobs[j]) && n.jobs[j].binding in n.bindings
      ensures n.bindings[n.jobs[j].binding].imports == map[]
    {
      assert d.bindings[n.jobs[j].binding].imports == map[];
      assert n.bindings[n.jobs[j].binding].imports.Keys == {};
    }
  }

  lemma RemoveAssetOwned(d: Db, a: nat)
    requires Owned(d)
    ensures Owned(WithoutAsset(d, a))
  {
    var n := WithoutAsset(d, a);
    SameJobsCovered(d, n);
    forall b | b in n.bindings && OpenRows(n.bindings[b]) ensures Covered(n, b) {
      var c :| c in n.bindings[b].imports && Open(n.bindings[b].imports[c]);
      assert Open(d.bindings[b].imports[c]);
      assert Covered(d, b);
    }
  }

  lemma RemoveAssetTables(d: Db, a: nat, assets: set<nat>, markers: set<nat>)
    requires Tables(d, assets, markers)
    ensures Tables(WithoutAsset(d, a), assets, markers)
  {
    var n := WithoutAsset(d, a);
    forall c, e | c in n.bindings && e in n.bindings && SameKey(n.bindings[c], n.bindings[e]) ensures c == e {
      assert SameKey(d.bindings[c], d.bindings[e]);
    }
    forall c, e | c in n.bindings && e in n.bindings && SameMarker(n.bindings[c], n.bindings[e]) ensures c == e {
      assert SameMarker(d.bindings[c], d.bindings[e]);
    }
  }

  lemma RemoveEventKeeps(d: Db, e: nat, creates: map<nat, nat>, assets: set<nat>, markers: set<nat>)
    requires DbOk(d, creates, assets, markers)
    requires forall a :: a in d.assets ==> d.assets[a].event != e
    ensures DbOk(WithoutEvent(d, e), creates, assets, markers)
  {
    var n := WithoutEvent(d, e);
    forall b, c | b in n.bindings && c in n.bindings[b].imports ensures Sourced(n, n.bindings[b].event, c) {
      assert Sourced(d, d.bindings[b].event, c);
    }
    forall j | j in n.jobs && Active(n.jobs[j]) ensures Newest(n, j) { assert Newest(d, j); }
  }

  lemma RemoveEventOwned(d: Db, e: nat)
    requires Owned(d)
    ensures Owned(WithoutEvent(d, e))
  {
    var n := WithoutEvent(d, e);
    forall b | b in n.bindings && OpenRows(n.bindings[b]) ensures Covered(n, b) {
      assert Covered(d, b);
      if HasActive(d, b) {
        var k :| k in d.jobs && d.jobs[k].binding == b && Active(d.jobs[k]);
        assert k in n.jobs && n.jobs[k].binding == b && Active(n.jobs[k]);
      } else {
        var k :| Newest(d, k) && d.jobs[k].binding == b && d.jobs[k].status.Cancelled?;
        assert Newest(n, k);
      }
    }
  }

  /** The table invariant contains the guard the schema's partial unique index would enforce. */
  lemma OneActiveJob(d: Db)
    requires ActiveNewest(d)
    ensures OneActive(d)
  {
    forall i, j | i in d.jobs && j in d.jobs && Rivals(d.jobs[i], d.jobs[j]) ensures i == j {
      assert Newest(d, i) && Newest(d, j);
    }
  }
}
