/** What the transactions of the import engine mean to those who call them. */
module ImmichCalls {
  import opened Wrappers
  import opened Ordered
  import opened ImmichModel
  import opened ImmichTables
  import opened ImmichBacklog
  import Cursors
  import ImmichStore

  /** Only jobs change. */
  predicate JobsOnly(d: Db, n: Db) { n.events == d.events && n.assets == d.assets && n.bindings == d.bindings && n.jobs.Keys == d.jobs.Keys }

  // ---------------------------------------------------------------- a manual send

  /** The rows a send selects: for an album-only send none, of none; for "new" the unselected ready media as fresh rows; for
      "retry" exactly the failed and the importing rows, as pending ones. */
  ghost predicate Chooses(d: Db, r: Request, x: map<nat, Row>, y: map<nat, Row>) {
    if r.albumOnly then x == y == map[]
    else if r.mode == "new" then
      && (forall a :: a in x ==> a in y && y[a] == x[a])
      && (forall a :: a !in x ==> (a in y <==> a in d.assets && d.assets[a].event == r.event && d.assets[a].ready))
      && (forall a :: a in y && a !in x ==> y[a] == FRESH_ROW)
    else
      && y.Keys == x.Keys
      && forall a :: a in x ==> y[a] == if x[a].status.Failed? || x[a].status.Importing? then x[a].(status := Pending) else x[a]
  }

  /** The binding `y` that a send leaves, given the one it found, if any; its name changes only before its album exists. */
  ghost predicate Prepares(r: Request, x: Option<Binding>, y: Binding) {
    match x
    case None => y == Binding(r.event, r.target, y.name, r.marker, false, NewAlbum, None, y.imports)
    case Some(b) => y == b.(name := y.name, imports := y.imports) && (!b.state.NewAlbum? ==> y.name == b.name)
  }

  /** One new queued job on the binding `b` of the event and target, which had none active; nothing else changes but that
      binding. */
  ghost predicate Sends(d: Db, n: Db, b: nat, r: Request) {
    && n.events == d.events && n.assets == d.assets && !HasActive(d, b)
    && n.jobs == d.jobs[NextId(d.jobs.Keys) := Job(b, if r.mode == "new" then NewMedia else RetryMedia, r.albumOnly, Queued, false)]
    && n.bindings.Keys == d.bindings.Keys + {b} && (forall c :: c in d.bindings && c != b ==> n.bindings[c] == d.bindings[c])
    && n.bindings[b].event == r.event && n.bindings[b].target == r.target
  }

  /** An accepted send or retry creates one queued job on the event's binding for the target, which it first creates if there is
      none, and selects its rows; until that job has ended every further send there is refused. */
  lemma EnqueueSelects(d: Db, r: Request)
    requires EnqueueTx(d, r).Ok?
    ensures var n, b := EnqueueTx(d, r).value, Landing(d, r);
            && Sends(d, n, b, r)
            && (b in d.bindings <==> exists c :: c in d.bindings && d.bindings[c].event == r.event && d.bindings[c].target == r.target)
            && Prepares(r, if b in d.bindings then Some(d.bindings[b]) else None, n.bindings[b])
            && Chooses(d, r, if b in d.bindings then d.bindings[b].imports else map[], n.bindings[b].imports)
    ensures forall q: Request :: q.event == r.event && q.target == r.target ==> EnqueueTx(EnqueueTx(d, r).value, q).Err?
  {
    BindingFound(d, r);
    EnqueueFinds(d, r);
    var n, b, j := EnqueueTx(d, r).value, Landing(d, r), NextId(d.jobs.Keys);
    forall q: Request | q.event == r.event && q.target == r.target ensures EnqueueTx(n, q).Err? {
      SameLanding(d, n, b, r, q);
      assert j in n.jobs && n.jobs[j].binding == b && Active(n.jobs[j]);
    }
  }

  /** The name of the album: the one asked for, else the binding's, else the event's. */
  function AlbumName(d: Db, r: Request): string
    requires r.event in d.events
  {
    if Trim(r.name) != "" then Trim(r.name)
    else if Landing(d, r) in d.bindings && d.bindings[Landing(d, r)].name != "" then d.bindings[Landing(d, r)].name
    else d.events[r.event].name
  }

  predicate Printable(name: string) { forall c :: c in name ==> c != '\0' && c != '\r' && c != '\n' }

  /** What a send needs: a known mode and a name of at most 200 characters without control characters, a known target, with
      credentials where they are asked for, an event that is not being deleted, no queued or running job of its binding, and for album
      setup no row of it. */
  ghost predicate MaySend(d: Db, r: Request) {
    && (r.mode == "new" || r.mode == "retry") && |Trim(r.name)| <= 200 && Printable(Trim(r.name))
    && r.known && (r.requireCredentials ==> r.credentials)
    && r.event in d.events && !d.events[r.event].deleting && Printable(AlbumName(d, r))
    && (forall j :: j in d.jobs && d.jobs[j].binding == Landing(d, r) ==> !d.jobs[j].status.Queued? && !d.jobs[j].status.Running?)
    && (r.albumOnly ==> Landing(d, r) !in d.bindings || d.bindings[Landing(d, r)].imports == map[])
  }

  /** A send or retry is accepted exactly then. */
  lemma EnqueueExactly(d: Db, r: Request)
    ensures EnqueueTx(d, r).Ok? <==> MaySend(d, r)
  {
    BindingFound(d, r);
    IdleExactly(d, Landing(d, r));
    if r.event in d.events { NameIs(d, r); }
  }

  /** A refused send or retry is told what stands in the way. */
  lemma EnqueueRefused(d: Db, r: Request)
    requires EnqueueTx(d, r).Err?
    ensures match EnqueueTx(d, r).error
            case ErrTarget => !r.known
            case ErrCredentials => r.known && r.requireCredentials && !r.credentials
            case ErrNoEvent => r.event !in d.events
            case ErrDeleting => r.event in d.events && d.events[r.event].deleting
            case ErrActive => exists j :: j in d.jobs && d.jobs[j].binding == Landing(d, r) && (d.jobs[j].status == Queued || d.jobs[j].status == Running)
            case ErrInput =>
              || (r.mode != "new" && r.mode != "retry") || |Trim(r.name)| > 200 || !Printable(Trim(r.name))
              || (r.event in d.events && !Printable(AlbumName(d, r)))
              || (r.albumOnly && Landing(d, r) in d.bindings && d.bindings[Landing(d, r)].imports != map[])
            case ErrNoBinding => false
  {
    BindingFound(d, r);
    IdleExactly(d, Landing(d, r));
    if r.event in d.events { NameIs(d, r); }
  }

  lemma NameIs(d: Db, r: Request)
    requires r.event in d.events
    ensures NameFor(d, r) == AlbumName(d, r)
  {
    BindingFound(d, r);
  }

  lemma IdleExactly(d: Db, b: nat)
    ensures !HasActive(d, b) <==> forall j :: j in d.jobs && d.jobs[j].binding == b ==> !d.jobs[j].status.Queued? && !d.jobs[j].status.Running?
  {
    if !HasActive(d, b) {
      forall j | j in d.jobs && d.jobs[j].binding == b ensures !Active(d.jobs[j]) {}
    }
  }

  // ---------------------------------------------------------------- creating an event, and its policy

  /** Creating an event with a target succeeds exactly if the target is known and the name is acceptable, whatever credentials
      there are. It adds the event, its binding with the policy, and the album's queued job, and changes nothing else. */
  lemma CreateEventExactly(d: Db, name: string, r: Request, auto: bool)
    requires forall b :: b in d.bindings ==> d.bindings[b].event in d.events
    requires forall j :: j in d.jobs ==> d.jobs[j].binding in d.bindings
    ensures var album := if Trim(r.name) != "" then Trim(r.name) else name;
            CreateEventTx(d, name, r, auto).Ok? <==> |Trim(r.name)| <= 200 && Printable(Trim(r.name)) && Printable(album) && r.known
    ensures CreateEventTx(d, name, r, auto).Ok? ==>
              var e, b, j, album := NextId(d.events.Keys), NextId(d.bindings.Keys), NextId(d.jobs.Keys), if Trim(r.name) != "" then Trim(r.name) else name;
              CreateEventTx(d, name, r, auto).value
              == Db(d.events[e := Event(name, false)], d.assets,
                    d.bindings[b := Binding(e, r.target, album, r.marker, auto, NewAlbum, None, map[])],
                    d.jobs[j := Job(b, NewMedia, true, Queued, false)])
  {
    var e := NextId(d.events.Keys);
    var base := d.(events := d.events[e := Event(name, false)]);
    var q := r.(event := e, mode := "new", albumOnly := true, requireCredentials := false);
    assert BindingsOf(base, e, r.target) == {};
    EnqueueExactly(base, q);
    NameIs(base, q);
    if CreateEventTx(d, name, r, auto).Ok? { EventAdded(d, base, q, auto); }
  }

  lemma EventAdded(d: Db, base: Db, q: Request, auto: bool)
    requires EnqueueTx(base, q).Ok? && BindingsOf(base, q.event, q.target) == {} && q.event in base.events
    requires q.mode == "new" && q.albumOnly && base.bindings == d.bindings && forall b :: b in d.bindings ==> d.bindings[b].event != q.event
    ensures var b, j := NextId(d.bindings.Keys), NextId(base.jobs.Keys);
            WithPolicy(EnqueueTx(base, q).value, q.event, auto)
            == base.(bindings := d.bindings[b := Binding(q.event, q.target, NameFor(base, q), q.marker, auto, NewAlbum, None, map[])],
                     jobs := base.jobs[j := Job(b, NewMedia, true, Queued, false)])
  {}

  /** The policy of automatic import can be set exactly while the event is not being deleted and has a binding for the target; only
      that binding's policy changes. */
  lemma SetAutoExactly(d: Db, e: nat, t: nat, on: bool)
    requires forall b, c :: b in BindingsOf(d, e, t) && c in BindingsOf(d, e, t) ==> b == c
    ensures SetAutoTx(d, e, t, on).Ok? <==>
              && e in d.events && !d.events[e].deleting
              && exists b :: b in d.bindings && d.bindings[b].event == e && d.bindings[b].target == t
    ensures SetAutoTx(d, e, t, on).Ok? ==>
              SetAutoTx(d, e, t, on).value
              == d.(bindings := map b | b in d.bindings ::
                      if d.bindings[b].event == e && d.bindings[b].target == t then d.bindings[b].(auto := on) else d.bindings[b])
  {
    var owned := BindingsOf(d, e, t);
    if b :| b in d.bindings && d.bindings[b].event == e && d.bindings[b].target == t { assert b in owned; }
    if owned != {} {
      assert Min(owned) in owned;
      forall b | b in d.bindings && d.bindings[b].event == e && d.bindings[b].target == t ensures b == Min(owned) { assert b in owned; }
    }
  }

  lemma SubmitSends(d: Db, b: nat, name: string, r: Request)
    requires b in d.bindings && d.bindings[b].event == r.event && d.bindings[b].target == r.target && Submit(d, b, name, r).Ok?
    ensures Sends(d, Submit(d, b, name, r).value, b, r) && Prepares(r, Some(d.bindings[b]), Submit(d, b, name, r).value.bindings[b])
  {}

  lemma SubmitChooses(d: Db, b: nat, name: string, r: Request)
    requires b in d.bindings && d.bindings[b].event == r.event && Submit(d, b, name, r).Ok?
    ensures Chooses(d, r, d.bindings[b].imports, Submit(d, b, name, r).value.bindings[b].imports)
  {}

  lemma BindingFound(d: Db, r: Request)
    ensures Landing(d, r) in d.bindings <==> BindingsOf(d, r.event, r.target) != {}
    ensures BindingsOf(d, r.event, r.target) != {}
            <==> exists c :: c in d.bindings && d.bindings[c].event == r.event && d.bindings[c].target == r.target
    ensures Landing(d, r) in d.bindings ==> d.bindings[Landing(d, r)].event == r.event && d.bindings[Landing(d, r)].target == r.target
  {
    var found := BindingsOf(d, r.event, r.target);
    if c :| c in d.bindings && d.bindings[c].event == r.event && d.bindings[c].target == r.target { assert c in found; }
    if found != {} { assert Min(found) in found; }
  }

  lemma EnqueueFinds(d: Db, r: Request)
    requires EnqueueTx(d, r).Ok?
    ensures var n, b := EnqueueTx(d, r).value, Landing(d, r);
            && Sends(d, n, b, r)
            && Prepares(r, if b in d.bindings then Some(d.bindings[b]) else None, n.bindings[b])
            && Chooses(d, r, if b in d.bindings then d.bindings[b].imports else map[], n.bindings[b].imports)
  {
    BindingFound(d, r);
    var b := Landing(d, r);
    if b in d.bindings {
      SubmitSends(d, b, NameFor(d, r), r);
      SubmitChooses(d, b, NameFor(d, r), r);
    } else {
      var name := NameFor(d, r);
      var base := d.(bindings := d.bindings[b := NewBinding(r, name)]);
      SubmitSends(base, b, name, r);
      SubmitChooses(base, b, name, r);
      BindingCreated(d, base, Submit(base, b, name, r).value, b, name, r);
    }
  }

  lemma BindingCreated(d: Db, base: Db, n: Db, b: nat, name: string, r: Request)
    requires b !in d.bindings && base == d.(bindings := d.bindings[b := NewBinding(r, name)])
    requires Sends(base, n, b, r) && Prepares(r, Some(base.bindings[b]), n.bindings[b]) && Chooses(base, r, map[], n.bindings[b].imports)
    ensures Sends(d, n, b, r) && Prepares(r, None, n.bindings[b]) && Chooses(d, r, map[], n.bindings[b].imports)
  {}

  lemma SameLanding(d: Db, n: Db, b: nat, r: Request, q: Request)
    requires Sends(d, n, b, r) && b == Landing(d, r) && q.event == r.event && q.target == r.target
    ensures BindingsOf(n, q.event, q.target) != {} && Min(BindingsOf(n, q.event, q.target)) == b
  {
    assert b in BindingsOf(n, q.event, q.target);
    if BindingsOf(d, r.event, r.target) == {} {
      assert BindingsOf(n, q.event, q.target) == {b};
    } else {
      assert BindingsOf(n, q.event, q.target) == BindingsOf(d, r.event, r.target);
    }
  }

  // ---------------------------------------------------------------- the other transactions

  /** A cancellation asks exactly the active jobs of the event and target, takes no request back and changes nothing else. A job
      it asked ends cancelled with the rows as they are, whatever its work returned, and so its rows stay owned. */
  lemma CancelAsks(d: Db, e: nat, t: nat)
    ensures var n := CancelTx(d, e, t);
            && JobsOnly(d, n)
            && (forall j :: j in d.jobs ==> n.jobs[j] == d.jobs[j].(cancel := n.jobs[j].cancel) && (d.jobs[j].cancel ==> n.jobs[j].cancel))
            && (forall j :: j in d.jobs && !d.jobs[j].cancel ==>
                  (n.jobs[j].cancel <==> Active(d.jobs[j]) && d.jobs[j].binding in d.bindings
                                         && d.bindings[d.jobs[j].binding].event == e && d.bindings[d.jobs[j].binding].target == t))
    ensures var n := CancelTx(d, e, t);
            forall j, b, err :: j in n.jobs && n.jobs[j].cancel ==>
              FinishTx(n, j, b, err).jobs[j].status.Cancelled? && FinishTx(n, j, b, err).bindings == d.bindings && EndsOwn(n, j, b, err)
  {}

  /** After a restart no row is importing and no job running. The jobs that were active are the queued ones, the open rows
      are the pending ones, and what a row says of the remote, its attempts and its outcome are kept. */
  lemma RecoverRequeues(d: Db)
    ensures var n := RecoverTx(d);
            && n.events == d.events && n.assets == d.assets && n.jobs.Keys == d.jobs.Keys && n.bindings.Keys == d.bindings.Keys
            && (forall j :: j in d.jobs ==> !n.jobs[j].status.Running? && (n.jobs[j].status.Queued? <==> Active(d.jobs[j]))
                                            && n.jobs[j] == d.jobs[j].(status := n.jobs[j].status)
                                            && (!Active(d.jobs[j]) ==> n.jobs[j] == d.jobs[j]))
            && (forall b :: b in d.bindings ==> n.bindings[b] == d.bindings[b].(imports := n.bindings[b].imports)
                                                && NoImporting(n.bindings[b]) && n.bindings[b].imports.Keys == d.bindings[b].imports.Keys
                                                && (OpenRows(n.bindings[b]) <==> OpenRows(d.bindings[b])))
            && (forall b, a :: b in d.bindings && a in d.bindings[b].imports ==>
                  var r, q := d.bindings[b].imports[a], n.bindings[b].imports[a];
                  q == r.(status := q.status) && (q.status.Pending? <==> Open(r)) && (!Open(r) ==> q == r))
    ensures RecoverTx(RecoverTx(d)) == RecoverTx(d)
  {
    var n := RecoverTx(d);
    forall b | b in d.bindings ensures OpenRows(n.bindings[b]) <==> OpenRows(d.bindings[b]) { SameOpen(d.bindings[b].imports); }
    RecoverOnce(d);
  }

  lemma SameOpen(m: map<nat, Row>)
    ensures forall a :: a in m ==> Requeue(m)[a] == m[a].(status := Requeue(m)[a].status) && (Open(m[a]) <==> Requeue(m)[a].status.Pending?)
    ensures Requeue(m).Keys == m.Keys && Requeue(Requeue(m)) == Requeue(m)
    ensures (exists a :: a in Requeue(m) && Open(Requeue(m)[a])) <==> exists a :: a in m && Open(m[a])
  {
    if a :| a in m && Open(m[a]) { assert Open(Requeue(m)[a]); }
  }

  lemma RecoverOnce(d: Db)
    ensures RecoverTx(RecoverTx(d)) == RecoverTx(d)
  {
    var n := RecoverTx(d);
    forall b | b in n.bindings ensures RecoverTx(n).bindings[b] == n.bindings[b] { SameOpen(d.bindings[b].imports); }
    assert RecoverTx(n).jobs == n.jobs && RecoverTx(n).bindings == n.bindings;
  }

  /** Jobs are claimed in the order they were created: a claim takes the oldest queued job and only starts it, the next claim
      can only take a younger one, and there is none exactly if no job is queued. */
  lemma ClaimsOldest(d: Db)
    ensures ClaimTx(d).None? <==> forall j :: j in d.jobs ==> !d.jobs[j].status.Queued?
    ensures ClaimTx(d).Some? ==>
              var j, n := ClaimTx(d).value.0, ClaimTx(d).value.1;
              && JobsOnly(d, n) && j in d.jobs && d.jobs[j].status.Queued? && n.jobs[j] == d.jobs[j].(status := Running)
              && (forall k :: k in d.jobs && k != j ==> n.jobs[k] == d.jobs[k] && (d.jobs[k].status.Queued? ==> j < k))
              && QueuedJobs(n) == QueuedJobs(d) - {j} && (ClaimTx(n).Some? ==> j < ClaimTx(n).value.0)
  {
    forall j | j in d.jobs && d.jobs[j].status.Queued? ensures j in QueuedJobs(d) {}
    if QueuedJobs(d) != {} {
      var j := Min(QueuedJobs(d));
      assert j in QueuedJobs(d);
      assert QueuedJobs(ClaimTx(d).value.1) == QueuedJobs(d) - {j};
    }
  }

  /** A job ends in one way: cancelled if that was asked for, else failed on an error, else completed. Only its status changes,
      except that a failure turns exactly the pending rows of its binding into failed ones; so once no row is importing, a
      failed job leaves no open row. A job that is gone ends without a write. */
  lemma FinishSettles(d: Db, j: nat, b: nat, err: bool)
    ensures j !in d.jobs ==> FinishTx(d, j, b, err) == d
    ensures j in d.jobs ==>
              var n := FinishTx(d, j, b, err);
              && n.events == d.events && n.assets == d.assets && n.jobs.Keys == d.jobs.Keys && n.bindings.Keys == d.bindings.Keys
              && (forall k :: k in d.jobs && k != j ==> n.jobs[k] == d.jobs[k])
              && n.jobs[j] == d.jobs[j].(status := n.jobs[j].status) && !Active(n.jobs[j])
              && (n.jobs[j].status.Cancelled? <==> d.jobs[j].cancel) && (n.jobs[j].status.JobFailed? <==> !d.jobs[j].cancel && err)
              && (!n.jobs[j].status.JobFailed? ==> n.bindings == d.bindings)
              && (forall c :: c in d.bindings && c != b ==> n.bindings[c] == d.bindings[c])
    ensures j in d.jobs && b in d.bindings && FinishTx(d, j, b, err).jobs[j].status.JobFailed? ==>
              var x, y := d.bindings[b], FinishTx(d, j, b, err).bindings[b];
              && y == x.(imports := y.imports) && y.imports.Keys == x.imports.Keys
              && (forall a :: a in x.imports ==> y.imports[a] == if x.imports[a].status.Pending? then x.imports[a].(status := Failed) else x.imports[a])
              && (NoImporting(x) ==> !OpenRows(y))
  {}

  /** Reconciling an eligible binding that lacks ready media creates one queued job for it and as many fresh pending rows as are
      missing, 256 at most, the earliest created first; it changes no row that was there, and nothing of any other binding or
      job. Otherwise, and so also straight afterwards, it does nothing. */
  lemma ReconcileSelects(d: Db, b: nat)
    ensures ReconcileTx(d, b) != d <==> Automatic(d, b) && exists a :: Missing(d, b, a)
    ensures ReconcileTx(d, b) != d ==> Selects(d, ReconcileTx(d, b), b)
    ensures ReconcileTx(ReconcileTx(d, b), b) == ReconcileTx(d, b)
  {
    ReconcileExactly(d, b);
    if Eligible(d, b) && Unselected(d, b) != {} {
      Reconciled(d, b);
      Selection(d, ReconcileTx(d, b), b);
    }
  }

  lemma Selection(d: Db, n: Db, b: nat)
    requires b in d.bindings
    requires n == d.(bindings := d.bindings[b := d.bindings[b].(imports := Select(d.bindings[b].imports, Batch(d, b)))],
                     jobs := d.jobs[NextId(d.jobs.Keys) := AutoJob(b)])
    ensures Selects(d, n, b) && n != d && ReconcileTx(n, b) == n
  {
    BatchAdds(d, b);
    SelectsRows(d, n, b, Select(d.bindings[b].imports, Batch(d, b)));
    SelectionBusy(d, n, b, NextId(d.jobs.Keys));
  }

  lemma BatchAdds(d: Db, b: nat)
    requires b in d.bindings
    ensures OnlyAdds(d, d.bindings[b].imports, Select(d.bindings[b].imports, Batch(d, b)), Unselected(d, b))
  {
    SelectionAdds(d, d.bindings[b].imports, Batch(d, b), Unselected(d, b));
  }

  lemma SelectsRows(d: Db, n: Db, b: nat, rows: map<nat, Row>)
    requires b in d.bindings && OnlyAdds(d, d.bindings[b].imports, rows, Unselected(d, b))
    requires n == d.(bindings := d.bindings[b := d.bindings[b].(imports := rows)], jobs := d.jobs[NextId(d.jobs.Keys) := AutoJob(b)])
    ensures Selects(d, n, b)
  {}

  lemma SelectionBusy(d: Db, n: Db, b: nat, id: nat)
    requires id !in d.jobs && n.jobs == d.jobs[id := AutoJob(b)]
    ensures n != d && ReconcileTx(n, b) == n
  {
    assert id in n.jobs;
    Busy(n, b, id);
  }

  lemma Busy(n: Db, b: nat, j: nat)
    requires j in n.jobs && n.jobs[j].binding == b && Active(n.jobs[j])
    ensures ReconcileTx(n, b) == n
  {
    assert HasActive(n, b);
  }

  /** One new job of binding `b`, and the rows of that binding it is to import. */
  ghost predicate Selects(d: Db, n: Db, b: nat)
    requires b in d.bindings
  {
    && n.events == d.events && n.assets == d.assets
    && n.jobs == d.jobs[NextId(d.jobs.Keys) := AutoJob(b)]
    && n.bindings.Keys == d.bindings.Keys && (forall c :: c in d.bindings && c != b ==> n.bindings[c] == d.bindings[c])
    && n.bindings[b] == d.bindings[b].(imports := n.bindings[b].imports)
    && OnlyAdds(d, d.bindings[b].imports, n.bindings[b].imports, Unselected(d, b))
  }

  /** `y` is `x` with the first 256 of `missing`, or all, as fresh rows. */
  ghost predicate OnlyAdds(d: Db, x: map<nat, Row>, y: map<nat, Row>, missing: set<nat>)
    requires missing <= d.assets.Keys
  {
    && x.Keys <= y.Keys && (forall a :: a in x ==> y[a] == x[a])
    && (forall a :: a in y && a !in x ==> a in missing && y[a] == FRESH_ROW)
    && |y.Keys - x.Keys| == (if |missing| <= BATCH then |missing| else BATCH)
    && forall a, c :: a in y.Keys - x.Keys && c in missing && c !in y ==> Before(d.assets, a, c)
  }

  lemma SelectionAdds(d: Db, x: map<nat, Row>, chosen: set<nat>, missing: set<nat>)
    requires chosen <= missing <= d.assets.Keys && missing !! x.Keys && |chosen| == if |missing| <= BATCH then |missing| else BATCH
    requires forall a, c :: a in chosen && c in missing && c !in chosen ==> Before(d.assets, a, c)
    ensures OnlyAdds(d, x, Select(x, chosen), missing)
  {
    assert Select(x, chosen).Keys - x.Keys == chosen;
  }

  // ---------------------------------------------------------------- a pass of automatic import

  /** A pass looks at the next 32 bindings after the cursor: at one with automatic import and a ready album exactly if fewer than
      32 such stand between. */
  lemma ScanExactly(d: Db, after: nat, b: nat)
    ensures b in ImmichStore.Scan(d, after) <==>
              && b in d.bindings && d.bindings[b].auto && d.bindings[b].state == AlbumReady
              && b > after && |Cursors.Between(ImmichStore.AutoReady(d), after, b)| < 32
  {
    Cursors.WindowExactly(ImmichStore.AutoReady(d), after, ImmichStore.RECONCILE_BINDINGS, b);
  }

  /** Some job of `b` is new. */
  ghost predicate GetsJob(d: Db, n: Db, b: nat) { exists j :: j in n.jobs && j !in d.jobs && n.jobs[j].binding == b }

  /** What a pass over `ids` has done: it only added jobs and rows of theirs. */
  ghost predicate PassedOver(d: Db, n: Db, ids: seq<nat>) {
    && n.events == d.events && n.assets == d.assets && n.bindings.Keys == d.bindings.Keys
    && (forall j :: j in d.jobs ==> j in n.jobs && n.jobs[j] == d.jobs[j])
    && (forall b :: b in d.bindings && b !in ids ==> n.bindings[b] == d.bindings[b])
    && (forall j :: j in n.jobs && j !in d.jobs ==> n.jobs[j].binding in ids)
  }

  /** One new job of `b`, and perhaps rows of it. */
  predicate AddsJob(m: Db, n: Db, b: nat, id: nat) {
    && n.events == m.events && n.assets == m.assets && n.bindings.Keys == m.bindings.Keys
    && (forall c :: c in m.bindings && c != b ==> n.bindings[c] == m.bindings[c])
    && id !in m.jobs && n.jobs == m.jobs[id := AutoJob(b)]
  }

  lemma ReconcileAdds(m: Db, b: nat)
    ensures ReconcileTx(m, b) == m || AddsJob(m, ReconcileTx(m, b), b, NextId(m.jobs.Keys))
  {
    ReconcileSelects(m, b);
    if b in m.bindings && Selects(m, ReconcileTx(m, b), b) { SelectsAdds(m, ReconcileTx(m, b), b); }
  }

  lemma SelectsAdds(m: Db, n: Db, b: nat)
    requires b in m.bindings && Selects(m, n, b)
    ensures AddsJob(m, n, b, NextId(m.jobs.Keys))
  {}

  lemma PassOne(d: Db, m: Db, ids: seq<nat>, n: Db, b: nat, id: nat)
    requires PassedOver(d, m, ids) && AddsJob(m, n, b, id)
    ensures PassedOver(d, n, ids + [b]) && GetsJob(d, n, b)
    ensures forall c :: c != b ==> (GetsJob(d, n, c) <==> GetsJob(d, m, c))
  {
    assert n.jobs[id] == AutoJob(b);
    forall c | c != b ensures GetsJob(d, n, c) <==> GetsJob(d, m, c) {
      if j :| j in m.jobs && j !in d.jobs && m.jobs[j].binding == c { assert n.jobs[j] == m.jobs[j]; }
    }
  }

  lemma PassNone(d: Db, m: Db, ids: seq<nat>, b: nat)
    requires PassedOver(d, m, ids)
    ensures PassedOver(d, m, ids + [b]) && (b !in ids ==> !GetsJob(d, m, b))
  {}

  lemma PassTwo(d: Db, m: Db, ids: seq<nat>, b: nat)
    requires PassedOver(d, m, ids) && b !in ids
    ensures Automatic(m, b) <==> Automatic(d, b)
    ensures b in d.bindings ==> forall a :: Missing(m, b, a) <==> Missing(d, b, a)
  {}

  /** A pass creates a job for a binding exactly if it looks at it, automatic import may create a job, and some ready asset has no
      row; the other bindings of the pass make no difference. */
  lemma {:induction false} PassExactly(d: Db, ids: seq<nat>, b: nat)
    requires forall i, j :: 0 <= i < j < |ids| ==> ids[i] != ids[j]
    ensures PassedOver(d, ImmichStore.Fold(d, ids), ids)
    ensures GetsJob(d, ImmichStore.Fold(d, ids), b) <==> b in ids && Automatic(d, b) && exists a :: Missing(d, b, a)
    decreases |ids|
  {
    if ids != [] {
      var rest, last := ids[..|ids| - 1], ids[|ids| - 1];
      var m := ImmichStore.Fold(d, rest);
      PassExactly(d, rest, b);
      ReconcileAdds(m, last);
      PassNone(d, m, rest, last);
      if ReconcileTx(m, last) != m { PassOne(d, m, rest, ReconcileTx(m, last), last, NextId(m.jobs.Keys)); }
      assert ids == rest + [last];
      if b == last {
        PassTwo(d, m, rest, b);
        ReconcileExactly(m, b);
      }
    }
  }
}
