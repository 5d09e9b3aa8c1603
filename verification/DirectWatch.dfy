/** What one page's file needs of the server while its direct upload goes on, and what of it the server's own steps keep. */
module DirectWatch {
  import opened Wrappers
  import opened MediaModel
  import opened MediaSteps
  import opened MediaInvariant
  import opened MediaAnswers

  /** A file to be sent by direct upload, and a time by which that is over. */
  datatype Watch = Watch(file: Preparation, horizon: nat)

  /** The row of the file's request. */
  predicate TheRow(s: State, f: Preparation, i: nat) {
    i in s.db.assets && s.db.assets[i].session == f.session && s.db.assets[i].request == Some(f.request)
  }

  /** What the row of the file says. */
  predicate OfFile(x: Asset, f: Preparation) {
    x.event == f.event && x.backend.S3? && x.meta == f.meta && x.expected == f.size && x.media == Some(f.media)
  }

  /** The event is there and not being deleted, no one holds its lock exclusively, and the row of the request, if any, is that of
      the file. */
  ghost predicate Standing(s: State, f: Preparation) {
    && f.event in s.db.events && s.db.events[f.event].link == f.link && !s.db.events[f.event].deleting && Shared(s, f.event)
    && forall i :: TheRow(s, f, i) ==> OfFile(s.db.assets[i], f)
  }

  /** Event and session are open until the horizon, and there is room for the file unless it has its row. */
  ghost predicate Welcoming(s: State, w: Watch) {
    var f := w.file;
    && OpenAt(s.db, f.event, f.link, w.horizon) && SessionAt(s.db, f.event, f.session, w.horizon)
    && ((forall i :: !TheRow(s, f, i)) ==> FileFits(s.db.events[f.event], f.media, f.size, f.limit) && RoomFor(s.db, f.event, f.session, f.media, f.size))
  }

  /** Nothing that belongs to the file has changed from `s` to `n`. */
  ghost predicate Untouched(s: State, n: State, f: Preparation) {
    && (forall i :: TheRow(n, f, i) ==> TheRow(s, f, i))
    && forall i :: TheRow(s, f, i) ==> RowUntouched(s, n, f, i)
  }

  ghost predicate RowUntouched(s: State, n: State, f: Preparation, i: nat)
    requires TheRow(s, f, i)
  {
    && TheRow(n, f, i) && n.db.assets[i] == s.db.assets[i]
    && (i in n.objects <==> i in s.objects) && (i in s.objects ==> n.objects[i] == s.objects[i])
    && (i in s.issued ==> i in n.issued) && (i in n.ops <==> i in s.ops) && (i in s.ops ==> n.ops[i] == s.ops[i])
  }

  ghost predicate Aside(s: State, n: State, f: Preparation) { Standing(n, f) && Untouched(s, n, f) }

  /** The object is the file. */
  predicate IsFile(o: Object, f: Preparation) { o.size == f.size > 0 && o.media == Some(f.media) }

  /** The file's row is `i`, and no request works on it. */
  ghost predicate Mine(s: State, f: Preparation, i: nat) { Standing(s, f) && TheRow(s, f, i) && i !in s.ops }

  ghost predicate Waiting(s: State, f: Preparation, i: nat) { Mine(s, f, i) && s.db.assets[i].status.Pending? }

  /** The page may send the file: a URL for it was recorded. */
  ghost predicate Planned(s: State, f: Preparation, i: nat) { Waiting(s, f, i) && i in s.issued }

  predicate Arrived(s: State, f: Preparation, i: nat) { i in s.objects && IsFile(s.objects[i], f) }

  /** The request on row `i` works for the file. */
  ghost predicate Working(s: State, f: Preparation, i: nat) {
    Standing(s, f) && TheRow(s, f, i) && i in s.ops && s.db.assets[i].status.Pending?
  }

  lemma AsideMine(s: State, n: State, f: Preparation, i: nat)
    requires Aside(s, n, f) && TheRow(s, f, i)
    ensures Mine(s, f, i) ==> Mine(n, f, i)
    ensures Waiting(s, f, i) ==> Waiting(n, f, i)
    ensures Planned(s, f, i) ==> Planned(n, f, i)
    ensures Working(s, f, i) ==> Working(n, f, i) && n.ops[i] == s.ops[i]
    ensures Arrived(n, f, i) <==> Arrived(s, f, i)
    ensures n.db.assets[i] == s.db.assets[i] && (i in n.objects <==> i in s.objects) && (i in s.objects ==> n.objects[i] == s.objects[i])
  {
    assert RowUntouched(s, n, f, i);
  }

  /** The row of a request is the only one. */
  lemma OnlyRow(s: State, f: Preparation, i: nat, j: nat)
    requires Inv(s) && TheRow(s, f, i) && TheRow(s, f, j)
    ensures i == j
  {
    assert SameRequest(s.db.assets[i], s.db.assets[j]);
  }

  // ---------------------------------------------------------------- the server's own steps

  lemma SameTables(s: State, n: State, f: Preparation)
    requires n.db == s.db && n.locks == s.locks
    ensures Standing(n, f) <==> Standing(s, f)
    ensures forall i :: TheRow(n, f, i) <==> TheRow(s, f, i)
  {}

  /** Completion and authorization rewrite other columns. */
  lemma RowRewritten(s: State, n: State, f: Preparation, i: nat, y: Asset)
    requires Standing(s, f) && TheRow(s, f, i) && n.db == s.db.(assets := s.db.assets[i := y]) && n.locks == s.locks
    requires y == s.db.assets[i].(status := y.status, size := y.size, authorized := y.authorized)
    ensures Standing(n, f) && TheRow(n, f, i)
  {
    forall j | TheRow(n, f, j) ensures OfFile(n.db.assets[j], f) { assert TheRow(s, f, j); }
  }

  lemma CompletedMine(s: State, f: Preparation, i: nat, ceiling: nat)
    requires Working(s, f, i) && s.ops[i].Verified? && s.ops[i].stored.media == Some(f.media) && s.ops[i].row == s.db.assets[i]
    requires s.ops[i].link == f.link
    ensures CompleteTx(s.db, s.ops[i].row, s.ops[i].link, i, s.ops[i].stored.size, f.media, ceiling).Ok?
    ensures CompleteStep(s, i, ceiling).Some? && Mine(CompleteStep(s, i, ceiling).value, f, i)
  {
    var o := s.ops[i];
    assert OfFile(s.db.assets[i], f);
    CompleteGranted(s.db, o.row, o.link, i, o.stored.size, f.media, ceiling);
    var n := CompleteStep(s, i, ceiling).value;
    RowRewritten(s, n, f, i, n.db.assets[i]);
  }

  lemma AuthorizedPlan(s: State, w: Watch, i: nat, until: nat, now: nat)
    requires Waiting(s, w.file, i) && Welcoming(s, w) && now <= w.horizon
    ensures var f := w.file;
            && AuthorizeTx(s.db, f.event, f.link, f.session, i, until, now).Ok?
            && AuthorizeStep(s, f.event, f.link, f.session, i, until, now).Some?
            && Planned(AuthorizeStep(s, f.event, f.link, f.session, i, until, now).value, f, i)
            && AuthorizeStep(s, f.event, f.link, f.session, i, until, now).value.objects == s.objects
  {
    var f := w.file;
    assert OfFile(s.db.assets[i], f);
    AuthorizeGranted(s.db, f.event, f.link, f.session, i, until, now);
    var n := AuthorizeStep(s, f.event, f.link, f.session, i, until, now).value;
    RowRewritten(s, n, f, i, n.db.assets[i]);
  }

  /** Preparing the file finds its pending row, or makes one. */
  lemma PreparedMine(s: State, w: Watch, id: nat, now: nat)
    requires Inv(s) && Standing(s, w.file) && Welcoming(s, w) && now <= w.horizon && id !in s.drawn
    requires forall i :: TheRow(s, w.file, i) ==> Waiting(s, w.file, i)
    ensures PrepareTx(s.db, w.file, id, now).Ok?
    ensures PrepareStep(s, w.file, id, now).Some?
            && Waiting(PrepareStep(s, w.file, id, now).value, w.file, PrepareTx(s.db, w.file, id, now).value.0)
  {
    var f := w.file;
    PrepareAccepted(s, w, id, now);
    var n, i := PrepareStep(s, f, id, now).value, PrepareTx(s.db, f, id, now).value.0;
    if TheRow(s, f, i) { assert Waiting(s, f, i); FoundMine(s, n, f, i); } else { MadeMine(s, n, f, i, n.db.assets[i]); }
  }

  lemma FoundMine(s: State, n: State, f: Preparation, i: nat)
    requires Waiting(s, f, i) && n == s.(drawn := n.drawn)
    ensures Waiting(n, f, i)
  {
    SameTables(s, n, f);
  }

  lemma MadeMine(s: State, n: State, f: Preparation, i: nat, y: Asset)
    requires Standing(s, f) && n.db == s.db.(assets := s.db.assets[i := y]) && n.locks == s.locks && n.ops == s.ops && i !in s.ops
    requires y.status.Pending? && y.session == f.session && y.request == Some(f.request) && OfFile(y, f)
    ensures Waiting(n, f, i)
  {
    forall j | TheRow(n, f, j) ensures OfFile(n.db.assets[j], f) { assert j != i ==> TheRow(s, f, j); }
  }

  lemma PrepareAccepted(s: State, w: Watch, id: nat, now: nat)
    requires Inv(s) && Standing(s, w.file) && Welcoming(s, w) && now <= w.horizon && id !in s.drawn
    ensures PrepareTx(s.db, w.file, id, now).Ok? && PrepareStep(s, w.file, id, now).Some? && id !in s.ops
    ensures var f, (i, d) := w.file, PrepareTx(s.db, w.file, id, now).value;
            if TheRow(s, f, i) then d == s.db
            else i == id && d == s.db.(assets := s.db.assets[i := Asset(f.event, f.session, S3, Pending, 0, f.size, Some(f.media), Some(f.request), f.meta, now, None)])
  {
    var f := w.file;
    var found := Requested(s.db.assets, f.session, f.request);
    forall j, k | j in found && k in found ensures j == k { OnlyRow(s, f, j, k); }
    forall j | j in found ensures SameFile(s.db.assets[j], f) { assert TheRow(s, f, j); }
    if found == {} {
      forall i ensures !TheRow(s, f, i) { assert i !in found; }
    }
    PrepareGranted(s.db, f, id, now);
    OpDrawn(s, id);
  }

  /** A request works on a drawn id. */
  lemma OpDrawn(s: State, i: nat)
    requires Inv(s)
    ensures i in s.ops ==> i in s.drawn
  {
    if i in s.ops { assert OpOk(s, i, s.ops[i]) && RowOk(s.db, s.drawn, i); }
  }
}
