/** The import service as an object over its tables. Each method is a transaction or request sequence of the source;
    its contract ties the new tables to the transaction functions and to the interleaved step machine. */
module ImmichStore {
  import opened Wrappers
  import opened Ordered
  import opened Cursors
  import opened ImmichModel
  import opened ImmichSteps
  import opened ImmichRuns

  const RECONCILE_BINDINGS: nat := 32

  /** The bindings reconcile passes look at. */
  function AutoReady(db: Db): set<nat> { set b | b in db.bindings && db.bindings[b].auto && db.bindings[b].state.AlbumReady? }

  /** Reconciles each binding in turn. */
  function Fold(db: Db, ids: seq<nat>): Db {
    if ids == [] then db else ReconcileTx(Fold(db, ids[..|ids| - 1]), ids[|ids| - 1])
  }

  function Scan(db: Db, after: nat): seq<nat> { Sorted(Window(AutoReady(db), after, RECONCILE_BINDINGS)) }

  /** What is done of `ids` when a database error stops the pass after `stop` bindings. */
  function Handled(ids: seq<nat>, stop: nat): seq<nat> { if stop < |ids| then ids[..stop] else ids }

  function After(done: seq<nat>, after: nat): nat { if done == [] then after else done[|done| - 1] }

  /** Where the pass after `ids` starts. */
  function NextAfter(ids: seq<nat>, stop: nat, after: nat): nat {
    if stop >= |ids| && |ids| < RECONCILE_BINDINGS then 0 else After(Handled(ids, stop), after)
  }

  lemma SamePolicies(db: Db, n: Db, b: nat, rows: map<nat, Row>)
    requires b in db.bindings && n.bindings == db.bindings[b := db.bindings[b].(imports := rows)]
    ensures AutoReady(n) == AutoReady(db)
  {}

  lemma ReconcileKeeps(db: Db, b: nat)
    ensures AutoReady(ReconcileTx(db, b)) == AutoReady(db)
  {
    if Eligible(db, b) && Batch(db, b) != {} {
      SamePolicies(db, ReconcileTx(db, b), b, ImmichModel.Select(db.bindings[b].imports, Batch(db, b)));
    }
  }

  /** Reconciling changes neither policies nor albums. */
  lemma {:induction false} FoldKeeps(db: Db, ids: seq<nat>)
    ensures AutoReady(Fold(db, ids)) == AutoReady(db)
    decreases |ids|
  {
    if ids != [] {
      FoldKeeps(db, ids[..|ids| - 1]);
      ReconcileKeeps(Fold(db, ids[..|ids| - 1]), ids[|ids| - 1]);
    }
  }

  lemma ScanCursor(db: Db, after: nat)
    ensures NextAfter(Scan(db, after), |Scan(db, after)|, after) == NextCursor(Window(AutoReady(db), after, RECONCILE_BINDINGS), RECONCILE_BINDINGS)
  {
    LastIsMax(Window(AutoReady(db), after, RECONCILE_BINDINGS));
  }

  ghost predicate ScanAt(dbs: seq<Db>, cs: seq<nat>, k: nat)
    requires 0 < k < |dbs| == |cs|
  {
    && AutoReady(dbs[k]) == AutoReady(dbs[k - 1])
    && cs[k] == NextAfter(Scan(dbs[k - 1], cs[k - 1]), |Scan(dbs[k - 1], cs[k - 1])|, cs[k - 1])
  }

  /** Error-free passes while no policy or album changes; anything else may happen in between. */
  ghost predicate Scans(dbs: seq<Db>, cs: seq<nat>) { |dbs| == |cs| > 0 && forall k: nat :: 0 < k < |dbs| ==> ScanAt(dbs, cs, k) }

  lemma ScanPasses(dbs: seq<Db>, cs: seq<nat>, ss: seq<set<nat>>)
    requires Scans(dbs, cs) && |ss| == |dbs| && forall k :: 0 <= k < |dbs| ==> ss[k] == AutoReady(dbs[k])
    ensures Passes(ss, cs, RECONCILE_BINDINGS)
  {
    forall k: nat | 0 < k < |ss| ensures PassAt(ss, cs, RECONCILE_BINDINGS, k) {
      assert ScanAt(dbs, cs, k);
      ScanCursor(dbs[k - 1], cs[k - 1]);
    }
  }

  /** Every binding with automatic import and an album is reconciled within ⌊m / 32⌋ + 1 passes from a reset cursor, and within
      twice that from any. */
  lemma ReconcileReaches(dbs: seq<Db>, cs: seq<nat>, b: nat)
    requires Scans(dbs, cs) && b in AutoReady(dbs[0]) && b > 0
    requires |dbs| > 2 * (|AutoReady(dbs[0])| / RECONCILE_BINDINGS + 1)
    ensures cs[0] == 0 ==> exists k :: 0 <= k <= |AutoReady(dbs[0])| / RECONCILE_BINDINGS && b in Scan(dbs[k], cs[k])
    ensures exists k :: 0 <= k < 2 * (|AutoReady(dbs[0])| / RECONCILE_BINDINGS + 1) && b in Scan(dbs[k], cs[k])
  {
    var ss := seq(|dbs|, k requires 0 <= k < |dbs| => AutoReady(dbs[k]));
    ScanPasses(dbs, cs, ss);
    NoStarvation(ss, cs, RECONCILE_BINDINGS, b);
    forall k | 0 <= k < |dbs| && Seen(ss, cs, RECONCILE_BINDINGS, b, k) ensures b in Scan(dbs[k], cs[k]) {}
  }

  /** FindAlbum: the unique album carrying the marker, or an error. */
  function AlbumFor(r: Remote, marker: nat, ok: bool): Option<nat> {
    var found := set i | i in r.albums && r.albums[i] == marker;
    if ok && |found| == 1 then Some(Min(found)) else None
  }

  function WithAlbum(x: Binding, album: nat): Binding { x.(album := Some(album), state := AlbumReady) }

  /** What album() leaves: the binding row, the remote, and the album unless it failed. */
  datatype AlbumResult = AlbumResult(row: Binding, remote: Remote, album: Option<nat>)

  function Created(r: Remote, marker: nat, outcome: Outcome, id: nat): Remote {
    r.(creates := Bump(r.creates, marker), albums := if outcome.Refused? then r.albums else r.albums[id := marker])
  }

  function AlbumCall(x: Binding, r: Remote, outcome: Outcome, id: nat, ok: bool): AlbumResult {
    if x.album.Some? then AlbumResult(x, r, if ok then x.album else None)
    else if x.state.Creating? then
      var found := AlbumFor(r, x.marker, ok);
      AlbumResult(if found.Some? then WithAlbum(x, found.value) else x, r, found)
    else AlbumResult(if outcome.Answered? then WithAlbum(x, id) else x.(state := Creating), Created(r, x.marker, outcome, id),
                     if outcome.Answered? then Some(id) else None)
  }

  /** Exactly one album of the remote carries the marker: this one. */
  predicate OnlyAlbum(albums: map<nat, nat>, marker: nat, album: nat) {
    album in albums && albums[album] == marker && forall i :: i in albums && albums[i] == marker ==> i == album
  }

  /** What album() makes of a binding. A stored id is checked. An album asked for before is looked up by its marker, and stored exactly
      if the answer names one album; nothing is sent. Any other is asked for, once, after the intent is stored, and its id is stored
      exactly if the answer arrives. An album returned is the one stored. */
  ghost predicate Resolves(x: Binding, y: Binding, before: Remote, after: Remote, outcome: Outcome, ok: bool, album: Option<nat>) {
    && y == x.(album := y.album, state := y.state) && (album.Some? ==> y.album == album)
    && if x.album != None then y == x && after == before && (album.Some? <==> ok)
       else
         && (if album.Some? then y.state == AlbumReady else y.album == None && y.state == Creating)
         && if x.state == Creating then
              && after == before && (album.Some? <==> ok && exists i :: OnlyAlbum(before.albums, x.marker, i))
              && (album.Some? ==> OnlyAlbum(before.albums, x.marker, album.value))
            else
              && after.creates == Bump(before.creates, x.marker) && (album.Some? <==> outcome == Answered)
              && (album.Some? ==> album.value in after.albums && after.albums[album.value] == x.marker)
  }

  lemma AlbumCallMeans(x: Binding, r: Remote, outcome: Outcome, id: nat, ok: bool)
    ensures var c := AlbumCall(x, r, outcome, id, ok); Resolves(x, c.row, r, c.remote, outcome, ok, c.album)
  {
    var found := set i | i in r.albums && r.albums[i] == x.marker;
    if i: nat :| OnlyAlbum(r.albums, x.marker, i) { assert found == {i}; }
    if |found| == 1 {
      Singleton(found);
      assert Min(found) in found;
      forall i | i in r.albums && r.albums[i] == x.marker ensures i == Min(found) { assert i in found; }
      assert OnlyAlbum(r.albums, x.marker, Min(found));
    }
  }

  lemma Singleton(s: set<nat>)
    requires |s| == 1
    ensures s == {Min(s)}
  {
    assert |s - {Min(s)}| == 0;
  }

  /** The atomic steps of album(): a known id is checked; an uncertain create is looked up; otherwise intent, then one create. */
  function AlbumSteps(x: Binding, r: Remote, outcome: Outcome, id: nat, ok: bool): seq<Step> {
    if x.album.Some? then [AlbumKnown(ok)]
    else if x.state.Creating? then (if AlbumFor(r, x.marker, ok).Some? then [FindAlbum(ok), SaveAlbum] else [FindAlbum(ok)])
    else if outcome.Answered? then [MarkCreating, SendCreate(outcome, id), SaveAlbum]
    else [MarkCreating, SendCreate(outcome, id)]
  }

  /** The state after album() of the running job left `c`. */
  function AfterAlbum(s: State, c: AlbumResult): State
    requires AtLookup(s)
  {
    var d := s.db.(bindings := s.db.bindings[s.exec.binding := c.row]);
    Phased(s.(db := d, remote := c.remote),
           if c.album.Some? then Work(s.exec.phase.todo, map[], false, c.album.value) else Done(true))
  }

  lemma AlbumKnownRuns(s: State, outcome: Outcome, id: nat, ok: bool)
    requires AtLookup(s)
    requires s.db.bindings[s.exec.binding].album.Some?
    ensures AlbumKnownStep(s, ok) == Some(AfterAlbum(s, AlbumCall(s.db.bindings[s.exec.binding], s.remote, outcome, id, ok)))
  {
    var b := s.exec.binding;
    assert s.db.bindings[b := s.db.bindings[b]] == s.db.bindings;
  }

  lemma AlbumFoundRuns(s: State, outcome: Outcome, id: nat, ok: bool)
    requires AtLookup(s)
    requires var x := s.db.bindings[s.exec.binding]; x.album.None? && x.state.Creating?
    ensures var x := s.db.bindings[s.exec.binding];
            && FindAlbumStep(s, ok).Some?
            && (if AlbumFor(s.remote, x.marker, ok).Some? then SaveAlbumStep(FindAlbumStep(s, ok).value) else FindAlbumStep(s, ok))
               == Some(AfterAlbum(s, AlbumCall(x, s.remote, outcome, id, ok)))
  {
    var b := s.exec.binding;
    assert s.db.bindings[b := s.db.bindings[b]] == s.db.bindings;
  }

  lemma AlbumCreatedRuns(s: State, outcome: Outcome, id: nat, ok: bool)
    requires AtLookup(s) && id !in s.remote.albums
    requires var x := s.db.bindings[s.exec.binding]; x.album.None? && !x.state.Creating?
    ensures MarkCreatingStep(s).Some? && SendCreateStep(MarkCreatingStep(s).value, outcome, id).Some?
    ensures var n := SendCreateStep(MarkCreatingStep(s).value, outcome, id);
            (if outcome.Answered? then SaveAlbumStep(n.value) else n)
            == Some(AfterAlbum(s, AlbumCall(s.db.bindings[s.exec.binding], s.remote, outcome, id, ok)))
  {
    var b, x := s.exec.binding, s.db.bindings[s.exec.binding];
    assert s.db.bindings[b := x.(state := Creating)][b := WithAlbum(x, id)] == s.db.bindings[b := WithAlbum(x, id)];
  }

  /** Album() run alone is its atomic steps. */
  ghost predicate AlbumIsSteps(s: State, outcome: Outcome, id: nat, ok: bool)
    requires AtLookup(s)
  {
    var x := s.db.bindings[s.exec.binding];
    Run(s, AlbumSteps(x, s.remote, outcome, id, ok)) == Some(AfterAlbum(s, AlbumCall(x, s.remote, outcome, id, ok)))
  }

  lemma KnownRun(s: State, outcome: Outcome, id: nat, ok: bool)
    requires AtLookup(s) && s.db.bindings[s.exec.binding].album.Some?
    ensures AlbumIsSteps(s, outcome, id, ok)
  {
    AlbumKnownRuns(s, outcome, id, ok);
    RunOne(s, AlbumKnown(ok), AlbumKnownStep(s, ok).value);
  }

  lemma FoundRun(s: State, outcome: Outcome, id: nat, ok: bool)
    requires AtLookup(s) && s.db.bindings[s.exec.binding].album.None? && s.db.bindings[s.exec.binding].state.Creating?
    ensures AlbumIsSteps(s, outcome, id, ok)
  {
    AlbumFoundRuns(s, outcome, id, ok);
    var n := FindAlbumStep(s, ok).value;
    if AlbumFor(s.remote, s.db.bindings[s.exec.binding].marker, ok).Some? { RunTwo(s, FindAlbum(ok), SaveAlbum, n); }
    else { RunOne(s, FindAlbum(ok), n); }
  }

  lemma CreateRun(s: State, m: State, n: State, outcome: Outcome, id: nat)
    requires MarkCreatingStep(s) == Some(m) && SendCreateStep(m, outcome, id) == Some(n)
    ensures Run(s, [MarkCreating, SendCreate(outcome, id)]) == Some(n)
  {
    RunTwo(s, MarkCreating, SendCreate(outcome, id), m);
  }

  lemma SaveRun(s: State, n: State)
    requires SaveAlbumStep(s) == Some(n)
    ensures Run(s, [SaveAlbum]) == Some(n)
  {
    RunOne(s, SaveAlbum, n);
  }

  lemma CreatedRun(s: State, outcome: Outcome, id: nat, ok: bool)
    requires AtLookup(s) && id !in s.remote.albums && !outcome.Answered?
    requires s.db.bindings[s.exec.binding].album.None? && !s.db.bindings[s.exec.binding].state.Creating?
    ensures AlbumIsSteps(s, outcome, id, ok)
  {
    AlbumCreatedRuns(s, outcome, id, ok);
    CreateRun(s, MarkCreatingStep(s).value, SendCreateStep(MarkCreatingStep(s).value, outcome, id).value, outcome, id);
  }

  lemma CreatedSavedRun(s: State, outcome: Outcome, id: nat, ok: bool)
    requires AtLookup(s) && id !in s.remote.albums && outcome.Answered?
    requires s.db.bindings[s.exec.binding].album.None? && !s.db.bindings[s.exec.binding].state.Creating?
    ensures AlbumIsSteps(s, outcome, id, ok)
  {
    AlbumCreatedRuns(s, outcome, id, ok);
    var m := MarkCreatingStep(s).value;
    var n := SendCreateStep(m, outcome, id).value;
    CreateRun(s, m, n, outcome, id);
    SaveRun(n, SaveAlbumStep(n).value);
    RunJoin(s, [MarkCreating, SendCreate(outcome, id)], n, [SaveAlbum]);
    assert [MarkCreating, SendCreate(outcome, id)] + [SaveAlbum] == [MarkCreating, SendCreate(outcome, id), SaveAlbum];
  }

  lemma AlbumRuns(s: State, outcome: Outcome, id: nat, ok: bool)
    requires AtLookup(s) && id !in s.remote.albums
    ensures AlbumIsSteps(s, outcome, id, ok)
  {
    var x := s.db.bindings[s.exec.binding];
    if x.album.Some? { KnownRun(s, outcome, id, ok); }
    else if x.state.Creating? { FoundRun(s, outcome, id, ok); }
    else if outcome.Answered? { CreatedSavedRun(s, outcome, id, ok); }
    else { CreatedRun(s, outcome, id, ok); }
  }

  // ---------------------------------------------------------------- importAsset

  /** What importAsset leaves: the row, the remote, and whether it returned an error. */
  datatype AssetResult = AssetResult(row: Row, remote: Remote, failed: bool)

  /** What an upload of `content` leaves remotely, and the id and status of its answer. */
  datatype UploadResult = UploadResult(remote: Remote, id: nat, duplicate: bool)

  function UploadOf(r: Remote, call: UploadCall, content: nat, outcome: Outcome, id: nat): UploadResult {
    var known := set i | i in r.copies && r.copies[i] == content;
    var got := if known == {} then id else Min(known);
    UploadResult(r.(sent := r.sent + [call], copies := if outcome.Refused? then r.copies else r.copies[got := content]), got, known != {})
  }

  function AlbumedRemote(r: Remote, album: nat, id: nat, outcome: Outcome): Remote {
    if outcome.Refused? then r else r.(added := r.added + {(album, id)})
  }

  function Unfinished(x: Row, cancelled: bool): Row { x.(status := if cancelled then Pending else Failed) }

  function MarkedRow(x: Row): Row { x.(status := Importing, attempts := x.attempts + 1) }

  /** AddToAlbum and the accounting of a row whose remote id is `id`. */
  function Adding(x: Row, r: Remote, album: nat, id: nat, add: Outcome, cancelled: bool): AssetResult {
    AssetResult(if !add.Answered? then Unfinished(x, cancelled) else x.(status := if x.duplicate then Duplicate else Imported),
                AlbumedRemote(r, album, id, add), !add.Answered?)
  }

  function AssetCall(x: Row, r: Remote, call: UploadCall, content: nat, album: nat, up: Outcome, id: nat, add: Outcome, cancelled: bool): AssetResult {
    if !x.status.Pending? then AssetResult(x, r, false)
    else if x.remote.Some? then Adding(MarkedRow(x), r, album, x.remote.value, add, cancelled)
    else
      var u := UploadOf(r, call, content, up, id);
      if !up.Answered? then AssetResult(Unfinished(MarkedRow(x), cancelled), u.remote, true)
      else Adding(MarkedRow(x).(remote := Some(u.id), duplicate := u.duplicate), u.remote, album, u.id, add, cancelled)
  }

  /** The remote holds an asset of this content. */
  predicate HasCopy(copies: map<nat, nat>, content: nat) { exists i :: i in copies && copies[i] == content }

  /** What importAsset makes of a row: a row that is not pending is left alone; a row with a remote id is only put into the album,
      and keeps what it says of duplicates; any other is uploaded, and is a duplicate exactly if the remote held its content
      before. It is accounted if every request sent is answered, and pending or failed again otherwise. */
  ghost predicate Transferred(x: Row, y: Row, before: Remote, after: Remote, content: nat, album: nat, up: Outcome, add: Outcome, cancelled: bool) {
    if !x.status.Pending? then y == x && after == before
    else
      && y.attempts == x.attempts + 1
      && (x.remote.Some? ==> y.remote == x.remote && y.duplicate == x.duplicate && after.copies == before.copies)
      && (x.remote.None? && up.Answered? ==> y.remote.Some? && (y.duplicate <==> HasCopy(before.copies, content)))
      && (x.remote.None? && up.Answered? ==> y.remote.value in after.copies && after.copies[y.remote.value] == content)
      && (x.remote.None? && !up.Answered? ==> y.remote.None?)
      && (if add.Answered? && (x.remote.Some? || up.Answered?) then
            (y.status == if y.duplicate then Duplicate else Imported) && (album, y.remote.value) in after.added
          else y.status == if cancelled then Pending else Failed)
  }

  lemma AssetCallMeans(x: Row, r: Remote, call: UploadCall, content: nat, album: nat, up: Outcome, id: nat, add: Outcome, cancelled: bool)
    ensures var c := AssetCall(x, r, call, content, album, up, id, add, cancelled);
            && Transferred(x, c.row, r, c.remote, content, album, up, add, cancelled)
            && (c.failed <==> x.status.Pending? && !(add.Answered? && (x.remote.Some? || up.Answered?)))
  {
    var known := set i | i in r.copies && r.copies[i] == content;
    if i :| i in r.copies && r.copies[i] == content { assert i in known; }
    if known != {} { assert Min(known) in known; }
  }

  /** A transfer whose requests are answered accounts the row as a duplicate exactly if some remote asset had its content before the
      upload, and as imported exactly if none had. */
  lemma AnsweredTransfer(s: State, a: nat, x: Row, id: nat)
    requires Working(s, a) && Holds(s, a, x, Took) && id !in s.remote.copies && x.status.Pending? && x.remote.None?
    ensures Run(s, [Load(a), Mark(a), Upload(a, Answered, id), Save(a), Add(a, Answered), Account(a)]).Some?
    ensures var n := Run(s, [Load(a), Mark(a), Upload(a, Answered, id), Save(a), Add(a, Answered), Account(a)]).value;
            && HasRow(n, a)
            && (RowOf(n, a).status.Duplicate? <==> exists i :: i in s.remote.copies && s.remote.copies[i] == s.db.assets[a].content)
            && (RowOf(n, a).status.Imported? <==> forall i :: i in s.remote.copies ==> s.remote.copies[i] != s.db.assets[a].content)
  {
    var c := AssetCall(x, s.remote, CallOf(s, a), s.db.assets[a].content, s.exec.phase.target, Answered, id, Answered, s.exec.cancelled);
    AssetRuns(s, a, x, Answered, id, Answered);
    AssetCallMeans(x, s.remote, CallOf(s, a), s.db.assets[a].content, s.exec.phase.target, Answered, id, Answered, s.exec.cancelled);
    assert AssetSteps(x, a, Answered, id, Answered) == [Load(a), Mark(a), Upload(a, Answered, id), Save(a), Add(a, Answered), Account(a)];
    AssetRow(s, a, c);
  }

  lemma AssetRow(s: State, a: nat, c: AssetResult)
    requires Working(s, a)
    ensures HasRow(AfterAsset(s, a, c), a) && RowOf(AfterAsset(s, a, c), a) == c.row
  {}

  function LastSteps(a: nat, add: Outcome): seq<Step> { [Add(a, add), if add.Answered? then Account(a) else Fault(a)] }

  /** The atomic steps of importAsset. */
  function AssetSteps(x: Row, a: nat, up: Outcome, id: nat, add: Outcome): seq<Step> {
    if !x.status.Pending? then [Load(a)]
    else if x.remote.Some? then [Load(a), Mark(a)] + LastSteps(a, add)
    else if !up.Answered? then [Load(a), Mark(a)] + [Upload(a, up, id), Fault(a)]
    else [Load(a), Mark(a)] + ([Upload(a, up, id), Save(a)] + LastSteps(a, add))
  }

  /** The running job with its row, the remote and the worker for `a` replaced. */
  function Put(s: State, a: nat, x: Row, r: Remote, w: Worker): State
    requires InWork(s.exec)
  {
    PutWorker(WriteRow(s, a, x), a, w).(remote := r)
  }

  /** The worker for `a` is done, having left `c`. */
  function AfterAsset(s: State, a: nat, c: AssetResult): State
    requires InWork(s.exec)
  {
    var p := s.exec.phase;
    Phased(WriteRow(s, a, c.row), Work(p.todo, p.workers - {a}, p.failed || c.failed, p.target)).(remote := c.remote)
  }

  function RowPut(m: map<nat, Binding>, b: nat, a: nat, x: Row): map<nat, Binding>
    requires b in m
  {
    m[b := m[b].(imports := m[b].imports[a := x])]
  }

  lemma RowPutTwice(m: map<nat, Binding>, b: nat, a: nat, x: Row, y: Row)
    requires b in m
    ensures RowPut(RowPut(m, b, a, x), b, a, y) == RowPut(m, b, a, y)
  {
    assert m[b].imports[a := x][a := y] == m[b].imports[a := y];
  }

  lemma PutTwice(s: State, a: nat, x: Row, r: Remote, w: Worker, y: Row, q: Remote, v: Worker)
    requires InWork(s.exec)
    ensures Put(Put(s, a, x, r, w), a, y, q, v) == Put(s, a, y, q, v)
  {
    var b := s.exec.binding;
    if HasRow(s, a) {
      var m: map<nat, Row> := s.db.bindings[b].imports;
      assert m[a := x][a := y] == m[a := y];
      assert s.db.bindings[b := s.db.bindings[b].(imports := m[a := x])][b := s.db.bindings[b].(imports := m[a := y])]
             == s.db.bindings[b := s.db.bindings[b].(imports := m[a := y])];
    }
    assert s.exec.phase.workers[a := w][a := v] == s.exec.phase.workers[a := v];
  }

  lemma PutThenDone(s: State, a: nat, x: Row, r: Remote, w: Worker, c: AssetResult)
    requires InWork(s.exec)
    ensures AfterAsset(Put(s, a, x, r, w), a, c) == AfterAsset(s, a, c)
  {
    var b := s.exec.binding;
    if HasRow(s, a) {
      var m: map<nat, Row> := s.db.bindings[b].imports;
      assert m[a := x][a := c.row] == m[a := c.row];
      assert s.db.bindings[b := s.db.bindings[b].(imports := m[a := x])][b := s.db.bindings[b].(imports := m[a := c.row])]
             == s.db.bindings[b := s.db.bindings[b].(imports := m[a := c.row])];
    }
    assert s.exec.phase.workers[a := w] - {a} == s.exec.phase.workers - {a};
  }

  /** A worker holding `w` for `a`, whose row is `x`. */
  predicate Holds(s: State, a: nat, x: Row, w: Worker) {
    AtWorker(s.exec, a) && s.exec.phase.workers[a] == w && HasRow(s, a) && RowOf(s, a) == x
  }

  lemma PutHolds(s: State, a: nat, x: Row, r: Remote, w: Worker)
    requires InWork(s.exec) && HasRow(s, a)
    ensures Holds(Put(s, a, x, r, w), a, x, w)
  {}

  lemma PutSame(s: State, a: nat, x: Row, r: Remote, w: Worker)
    requires Holds(s, a, x, w)
    ensures Put(s, a, x, s.remote, w) == s
  {
    var b := s.exec.binding;
    var m: map<nat, Row> := s.db.bindings[b].imports;
    assert m[a := x] == m;
    assert s.db.bindings[b := s.db.bindings[b].(imports := m)] == s.db.bindings;
    assert s.exec.phase.workers[a := w] == s.exec.phase.workers;
  }

  /** The job works on `s`, where `a` has a row and media. */
  predicate Working(s: State, a: nat) { InWork(s.exec) && HasRow(s, a) && a in s.db.assets }

  lemma LoadPut(s: State, a: nat, x: Row)
    requires Working(s, a) && Holds(s, a, x, Took) && x.status.Pending?
    ensures LoadStep(s, a) == Some(Put(s, a, x, s.remote, Loaded(x.remote, x.duplicate)))
  {
    PutSame(s, a, x, s.remote, Took);
    PutTwice(s, a, x, s.remote, Took, x, s.remote, Loaded(x.remote, x.duplicate));
  }

  lemma MarkPut(s: State, a: nat, x: Row, r: Remote, w: Worker)
    requires Working(s, a) && w.Loaded?
    ensures MarkStep(Put(s, a, x, r, w), a) == Some(Put(s, a, MarkedRow(x), r, Marked(w.remote, w.duplicate)))
  {
    PutHolds(s, a, x, r, w);
    PutTwice(s, a, x, r, w, MarkedRow(x), r, Marked(w.remote, w.duplicate));
  }

  lemma AddPut(s: State, a: nat, x: Row, r: Remote, w: Worker, id: nat, add: Outcome)
    requires Working(s, a) && (w == Saved(id, x.duplicate) || w == Marked(Some(id), x.duplicate))
    ensures AddStep(Put(s, a, x, r, w), a, add)
            == Some(Put(s, a, x, AlbumedRemote(r, s.exec.phase.target, id, add), if add.Answered? then Added(id, x.duplicate) else Erring))
  {
    PutHolds(s, a, x, r, w);
    var n := Put(s, a, x, r, w);
    var v := if add.Answered? then Added(id, x.duplicate) else Erring;
    PutSame(n, a, x, r, w);
    PutTwice(s, a, x, r, w, x, AlbumedRemote(r, s.exec.phase.target, id, add), v);
  }

  lemma AccountPut(s: State, a: nat, x: Row, r: Remote, w: Worker)
    requires Working(s, a) && w.Added? && w.duplicate == x.duplicate
    ensures AccountStep(Put(s, a, x, r, w), a)
            == Some(AfterAsset(s, a, AssetResult(x.(status := if x.duplicate then Duplicate else Imported), r, false)))
  {
    PutHolds(s, a, x, r, w);
    PutThenDone(s, a, x, r, w, AssetResult(x.(status := if x.duplicate then Duplicate else Imported), r, false));
  }

  lemma FaultPut(s: State, a: nat, x: Row, r: Remote)
    requires Working(s, a)
    ensures FaultStep(Put(s, a, x, r, Erring), a) == Some(AfterAsset(s, a, AssetResult(Unfinished(x, s.exec.cancelled), r, true)))
  {
    PutHolds(s, a, x, r, Erring);
    PutThenDone(s, a, x, r, Erring, AssetResult(Unfinished(x, s.exec.cancelled), r, true));
  }

  /** The call record an upload of `a` by the running job leaves. */
  function CallOf(s: State, a: nat): UploadCall {
    UploadCall(a, s.exec.Exec? && s.exec.albumOnly, false, !Intact(s))
  }

  lemma UploadPut(s: State, a: nat, x: Row, r: Remote, w: Worker, up: Outcome, id: nat)
    requires Working(s, a) && w.Marked? && w.remote.None? && x.remote.None?
    requires id !in r.copies
    ensures var u := UploadOf(r, CallOf(s, a), s.db.assets[a].content, up, id);
            UploadStep(Put(s, a, x, r, w), a, up, id)
            == Some(Put(s, a, x, u.remote, if up.Answered? then Uploaded(u.id, u.duplicate) else Erring))
  {
    var u := UploadOf(r, CallOf(s, a), s.db.assets[a].content, up, id);
    var v := if up.Answered? then Uploaded(u.id, u.duplicate) else Erring;
    PutHolds(s, a, x, r, w);
    PutSame(Put(s, a, x, r, w), a, x, r, w);
    PutTwice(s, a, x, r, w, x, u.remote, v);
  }

  lemma SavePut(s: State, a: nat, x: Row, r: Remote, id: nat, duplicate: bool)
    requires Working(s, a)
    ensures SaveStep(Put(s, a, x, r, Uploaded(id, duplicate)), a)
            == Some(Put(s, a, x.(remote := Some(id), duplicate := duplicate), r, Saved(id, duplicate)))
  {
    PutHolds(s, a, x, r, Uploaded(id, duplicate));
    PutTwice(s, a, x, r, Uploaded(id, duplicate), x.(remote := Some(id), duplicate := duplicate), r, Saved(id, duplicate));
  }

  lemma FirstNext(s: State, n: State, a: nat)
    ensures LoadStep(s, a) == Some(n) ==> Next(s, Load(a)) == Some(n)
    ensures MarkStep(s, a) == Some(n) ==> Next(s, Mark(a)) == Some(n)
  {}

  lemma UploadNext(s: State, n: State, a: nat, o: Outcome, id: nat)
    requires UploadStep(s, a, o, id) == Some(n)
    ensures Next(s, Upload(a, o, id)) == Some(n)
  {}

  lemma LastNext(s: State, n: State, a: nat)
    ensures SaveStep(s, a) == Some(n) ==> Next(s, Save(a)) == Some(n)
    ensures FaultStep(s, a) == Some(n) ==> Next(s, Fault(a)) == Some(n)
  {}

  lemma AddNext(s: State, n: State, a: nat, add: Outcome)
    requires AddStep(s, a, add) == Some(n)
    ensures Next(s, Add(a, add)) == Some(n)
  {}

  lemma AccountNext(s: State, n: State, a: nat)
    requires AccountStep(s, a) == Some(n)
    ensures Next(s, Account(a)) == Some(n)
  {}

  lemma Then(s: State, n: State, m: State, t: Step, u: Step)
    requires Next(s, t) == Some(n) && Next(n, u) == Some(m)
    ensures Run(s, [t, u]) == Some(m)
  {
    RunTwo(s, t, u, n);
  }

  lemma LoadMarkRun(s: State, a: nat, x: Row)
    requires Working(s, a) && Holds(s, a, x, Took) && x.status.Pending?
    ensures Run(s, [Load(a), Mark(a)]) == Some(Put(s, a, MarkedRow(x), s.remote, Marked(x.remote, x.duplicate)))
  {
    LoadPut(s, a, x);
    MarkPut(s, a, x, s.remote, Loaded(x.remote, x.duplicate));
    var n, m := Put(s, a, x, s.remote, Loaded(x.remote, x.duplicate)), Put(s, a, MarkedRow(x), s.remote, Marked(x.remote, x.duplicate));
    FirstNext(s, n, a);
    FirstNext(n, m, a);
    Then(s, n, m, Load(a), Mark(a));
  }

  lemma UploadFaultRun(s: State, a: nat, x: Row, r: Remote, w: Worker, up: Outcome, id: nat)
    requires Working(s, a) && w.Marked? && w.remote.None? && x.remote.None? && id !in r.copies && !up.Answered?
    ensures var u := UploadOf(r, CallOf(s, a), s.db.assets[a].content, up, id);
            Run(Put(s, a, x, r, w), [Upload(a, up, id), Fault(a)])
            == Some(AfterAsset(s, a, AssetResult(Unfinished(x, s.exec.cancelled), u.remote, true)))
  {
    var u := UploadOf(r, CallOf(s, a), s.db.assets[a].content, up, id);
    UploadPut(s, a, x, r, w, up, id);
    FaultPut(s, a, x, u.remote);
    var n, m := Put(s, a, x, u.remote, Erring), AfterAsset(s, a, AssetResult(Unfinished(x, s.exec.cancelled), u.remote, true));
    UploadNext(Put(s, a, x, r, w), n, a, up, id);
    LastNext(n, m, a);
    Then(Put(s, a, x, r, w), n, m, Upload(a, up, id), Fault(a));
  }

  lemma UploadSaveRun(s: State, a: nat, x: Row, r: Remote, w: Worker, up: Outcome, id: nat)
    requires Working(s, a) && w.Marked? && w.remote.None? && x.remote.None? && id !in r.copies && up.Answered?
    ensures var u := UploadOf(r, CallOf(s, a), s.db.assets[a].content, up, id);
            Run(Put(s, a, x, r, w), [Upload(a, up, id), Save(a)])
            == Some(Put(s, a, x.(remote := Some(u.id), duplicate := u.duplicate), u.remote, Saved(u.id, u.duplicate)))
  {
    var u := UploadOf(r, CallOf(s, a), s.db.assets[a].content, up, id);
    UploadPut(s, a, x, r, w, up, id);
    SavePut(s, a, x, u.remote, u.id, u.duplicate);
    var n, m := Put(s, a, x, u.remote, Uploaded(u.id, u.duplicate)), Put(s, a, x.(remote := Some(u.id), duplicate := u.duplicate), u.remote, Saved(u.id, u.duplicate));
    UploadNext(Put(s, a, x, r, w), n, a, up, id);
    LastNext(n, m, a);
    Then(Put(s, a, x, r, w), n, m, Upload(a, up, id), Save(a));
  }

  lemma LastRun(s: State, a: nat, x: Row, r: Remote, w: Worker, id: nat, add: Outcome)
    requires Working(s, a) && (w == Saved(id, x.duplicate) || w == Marked(Some(id), x.duplicate))
    ensures Run(Put(s, a, x, r, w), LastSteps(a, add))
            == Some(AfterAsset(s, a, Adding(x, r, s.exec.phase.target, id, add, s.exec.cancelled)))
  {
    var q := AlbumedRemote(r, s.exec.phase.target, id, add);
    var n := AfterAsset(s, a, Adding(x, r, s.exec.phase.target, id, add, s.exec.cancelled));
    AddPut(s, a, x, r, w, id, add);
    if add.Answered? {
      AccountPut(s, a, x, q, Added(id, x.duplicate));
      AddNext(Put(s, a, x, r, w), Put(s, a, x, q, Added(id, x.duplicate)), a, add);
      AccountNext(Put(s, a, x, q, Added(id, x.duplicate)), n, a);
      Then(Put(s, a, x, r, w), Put(s, a, x, q, Added(id, x.duplicate)), n, Add(a, add), Account(a));
    } else {
      FaultPut(s, a, x, q);
      AddNext(Put(s, a, x, r, w), Put(s, a, x, q, Erring), a, add);
      LastNext(Put(s, a, x, q, Erring), n, a);
      Then(Put(s, a, x, r, w), Put(s, a, x, q, Erring), n, Add(a, add), Fault(a));
    }
  }

  /** importAsset() run alone is its atomic steps. */
  lemma AssetRuns(s: State, a: nat, x: Row, up: Outcome, id: nat, add: Outcome)
    requires Working(s, a) && Holds(s, a, x, Took) && id !in s.remote.copies
    ensures Run(s, AssetSteps(x, a, up, id, add))
            == Some(AfterAsset(s, a, AssetCall(x, s.remote, CallOf(s, a), s.db.assets[a].content, s.exec.phase.target, up, id, add, s.exec.cancelled)))
  {
    if !x.status.Pending? {
      SkipRun(s, a, x);
    } else {
      var w := Marked(x.remote, x.duplicate);
      var m := Put(s, a, MarkedRow(x), s.remote, w);
      LoadMarkRun(s, a, x);
      if x.remote.Some? {
        LastRun(s, a, MarkedRow(x), s.remote, w, x.remote.value, add);
        RunJoin(s, [Load(a), Mark(a)], m, LastSteps(a, add));
      } else if !up.Answered? {
        UploadFaultRun(s, a, MarkedRow(x), s.remote, w, up, id);
        RunJoin(s, [Load(a), Mark(a)], m, [Upload(a, up, id), Fault(a)]);
      } else {
        UploadSaveRun(s, a, MarkedRow(x), s.remote, w, up, id);
        var u := UploadOf(s.remote, CallOf(s, a), s.db.assets[a].content, up, id);
        var y := MarkedRow(x).(remote := Some(u.id), duplicate := u.duplicate);
        LastRun(s, a, y, u.remote, Saved(u.id, u.duplicate), u.id, add);
        RunJoin(m, [Upload(a, up, id), Save(a)], Put(s, a, y, u.remote, Saved(u.id, u.duplicate)), LastSteps(a, add));
        RunJoin(s, [Load(a), Mark(a)], m, [Upload(a, up, id), Save(a)] + LastSteps(a, add));
      }
    }
  }

  /** A row that is not pending is left alone. */
  lemma SkipRun(s: State, a: nat, x: Row)
    requires Working(s, a) && Holds(s, a, x, Took) && !x.status.Pending?
    ensures Run(s, [Load(a)]) == Some(AfterAsset(s, a, AssetResult(x, s.remote, false)))
  {
    var b := s.exec.binding;
    var m: map<nat, Row> := s.db.bindings[b].imports;
    assert m[a := x] == m;
    assert s.db.bindings[b := s.db.bindings[b].(imports := m)] == s.db.bindings;
    RunOne(s, Load(a), LoadStep(s, a).value);
  }

  class Service {
    var events: map<nat, Event>
    var assets: map<nat, Asset>
    var bindings: map<nat, Binding>
    var jobs: map<nat, Job>
    var remote: Remote
    var reconcileAfter: nat

    constructor (db: Db, r: Remote)
      ensures Tables() == db && remote == r && reconcileAfter == 0
    {
      events, assets, bindings, jobs := db.events, db.assets, db.bindings, db.jobs;
      remote, reconcileAfter := r, 0;
    }

    ghost function Tables(): Db
      reads this
    {
      Db(events, assets, bindings, jobs)
    }

    method FindBinding(event: nat, target: nat) returns (found: Option<nat>)
      ensures var owned := BindingsOf(Tables(), event, target);
              found == if owned == {} then None else Some(Min(owned))
    {
      var owned := set b | b in bindings && bindings[b].event == event && bindings[b].target == target;
      assert owned == BindingsOf(Tables(), event, target);
      found := if owned == {} then None else Some(Min(owned));
    }

    method IsActive(b: nat) returns (active: bool)
      ensures active == HasActive(Tables(), b)
    {
      active := exists j :: j in jobs && jobs[j].binding == b && Active(jobs[j]);
    }

    method Enqueue(r: Request) returns (result: Result<nat, Error>)
      modifies this
      ensures remote == old(remote) && reconcileAfter == old(reconcileAfter)
      ensures match EnqueueTx(old(Tables()), r)
              case Ok(d) => Tables() == d && result == Ok(NextId(old(jobs).Keys))
              case Err(e) => Tables() == old(Tables()) && result == Err(e)
    {
      var trimmed := Trim(r.name);
      if (r.mode != "new" && r.mode != "retry") || |trimmed| > MAX_NAME || !ControlFree(trimmed) { return Err(ErrInput); }
      if !r.known { return Err(ErrTarget); }
      if r.requireCredentials && !r.credentials { return Err(ErrCredentials); }
      if r.event !in events { return Err(ErrNoEvent); }
      if events[r.event].deleting { return Err(ErrDeleting); }
      var found := FindBinding(r.event, r.target);
      var name := trimmed;
      if name == "" {
        if found.Some? { name := bindings[found.value].name; }
        if name == "" { name := events[r.event].name; }
      }
      if !ControlFree(name) { return Err(ErrInput); }
      var begin := bindings;
      var b := NextId(bindings.Keys);
      if found.Some? { b := found.value; } else {
        bindings := bindings[b := NewBinding(r, name)];
      }
      result := Select(b, name, r);
      if result.Err? { bindings := begin; }
    }

    /** The rows a send leaves to its binding. */
    method Rows(x: Binding, r: Request) returns (rows: map<nat, Row>)
      ensures rows == if r.albumOnly then x.imports
                      else if r.mode == "new" then ImmichModel.Select(x.imports, ReadyAssets(Tables(), x.event)) else Reset(x.imports)
    {
      if r.albumOnly { return x.imports; }
      if r.mode != "new" { return Reset(x.imports); }
      var ready := set a | a in assets && assets[a].event == x.event && assets[a].ready;
      assert ready == ReadyAssets(Tables(), x.event);
      rows := ImmichModel.Select(x.imports, ready);
    }

    method Select(b: nat, name: string, r: Request) returns (result: Result<nat, Error>)
      requires b in bindings
      modifies this
      ensures remote == old(remote) && reconcileAfter == old(reconcileAfter)
      ensures match Submit(old(Tables()), b, name, r)
              case Ok(d) => Tables() == d && result == Ok(NextId(old(jobs).Keys))
              case Err(e) => Tables() == old(Tables()) && result == Err(e)
    {
      var active := IsActive(b);
      if active { return Err(ErrActive); }
      if r.albumOnly && bindings[b].imports != map[] { return Err(ErrInput); }
      if bindings[b].state.NewAlbum? { bindings := bindings[b := bindings[b].(name := name)]; }
      var rows := Rows(bindings[b], r);
      bindings := bindings[b := bindings[b].(imports := rows)];
      var id := NextId(jobs.Keys);
      jobs := jobs[id := Job(b, if r.mode == "new" then NewMedia else RetryMedia, r.albumOnly, Queued, false)];
      result := Ok(id);
    }

    method Cancel(event: nat, target: nat)
      modifies this`jobs
      ensures Tables() == CancelTx(old(Tables()), event, target)
    {
      var owned := set b | b in bindings && bindings[b].event == event && bindings[b].target == target;
      assert owned == BindingsOf(Tables(), event, target);
      jobs := map j | j in jobs :: if Active(jobs[j]) && jobs[j].binding in owned then jobs[j].(cancel := true) else jobs[j];
    }

    method SetAutoImport(event: nat, target: nat, on: bool) returns (ok: bool)
      modifies this`bindings
      ensures match SetAutoTx(old(Tables()), event, target, on)
              case Ok(d) => ok && Tables() == d
              case Err(_) => !ok && Tables() == old(Tables())
    {
      var found := FindBinding(event, target);
      ok := found.Some? && event in events && !events[event].deleting;
      if ok { bindings := bindings[found.value := bindings[found.value].(auto := on)]; }
    }

    method Recover()
      modifies this`bindings, this`jobs
      ensures Tables() == RecoverTx(old(Tables()))
    {
      bindings := map b | b in bindings :: bindings[b].(imports := Requeue(bindings[b].imports));
      jobs := map j | j in jobs :: if jobs[j].status.Running? then jobs[j].(status := Queued) else jobs[j];
    }

    method Claim() returns (job: Option<nat>)
      modifies this`jobs
      ensures match ClaimTx(old(Tables()))
              case None => job.None? && Tables() == old(Tables())
              case Some((j, d)) => job == Some(j) && Tables() == d
    {
      var queued := set j | j in jobs && jobs[j].status.Queued?;
      assert queued == QueuedJobs(Tables());
      if queued == {} { return None; }
      var j := Min(queued);
      jobs := jobs[j := jobs[j].(status := Running)];
      job := Some(j);
    }

    /** The final transaction of execute. */
    method Finish(j: nat, b: nat, err: bool)
      modifies this`jobs, this`bindings
      ensures Tables() == FinishTx(old(Tables()), j, b, err)
    {
      if j !in jobs { return; }
      var status := Completed;
      if err { status := JobFailed; }
      if jobs[j].cancel { status := Cancelled; }
      if status == JobFailed && b in bindings {
        bindings := bindings[b := bindings[b].(imports := FailPending(bindings[b].imports))];
      }
      jobs := jobs[j := jobs[j].(status := status)];
    }

    method ReconcileBinding(b: nat)
      modifies this`bindings, this`jobs
      ensures Tables() == ReconcileTx(old(Tables()), b)
    {
      if b !in bindings { return; }
      var x := bindings[b];
      if !x.auto || !x.state.AlbumReady? || x.album.None? || x.event !in events || events[x.event].deleting { return; }
      var active := IsActive(b);
      if active || OpenRows(x) { return; }
      var ready := set a | a in assets && assets[a].event == x.event && assets[a].ready;
      assert ready - x.imports.Keys == Unselected(Tables(), b);
      var chosen := Earliest(assets, ready - x.imports.Keys, BATCH);
      if chosen == {} { return; }
      bindings := bindings[b := x.(imports := ImmichModel.Select(x.imports, chosen))];
      jobs := jobs[NextId(jobs.Keys) := Job(b, NewMedia, false, Queued, false)];
    }

    /** Reconciles `ids` in turn, up to a database error after `stop` of them. */
    method ReconcileAll(ids: seq<nat>, stop: nat)
      modifies this`bindings, this`jobs, this`reconcileAfter
      ensures Tables() == Fold(old(Tables()), Handled(ids, stop))
      ensures reconcileAfter == After(Handled(ids, stop), old(reconcileAfter))
    {
      ghost var begin := Tables();
      var k := 0;
      while k < |ids| && k < stop
        invariant 0 <= k <= |ids| && k <= stop
        invariant Tables() == Fold(begin, ids[..k])
        invariant reconcileAfter == if k == 0 then old(reconcileAfter) else ids[k - 1]
      {
        ReconcileBinding(ids[k]);
        assert ids[..k + 1][..k] == ids[..k];
        reconcileAfter := ids[k];
        k := k + 1;
      }
      assert ids[..k] == Handled(ids, stop);
    }

    method Ids() returns (ids: seq<nat>)
      ensures ids == Scan(Tables(), reconcileAfter)
    {
      var found := set b | b in bindings && bindings[b].auto && bindings[b].state.AlbumReady?;
      assert found == AutoReady(Tables());
      ids := Sorted(Window(found, reconcileAfter, RECONCILE_BINDINGS));
    }

    /** One pass over at most 32 bindings after the cursor, which it leaves at the last binding done, or at the start. */
    method Reconcile(stop: nat)
      modifies this`bindings, this`jobs, this`reconcileAfter
      ensures Tables() == Fold(old(Tables()), Handled(Scan(old(Tables()), old(reconcileAfter)), stop))
      ensures reconcileAfter == NextAfter(Scan(old(Tables()), old(reconcileAfter)), stop, old(reconcileAfter))
    {
      var ids := Ids();
      ReconcileAll(ids, stop);
      if stop >= |ids| && |ids| < RECONCILE_BINDINGS { reconcileAfter := 0; }
    }

    // -------------------------------------------------------------- remote requests

    method FindMarked(marker: nat, ok: bool) returns (reply: Option<nat>)
      ensures reply == AlbumFor(remote, marker, ok)
    {
      var found := set i | i in remote.albums && remote.albums[i] == marker;
      reply := if ok && |found| == 1 then Some(Min(found)) else None;
    }

    method CreateAlbum(marker: nat, outcome: Outcome, id: nat) returns (reply: Option<nat>)
      modifies this`remote
      ensures remote == Created(old(remote), marker, outcome, id)
      ensures reply == if outcome.Answered? then Some(id) else None
    {
      remote := remote.(creates := Bump(remote.creates, marker));
      if !outcome.Refused? { remote := remote.(albums := remote.albums[id := marker]); }
      reply := if outcome.Answered? then Some(id) else None;
    }

    method Album(b: nat, outcome: Outcome, id: nat, ok: bool) returns (album: Option<nat>)
      requires b in bindings
      modifies this`bindings, this`remote
      ensures var c := AlbumCall(old(bindings)[b], old(remote), outcome, id, ok);
              album == c.album && remote == c.remote && bindings == old(bindings)[b := c.row]
      ensures b in bindings && Resolves(old(bindings)[b], bindings[b], old(remote), remote, outcome, ok, album)
    {
      AlbumCallMeans(bindings[b], remote, outcome, id, ok);
      var x := bindings[b];
      if x.album.Some? {
        assert bindings == bindings[b := x];
        return if ok then x.album else None;
      }
      if x.state.Creating? {
        album := FindMarked(x.marker, ok);
      } else {
        bindings := bindings[b := bindings[b].(state := Creating)];
        album := CreateAlbum(x.marker, outcome, id);
      }
      if album.Some? { bindings := bindings[b := bindings[b].(album := album, state := AlbumReady)]; }
    }

    method SendUpload(call: UploadCall, content: nat, outcome: Outcome, id: nat) returns (reply: Option<(nat, bool)>)
      modifies this`remote
      ensures var u := UploadOf(old(remote), call, content, outcome, id);
              remote == u.remote && reply == if outcome.Answered? then Some((u.id, u.duplicate)) else None
    {
      var known := set i | i in remote.copies && remote.copies[i] == content;
      var got := if known == {} then id else Min(known);
      remote := remote.(sent := remote.sent + [call]);
      if !outcome.Refused? { remote := remote.(copies := remote.copies[got := content]); }
      reply := if outcome.Answered? then Some((got, known != {})) else None;
    }

    method AddToAlbum(album: nat, id: nat, outcome: Outcome) returns (ok: bool)
      modifies this`remote
      ensures remote == AlbumedRemote(old(remote), album, id, outcome) && ok == outcome.Answered?
    {
      if !outcome.Refused? { remote := remote.(added := remote.added + {(album, id)}); }
      ok := outcome.Answered?;
    }

    /** UPDATE of one import row; `begin` is the table before this asset. */
    method Update(ghost begin: map<nat, Binding>, b: nat, a: nat, ghost was: Row, x: Row)
      requires b in begin && bindings == RowPut(begin, b, a, was)
      modifies this`bindings
      ensures bindings == RowPut(begin, b, a, x)
    {
      RowPutTwice(begin, b, a, was, x);
      bindings := bindings[b := bindings[b].(imports := bindings[b].imports[a := x])];
    }

    method AddAndAccount(ghost begin: map<nat, Binding>, b: nat, a: nat, x: Row, album: nat, add: Outcome, cancelled: bool) returns (failed: bool)
      requires b in begin && bindings == RowPut(begin, b, a, x) && x.remote.Some?
      modifies this`bindings, this`remote
      ensures var c := Adding(x, old(remote), album, x.remote.value, add, cancelled);
              failed == c.failed && remote == c.remote && bindings == RowPut(begin, b, a, c.row)
    {
      var ok := AddToAlbum(album, x.remote.value, add);
      if !ok { Update(begin, b, a, x, x.(status := if cancelled then Pending else Failed)); return true; }
      Update(begin, b, a, x, x.(status := if x.duplicate then Duplicate else Imported));
      failed := false;
    }

    /** One media file of the snapshot, by one worker, when nothing else touches its row. */
    method ImportAsset(call: UploadCall, b: nat, a: nat, album: nat, up: Outcome, id: nat, add: Outcome, cancelled: bool) returns (failed: bool)
      requires b in bindings && a in bindings[b].imports && a in assets
      modifies this`bindings, this`remote
      ensures var c := AssetCall(old(bindings)[b].imports[a], old(remote), call, assets[a].content, album, up, id, add, cancelled);
              failed == c.failed && remote == c.remote && bindings == RowPut(old(bindings), b, a, c.row)
      ensures b in bindings && a in bindings[b].imports
              && Transferred(old(bindings)[b].imports[a], bindings[b].imports[a], old(remote), remote, assets[a].content, album, up, add, cancelled)
      ensures old(bindings)[b].imports[a].status.Pending? ==>
                (failed <==> bindings[b].imports[a].status.Failed? || bindings[b].imports[a].status.Pending?)
    {
      AssetCallMeans(bindings[b].imports[a], remote, call, assets[a].content, album, up, id, add, cancelled);
      ghost var begin := bindings;
      var x := bindings[b].imports[a];
      assert RowPut(begin, b, a, x) == begin by { assert begin[b].imports[a := x] == begin[b].imports; }
      if !x.status.Pending? { return false; }
      var marked := x.(status := Importing, attempts := x.attempts + 1);
      Update(begin, b, a, x, marked);
      if marked.remote.None? {
        var reply := SendUpload(call, assets[a].content, up, id);
        if reply.None? { Update(begin, b, a, marked, marked.(status := if cancelled then Pending else Failed)); return true; }
        var saved := marked.(remote := Some(reply.value.0), duplicate := reply.value.1);
        Update(begin, b, a, marked, saved);
        marked := saved;
      }
      failed := AddAndAccount(begin, b, a, marked, album, add, cancelled);
    }
  }
}
