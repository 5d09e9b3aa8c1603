/** What the tables, the runner and the remote of the import engine satisfy in every reachable state. */
module ImmichInvariant {
  import opened Wrappers
  import opened ImmichModel
  import opened ImmichSteps

  // ---------------------------------------------------------------- tables

  ghost predicate SameKey(x: Binding, y: Binding) { x.event == y.event && x.target == y.target }

  ghost predicate SameMarker(x: Binding, y: Binding) { x.marker == y.marker }

  /** Foreign keys and unique keys; media leaves the ready state only while its event is being deleted. */
  ghost predicate Tables(db: Db, assets: set<nat>, markers: set<nat>) {
    && (forall b :: b in db.bindings ==> db.bindings[b].event in db.events && db.bindings[b].marker in markers)
    && (forall b, c {:trigger SameMarker(db.bindings[b], db.bindings[c])} ::
          b in db.bindings && c in db.bindings && SameMarker(db.bindings[b], db.bindings[c]) ==> b == c)
    && (forall b, c {:trigger SameKey(db.bindings[b], db.bindings[c])} ::
          b in db.bindings && c in db.bindings && SameKey(db.bindings[b], db.bindings[c]) ==> b == c)
    && (forall j :: j in db.jobs ==> db.jobs[j].binding in db.bindings)
    && (forall a :: a in db.assets ==> a in assets && db.assets[a].event in db.events)
    && (forall a :: a in db.assets && !db.assets[a].ready ==> db.events[db.assets[a].event].deleting)
  }

  /** `a` is media of event `e`. */
  ghost predicate Sourced(db: Db, e: nat, a: nat) { a in db.assets && db.assets[a].event == e }

  ghost predicate Sources(db: Db) {
    forall b, a :: b in db.bindings && a in db.bindings[b].imports ==> Sourced(db, db.bindings[b].event, a)
  }

  ghost predicate Newest(db: Db, j: nat) {
    j in db.jobs && forall k :: k in db.jobs && db.jobs[k].binding == db.jobs[j].binding ==> k <= j
  }

  /** An active job is the newest of its binding. */
  ghost predicate ActiveNewest(db: Db) { forall j :: j in db.jobs && Active(db.jobs[j]) ==> Newest(db, j) }

  ghost predicate Rivals(x: Job, y: Job) { Active(x) && Active(y) && x.binding == y.binding }

  /** At most one queued or running job per binding. */
  ghost predicate OneActive(db: Db) {
    forall i, j {:trigger Rivals(db.jobs[i], db.jobs[j])} ::
      i in db.jobs && j in db.jobs && Rivals(db.jobs[i], db.jobs[j]) ==> i == j
  }

  /** While an album-only job is active its binding has no import row. */
  ghost predicate AlbumOnlyEmpty(db: Db) {
    forall j :: j in db.jobs && db.jobs[j].albumOnly && Active(db.jobs[j]) && db.jobs[j].binding in db.bindings
      ==> db.bindings[db.jobs[j].binding].imports == map[]
  }

  ghost predicate NewestCancelled(db: Db, b: nat) {
    exists j :: Newest(db, j) && db.jobs[j].binding == b && db.jobs[j].status.Cancelled?
  }

  /** An active job works on the binding, or its newest job was cancelled. */
  ghost predicate Covered(db: Db, b: nat) { HasActive(db, b) || NewestCancelled(db, b) }

  ghost predicate Owned(db: Db) { forall b :: b in db.bindings && OpenRows(db.bindings[b]) ==> Covered(db, b) }

  ghost predicate AlbumOk(db: Db, creates: map<nat, nat>, markers: set<nat>) {
    && (forall b :: b in db.bindings ==> (db.bindings[b].state.AlbumReady? <==> db.bindings[b].album.Some?))
    && (forall b :: b in db.bindings && db.bindings[b].state.NewAlbum? ==> db.bindings[b].marker !in creates)
    && (forall m :: m in creates ==> creates[m] == 1 && m in markers)
  }

  /** What the tables satisfy in every run. `Owned` is not part of it: it can be lost when a job ends by a reused id. */
  ghost predicate DbOk(db: Db, creates: map<nat, nat>, assets: set<nat>, markers: set<nat>) {
    && Tables(db, assets, markers) && Sources(db) && ActiveNewest(db) && AlbumOnlyEmpty(db) && AlbumOk(db, creates, markers)
  }

  // ---------------------------------------------------------------- the remote

  /** What an import row says about the remote is true. */
  ghost predicate RowTrue(r: Row, content: nat, remote: Remote) {
    && (r.remote.Some? ==> r.remote.value in remote.copies && remote.copies[r.remote.value] == content)
    && (Settled(r) ==> r.remote.Some? && (r.status.Duplicate? <==> r.duplicate))
  }

  ghost predicate RowsTrue(db: Db, remote: Remote) {
    forall b, a :: b in db.bindings && a in db.bindings[b].imports && a in db.assets ==>
      RowTrue(db.bindings[b].imports[a], db.assets[a].content, remote)
  }

  /** A settled row is in its binding's album. */
  ghost predicate RowAlbumed(album: Option<nat>, r: Row, added: set<(nat, nat)>) {
    Settled(r) ==> album.Some? && r.remote.Some? && (album.value, r.remote.value) in added
  }

  ghost predicate Albumed(db: Db, added: set<(nat, nat)>) {
    forall b, a :: b in db.bindings && a in db.bindings[b].imports ==> RowAlbumed(db.bindings[b].album, db.bindings[b].imports[a], added)
  }

  /** One remote copy per content. */
  ghost predicate OneCopy(copies: map<nat, nat>) {
    forall i, k :: i in copies && k in copies && copies[i] == copies[k] ==> i == k
  }

  /** No upload was ever sent for a row that had a remote id, nor by an album-only job whose binding was still its own. */
  ghost predicate CallsOk(sent: seq<UploadCall>) { forall c :: c in sent ==> !c.hadId && (c.albumOnly ==> c.foreign) }

  // ---------------------------------------------------------------- the runner

  /** While the claimed binding is there, its job is the claimed one and runs. */
  ghost predicate Claims(s: State)
    requires s.exec.Exec?
  {
    var x := s.exec;
    Intact(s) ==>
      && x.job in s.db.jobs && s.db.jobs[x.job].status.Running? && s.db.jobs[x.job].binding == x.binding
      && s.db.jobs[x.job].albumOnly == x.albumOnly && s.db.bindings[x.binding].event == x.event
      && (x.cancelled ==> s.stopping || s.db.jobs[x.job].cancel)
  }

  ghost predicate RunnerOk(s: State) {
    && (s.recovered ==> forall j :: j in s.db.jobs && s.db.jobs[j].status.Running? ==> s.exec.Exec? && s.exec.job == j)
    && (!s.recovered ==> s.exec.Idle?)
    && (s.exec.Exec? ==>
          && s.exec.marker in s.usedMarkers && Claims(s)
          && (s.exec.job in s.db.jobs ==> Active(s.db.jobs[s.exec.job]))
          && (s.exec.binding in s.db.bindings ==> HasActive(s.db, s.exec.binding)))
  }

  /** A live worker holds the row, or the process that held it is gone. */
  ghost predicate Held(s: State, b: nat, a: nat) {
    !s.recovered || (AtWorker(s.exec, a) && s.exec.binding == b && Marks(s.exec.phase.workers[a]))
  }

  ghost predicate ImportingHeld(s: State) {
    forall b, a :: b in s.db.bindings && a in s.db.bindings[b].imports && s.db.bindings[b].imports[a].status.Importing? ==> Held(s, b, a)
  }

  /** What worker state `w` for an asset promises about its row. */
  ghost predicate RowFits(r: Row, w: Worker, content: nat, target: nat, remote: Remote) {
    match w
    case Took => true
    case Loaded(i, d) => r.status.Pending? && r.remote == i && r.duplicate == d
    case Marked(i, d) => r.status.Importing? && r.remote == i && r.duplicate == d
    case Uploaded(id, d) => r.status.Importing? && r.remote.None? && id in remote.copies && remote.copies[id] == content
    case Saved(id, d) => r.status.Importing? && r.remote == Some(id) && r.duplicate == d
    case Added(id, d) => r.status.Importing? && r.remote == Some(id) && r.duplicate == d && (target, id) in remote.added
    case Erring => r.status.Importing?
  }

  /** Past its first read, a worker has a row of the claimed binding id. */
  ghost predicate WorkerOk(db: Db, b: nat, a: nat, w: Worker, target: nat, remote: Remote)
    requires a in db.assets
  {
    w.Took? || (b in db.bindings && a in db.bindings[b].imports && RowFits(db.bindings[b].imports[a], w, db.assets[a].content, target, remote))
  }

  ghost predicate PendingWithin(x: Binding, left: set<nat>) {
    forall a :: a in x.imports && x.imports[a].status.Pending? ==> a in left
  }

  ghost predicate Media(db: Db, e: nat, assets: set<nat>) { forall a :: a in assets ==> Sourced(db, e, a) }

  ghost predicate WorkersOk(db: Db, remote: Remote, e: nat, b: nat, workers: map<nat, Worker>, target: nat) {
    forall a :: a in workers ==> Sourced(db, e, a) && WorkerOk(db, b, a, workers[a], target, remote)
  }

  function Todo(p: Phase): set<nat> {
    match p
    case Claimed => {}
    case AlbumLookup(todo) => todo
    case AlbumIntent(todo, _) => todo
    case AlbumReply(todo, _) => todo
    case Work(todo, _, _, _) => todo
    case Done(_) => {}
  }

  /** No create was sent for marker `m`, and none will be but the one intended. */
  ghost predicate Unsent(db: Db, m: nat, creates: map<nat, nat>) {
    m !in creates && forall b :: b in db.bindings && db.bindings[b].marker == m ==> !db.bindings[b].state.NewAlbum?
  }

  /** What the phase relies on in every run. */
  ghost predicate PhaseOk(s: State)
    requires s.exec.Exec?
  {
    var b := s.exec.binding;
    && (Holding(s.exec) ==> s.exec.event in s.db.events && !s.db.events[s.exec.event].deleting)
    && Media(s.db, s.exec.event, Todo(s.exec.phase))
    && match s.exec.phase
       case AlbumIntent(_, m) => Unsent(s.db, m, s.remote.creates) && m in s.usedMarkers && (b in s.db.bindings ==> s.db.bindings[b].album.None?)
       case AlbumReply(_, _) => b in s.db.bindings ==> s.db.bindings[b].album.None?
       case Work(todo, workers, _, target) => workers.Keys !! todo && WorkersOk(s.db, s.remote, s.exec.event, b, workers, target)
       case _ => true
  }

  /** What the phase promises while the claimed binding is there. */
  ghost predicate ProgressOk(s: State)
    requires s.exec.Exec?
  {
    Intact(s) ==>
      var x := s.db.bindings[s.exec.binding];
      match s.exec.phase
      case Claimed => true
      case AlbumLookup(todo) => PendingWithin(x, todo)
      case AlbumIntent(todo, _) => PendingWithin(x, todo) && x.state.Creating?
      case AlbumReply(todo, _) => PendingWithin(x, todo) && x.state.Creating?
      case Work(todo, workers, _, target) => x.album == Some(target) && (s.exec.cancelled || PendingWithin(x, todo + workers.Keys))
      case Done(err) => !err ==> !OpenRows(x)
  }

  /** The runner, the held rows and the remote. */
  ghost predicate ProcOk(s: State) {
    && RunnerOk(s) && ImportingHeld(s)
    && RowsTrue(s.db, s.remote) && OneCopy(s.remote.copies) && CallsOk(s.remote.sent)
    && (s.exec.Exec? ==> PhaseOk(s) && ProgressOk(s))
  }

  ghost predicate TablesOk(s: State) { DbOk(s.db, s.remote.creates, s.usedAssets, s.usedMarkers) }

  ghost predicate Inv(s: State) { TablesOk(s) && ProcOk(s) }
}
