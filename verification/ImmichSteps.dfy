/** Every interleaving of the import engine: HTTP requests, the one job runner, its three transfer workers,
    event deletion, lost remote replies, process crashes and restarts. One step is one SQL transaction or one
    remote request; a step that is not enabled yields None. */
module ImmichSteps {
  import opened Wrappers
  import opened Ordered
  import opened ImmichModel


  datatype Worker =
    | Took                                        // received from the queue
    | Loaded(remote: Option<nat>, duplicate: bool)   // read the row as pending
    | Marked(remote: Option<nat>, duplicate: bool)   // wrote status importing
    | Uploaded(id: nat, duplicate: bool)          // has the upload reply, not saved
    | Saved(id: nat, duplicate: bool)             // the row carries the remote id
    | Added(id: nat, duplicate: bool)             // the album holds the remote id
    | Erring                                      // importAsset returns an error

  datatype Phase =
    | Claimed                                     // before the snapshot
    | AlbumLookup(todo: set<nat>)                 // snapshot held, album() starts
    | AlbumIntent(todo: set<nat>, marker: nat)    // 'creating' saved, request with the marker read before not sent
    | AlbumReply(todo: set<nat>, reply: nat)      // album id received, not saved
    | Work(todo: set<nat>, workers: map<nat, Worker>, failed: bool, target: nat)
    | Done(err: bool)                             // importJob returned, snapshot closed

  /** The claimed job with the ids it works by. `marker` and `albumOnly` tell which binding and job were claimed; no statement
      reads them. */
  datatype Exec = Idle | Exec(job: nat, binding: nat, event: nat, marker: nat, albumOnly: bool, phase: Phase, cancelled: bool)

  /** `copies` maps a stored remote asset to its content; `sent` and `creates` count requests ever issued. */
  datatype Remote = Remote(copies: map<nat, nat>, albums: map<nat, nat>, added: set<(nat, nat)>,
                           creates: map<nat, nat>, sent: seq<UploadCall>)
  /** `foreign` records an upload while the claimed binding was gone and its id had gone to another. */
  datatype UploadCall = UploadCall(asset: nat, albumOnly: bool, hadId: bool, foreign: bool)

  /** `usedAssets` and `usedMarkers` hold every random id ever drawn: a draw is always new. */
  datatype State = State(db: Db, remote: Remote, recovered: bool, stopping: bool, exec: Exec,
                         usedAssets: set<nat>, usedMarkers: set<nat>)

  const WORKERS := 3

  datatype Step =
    | NewEvent(name: string)
    | MediaReady(asset: nat, event: nat, content: nat, created: nat)
    | Enqueue(request: Request)
    | CreateEvent(name: string, request: Request, auto: bool)
    | SetAuto(event: nat, target: nat, on: bool)
    | CancelJob(event: nat, target: nat)
    | Reconcile(binding: nat)
    | BeginDelete(event: nat) | Unready(asset: nat) | RemoveAsset(asset: nat) | RemoveEvent(event: nat)
    | Crash | Recover | Stop | Observe
    | Claim | FailEarly | TakeSnapshot
    | AlbumKnown(ok: bool) | MarkCreating | SendCreate(outcome: Outcome, id: nat) | FindAlbum(ok: bool) | SaveAlbum
    | StopFeeding | Take(asset: nat) | Drop(asset: nat) | Load(asset: nat) | Mark(asset: nat)
    | Upload(asset: nat, outcome: Outcome, id: nat) | Save(asset: nat) | Add(asset: nat, outcome: Outcome)
    | Account(asset: nat) | Fault(asset: nat)
    | EndWork | Finish

  /** The job holds the event's read lock from its snapshot to the end of importJob. */
  predicate Holding(x: Exec) { x.Exec? && !x.phase.Claimed? && !x.phase.Done? }

  predicate InWork(x: Exec) { x.Exec? && x.phase.Work? }

  /** The claimed binding is still there: its id has not gone to another one. */
  predicate Intact(s: State) { HasClaim(s.exec, s.db) }

  predicate HasClaim(x: Exec, d: Db) { x.Exec? && x.binding in d.bindings && d.bindings[x.binding].marker == x.marker }

  predicate AtWorker(x: Exec, a: nat) { InWork(x) && a in x.phase.workers }

  function PutWorker(s: State, a: nat, w: Worker): State
    requires InWork(s.exec)
  {
    var p := s.exec.phase;
    Phased(s, Work(p.todo, p.workers[a := w], p.failed, p.target))
  }

  /** From the mark on, the row is `importing`. */
  predicate Marks(w: Worker) { !w.Took? && !w.Loaded? }

  function DropWorker(s: State, a: nat): State
    requires InWork(s.exec)
  {
    var p := s.exec.phase;
    Phased(s, Work(p.todo, p.workers - {a}, p.failed, p.target))
  }

  function Phased(s: State, p: Phase): State
    requires s.exec.Exec?
  {
    s.(exec := s.exec.(phase := p))
  }

  function WithDb(s: State, r: Result<Db, Error>): Option<State> {
    match r
    case Ok(d) => Some(s.(db := d))
    case Err(_) => None
  }

  function Bump(m: map<nat, nat>, k: nat): map<nat, nat> { m[k := if k in m then m[k] + 1 else 1] }

  // ---------------------------------------------------------------- admin pages, guests, event deletion

  function NewEventStep(s: State, name: string): State {
    s.(db := s.db.(events := s.db.events[NextId(s.db.events.Keys) := Event(name, false)]))
  }

  function MediaStep(s: State, a: nat, e: nat, content: nat, created: nat): Option<State> {
    if a in s.usedAssets || e !in s.db.events || s.db.events[e].deleting then None
    else Some(s.(db := s.db.(assets := s.db.assets[a := Asset(e, true, content, created)]), usedAssets := s.usedAssets + {a}))
  }

  function EnqueueStep(s: State, r: Request): Option<State> {
    if r.marker in s.usedMarkers then None
    else WithDb(s.(usedMarkers := s.usedMarkers + {r.marker}), EnqueueTx(s.db, r))
  }

  function CreateEventStep(s: State, name: string, r: Request, auto: bool): Option<State> {
    if r.marker in s.usedMarkers then None
    else WithDb(s.(usedMarkers := s.usedMarkers + {r.marker}), CreateEventTx(s.db, name, r, auto))
  }

  function CancelStep(s: State, e: nat, t: nat): State { s.(db := CancelTx(s.db, e, t)) }

  function SetAutoStep(s: State, e: nat, t: nat, on: bool): Option<State> { WithDb(s, SetAutoTx(s.db, e, t, on)) }

  /** Deletion needs the event's exclusive lock. */
  function BeginDeleteStep(s: State, e: nat): Option<State> {
    if e !in s.db.events || (Holding(s.exec) && s.exec.event == e) then None
    else Some(s.(db := s.db.(events := s.db.events[e := s.db.events[e].(deleting := true)])))
  }

  function UnreadyStep(s: State, a: nat): Option<State> {
    if a !in s.db.assets || s.db.assets[a].event !in s.db.events || !s.db.events[s.db.assets[a].event].deleting then None
    else Some(s.(db := s.db.(assets := s.db.assets[a := s.db.assets[a].(ready := false)])))
  }

  function RemoveAssetStep(s: State, a: nat): Option<State> {
    if a !in s.db.assets || s.db.assets[a].ready then None else Some(s.(db := WithoutAsset(s.db, a)))
  }

  function RemoveEventStep(s: State, e: nat): Option<State> {
    if e !in s.db.events || !s.db.events[e].deleting || (exists a :: a in s.db.assets && s.db.assets[a].event == e) then None
    else Some(s.(db := WithoutEvent(s.db, e)))
  }

  // ---------------------------------------------------------------- the process and its one runner

  function CrashStep(s: State): State { s.(recovered := false, stopping := false, exec := Idle) }

  /** Shutdown cancels the running job's context. */
  function StopStep(s: State): State {
    s.(stopping := true, exec := if s.exec.Exec? then s.exec.(cancelled := true) else Idle)
  }

  function RecoverStep(s: State): Option<State> {
    if s.recovered || s.stopping then None else Some(s.(recovered := true, db := RecoverTx(s.db)))
  }

  /** The monitor sees a cancellation request, or that the job is gone. */
  function ObserveStep(s: State): Option<State> {
    if s.exec.Exec? && (s.exec.job !in s.db.jobs || s.db.jobs[s.exec.job].cancel)
    then Some(s.(exec := s.exec.(cancelled := true))) else None
  }

  function ReconcileStep(s: State, b: nat): Option<State> {
    if !s.recovered || s.stopping || s.exec.Exec? then None else Some(s.(db := ReconcileTx(s.db, b)))
  }

  function ClaimStep(s: State): Option<State> {
    if !s.recovered || s.stopping || s.exec.Exec? then None
    else match ClaimTx(s.db)
         case None => None
         case Some((j, d)) =>
           var b := d.jobs[j].binding;
           if b !in d.bindings then None
           else Some(s.(db := d, exec := Exec(j, b, d.bindings[b].event, d.bindings[b].marker, d.jobs[j].albumOnly, Claimed, false)))
  }

  function FinishStep(s: State): Option<State> {
    if s.stopping || !s.exec.Exec? || !s.exec.phase.Done? then None
    else Some(s.(db := FinishTx(s.db, s.exec.job, s.exec.binding, s.exec.phase.err), exec := Idle))
  }

  // ---------------------------------------------------------------- importJob and album

  /** Missing credentials, a failed validation or a refused snapshot; a binding that is gone; under cancellation, any
      statement of album(). */
  function FailEarlyStep(s: State): Option<State> {
    if s.exec.Exec? && (s.exec.phase.Claimed? || (s.exec.phase.AlbumLookup? && s.exec.binding !in s.db.bindings)
                        || (s.exec.cancelled && (s.exec.phase.AlbumLookup? || s.exec.phase.AlbumReply?)))
    then Some(Phased(s, Done(true))) else None
  }

  function SnapshotStep(s: State): Option<State> {
    if !s.exec.Exec? || !s.exec.phase.Claimed? || s.exec.event !in s.db.events || s.db.events[s.exec.event].deleting then None
    else Some(Phased(s, AlbumLookup(ReadyAssets(s.db, s.exec.event))))
  }

  predicate AtLookup(s: State) { s.exec.Exec? && s.exec.phase.AlbumLookup? && s.exec.binding in s.db.bindings }

  /** A stored album id is only checked. */
  function AlbumKnownStep(s: State, ok: bool): Option<State> {
    if !AtLookup(s) || s.db.bindings[s.exec.binding].album.None? then None
    else Some(Phased(s, if ok then Work(s.exec.phase.todo, map[], false, s.db.bindings[s.exec.binding].album.value) else Done(true)))
  }

  function MarkCreatingStep(s: State): Option<State> {
    if !AtLookup(s) || s.db.bindings[s.exec.binding].album.Some? || s.db.bindings[s.exec.binding].state.Creating? then None
    else
      var b := s.exec.binding;
      Some(Phased(s.(db := s.db.(bindings := s.db.bindings[b := s.db.bindings[b].(state := Creating)])), AlbumIntent(s.exec.phase.todo, s.db.bindings[b].marker)))
  }

  function SendCreateStep(s: State, outcome: Outcome, id: nat): Option<State> {
    if !s.exec.Exec? || !s.exec.phase.AlbumIntent? || id in s.remote.albums then None
    else
      var m := s.exec.phase.marker;
      var albums := if outcome.Refused? then s.remote.albums else s.remote.albums[id := m];
      var sent := s.(remote := s.remote.(creates := Bump(s.remote.creates, m), albums := albums));
      Some(Phased(sent, if outcome.Answered? then AlbumReply(s.exec.phase.todo, id) else Done(true)))
  }

  /** A create whose outcome is unknown is resolved by the marker, never repeated. */
  function FindAlbumStep(s: State, ok: bool): Option<State> {
    if !AtLookup(s) || s.db.bindings[s.exec.binding].album.Some? || !s.db.bindings[s.exec.binding].state.Creating? then None
    else
      var found := set i | i in s.remote.albums && s.remote.albums[i] == s.db.bindings[s.exec.binding].marker;
      Some(Phased(s, if ok && |found| == 1 then AlbumReply(s.exec.phase.todo, Min(found)) else Done(true)))
  }

  /** The UPDATE leaves a binding that is gone alone. */
  function SaveAlbumStep(s: State): Option<State> {
    if !s.exec.Exec? || !s.exec.phase.AlbumReply? then None
    else
      var id := s.exec.phase.reply;
      Some(Phased(WithAlbumId(s, s.exec.binding, id), Work(s.exec.phase.todo, map[], false, id)))
  }

  function WithAlbumId(s: State, b: nat, id: nat): State {
    if b !in s.db.bindings then s
    else s.(db := s.db.(bindings := s.db.bindings[b := s.db.bindings[b].(album := Some(id), state := AlbumReady)]))
  }

  function StopFeedingStep(s: State): Option<State> {
    if InWork(s.exec) && s.exec.cancelled
    then Some(Phased(s, Work({}, s.exec.phase.workers, s.exec.phase.failed, s.exec.phase.target))) else None
  }

  function EndWorkStep(s: State): Option<State> {
    if !InWork(s.exec) || s.exec.phase.todo != {} || s.exec.phase.workers != map[] then None
    else Some(Phased(s, Done(s.exec.cancelled || s.exec.phase.failed)))
  }

  // ---------------------------------------------------------------- importAsset, by one of the three workers

  predicate HasRow(s: State, a: nat) {
    s.exec.Exec? && s.exec.binding in s.db.bindings && a in s.db.bindings[s.exec.binding].imports
  }

  function RowOf(s: State, a: nat): Row
    requires HasRow(s, a)
  {
    s.db.bindings[s.exec.binding].imports[a]
  }

  function TakeStep(s: State, a: nat): Option<State> {
    if !InWork(s.exec) || a !in s.exec.phase.todo || |s.exec.phase.workers| >= WORKERS then None
    else
      var p := s.exec.phase;
      Some(Phased(s, Work(p.todo - {a}, p.workers[a := Took], p.failed, p.target)))
  }

  /** A cancelled job lets go of an asset it has not marked. */
  function DropStep(s: State, a: nat): Option<State> {
    if AtWorker(s.exec, a) && !Marks(s.exec.phase.workers[a]) && s.exec.cancelled then Some(DropWorker(s, a)) else None
  }

  function LoadStep(s: State, a: nat): Option<State> {
    if !AtWorker(s.exec, a) || !s.exec.phase.workers[a].Took? then None
    else if !HasRow(s, a) || !RowOf(s, a).status.Pending? then Some(DropWorker(s, a))
    else Some(PutWorker(s, a, Loaded(RowOf(s, a).remote, RowOf(s, a).duplicate)))
  }

  /** Writes the running job's row for `a`. */
  function WriteRow(s: State, a: nat, r: Row): State
    requires s.exec.Exec?
  {
    s.(db := SetRow(s.db, s.exec.binding, a, r))
  }

  function MarkStep(s: State, a: nat): Option<State> {
    if !AtWorker(s.exec, a) || !s.exec.phase.workers[a].Loaded? || !HasRow(s, a) then None
    else
      var w := s.exec.phase.workers[a];
      var r := RowOf(s, a);
      Some(PutWorker(WriteRow(s, a, r.(status := Importing, attempts := r.attempts + 1)), a, Marked(w.remote, w.duplicate)))
  }

  /** The remote keeps one asset per content: it answers an upload of known content with the id it has. */
  function UploadStep(s: State, a: nat, outcome: Outcome, id: nat): Option<State> {
    if !AtWorker(s.exec, a) || !s.exec.phase.workers[a].Marked? || s.exec.phase.workers[a].remote.Some? || a !in s.db.assets then None
    else
      var c := s.db.assets[a].content;
      var known := set i | i in s.remote.copies && s.remote.copies[i] == c;
      var call := UploadCall(a, s.exec.albumOnly, HasRow(s, a) && RowOf(s, a).remote.Some?, !Intact(s));
      var r := s.remote.(sent := s.remote.sent + [call]);
      if outcome.Refused? then Some(PutWorker(s.(remote := r), a, Erring))
      else if known == {} && id in s.remote.copies then None
      else
        var got := if known == {} then id else Min(known);
        var stored := s.(remote := r.(copies := r.copies[got := c]));
        Some(PutWorker(stored, a, if outcome.Answered? then Uploaded(got, known != {}) else Erring))
  }

  function SaveStep(s: State, a: nat): Option<State> {
    if !AtWorker(s.exec, a) || !s.exec.phase.workers[a].Uploaded? || !HasRow(s, a) then None
    else
      var w := s.exec.phase.workers[a];
      Some(PutWorker(WriteRow(s, a, RowOf(s, a).(remote := Some(w.id), duplicate := w.duplicate)), a, Saved(w.id, w.duplicate)))
  }

  /** AddToAlbum runs for a saved id, or at once for a row that already had one. */
  function AddStep(s: State, a: nat, outcome: Outcome): Option<State> {
    if !AtWorker(s.exec, a) then None
    else
      var w := s.exec.phase.workers[a];
      if !(w.Saved? || (w.Marked? && w.remote.Some?)) then None
      else
        var id := if w.Saved? then w.id else w.remote.value;
        var t := if outcome.Refused? then s else s.(remote := s.remote.(added := s.remote.added + {(s.exec.phase.target, id)}));
        Some(PutWorker(t, a, if outcome.Answered? then Added(id, w.duplicate) else Erring))
  }

  function AccountStep(s: State, a: nat): Option<State> {
    if !AtWorker(s.exec, a) || !s.exec.phase.workers[a].Added? || !HasRow(s, a) then None
    else
      var w := s.exec.phase.workers[a];
      Some(DropWorker(WriteRow(s, a, RowOf(s, a).(status := if w.duplicate then Duplicate else Imported)), a))
  }

  /** The deferred error path of importAsset: 'pending' under cancellation, else 'failed'. */
  function FaultStep(s: State, a: nat): Option<State> {
    if !AtWorker(s.exec, a) || !s.exec.phase.workers[a].Erring? || !HasRow(s, a) then None
    else
      var written := WriteRow(s, a, RowOf(s, a).(status := if s.exec.cancelled then Pending else Failed));
      var p := s.exec.phase;
      Some(Phased(written, Work(p.todo, p.workers - {a}, true, p.target)))
  }

  function Next(s: State, t: Step): Option<State> {
    match t
    case NewEvent(name) => Some(NewEventStep(s, name))
    case MediaReady(a, e, c, created) => MediaStep(s, a, e, c, created)
    case Enqueue(r) => EnqueueStep(s, r)
    case CreateEvent(name, r, auto) => CreateEventStep(s, name, r, auto)
    case SetAuto(e, g, on) => SetAutoStep(s, e, g, on)
    case CancelJob(e, g) => Some(CancelStep(s, e, g))
    case Reconcile(b) => ReconcileStep(s, b)
    case BeginDelete(e) => BeginDeleteStep(s, e)
    case Unready(a) => UnreadyStep(s, a)
    case RemoveAsset(a) => RemoveAssetStep(s, a)
    case RemoveEvent(e) => RemoveEventStep(s, e)
    case Crash => Some(CrashStep(s))
    case Recover => RecoverStep(s)
    case Stop => Some(StopStep(s))
    case Observe => ObserveStep(s)
    case Claim => ClaimStep(s)
    case FailEarly => FailEarlyStep(s)
    case TakeSnapshot => SnapshotStep(s)
    case AlbumKnown(ok) => AlbumKnownStep(s, ok)
    case MarkCreating => MarkCreatingStep(s)
    case SendCreate(o, id) => SendCreateStep(s, o, id)
    case FindAlbum(ok) => FindAlbumStep(s, ok)
    case SaveAlbum => SaveAlbumStep(s)
    case StopFeeding => StopFeedingStep(s)
    case Take(a) => TakeStep(s, a)
    case Drop(a) => DropStep(s, a)
    case Load(a) => LoadStep(s, a)
    case Mark(a) => MarkStep(s, a)
    case Upload(a, o, id) => UploadStep(s, a, o, id)
    case Save(a) => SaveStep(s, a)
    case Add(a, o) => AddStep(s, a, o)
    case Account(a) => AccountStep(s, a)
    case Fault(a) => FaultStep(s, a)
    case EndWork => EndWorkStep(s)
    case Finish => FinishStep(s)
  }

  const START := State(Db(map[], map[], map[], map[]), Remote(map[], map[], {}, map[], []), false, false, Idle, {}, {})

  /** `Run(s, ts)` is the state after the steps `ts`, or None when one of them is not enabled. */
  function Run(s: State, ts: seq<Step>): Option<State>
    decreases |ts|
  {
    if ts == [] then Some(s)
    else match Next(s, ts[0])
         case None => None
         case Some(n) => Run(n, ts[1..])
  }
}
