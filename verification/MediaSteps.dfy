/** Every interleaving of the media service: uploads to the local directory, direct uploads to S3, completion, cleanup,
    event deletion, guests replaying any issued PUT, failed or unanswered storage requests, and crashes. One step is one
    SQL transaction, one file operation or one S3 request. A step that is not enabled yields None. */
module MediaSteps {
  import opened Wrappers
  import opened Ordered
  import opened MediaModel

  /** `content` stands for the bytes and their ETag; `media` is what classification makes of them. */
  datatype Object = Object(size: nat, content: nat, media: Option<Media>)

  /** How far removeAttempt is. */
  datatype Removal =
    | Checked                     // the row was read as pending
    | PartGone | FinalGone        // local: the .part, then the final file are absent
    | Retired | ObjectGone        // S3: the key is retired, then the object is deleted

  /** A request working on one asset. It shares the event's lock, and no other request works on that asset. */
  datatype Op =
    // Upload
    | Reserved(event: nat, link: nat)
    | Writing(event: nat, link: nat)                 // the .part exists
    | Sealed(event: nat, link: nat, size: nat)       // the .part is synced with its final size
    | Published(event: nat, link: nat, size: nat)    // renamed to the final name
    | Failed(event: nat)                             // Upload returns an error; removeAttempt starts
    | Undoing(event: nat, at: Removal)
    // Complete
    | Loaded(event: nat, link: nat, row: Asset)
    | Headed(event: nat, link: nat, row: Asset, stored: Object)
    | Verified(event: nat, link: nat, row: Asset, stored: Object)
    | Rejected(event: nat, row: Asset)

  /** The holder of an event's exclusive lock: event deletion, or cleanup of one stale row. */
  datatype Holder = Holder(deleting: bool, job: Option<(nat, Removal)>)

  /** `issued` holds the ids whose PUT URL was ever handed out; `drawn` every random id ever drawn. */
  datatype State = State(db: Db, parts: map<nat, nat>, finals: map<nat, nat>, objects: map<nat, Object>, issued: set<nat>,
                         drawn: set<nat>, ops: map<nat, Op>, locks: map<nat, Holder>)

  /** No holder excludes requests on event `e`. */
  predicate Shared(s: State, e: nat) { e !in s.locks }

  /** No request is working on event `e`. */
  predicate Quiet(s: State, e: nat) { forall i :: i in s.ops ==> s.ops[i].event != e }

  function WithOp(s: State, i: nat, o: Op): State { s.(ops := s.ops[i := o]) }

  function NoOp(s: State, i: nat): State { s.(ops := s.ops - {i}) }

  function WithHolder(s: State, e: nat, h: Holder): State { s.(locks := s.locks[e := h]) }

  // ---------------------------------------------------------------- events and sessions

  function AddEventStep(s: State, x: Event): Option<State> {
    if x.deleting then None else Some(s.(db := s.db.(events := s.db.events[NextId(s.db.events.Keys) := x])))
  }

  /** An edit keeps the link, and is refused while the event is being deleted. */
  function EditEventStep(s: State, e: nat, x: Event): Option<State> {
    if e !in s.db.events || s.db.events[e].deleting || x.deleting || x.link != s.db.events[e].link then None
    else Some(s.(db := s.db.(events := s.db.events[e := x])))
  }

  function OpenSessionStep(s: State, i: nat, x: Session, link: nat, now: nat): Option<State> {
    if i in s.drawn || !Shared(s, x.event) || !IsOpen(s.db, x.event, link, now) then None
    else Some(s.(db := s.db.(sessions := s.db.sessions[i := x]), drawn := s.drawn + {i}))
  }

  function ReclaimStep(s: State, i: nat, now: nat): Option<State> {
    if !Reclaimable(s.db, i, now) then None else Some(s.(db := s.db.(sessions := s.db.sessions - {i})))
  }

  // ---------------------------------------------------------------- Upload

  function ReserveStep(s: State, u: UploadRequest, i: nat, now: nat): Option<State> {
    if i in s.drawn || !Shared(s, u.event) then None
    else match UploadTx(s.db, u, i, now)
         case Err(_) => None
         case Ok(d) => Some(WithOp(s.(db := d, drawn := s.drawn + {i}), i, Reserved(u.event, u.link)))
  }

  function OpenPartStep(s: State, i: nat): Option<State> {
    if i !in s.ops || !s.ops[i].Reserved? || i in s.parts then None
    else Some(WithOp(s.(parts := s.parts[i := 0]), i, Writing(s.ops[i].event, s.ops[i].link)))
  }

  /** Bytes reach the .part file, at most one more than expected. */
  function WriteStep(s: State, i: nat, size: nat): Option<State> {
    if i !in s.ops || !s.ops[i].Writing? || i !in s.parts || i !in s.db.assets || size < s.parts[i] || size > s.db.assets[i].expected + 1 then None
    else Some(s.(parts := s.parts[i := size]))
  }

  /** The stream ended within its limit and is not empty. */
  function SealStep(s: State, i: nat): Option<State> {
    if i !in s.ops || !s.ops[i].Writing? || i !in s.parts || i !in s.db.assets || s.parts[i] == 0 || s.parts[i] > s.db.assets[i].expected then None
    else Some(WithOp(s, i, Sealed(s.ops[i].event, s.ops[i].link, s.parts[i])))
  }

  /** The rename, once the final name was found absent. */
  function PublishStep(s: State, i: nat): Option<State> {
    if i !in s.ops || !s.ops[i].Sealed? || i !in s.parts || i in s.finals then None
    else Some(WithOp(s.(finals := s.finals[i := s.parts[i]], parts := s.parts - {i}), i, Published(s.ops[i].event, s.ops[i].link, s.ops[i].size)))
  }

  /** The completing transaction; the outcome of a commit that reports an error is unknown. */
  function FinishStep(s: State, i: nat, now: nat, outcome: Outcome): Option<State> {
    if i !in s.ops || !s.ops[i].Published? then None
    else
      var o := s.ops[i];
      match FinishTx(s.db, o.event, o.link, i, o.size, now)
      case Err(_) => None
      case Ok(d) =>
        match outcome
        case Answered => Some(NoOp(s.(db := d), i))
        case ReplyLost => Some(WithOp(s.(db := d), i, Failed(o.event)))
        case Refused => Some(WithOp(s, i, Failed(o.event)))
  }

  predicate Uploading(o: Op) { o.Reserved? || o.Writing? || o.Sealed? || o.Published? }

  /** Any error of Upload after its reservation: a failed file operation, a rejected size or content, a closed event. */
  function FailStep(s: State, i: nat): Option<State> {
    if i !in s.ops || !Uploading(s.ops[i]) then None else Some(WithOp(s, i, Failed(s.ops[i].event)))
  }

  /** removeAttempt refuses a row that is not pending. */
  function UndoStep(s: State, i: nat): Option<State> {
    if i !in s.ops || !s.ops[i].Failed? then None
    else if i !in s.db.assets || !s.db.assets[i].status.Pending? then Some(NoOp(s, i))
    else Some(WithOp(s, i, Undoing(s.ops[i].event, Checked)))
  }

  function UndoPartStep(s: State, i: nat): Option<State> {
    if i !in s.ops || !s.ops[i].Undoing? || !s.ops[i].at.Checked? then None
    else Some(WithOp(s.(parts := s.parts - {i}), i, Undoing(s.ops[i].event, PartGone)))
  }

  function UndoFinalStep(s: State, i: nat): Option<State> {
    if i !in s.ops || !s.ops[i].Undoing? || !s.ops[i].at.PartGone? then None
    else Some(WithOp(s.(finals := s.finals - {i}), i, Undoing(s.ops[i].event, FinalGone)))
  }

  function UndoRowStep(s: State, i: nat): Option<State> {
    if i !in s.ops || !s.ops[i].Undoing? || !s.ops[i].at.FinalGone? then None else Some(NoOp(s.(db := RemoveTx(s.db, i)), i))
  }

  /** A request ends: an error while undoing leaves the pending row for cleanup; a completion may fail at any point. */
  function QuitStep(s: State, i: nat): Option<State> {
    if i !in s.ops || !(s.ops[i].Undoing? || s.ops[i].Loaded? || s.ops[i].Headed? || s.ops[i].Verified?) then None else Some(NoOp(s, i))
  }

  // ---------------------------------------------------------------- Prepare, Authorize, Complete and the guest's PUT

  function PrepareStep(s: State, p: Preparation, i: nat, now: nat): Option<State> {
    if i in s.drawn || !Shared(s, p.event) then None
    else match PrepareTx(s.db, p, i, now)
         case Err(_) => None
         case Ok(r) => Some(s.(db := r.1, drawn := s.drawn + {i}))
  }

  /** loadDirect: the S3 asset of this event and session. */
  predicate Loads(s: State, e: nat, link: nat, session: nat, i: nat) {
    && e in s.db.events && s.db.events[e].link == link && i in s.db.assets
    && s.db.assets[i].event == e && s.db.assets[i].session == session && s.db.assets[i].backend.S3?
  }

  /** The expiry is saved before the URL is handed out. */
  function AuthorizeStep(s: State, e: nat, link: nat, session: nat, i: nat, until: nat, now: nat): Option<State> {
    if !Shared(s, e) || i in s.ops || !Loads(s, e, link, session, i) || !s.db.assets[i].status.Pending? then None
    else match AuthorizeTx(s.db, e, link, session, i, until, now)
         case Err(_) => None
         case Ok(d) => Some(s.(db := d, issued := s.issued + {i}))
  }

  /** A PUT with If-None-Match: * creates the object or is refused. */
  function PutStep(s: State, i: nat, o: Object): Option<State> {
    if i !in s.issued || i in s.objects then None else Some(s.(objects := s.objects[i := o]))
  }

  function LoadStep(s: State, e: nat, link: nat, session: nat, i: nat): Option<State> {
    if !Shared(s, e) || i in s.ops || !Loads(s, e, link, session, i) || s.db.events[e].deleting || s.db.assets[i].status.Ready? then None
    else Some(WithOp(s, i, Loaded(e, link, s.db.assets[i])))
  }

  function HeadStep(s: State, i: nat): Option<State> {
    if i !in s.ops || !s.ops[i].Loaded? || i !in s.objects then None
    else Some(WithOp(s, i, Headed(s.ops[i].event, s.ops[i].link, s.ops[i].row, s.objects[i])))
  }

  /** The size is compared, then the prefix of the same object (If-Match) is read and classified. */
  function JudgeStep(s: State, i: nat): Option<State> {
    if i !in s.ops || !s.ops[i].Headed? then None
    else
      var o := s.ops[i];
      if o.stored.size != o.row.expected || o.stored.size == 0 then Some(WithOp(s, i, Rejected(o.event, o.row)))
      else if i !in s.objects || s.objects[i].content != o.stored.content then Some(NoOp(s, i))
      else if o.stored.media.None? || (o.row.media.Some? && o.row.media != o.stored.media) then Some(WithOp(s, i, Rejected(o.event, o.row)))
      else Some(WithOp(s, i, Verified(o.event, o.link, o.row, o.stored)))
  }

  /** A rejected object is deleted; its pending row stays. */
  function RejectStep(s: State, i: nat, outcome: Outcome): Option<State> {
    if i !in s.ops || !s.ops[i].Rejected? then None
    else Some(NoOp(if outcome.Refused? then s else s.(objects := s.objects - {i}), i))
  }

  function CompleteStep(s: State, i: nat, ceiling: nat): Option<State> {
    if i !in s.ops || !s.ops[i].Verified? || s.ops[i].stored.media.None? then None
    else
      var o := s.ops[i];
      match CompleteTx(s.db, o.row, o.link, i, o.stored.size, o.stored.media.value, ceiling)
      case Err(_) => Some(NoOp(s, i))
      case Ok(d) => Some(NoOp(s.(db := d), i))
  }

  // ---------------------------------------------------------------- Cleanup and DeleteEvent

  /** TryLock, for an event on which no request is working. */
  function LockStep(s: State, e: nat, deleting: bool): Option<State> {
    if !Shared(s, e) || !Quiet(s, e) || (deleting && e !in s.db.events) then None
    else Some(WithHolder(if deleting then s.(db := BeginDeleteTx(s.db, e)) else s, e, Holder(deleting, None)))
  }

  /** DeleteEvent takes a row out of the ready state. */
  function UnreadyStep(s: State, e: nat, i: nat): Option<State> {
    if e !in s.locks || !s.locks[e].deleting || s.locks[e].job.Some? || i !in s.db.assets || s.db.assets[i].event != e then None
    else Some(s.(db := UnreadyTx(s.db, i)))
  }

  /** removeAttempt starts on a pending row; cleanup only takes stale ones. */
  function ChooseStep(s: State, e: nat, i: nat, now: nat): Option<State> {
    if e !in s.locks || s.locks[e].job.Some? || i !in s.db.assets || s.db.assets[i].event != e || !s.db.assets[i].status.Pending?
       || (!s.locks[e].deleting && !Stale(s.db.assets[i], now)) then None
    else Some(WithHolder(s, e, Holder(s.locks[e].deleting, Some((i, Checked)))))
  }

  predicate Removing(s: State, e: nat, at: Removal) { e in s.locks && s.locks[e].job.Some? && s.locks[e].job.value.1 == at }

  function Target(s: State, e: nat): nat
    requires e in s.locks && s.locks[e].job.Some?
  {
    s.locks[e].job.value.0
  }

  function Advance(s: State, e: nat, at: Removal): State
    requires e in s.locks && s.locks[e].job.Some?
  {
    WithHolder(s, e, Holder(s.locks[e].deleting, Some((Target(s, e), at))))
  }

  predicate OnBackend(s: State, e: nat, b: Backend) {
    e in s.locks && s.locks[e].job.Some? && Target(s, e) in s.db.assets && s.db.assets[Target(s, e)].backend == b
  }

  function RemovePartStep(s: State, e: nat): Option<State> {
    if !Removing(s, e, Checked) || !OnBackend(s, e, Local) then None
    else Some(Advance(s.(parts := s.parts - {Target(s, e)}), e, PartGone))
  }

  function RemoveFinalStep(s: State, e: nat): Option<State> {
    if !Removing(s, e, PartGone) then None else Some(Advance(s.(finals := s.finals - {Target(s, e)}), e, FinalGone))
  }

  function RetireStep(s: State, e: nat): Option<State> {
    if !Removing(s, e, Checked) || !OnBackend(s, e, S3) then None else Some(Advance(s.(db := RetireTx(s.db, Target(s, e))), e, Retired))
  }

  /** A DELETE that was not answered ends the attempt. */
  function DeleteObjectStep(s: State, e: nat, outcome: Outcome): Option<State> {
    if !Removing(s, e, Retired) then None
    else
      var t := if outcome.Refused? then s else s.(objects := s.objects - {Target(s, e)});
      Some(if outcome.Answered? then Advance(t, e, ObjectGone) else WithHolder(t, e, Holder(s.locks[e].deleting, None)))
  }

  function RemoveRowStep(s: State, e: nat): Option<State> {
    if !Removing(s, e, FinalGone) && !Removing(s, e, ObjectGone) then None
    else Some(WithHolder(s.(db := RemoveTx(s.db, Target(s, e))), e, Holder(s.locks[e].deleting, None)))
  }

  /** removeAttempt returns an error. */
  function AbandonStep(s: State, e: nat): Option<State> {
    if e !in s.locks then None else Some(WithHolder(s, e, Holder(s.locks[e].deleting, None)))
  }

  /** The lock is released, whether or not the removal succeeded. */
  function UnlockStep(s: State, e: nat): Option<State> { if e !in s.locks then None else Some(s.(locks := s.locks - {e})) }

  /** Once no asset is left, the event row is deleted. */
  function DeleteEventStep(s: State, e: nat): Option<State> {
    if e !in s.locks || !s.locks[e].deleting || s.locks[e].job.Some? || (exists i :: i in s.db.assets && s.db.assets[i].event == e) then None
    else Some(s.(db := DeleteEventTx(s.db, e), locks := s.locks - {e}))
  }

  /** cleanupRetired, which holds no lock. */
  function RetiredDeleteStep(s: State, i: nat, outcome: Outcome): Option<State> {
    if i !in s.db.retired then None else Some(if outcome.Refused? then s else s.(objects := s.objects - {i}))
  }

  /** The process is gone; tables, files, objects and issued URLs stay. */
  function CrashStep(s: State): State { s.(ops := map[], locks := map[]) }

  // ---------------------------------------------------------------- runs

  datatype Step =
    | AddEvent(event: Event) | EditEvent(e: nat, event: Event) | OpenSession(i: nat, session: Session, link: nat, now: nat) | Reclaim(i: nat, now: nat)
    | Reserve(upload: UploadRequest, i: nat, now: nat) | OpenPart(i: nat) | Write(i: nat, size: nat) | Seal(i: nat) | Publish(i: nat)
    | Finish(i: nat, now: nat, outcome: Outcome) | Fail(i: nat) | Undo(i: nat) | UndoPart(i: nat) | UndoFinal(i: nat) | UndoRow(i: nat) | Quit(i: nat)
    | Prepare(preparation: Preparation, i: nat, now: nat) | Authorize(e: nat, link: nat, s: nat, i: nat, until: nat, now: nat) | Put(i: nat, stored: Object)
    | Load(e: nat, link: nat, s: nat, i: nat) | Head(i: nat) | Judge(i: nat) | Reject(i: nat, outcome: Outcome) | Complete(i: nat, ceiling: nat)
    | Lock(e: nat, deleting: bool) | Unready(e: nat, i: nat) | Choose(e: nat, i: nat, now: nat) | RemovePart(e: nat) | RemoveFinal(e: nat)
    | Retire(e: nat) | DeleteObject(e: nat, outcome: Outcome) | RemoveRow(e: nat) | Abandon(e: nat) | Unlock(e: nat) | DeleteEvent(e: nat)
    | RetiredDelete(i: nat, outcome: Outcome) | Crash

  function Next(s: State, t: Step): Option<State> {
    match t
    case AddEvent(x) => AddEventStep(s, x)
    case EditEvent(e, x) => EditEventStep(s, e, x)
    case OpenSession(i, x, link, now) => OpenSessionStep(s, i, x, link, now)
    case Reclaim(i, now) => ReclaimStep(s, i, now)
    case Reserve(u, i, now) => ReserveStep(s, u, i, now)
    case OpenPart(i) => OpenPartStep(s, i)
    case Write(i, size) => WriteStep(s, i, size)
    case Seal(i) => SealStep(s, i)
    case Publish(i) => PublishStep(s, i)
    case Finish(i, now, o) => FinishStep(s, i, now, o)
    case Fail(i) => FailStep(s, i)
    case Undo(i) => UndoStep(s, i)
    case UndoPart(i) => UndoPartStep(s, i)
    case UndoFinal(i) => UndoFinalStep(s, i)
    case UndoRow(i) => UndoRowStep(s, i)
    case Quit(i) => QuitStep(s, i)
    case Prepare(p, i, now) => PrepareStep(s, p, i, now)
    case Authorize(e, link, u, i, until, now) => AuthorizeStep(s, e, link, u, i, until, now)
    case Put(i, o) => PutStep(s, i, o)
    case Load(e, link, u, i) => LoadStep(s, e, link, u, i)
    case Head(i) => HeadStep(s, i)
    case Judge(i) => JudgeStep(s, i)
    case Reject(i, o) => RejectStep(s, i, o)
    case Complete(i, ceiling) => CompleteStep(s, i, ceiling)
    case Lock(e, deleting) => LockStep(s, e, deleting)
    case Unready(e, i) => UnreadyStep(s, e, i)
    case Choose(e, i, now) => ChooseStep(s, e, i, now)
    case RemovePart(e) => RemovePartStep(s, e)
    case RemoveFinal(e) => RemoveFinalStep(s, e)
    case Retire(e) => RetireStep(s, e)
    case DeleteObject(e, o) => DeleteObjectStep(s, e, o)
    case RemoveRow(e) => RemoveRowStep(s, e)
    case Abandon(e) => AbandonStep(s, e)
    case Unlock(e) => UnlockStep(s, e)
    case DeleteEvent(e) => DeleteEventStep(s, e)
    case RetiredDelete(i, o) => RetiredDeleteStep(s, i, o)
    case Crash => Some(CrashStep(s))
  }

  /** `Run(s, ts)` is the state after the steps `ts`, or None when one of them is not enabled. */
  function Run(s: State, ts: seq<Step>): Option<State>
    decreases |ts|
  {
    if ts == [] then Some(s)
    else match Next(s, ts[0])
         case None => None
         case Some(n) => Run(n, ts[1..])
  }

  const START := State(Db(map[], map[], map[], {}), map[], map[], map[], {}, {}, map[], map[])
}
