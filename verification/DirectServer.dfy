/** The handlers of a direct upload, each executing the machine's own steps one at a time. Between any two of them other
    requests, cleanup, deletion, replayed PUTs and crashes go on, storage may fail, and the reply may be lost. */
module DirectServer {
  import opened Wrappers
  import opened Ordered
  import opened MediaModel
  import opened MediaSteps
  import opened MediaInvariant
  import opened MediaHistory
  import opened MediaTheorems
  import opened MediaRuns
  import opened MediaAnswers
  import opened DirectWatch

  datatype Code = NotFound | AssetNotFound | SessionNotFound | AssetReady | EventClosed | SessionExpired | SessionQuota | EventCount | EventStorage
                | ClassCount(media: Media) | ClassStorage(media: Media) | ClassFile(media: Media) | FileTooLarge | Metadata
                | ObjectMissing | ObjectChanged | SizeMismatch | Unsupported | EmptyFile | Unavailable
  datatype Failure = Canceled | GaveUp | Network | Server(code: Code, status: nat)

  /** The errors after which the page may send the file again. */
  predicate CanUpload(e: Failure) {
    e.Server? && (e.code.ObjectMissing? || e.code.SizeMismatch? || e.code.Unsupported? || e.code.EmptyFile? || e.code.ObjectChanged?)
  }

  /** Chance, at one moment: what others do, whether the connection is lost, whether storage fails or how a request to it ends,
      the clock, and whether the guest has canceled. */
  datatype Chance = Chance(others: seq<Step>, lost: bool, fails: bool, outcome: Outcome, now: nat, until: nat, stored: Object, canceled: bool)

  const NO_CHANCE := Chance([], true, true, Outcome.Refused, 0, 0, Object(0, 0, None), true)

  /** The status of each error response. */
  function Refuse(code: Code): Failure {
    Server(code,
           match code
           case NotFound | AssetNotFound | SessionNotFound => 404
           case SizeMismatch => 400
           case ClassFile(_) | FileTooLarge => 413
           case Unsupported => 415
           case Metadata | EmptyFile => 422
           case Unavailable => 503
           case _ => 409)
  }

  /** The answer to an error of a transaction. */
  function Refusal(x: Error): Failure {
    Refuse(match x
         case ErrClosed => EventClosed
         case ErrSession => SessionNotFound
         case ErrExpired => SessionExpired
         case ErrSessionQuota => SessionQuota
         case ErrEventCount => EventCount
         case ErrEventBytes => EventStorage
         case ErrClassCount(k) => ClassCount(k)
         case ErrClassBytes(k) => ClassStorage(k)
         case ErrFile(k) => ClassFile(k)
         case ErrRequest => Metadata
         case ErrAsset => AssetNotFound
         case ErrReady => AssetReady)
  }

  // ---------------------------------------------------------------- what others do meanwhile

  predicate Completing(o: Op) { o.Loaded? || o.Headed? || o.Verified? || o.Rejected? }

  /** The next steps of the request that works on `i`. */
  predicate OwnStep(t: Step, i: nat) { OwnUpload(t, i) || OwnEnding(t, i) || OwnCompletion(t, i) }

  predicate OwnUpload(t: Step, i: nat) {
    || (t.OpenPart? && t.i == i) || (t.Write? && t.i == i) || (t.Seal? && t.i == i) || (t.Publish? && t.i == i) || (t.Finish? && t.i == i)
    || (t.Fail? && t.i == i)
  }

  predicate OwnEnding(t: Step, i: nat) {
    || (t.Undo? && t.i == i) || (t.UndoPart? && t.i == i) || (t.UndoFinal? && t.i == i) || (t.UndoRow? && t.i == i) || (t.Quit? && t.i == i)
  }

  predicate OwnCompletion(t: Step, i: nat) {
    (t.Head? && t.i == i) || (t.Judge? && t.i == i) || (t.Reject? && t.i == i) || (t.Complete? && t.i == i)
  }

  /** The state after what can happen of `ts`, and whether the process lives; a request that holds an operation takes its steps
      itself. */
  function Meanwhile(s: State, held: Option<nat>, ts: seq<Step>): (State, bool)
    decreases |ts|
  {
    if ts == [] then (s, true)
    else if (held.Some? && OwnStep(ts[0], held.value)) || Next(s, ts[0]).None? then Meanwhile(s, held, ts[1..])
    else if ts[0].Crash? then (Meanwhile(CrashStep(s), None, ts[1..]).0, false)
    else Meanwhile(Next(s, ts[0]).value, held, ts[1..])
  }

  /** A run from empty tables leads to `s`. */
  ghost predicate Reachable(s: State) { Leads(START, s) }

  /** `n` is reached from the reachable state `b`. */
  ghost predicate Tracked(b: State, n: State) { Reachable(b) && Reachable(n) && Leads(b, n) }

  lemma ReachableInv(s: State)
    requires Reachable(s)
    ensures Inv(s)
  {
    var ts :| Run(START, ts) == Some(s);
    ReachedInv(ts, s);
  }

  /** And keeps what runs keep. */
  lemma TrackedKeeps(b: State, n: State)
    requires Tracked(b, n)
    ensures Keeps(b, n)
  {
    ReachableInv(b);
    var ts :| Run(b, ts) == Some(n);
    RunKeeps(b, ts);
  }

  lemma TrackedSelf(s: State)
    requires Reachable(s)
    ensures Tracked(s, s)
  {
    LeadsSelf(s);
  }

  lemma TrackedOn(b: State, n: State, m: State)
    requires Tracked(b, n) && Tracked(n, m)
    ensures Tracked(b, m)
  {
    LeadsOn(b, n, m);
  }

  lemma Led(s: State, n: State)
    requires Reachable(s) && Leads(s, n)
    ensures Tracked(s, n)
  {
    LeadsOn(START, s, n);
  }

  lemma TrackedStep(s: State, t: Step)
    requires Reachable(s) && Next(s, t).Some?
    ensures Tracked(s, Next(s, t).value)
  {
    LeadsOne(s, t);
    Led(s, Next(s, t).value);
  }

  lemma TrackedLoad(s: State, e: nat, link: nat, session: nat, i: nat)
    requires Reachable(s) && LoadStep(s, e, link, session, i).Some?
    ensures Tracked(s, LoadStep(s, e, link, session, i).value)
  {
    LoadLeads(s, e, link, session, i);
    Led(s, LoadStep(s, e, link, session, i).value);
  }

  lemma TrackedHead(s: State, i: nat)
    requires Reachable(s) && HeadStep(s, i).Some?
    ensures Tracked(s, HeadStep(s, i).value)
  {
    HeadLeads(s, i);
    Led(s, HeadStep(s, i).value);
  }

  lemma TrackedJudge(s: State, i: nat)
    requires Reachable(s) && JudgeStep(s, i).Some?
    ensures Tracked(s, JudgeStep(s, i).value)
  {
    JudgeLeads(s, i);
    Led(s, JudgeStep(s, i).value);
  }

  lemma TrackedQuit(s: State, i: nat)
    requires Reachable(s) && QuitStep(s, i).Some?
    ensures Tracked(s, QuitStep(s, i).value)
  {
    QuitLeads(s, i);
    Led(s, QuitStep(s, i).value);
  }

  lemma TrackedReject(s: State, i: nat, outcome: Outcome)
    requires Reachable(s) && RejectStep(s, i, outcome).Some?
    ensures Tracked(s, RejectStep(s, i, outcome).value)
  {
    RejectLeads(s, i, outcome);
    Led(s, RejectStep(s, i, outcome).value);
  }

  lemma TrackedComplete(s: State, i: nat, ceiling: nat)
    requires Reachable(s) && CompleteStep(s, i, ceiling).Some?
    ensures Tracked(s, CompleteStep(s, i, ceiling).value)
  {
    CompleteLeads(s, i, ceiling);
    Led(s, CompleteStep(s, i, ceiling).value);
  }

  lemma TrackedAuthorize(s: State, e: nat, link: nat, session: nat, i: nat, until: nat, now: nat)
    requires Reachable(s) && AuthorizeStep(s, e, link, session, i, until, now).Some?
    ensures Tracked(s, AuthorizeStep(s, e, link, session, i, until, now).value)
  {
    AuthorizeLeads(s, e, link, session, i, until, now);
    Led(s, AuthorizeStep(s, e, link, session, i, until, now).value);
  }

  lemma TrackedPrepare(s: State, p: Preparation, i: nat, now: nat)
    requires Reachable(s) && PrepareStep(s, p, i, now).Some?
    ensures Tracked(s, PrepareStep(s, p, i, now).value)
  {
    PrepareLeads(s, p, i, now);
    Led(s, PrepareStep(s, p, i, now).value);
  }

  lemma TrackedPut(s: State, i: nat, o: Object)
    requires Reachable(s) && PutStep(s, i, o).Some?
    ensures Tracked(s, PutStep(s, i, o).value)
  {
    PutLeads(s, i, o);
    Led(s, PutStep(s, i, o).value);
  }

  ghost predicate OpStays(s: State, n: State, i: nat) { i in s.ops ==> i in n.ops && n.ops[i] == s.ops[i] && PartStays(s, n, i) }

  ghost predicate PartStays(s: State, n: State, i: nat) { (i in n.parts <==> i in s.parts) && (i in s.parts ==> n.parts[i] == s.parts[i]) }

  lemma PublicStays(s: State, t: Step, i: nat)
    requires IsPublic(t) && !t.Crash? && Next(s, t).Some?
    ensures OpStays(s, Next(s, t).value, i)
  {}

  lemma ExclusiveStays(s: State, t: Step, i: nat)
    requires IsExclusive(t) && !t.RemovePart? && Next(s, t).Some?
    ensures OpStays(s, Next(s, t).value, i)
  {}

  /** The row a holder removes is of an event on which no request works. */
  lemma RemovalStays(s: State, e: nat, i: nat)
    requires Reachable(s) && RemovePartStep(s, e).Some?
    ensures OpStays(s, RemovePartStep(s, e).value, i)
  {
    ReachableInv(s);
    assert HolderOk(s, e, s.locks[e]);
    if i in s.ops { assert OpOk(s, i, s.ops[i]); }
  }

  lemma RemovePartNext(s: State, t: Step)
    requires t.RemovePart?
    ensures Next(s, t) == RemovePartStep(s, t.e)
  {}

  lemma DeletionStays(s: State, t: Step, i: nat)
    requires IsDeletion(t) && Next(s, t).Some?
    ensures OpStays(s, Next(s, t).value, i)
  {}

  lemma UploadStays(s: State, t: Step, i: nat)
    requires (i in s.ops ==> i in s.drawn) && IsUpload(t) && !OwnUpload(t, i) && Next(s, t).Some?
    ensures OpStays(s, Next(s, t).value, i)
  {}

  lemma EndingStays(s: State, t: Step, i: nat)
    requires IsEnding(t) && !OwnEnding(t, i) && Next(s, t).Some?
    ensures OpStays(s, Next(s, t).value, i)
  {}

  lemma CompletionStays(s: State, t: Step, i: nat)
    requires IsCompletion(t) && !OwnCompletion(t, i) && Next(s, t).Some?
    ensures OpStays(s, Next(s, t).value, i)
  {
    if t.Complete? { CompleteStays(s, t, i); }
  }

  lemma CompleteStays(s: State, t: Step, i: nat)
    requires t.Complete? && !OwnCompletion(t, i) && Next(s, t).Some?
    ensures OpStays(s, Next(s, t).value, i)
  {}

  lemma OpsDrawn(s: State, i: nat)
    requires Reachable(s)
    ensures i in s.ops ==> i in s.drawn
  {
    ReachableInv(s);
    OpDrawn(s, i);
  }

  /** No other request touches the one in progress on `i`, short of a crash. */
  lemma OthersStay(s: State, t: Step, i: nat)
    requires Reachable(s) && !OwnStep(t, i) && !t.Crash? && Next(s, t).Some?
    ensures OpStays(s, Next(s, t).value, i)
  {
    if IsPublic(t) { PublicStays(s, t, i); }
    else if t.RemovePart? { RemovePartNext(s, t); RemovalStays(s, t.e, i); }
    else if IsExclusive(t) { ExclusiveStays(s, t, i); }
    else if IsDeletion(t) { DeletionStays(s, t, i); }
    else if IsUpload(t) { OpsDrawn(s, i); UploadStays(s, t, i); }
    else if IsEnding(t) { EndingStays(s, t, i); }
    else { CompletionStays(s, t, i); }
  }

  ghost predicate HeldStays(s: State, n: State, held: Option<nat>) { held.Some? ==> OpStays(s, n, held.value) }

  lemma {:induction false} MeanwhileTracked(s: State, held: Option<nat>, ts: seq<Step>)
    requires Reachable(s)
    ensures Tracked(s, Meanwhile(s, held, ts).0)
    ensures Meanwhile(s, held, ts).1 ==> HeldStays(s, Meanwhile(s, held, ts).0, held)
    decreases |ts|
  {
    if ts == [] {
      TrackedSelf(s);
    } else if (held.Some? && OwnStep(ts[0], held.value)) || Next(s, ts[0]).None? {
      MeanwhileTracked(s, held, ts[1..]);
    } else if ts[0].Crash? {
      CrashTracked(s);
      MeanwhileTracked(CrashStep(s), None, ts[1..]);
      TrackedOn(s, CrashStep(s), Meanwhile(CrashStep(s), None, ts[1..]).0);
    } else {
      var n := Next(s, ts[0]).value;
      TrackedStep(s, ts[0]);
      MeanwhileTracked(n, held, ts[1..]);
      TrackedOn(s, n, Meanwhile(n, held, ts[1..]).0);
      if held.Some? { OthersStay(s, ts[0], held.value); }
    }
  }

  lemma CrashTracked(s: State)
    requires Reachable(s)
    ensures Tracked(s, CrashStep(s))
  {
    TrackedStep(s, Crash);
  }

  // ---------------------------------------------------------------- what an answer promises

  /** The row is committed ready, and its object is there unless its key is retired. */
  ghost predicate ReadyAt(s: State, session: nat, i: nat) {
    && i in s.db.assets && s.db.assets[i].session == session && s.db.assets[i].status.Ready?
    && (i in s.db.retired || HasObject(s.objects, i, s.db.assets[i].size))
  }

  ghost predicate PendingAt(s: State, session: nat, i: nat) {
    i in s.db.assets && s.db.assets[i].session == session && s.db.assets[i].status.Pending?
  }

  ghost predicate Between(b: State, n: State, s: State) { Tracked(b, n) && Tracked(n, s) }

  /** The asset is not one of this event and session. */
  ghost predicate UnknownAt(s: State, e: nat, link: nat, session: nat, i: nat) {
    e in s.db.events && s.db.events[e].link == link && !Loads(s, e, link, session, i)
  }

  /** Errors that deny the asset, its session, or a new plan. */
  predicate Dismisses(e: Failure) {
    e.Server? && (e.code.AssetNotFound? || e.code.SessionNotFound? || e.code.SessionExpired? || e.code.SessionQuota?)
  }

  /** A failure that only the connection, the process or the storage explains. */
  predicate IsTrouble(e: Failure) { e.Network? || e == Refuse(Unavailable) }

  /** What a server call can fail with. */
  predicate Spoken(e: Failure) { e.Network? || e.Server? }

  /** A positive answer: at some moment `n` of the request the row was ready. An error that lets the page send the file again:
      at some moment it was pending. */
  ghost predicate Answers(b: State, n: State, s: State, session: nat, i: nat, result: Result<(), Failure>) {
    && Tracked(b, s) && (result.Err? ==> Spoken(result.error))
    && (result.Ok? ==> Between(b, n, s) && ReadyAt(n, session, i))
    && (result.Err? && CanUpload(result.error) ==> Between(b, n, s) && PendingAt(n, session, i))
  }

  /** An error that dismisses the asset: at some moment it was unknown, or for a session that is gone or spent, its row was
      pending. */
  ghost predicate Explains(b: State, n: State, s: State, e: nat, link: nat, session: nat, i: nat, error: Failure) {
    Dismisses(error) ==> Between(b, n, s) && if error.code.AssetNotFound? then UnknownAt(n, e, link, session, i) else PendingAt(n, session, i)
  }

  /** Refusals that only the state of the tables explains. */
  predicate Denies(e: Failure) {
    e.Server? && (e.code.EventClosed? || e.code.ClassCount? || e.code.ClassStorage? || e.code.ClassFile?)
  }

  /** The event had lost its link or was being deleted; or the row had no class, and there was no room for it in one. Whether the event
      was enabled or had expired is no ground. */
  ghost predicate Grounds(n: State, e: nat, link: nat, i: nat, code: Code, ceiling: nat) {
    match code
    case EventClosed => e !in n.db.events || n.db.events[e].link != link || n.db.events[e].deleting
    case ClassFile(k) => Classless(n, e, i) && !FileFits(n.db.events[e], k, n.db.assets[i].expected, ceiling)
    case ClassCount(k) => Classless(n, e, i) && !ClassFits(n.db, e, k, n.db.assets[i].expected)
    case ClassStorage(k) => Classless(n, e, i) && !ClassFits(n.db, e, k, n.db.assets[i].expected)
    case _ => true
  }

  ghost predicate Classless(n: State, e: nat, i: nat) {
    e in n.db.events && i in n.db.assets && n.db.assets[i].event == e && n.db.assets[i].media == None
  }

  /** A completion is denied only on grounds that held at some moment of the request. */
  ghost predicate Founded(b: State, n: State, s: State, e: nat, link: nat, i: nat, error: Failure, ceiling: nat) {
    Denies(error) ==> Between(b, n, s) && Grounds(n, e, link, i, error.code, ceiling)
  }

  /** What a completion of the watched file comes to when nothing disturbs it: success if the row was ready or the object is the file,
      and else an error that lets the page send it again, with the object out of the way. */
  ghost predicate Concluded(was: State, s: State, f: Preparation, i: nat, result: Result<(), Failure>) {
    && Mine(s, f, i) && i in was.db.assets
    && if was.db.assets[i].status.Ready? || Arrived(was, f, i) then result.Ok?
       else result.Err? && CanUpload(result.error) && Cleared(was, s, f, i)
  }

  /** The object is out of the way. */
  ghost predicate Cleared(was: State, s: State, f: Preparation, i: nat) {
    Waiting(s, f, i) && i !in s.objects && (i in was.issued ==> i in s.issued)
  }

  /** The chance is a good one: the connection holds, and storage answers. */
  predicate Sound(c: Chance) { !c.lost && !c.fails && c.outcome.Answered? }

  /** The asset id is, or once was, the row of the session's request, an S3 asset of the event. */
  ghost predicate IsRow(s: State, e: nat, session: nat, request: nat, i: nat) {
    i in s.drawn && (i in s.db.assets ==> i in Requested(s.db.assets, session, request) && s.db.assets[i].event == e && s.db.assets[i].backend.S3?)
  }

  lemma IsRowStays(s: State, n: State, e: nat, session: nat, request: nat, i: nat)
    requires Tracked(s, n) && IsRow(s, e, session, request, i)
    ensures IsRow(n, e, session, request, i)
  {
    TrackedKeeps(s, n);
    assert AssetKept(s, n, i);
  }

  /** What is left of `cs` after one draw. */
  function Rest(cs: seq<Chance>): seq<Chance> { if cs == [] then [] else cs[1..] }

  class Server {
    const ceiling: nat
    var s: State
    var chances: seq<Chance>
    /** Whether, so far, no connection was lost, no request to storage failed and the process lived; whether, besides, nobody else
        touched the watched file or deleted its event; and whether event and session were open all the time, with room for it. */
    ghost const watch: Watch
    ghost var smooth: bool
    ghost var calm: bool
    ghost var welcome: bool

    constructor (s: State, chances: seq<Chance>, ceiling: nat, ghost watch: Watch)
      ensures this.s == s && this.chances == chances && this.ceiling == ceiling && this.watch == watch && smooth && calm && welcome
    {
      this.s, this.chances, this.ceiling, this.watch := s, chances, ceiling, watch;
      smooth, calm, welcome := true, true, true;
    }

    method Draw() returns (c: Chance)
      modifies this`chances
      ensures chances == Rest(old(chances)) && if old(chances) == [] then c == NO_CHANCE else c == old(chances)[0]
    {
      if chances == [] { return NO_CHANCE; }
      c := chances[0];
      chances := chances[1..];
    }

    /** Time passes for a request, which may hold an operation on an asset; the process may not survive. */
    method Pass(ghost begin: State, held: Option<nat>) returns (c: Chance, lives: bool)
      requires Tracked(begin, s)
      modifies this
      ensures Tracked(begin, s) && Tracked(old(s), s) && (lives ==> HeldStays(old(s), s, held))
      ensures chances == Rest(old(chances)) && if old(chances) == [] then c == NO_CHANCE else c == old(chances)[0]
      ensures smooth <==> old(smooth) && lives && Sound(c)
      ensures calm <==> old(calm) && smooth && Aside(old(s), s, watch.file) && IsFile(c.stored, watch.file)
      ensures welcome <==> old(welcome) && calm && Welcoming(s, watch) && c.now <= watch.horizon
    {
      c := Draw();
      MeanwhileTracked(s, held, c.others);
      TrackedOn(begin, s, Meanwhile(s, held, c.others).0);
      var r := Meanwhile(s, held, c.others);
      smooth := smooth && r.1 && Sound(c);
      calm := calm && smooth && Aside(s, r.0, watch.file) && IsFile(c.stored, watch.file);
      welcome := welcome && calm && Welcoming(r.0, watch) && c.now <= watch.horizon;
      s := r.0;
      lives := r.1;
    }

    /** And the connection may be lost. */
    method Wait(ghost begin: State, held: Option<nat>) returns (c: Chance, alive: bool)
      requires Tracked(begin, s)
      modifies this
      ensures Tracked(begin, s) && Tracked(old(s), s) && (alive ==> HeldStays(old(s), s, held))
      ensures chances == Rest(old(chances)) && (old(chances) == [] ==> !alive)
      ensures (smooth ==> old(smooth)) && (calm ==> old(calm) && smooth) && (welcome ==> old(welcome) && calm)
      ensures smooth ==> alive && Sound(c)
      ensures calm ==> Aside(old(s), s, watch.file) && IsFile(c.stored, watch.file)
    {
      c, alive := Pass(begin, held);
      alive := alive && !c.lost;
    }

    /** No one holds the event's lock exclusively, nor the lock of the asset, if one is asked for. */
    predicate Free(e: nat, i: Option<nat>)
      reads this
    {
      Shared(s, e) && (i.Some? ==> i.value !in s.ops)
    }

    /** The locks are those of the watched file, which no request works on. */
    ghost predicate Ours(begin: State, e: nat, i: Option<nat>) {
      e == watch.file.event && (i.Some? ==> TheRow(begin, watch.file, i.value) && i.value !in begin.ops)
    }

    /** Waits for the locks, as long as the connection and the process last. */
    method Acquire(ghost begin: State, e: nat, i: Option<nat>) returns (c: Chance, ok: bool)
      requires Tracked(begin, s)
      modifies this
      ensures Tracked(begin, s) && (ok ==> Free(e, i))
      ensures ok ==> c in old(chances) && forall x :: x in chances ==> x in old(chances)
      ensures smooth ==> old(smooth) && ok && Sound(c)
      ensures calm ==> old(calm) && smooth
      ensures welcome ==> old(welcome) && calm
      ensures calm && Ours(old(s), e, i) ==> Aside(old(s), s, watch.file) && (welcome ==> Welcoming(s, watch) && c.now <= watch.horizon)
    {
      ghost var was := s;
      var alive;
      c, alive := Pass(begin, None);
      alive := alive && !c.lost;
      AsideFree(was, s, e, i);
      while alive && !Free(e, i)
        invariant Tracked(begin, s)
        invariant smooth ==> old(smooth) && alive && Sound(c)
        invariant (alive ==> c in old(chances)) && forall x :: x in chances ==> x in old(chances)
        invariant calm ==> old(calm) && smooth
        invariant welcome ==> old(welcome) && calm
        invariant calm && Ours(was, e, i) ==> Aside(was, s, watch.file) && Free(e, i) && (welcome ==> Welcoming(s, watch) && c.now <= watch.horizon)
        decreases if alive then |chances| + 1 else 0
      {
        c, alive := Pass(begin, None);
        alive := alive && !c.lost;
      }
      ok := alive;
    }

    lemma AsideFree(was: State, n: State, e: nat, i: Option<nat>)
      ensures Aside(was, n, watch.file) && Ours(was, e, i) ==> Shared(n, e) && (i.Some? ==> i.value !in n.ops)
    {
      if Aside(was, n, watch.file) && Ours(was, e, i) && i.Some? { assert RowUntouched(was, n, watch.file, i.value); }
    }

    // -------------------------------------------------------------- statements and storage requests, one step each

    method LoadRow(ghost begin: State, i: nat, e: nat, link: nat, session: nat)
      requires Tracked(begin, s) && LoadStep(s, e, link, session, i).Some?
      modifies this`s
      ensures s == LoadStep(old(s), e, link, session, i).value && Tracked(begin, s)
    {
      TrackedLoad(s, e, link, session, i);
      TrackedOn(begin, s, LoadStep(s, e, link, session, i).value);
      s := LoadStep(s, e, link, session, i).value;
    }

    method HeadObject(ghost begin: State, i: nat)
      requires Tracked(begin, s) && HeadStep(s, i).Some?
      modifies this`s
      ensures s == HeadStep(old(s), i).value && Tracked(begin, s)
    {
      TrackedHead(s, i);
      TrackedOn(begin, s, HeadStep(s, i).value);
      s := HeadStep(s, i).value;
    }

    method JudgeObject(ghost begin: State, i: nat)
      requires Tracked(begin, s) && i in s.ops && s.ops[i].Headed?
      modifies this`s
      ensures Tracked(begin, s) && JudgeSays(old(s), s, i)
    {
      JudgeAnswers(s, i);
      TrackedJudge(s, i);
      TrackedOn(begin, s, JudgeStep(s, i).value);
      s := JudgeStep(s, i).value;
    }

    method DeleteRejected(ghost begin: State, i: nat, outcome: Outcome)
      requires Tracked(begin, s) && RejectStep(s, i, outcome).Some?
      modifies this`s
      ensures Tracked(begin, s)
      ensures RejectStep(old(s), i, outcome) == Some(s)
    {
      TrackedReject(s, i, outcome);
      TrackedOn(begin, s, RejectStep(s, i, outcome).value);
      s := RejectStep(s, i, outcome).value;
    }

    /** The row becomes ready exactly if its event still has the link and is not being deleted and a row without a class finds room in
        the class of its object. */
    method CommitReady(ghost begin: State, i: nat) returns (refused: Option<Failure>)
      requires Tracked(begin, s) && i in s.ops && s.ops[i].Verified? && s.ops[i].stored.media.Some?
      modifies this`s
      ensures Tracked(begin, s) && CompleteStep(old(s), i, ceiling) == Some(s)
      ensures refused.None? <==> MayComplete(old(s).db, old(s).ops[i].row, old(s).ops[i].link, old(s).ops[i].stored.size, old(s).ops[i].stored.media.value, ceiling)
      ensures if refused.None? then ReadyAt(s, old(s).ops[i].row.session, i)
              else NoLeave(refused.value) && Grounds(old(s), old(s).ops[i].event, old(s).ops[i].link, i, refused.value.code, ceiling)
    {
      refused := CommitRefusal(s, i, ceiling);
      VerifiedRow(s, i);
      CommitExactly(s, i, ceiling);
      Committing(s, i, ceiling);
      TrackedComplete(s, i, ceiling);
      TrackedOn(begin, s, CompleteStep(s, i, ceiling).value);
      s := CompleteStep(s, i, ceiling).value;
    }

    method GiveUp(ghost begin: State, i: nat)
      requires Tracked(begin, s) && QuitStep(s, i).Some?
      modifies this`s
      ensures s == QuitStep(old(s), i).value && Tracked(begin, s)
    {
      TrackedQuit(s, i);
      TrackedOn(begin, s, QuitStep(s, i).value);
      s := QuitStep(s, i).value;
    }

    method SaveExpiry(ghost begin: State, i: nat, e: nat, link: nat, session: nat, until: nat, now: nat)
      requires Tracked(begin, s) && AuthorizeStep(s, e, link, session, i, until, now).Some?
      modifies this`s
      ensures s == AuthorizeStep(old(s), e, link, session, i, until, now).value && Tracked(begin, s)
    {
      TrackedAuthorize(s, e, link, session, i, until, now);
      TrackedOn(begin, s, AuthorizeStep(s, e, link, session, i, until, now).value);
      s := AuthorizeStep(s, e, link, session, i, until, now).value;
    }

    method ReserveRow(ghost begin: State, p: Preparation, id: nat, now: nat)
      requires Tracked(begin, s) && PrepareStep(s, p, id, now).Some?
      modifies this`s
      ensures s == PrepareStep(old(s), p, id, now).value && Tracked(begin, s)
    {
      TrackedPrepare(s, p, id, now);
      TrackedOn(begin, s, PrepareStep(s, p, id, now).value);
      s := PrepareStep(s, p, id, now).value;
    }

    method StoreObject(ghost begin: State, i: nat, o: Object)
      requires Tracked(begin, s) && PutStep(s, i, o).Some?
      modifies this`s
      ensures s == PutStep(old(s), i, o).value && Tracked(begin, s)
    {
      TrackedPut(s, i, o);
      TrackedOn(begin, s, PutStep(s, i, o).value);
      s := PutStep(s, i, o).value;
    }

    // -------------------------------------------------------------- complete

    /** The request is about the watched file. */
    ghost predicate About(e: nat, link: nat, session: nat) { e == watch.file.event && link == watch.file.link && session == watch.file.session }

    method Complete(ghost begin: State, e: nat, link: nat, session: nat, i: nat) returns (result: Result<(), Failure>, ghost n: State)
      requires Tracked(begin, s)
      modifies this
      ensures Answers(begin, n, s, session, i, result) && (result.Err? ==> Explains(begin, n, s, e, link, session, i, result.error))
      ensures result.Err? ==> Founded(begin, n, s, e, link, i, result.error, ceiling) && (IsTrouble(result.error) ==> !smooth)
      ensures (smooth ==> old(smooth)) && (calm ==> old(calm)) && (welcome ==> old(welcome))
      ensures calm && About(e, link, session) && Mine(old(s), watch.file, i) ==> Concluded(old(s), s, watch.file, i, result)
    {
      ghost var was := s;
      var c, ok := Acquire(begin, e, Some(i));
      n := s;
      if !ok { return Err(Network), n; }
      TrackedSelf(s);
      if calm && About(e, link, session) && Mine(was, watch.file, i) { Admitted(was, s, watch.file, i); }
      if e !in s.db.events || s.db.events[e].link != link { return Err(Refuse(NotFound)), n; }
      if !Loads(s, e, link, session, i) { return Err(Refuse(AssetNotFound)), n; }
      if s.db.events[e].deleting { return Err(Refuse(EventClosed)), n; }
      if s.db.assets[i].status.Ready? {
        ReadyStands(s, session, i);
        return Ok(()), n;
      }
      if c.fails { return Err(Refuse(Unavailable)), n; }
      ghost var m := s;
      result, n := LoadAndVerify(begin, e, link, session, i);
      ConcludedThrough(was, m, s, watch.file, i, result);
    }

    /** What a step of a completion promises of its answer. */
    ghost predicate Fair(begin: State, n: State, session: nat, e: nat, link: nat, i: nat, result: Result<(), Failure>)
      reads this
    {
      && Answers(begin, n, s, session, i, result)
      && (result.Err? ==> !Dismisses(result.error) && Founded(begin, n, s, e, link, i, result.error, ceiling) && (IsTrouble(result.error) ==> !smooth))
    }

    lemma TroubleIsFair(begin: State, n: State, session: nat, e: nat, link: nat, i: nat, error: Failure)
      requires Tracked(begin, s) && IsTrouble(error) && !smooth
      ensures Fair(begin, n, session, e, link, i, Err(error))
    {
      Verdicts();
    }

    lemma PendingIsFair(begin: State, session: nat, e: nat, link: nat, i: nat, error: Failure)
      requires Tracked(begin, s) && PendingAt(s, session, i) && CanUpload(error)
      ensures Fair(begin, s, session, e, link, i, Err(error))
    {
      TrackedSelf(s);
      Rejection(error, error);
    }

    lemma ReadyIsFair(begin: State, session: nat, e: nat, link: nat, i: nat)
      requires Tracked(begin, s) && ReadyAt(s, session, i)
      ensures Fair(begin, s, session, e, link, i, Ok(()))
    {
      TrackedSelf(s);
    }

    lemma DenialIsFair(begin: State, n: State, session: nat, e: nat, link: nat, i: nat, error: Failure)
      requires Tracked(begin, n) && Tracked(n, s) && NoLeave(error) && Grounds(n, e, link, i, error.code, ceiling)
      ensures Fair(begin, n, session, e, link, i, Err(error))
    {
      TrackedOn(begin, n, s);
    }

    method LoadAndVerify(ghost begin: State, e: nat, link: nat, session: nat, i: nat) returns (result: Result<(), Failure>, ghost n: State)
      requires Tracked(begin, s) && LoadStep(s, e, link, session, i).Some?
      modifies this
      ensures Fair(begin, n, session, e, link, i, result)
      ensures (smooth ==> old(smooth)) && (calm ==> old(calm)) && (welcome ==> old(welcome))
      ensures calm && link == watch.file.link && session == watch.file.session && Waiting(old(s), watch.file, i) ==>
                Concluded(old(s), s, watch.file, i, result)
    {
      ghost var was := s;
      LoadRow(begin, i, e, link, session);
      ghost var m := s;
      LoadedWorking(was, m, watch.file, e, link, session, i);
      assert LoadStep(was, e, link, session, i).Some? ==> SameLook(was, m, i);
      result, n := Verify(begin, session, i);
      ConcludedThrough(was, m, s, watch.file, i, result);
    }

    method Verify(ghost begin: State, session: nat, i: nat) returns (result: Result<(), Failure>, ghost n: State)
      requires Tracked(begin, s) && i in s.ops && s.ops[i].Loaded? && s.ops[i].row.session == session
      modifies this
      ensures Fair(begin, n, session, old(s).ops[i].event, old(s).ops[i].link, i, result)
      ensures (smooth ==> old(smooth)) && (calm ==> old(calm)) && (welcome ==> old(welcome))
      ensures calm && Working(old(s), watch.file, i) && old(s).ops[i].link == watch.file.link ==> Concluded(old(s), s, watch.file, i, result)
    {
      ghost var was := s;
      var c, alive := Wait(begin, Some(i));
      n := s;
      if !alive {
        TroubleIsFair(begin, n, session, was.ops[i].event, was.ops[i].link, i, Network);
        return Err(Network), n;
      }
      ghost var m := s;
      StillWorking(was, m, watch.file, i);
      result, n := Look(begin, session, i, c.fails);
      ConcludedThrough(was, m, s, watch.file, i, result);
    }

    /** HEAD, and what follows. */
    method Look(ghost begin: State, session: nat, i: nat, fails: bool) returns (result: Result<(), Failure>, ghost n: State)
      requires Tracked(begin, s) && i in s.ops && s.ops[i].Loaded? && s.ops[i].row.session == session && (fails ==> !smooth && !calm)
      modifies this
      ensures Fair(begin, n, session, old(s).ops[i].event, old(s).ops[i].link, i, result)
      ensures (smooth ==> old(smooth)) && (calm ==> old(calm)) && (welcome ==> old(welcome))
      ensures calm && Working(old(s), watch.file, i) && old(s).ops[i].link == watch.file.link ==> Concluded(old(s), s, watch.file, i, result)
    {
      ghost var was, e, link := s, s.ops[i].event, s.ops[i].link;
      if fails || i !in s.objects {
        StillPending(s, session, i);
        GiveUp(begin, i);
        n := s;
        MissingConcluded(was, s, watch.file, i);
        Verdicts();
        if fails { TroubleIsFair(begin, n, session, e, link, i, Refuse(Unavailable)); } else { PendingIsFair(begin, session, e, link, i, Refuse(ObjectMissing)); }
        return Err(if fails then Refuse(Unavailable) else Refuse(ObjectMissing)), n;
      }
      HeadObject(begin, i);
      ghost var h := s;
      HeadInspects(was, h, watch.file, i);
      result, n := Judge(begin, session, i);
      ConcludedThrough(was, h, s, watch.file, i, result);
    }

    method Judge(ghost begin: State, session: nat, i: nat) returns (result: Result<(), Failure>, ghost n: State)
      requires Tracked(begin, s) && i in s.ops && s.ops[i].Headed? && s.ops[i].row.session == session
      modifies this
      ensures Fair(begin, n, session, old(s).ops[i].event, old(s).ops[i].link, i, result)
      ensures (smooth ==> old(smooth)) && (calm ==> old(calm)) && (welcome ==> old(welcome))
      ensures calm && Inspecting(old(s), watch.file, i) ==> Concluded(old(s), s, watch.file, i, result)
    {
      ghost var was := s;
      var c, alive := Wait(begin, Some(i));
      n := s;
      if !alive {
        TroubleIsFair(begin, n, session, was.ops[i].event, was.ops[i].link, i, Network);
        return Err(Network), n;
      }
      ghost var m := s;
      StillInspecting(was, m, watch.file, i);
      result, n := Classify(begin, session, i, c.fails);
      ConcludedThrough(was, m, s, watch.file, i, result);
    }

    /** The size is compared, then the prefix is read, which may fail. */
    method Classify(ghost begin: State, session: nat, i: nat, fails: bool) returns (result: Result<(), Failure>, ghost n: State)
      requires Tracked(begin, s) && i in s.ops && s.ops[i].Headed? && s.ops[i].row.session == session && (fails ==> !smooth && !calm)
      modifies this
      ensures Fair(begin, n, session, old(s).ops[i].event, old(s).ops[i].link, i, result)
      ensures (smooth ==> old(smooth)) && (calm ==> old(calm)) && (welcome ==> old(welcome))
      ensures calm && Inspecting(old(s), watch.file, i) ==> Concluded(old(s), s, watch.file, i, result)
    {
      var o := s.ops[i];
      var wrongSize := o.stored.size != o.row.expected || o.stored.size == 0;
      if !wrongSize && fails {
        GiveUp(begin, i);
        n := s;
        Verdicts();
        TroubleIsFair(begin, n, session, o.event, o.link, i, Refuse(Unavailable));
        return Err(Refuse(Unavailable)), n;
      }
      Verdicts();
      result, n := Weigh(begin, session, i, if wrongSize then Refuse(SizeMismatch) else Refuse(Unsupported));
    }

    /** The object is judged, and the request goes on accordingly. */
    method Weigh(ghost begin: State, session: nat, i: nat, cause: Failure) returns (result: Result<(), Failure>, ghost n: State)
      requires Tracked(begin, s) && i in s.ops && s.ops[i].Headed? && s.ops[i].row.session == session && CanUpload(cause)
      modifies this
      ensures Fair(begin, n, session, old(s).ops[i].event, old(s).ops[i].link, i, result)
      ensures (smooth ==> old(smooth)) && (calm ==> old(calm)) && (welcome ==> old(welcome))
      ensures calm && Inspecting(old(s), watch.file, i) ==> Concluded(old(s), s, watch.file, i, result)
    {
      ghost var was, e, link := s, s.ops[i].event, s.ops[i].link;
      StillPending(s, session, i);
      JudgeObject(begin, i);
      ghost var h := s;
      JudgedWorking(was, h, watch.file, i);
      result, n := Settle(begin, session, i, cause, e, link);
      ConcludedThrough(was, h, s, watch.file, i, result);
    }

    method Settle(ghost begin: State, session: nat, i: nat, cause: Failure, ghost e: nat, ghost link: nat) returns (result: Result<(), Failure>, ghost n: State)
      requires Tracked(begin, s) && PendingAt(s, session, i) && CanUpload(cause)
      requires i in s.ops ==> (s.ops[i].Rejected? || s.ops[i].Verified?) && s.ops[i].row.session == session
      requires i in s.ops && s.ops[i].Verified? ==> s.ops[i].event == e && s.ops[i].link == link
      modifies this
      ensures Fair(begin, n, session, e, link, i, result)
      ensures (smooth ==> old(smooth)) && (calm ==> old(calm)) && (welcome ==> old(welcome))
      ensures calm && Judged(old(s), watch.file, i) ==> Concluded(old(s), s, watch.file, i, result)
    {
      n := s;
      if i !in s.ops {
        Verdicts();
        PendingIsFair(begin, session, e, link, i, Refuse(ObjectChanged));
        return Err(Refuse(ObjectChanged)), n;
      }
      if s.ops[i].Verified? {
        result, n := Commit(begin, session, i);
      } else {
        result, n := Dispose(begin, session, i, cause, e, link);
      }
    }

    method Dispose(ghost begin: State, session: nat, i: nat, cause: Failure, ghost e: nat, ghost link: nat) returns (result: Result<(), Failure>, ghost n: State)
      requires Tracked(begin, s) && i in s.ops && s.ops[i].Rejected? && s.ops[i].row.session == session && CanUpload(cause)
      modifies this
      ensures Fair(begin, n, session, e, link, i, result) && result.Err?
      ensures (smooth ==> old(smooth)) && (calm ==> old(calm)) && (welcome ==> old(welcome))
      ensures calm && Working(old(s), watch.file, i) ==> Cleared(old(s), s, watch.file, i) && CanUpload(result.error)
    {
      var error := Reject(begin, session, i, cause);
      n := s;
      if error == cause { PendingIsFair(begin, session, e, link, i, error); } else { TroubleIsFair(begin, n, session, e, link, i, error); }
      result := Err(error);
    }

    /** The rejected object is deleted before the answer. */
    method Reject(ghost begin: State, session: nat, i: nat, cause: Failure) returns (error: Failure)
      requires Tracked(begin, s) && i in s.ops && s.ops[i].Rejected? && s.ops[i].row.session == session && CanUpload(cause)
      modifies this
      ensures Tracked(begin, s) && if error == cause then PendingAt(s, session, i) else !smooth && IsTrouble(error)
      ensures (smooth ==> old(smooth)) && (calm ==> old(calm) && smooth) && (welcome ==> old(welcome))
      ensures calm && Working(old(s), watch.file, i) ==> Cleared(old(s), s, watch.file, i)
    {
      ghost var was := s;
      Verdicts();
      var c, alive := Wait(begin, Some(i));
      if !alive { return Network; }
      StillPending(s, session, i);
      StillWorking(was, s, watch.file, i);
      ghost var m := s;
      DeleteRejected(begin, i, c.outcome);
      RejectClears(m, s, watch.file, i, c.outcome);
      error := if c.outcome.Answered? then cause else Refuse(Unavailable);
    }

    method Commit(ghost begin: State, session: nat, i: nat) returns (result: Result<(), Failure>, ghost n: State)
      requires Tracked(begin, s) && i in s.ops && s.ops[i].Verified? && s.ops[i].row.session == session
      modifies this
      ensures Fair(begin, n, session, old(s).ops[i].event, old(s).ops[i].link, i, result)
      ensures (smooth ==> old(smooth)) && (calm ==> old(calm)) && (welcome ==> old(welcome))
      ensures calm && Passed(old(s), watch.file, i) ==> Mine(s, watch.file, i) && result.Ok?
    {
      ghost var was := s;
      var c, alive := Wait(begin, Some(i));
      n := s;
      if !alive {
        TroubleIsFair(begin, n, session, was.ops[i].event, was.ops[i].link, i, Network);
        return Err(Network), n;
      }
      StillPassed(was, s, watch.file, i);
      result, n := Decide(begin, session, i);
    }

    /** The completing transaction. */
    method Decide(ghost begin: State, session: nat, i: nat) returns (result: Result<(), Failure>, ghost n: State)
      requires Tracked(begin, s) && i in s.ops && s.ops[i].Verified? && s.ops[i].row.session == session
      modifies this`s
      ensures Fair(begin, n, session, old(s).ops[i].event, old(s).ops[i].link, i, result)
      ensures Passed(old(s), watch.file, i) ==> Mine(s, watch.file, i) && result.Ok?
    {
      ghost var e, link := s.ops[i].event, s.ops[i].link;
      n := s;
      VerifiedRow(s, i);
      PassedCommits(s, watch.file, i, ceiling);
      TrackedSelf(s);
      var refused := CommitReady(n, i);
      TrackedOn(begin, n, s);
      if refused.Some? {
        DenialIsFair(begin, n, session, e, link, i, refused.value);
        return Err(refused.value), n;
      }
      n := s;
      ReadyIsFair(begin, session, e, link, i);
      result := Ok(());
    }

    // -------------------------------------------------------------- authorize, prepare, and the guest's PUT

    /** A plan is handed out for a pending row only, and its URL is recorded before. */
    method Authorize(ghost begin: State, e: nat, link: nat, session: nat, i: nat) returns (result: Result<Asset, Failure>, ghost n: State)
      requires Tracked(begin, s)
      modifies this
      ensures Tracked(begin, s) && (result.Err? ==> Spoken(result.error))
      ensures result.Ok? ==> result.value.status.Pending? && Between(begin, n, s) && i in n.issued && PendingAt(n, session, i)
      ensures result.Err? ==> Explains(begin, n, s, e, link, session, i, result.error) && (IsTrouble(result.error) ==> !smooth)
      ensures (smooth ==> old(smooth)) && (calm ==> old(calm)) && (welcome ==> old(welcome))
      ensures welcome && About(e, link, session) && Waiting(old(s), watch.file, i) ==>
                result.Ok? && Planned(s, watch.file, i) && (i in s.objects <==> i in old(s).objects)
    {
      ghost var was := s;
      var c, ok := Acquire(begin, e, Some(i));
      n := s;
      if !ok { return Err(Network), n; }
      TrackedSelf(s);
      Invited(was, s, watch, i, c.until, c.now);
      if e !in s.db.events || s.db.events[e].link != link { return Err(Refuse(NotFound)), n; }
      if !Loads(s, e, link, session, i) { return Err(Refuse(AssetNotFound)), n; }
      var x := s.db.assets[i];
      if x.status.Ready? { return Err(Refuse(AssetReady)), n; }
      if !IsOpen(s.db, e, link, c.now) { return Err(Refuse(EventClosed)), n; }
      if c.fails { return Err(Refuse(Unavailable)), n; }
      var tx := AuthorizeTx(s.db, e, link, session, i, c.until, c.now);
      if tx.Err? { return Err(Refusal(tx.error)), n; }
      SaveExpiry(begin, i, e, link, session, c.until, c.now);
      n := s;
      TrackedSelf(s);
      result := Ok(x);
    }

    /** The file is sound and its row, if it has one, is pending and idle. */
    ghost predicate Preparable(begin: State) {
      && Standing(begin, watch.file) && 0 < watch.file.size <= watch.file.limit
      && forall i :: TheRow(begin, watch.file, i) ==> Waiting(begin, watch.file, i)
    }

    /** The answer names the row of the session's request. It is never a ready one: a request whose row is ready is refused. */
    method Prepare(ghost begin: State, p: Preparation) returns (result: Result<(nat, Asset), Failure>)
      requires Tracked(begin, s)
      modifies this
      ensures Tracked(begin, s) && (result.Err? ==> Spoken(result.error))
      ensures result.Ok? ==> IsRow(s, p.event, p.session, p.request, result.value.0) && result.value.1.status.Pending?
      ensures (smooth ==> old(smooth)) && (calm ==> old(calm)) && (welcome ==> old(welcome))
      ensures welcome && p == watch.file && Preparable(old(s)) ==> result.Ok? && Planned(s, watch.file, result.value.0)
    {
      if p.size == 0 { return Err(Refuse(EmptyFile)); }
      if p.size > p.limit { return Err(Refuse(FileTooLarge)); }
      ghost var was := s;
      var c, ok := Acquire(begin, p.event, None);
      if !ok { return Err(Network); }
      var id := NextId(s.drawn);
      StillPreparable(was, s, watch, id, c.now);
      var tx := PrepareTx(s.db, p, id, c.now);
      if tx.Err? { return Err(Refusal(tx.error)); }
      var i := tx.value.0;
      PreparedRow(s, p, id, c.now);
      ReserveRow(begin, p, id, c.now);
      result := PlanFor(begin, p, i);
    }

    method PlanFor(ghost begin: State, p: Preparation, i: nat) returns (result: Result<(nat, Asset), Failure>)
      requires Tracked(begin, s) && IsRow(s, p.event, p.session, p.request, i)
      modifies this
      ensures Tracked(begin, s) && (result.Err? ==> Spoken(result.error))
      ensures result.Ok? ==> result.value.0 == i && IsRow(s, p.event, p.session, p.request, i) && result.value.1.status.Pending?
      ensures (smooth ==> old(smooth)) && (calm ==> old(calm)) && (welcome ==> old(welcome))
      ensures welcome && p == watch.file && Waiting(old(s), watch.file, i) ==> result.Ok? && Planned(s, watch.file, i)
    {
      ghost var made := s;
      TrackedSelf(made);
      var plan;
      ghost var m;
      plan, m := Authorize(made, p.event, p.link, p.session, i);
      TrackedOn(begin, made, s);
      IsRowStays(made, s, p.event, p.session, p.request, i);
      result := if plan.Ok? then Ok((i, plan.value)) else Err(plan.error);
    }

    /** The guest's PUT reaches S3 or not, and creates the object or is refused. */
    method Put(ghost begin: State, i: nat) returns (ok: bool)
      requires Tracked(begin, s)
      modifies this
      ensures Tracked(begin, s) && (ok ==> i in s.objects)
      ensures (smooth ==> old(smooth)) && (calm ==> old(calm)) && (welcome ==> old(welcome))
      ensures calm && Planned(old(s), watch.file, i) ==> Planned(s, watch.file, i) && (ok <==> i !in old(s).objects) && (ok ==> Arrived(s, watch.file, i))
    {
      ghost var was := s;
      var c, alive := Wait(begin, None);
      PlannedAside(was, s, watch.file, i);
      if c.outcome.Refused? || i !in s.issued || i in s.objects { return false; }
      ghost var m := s;
      StoreObject(begin, i, c.stored);
      SameTables(m, s, watch.file);
      ok := c.outcome.Answered?;
    }
  }

  // ---------------------------------------------------------------- the watched file

  lemma Admitted(was: State, s: State, f: Preparation, i: nat)
    requires TheRow(was, f, i) && Aside(was, s, f)
    ensures Mine(was, f, i) ==> Mine(s, f, i) && Loads(s, f.event, f.link, f.session, i)
    ensures Waiting(was, f, i) ==> Waiting(s, f, i)
  {
    AsideMine(was, s, f, i);
    assert OfFile(s.db.assets[i], f);
  }

  lemma ConcludedThrough(was: State, m: State, s: State, f: Preparation, i: nat, result: Result<(), Failure>)
    ensures Concluded(m, s, f, i, result) && SameLook(was, m, i) ==> Concluded(was, s, f, i, result)
  {}

  lemma LoadedWorking(s: State, n: State, f: Preparation, e: nat, link: nat, session: nat, i: nat)
    requires LoadStep(s, e, link, session, i) == Some(n)
    ensures Waiting(s, f, i) ==> Working(n, f, i)
  {
    if Waiting(s, f, i) { SameTables(s, n, f); }
  }

  lemma StillWorking(was: State, s: State, f: Preparation, i: nat)
    ensures Working(was, f, i) && Aside(was, s, f) ==> Working(s, f, i) && s.ops[i] == was.ops[i] && SameLook(was, s, i)
  {
    if Working(was, f, i) && Aside(was, s, f) { assert RowUntouched(was, s, f, i); }
  }

  lemma PlannedAside(was: State, s: State, f: Preparation, i: nat)
    ensures Planned(was, f, i) && Aside(was, s, f) ==> Planned(s, f, i) && (i in s.objects <==> i in was.objects)
  {
    if Planned(was, f, i) && Aside(was, s, f) { assert RowUntouched(was, s, f, i); }
  }

  /** The request has looked at the object that is there. */
  ghost predicate Inspecting(s: State, f: Preparation, i: nat) {
    Working(s, f, i) && s.ops[i].Headed? && s.ops[i].link == f.link && i in s.objects && s.objects[i] == s.ops[i].stored
  }

  /** The file was found, and is about to be committed. */
  ghost predicate Passed(s: State, f: Preparation, i: nat) {
    Working(s, f, i) && s.ops[i].Verified? && s.ops[i].link == f.link && s.ops[i].stored.media == Some(f.media)
  }

  ghost predicate Judged(s: State, f: Preparation, i: nat) {
    Working(s, f, i) && if Arrived(s, f, i) then Passed(s, f, i) else s.ops[i].Rejected?
  }

  /** A request that looks at an object knows the row as it is. */
  lemma RequestRow(s: State, i: nat)
    requires Reachable(s)
    ensures i in s.ops && s.ops[i].Headed? ==> i in s.db.assets && s.ops[i].row == s.db.assets[i]
  {
    ReachableInv(s);
    if i in s.ops { assert OpOk(s, i, s.ops[i]); }
  }

  /** S3 has no object for the watched file. */
  lemma MissingConcluded(m: State, n: State, f: Preparation, i: nat)
    requires QuitStep(m, i) == Some(n)
    ensures Working(m, f, i) && i !in m.objects ==> Concluded(m, n, f, i, Err(Refuse(ObjectMissing)))
  {
    Verdicts();
    SameTables(m, n, f);
  }

  /** A step of the request that only looks leaves the rest as it was. */
  ghost predicate SameLook(was: State, n: State, i: nat) {
    && i in was.db.assets && i in n.db.assets && n.db.assets[i] == was.db.assets[i]
    && (i in n.objects <==> i in was.objects) && (i in was.objects ==> n.objects[i] == was.objects[i]) && (i in was.issued ==> i in n.issued)
  }

  lemma HeadInspects(m: State, n: State, f: Preparation, i: nat)
    requires HeadStep(m, i) == Some(n)
    ensures Working(m, f, i) && m.ops[i].link == f.link ==> Inspecting(n, f, i) && SameLook(m, n, i)
  {
    SameTables(m, n, f);
  }

  lemma StillInspecting(was: State, m: State, f: Preparation, i: nat)
    ensures Inspecting(was, f, i) && Aside(was, m, f) ==> Inspecting(m, f, i) && SameLook(was, m, i)
  {
    StillWorking(was, m, f, i);
  }

  lemma JudgedWorking(m: State, n: State, f: Preparation, i: nat)
    requires Reachable(m) && JudgeSays(m, n, i)
    ensures Inspecting(m, f, i) ==> Judged(n, f, i) && SameLook(m, n, i)
  {
    SameTables(m, n, f);
    RequestRow(m, i);
    if Inspecting(m, f, i) { assert OfFile(m.db.assets[i], f); }
  }

  lemma RejectClears(m: State, n: State, f: Preparation, i: nat, o: Outcome)
    requires RejectStep(m, i, o) == Some(n)
    ensures Working(m, f, i) && o.Answered? ==> Cleared(m, n, f, i)
  {
    SameTables(m, n, f);
  }

  lemma StillPassed(was: State, s: State, f: Preparation, i: nat)
    ensures Passed(was, f, i) && Aside(was, s, f) ==> Passed(s, f, i)
  {
    StillWorking(was, s, f, i);
  }

  lemma PassedCommits(s: State, f: Preparation, i: nat, ceiling: nat)
    requires Reachable(s)
    ensures Passed(s, f, i) ==>
              && CompleteStep(s, i, ceiling).Some? && Mine(CompleteStep(s, i, ceiling).value, f, i)
              && MayComplete(s.db, s.ops[i].row, s.ops[i].link, s.ops[i].stored.size, f.media, ceiling)
  {
    ReachableInv(s);
    if Passed(s, f, i) {
      assert OpOk(s, i, s.ops[i]);
      CompletedMine(s, f, i, ceiling);
      CompleteGranted(s.db, s.ops[i].row, s.ops[i].link, i, s.ops[i].stored.size, f.media, ceiling);
    }
  }

  lemma Invited(was: State, s: State, w: Watch, i: nat, until: nat, now: nat)
    ensures Waiting(was, w.file, i) && Aside(was, s, w.file) ==>
              Waiting(s, w.file, i) && Loads(s, w.file.event, w.file.link, w.file.session, i) && (i in s.objects <==> i in was.objects)
    ensures Waiting(was, w.file, i) && Aside(was, s, w.file) && Welcoming(s, w) && now <= w.horizon ==>
              && IsOpen(s.db, w.file.event, w.file.link, now)
              && AuthorizeTx(s.db, w.file.event, w.file.link, w.file.session, i, until, now).Ok?
              && AuthorizeStep(s, w.file.event, w.file.link, w.file.session, i, until, now).Some?
              && Planned(AuthorizeStep(s, w.file.event, w.file.link, w.file.session, i, until, now).value, w.file, i)
              && AuthorizeStep(s, w.file.event, w.file.link, w.file.session, i, until, now).value.objects == s.objects
  {
    if Waiting(was, w.file, i) && Aside(was, s, w.file) {
      assert RowUntouched(was, s, w.file, i);
      Admitted(was, s, w.file, i);
      if Welcoming(s, w) && now <= w.horizon { AuthorizedPlan(s, w, i, until, now); }
    }
  }

  lemma StillPreparable(was: State, s: State, w: Watch, id: nat, now: nat)
    requires Reachable(s) && id !in s.drawn
    ensures Standing(was, w.file) && (forall i :: TheRow(was, w.file, i) ==> Waiting(was, w.file, i)) && Aside(was, s, w.file)
            && Welcoming(s, w) && now <= w.horizon ==>
              PrepareTx(s.db, w.file, id, now).Ok? && PrepareStep(s, w.file, id, now).Some?
              && Waiting(PrepareStep(s, w.file, id, now).value, w.file, PrepareTx(s.db, w.file, id, now).value.0)
  {
    if Standing(was, w.file) && (forall i :: TheRow(was, w.file, i) ==> Waiting(was, w.file, i)) && Aside(was, s, w.file)
       && Welcoming(s, w) && now <= w.horizon {
      forall i | TheRow(s, w.file, i) ensures Waiting(s, w.file, i) {
        assert TheRow(was, w.file, i) && RowUntouched(was, s, w.file, i);
      }
      ReachableInv(s);
      PreparedMine(s, w, id, now);
    }
  }

  lemma Verdicts()
    ensures forall e :: e == Refuse(ObjectMissing) || e == Refuse(SizeMismatch) || e == Refuse(Unsupported) ==> CanUpload(e) && !Dismisses(e)
    ensures forall e :: e == Network || e == Refuse(Unavailable) ==> !CanUpload(e) && !Dismisses(e)
  {}

  lemma Rejection(cause: Failure, error: Failure)
    requires CanUpload(cause) && (error == Network || error == Refuse(Unavailable) || error == cause)
    ensures !Dismisses(error) && (CanUpload(error) ==> error == cause)
  {}

  /** What becomes of the request that judges: it is over, or its object was verified or rejected. */
  ghost predicate JudgeSays(s: State, n: State, i: nat) {
    && i in s.ops && s.ops[i].Headed? && n == s.(ops := n.ops) && JudgeStep(s, i) == Some(n)
    && (i in n.ops ==> (n.ops[i].Rejected? || n.ops[i].Verified?) && n.ops[i].row == s.ops[i].row)
    && (i in n.ops && n.ops[i].Verified? ==> n.ops[i].event == s.ops[i].event && n.ops[i].link == s.ops[i].link)
  }

  lemma JudgeAnswers(s: State, i: nat)
    requires i in s.ops && s.ops[i].Headed?
    ensures JudgeStep(s, i).Some? && JudgeSays(s, JudgeStep(s, i).value, i)
  {}

  /** What the completing transaction answers, if it refuses. */
  function CommitRefusal(s: State, i: nat, ceiling: nat): Option<Failure>
    requires i in s.ops && s.ops[i].Verified? && s.ops[i].stored.media.Some?
  {
    var o := s.ops[i];
    match CompleteTx(s.db, o.row, o.link, i, o.stored.size, o.stored.media.value, ceiling)
    case Ok(_) => None
    case Err(x) => Some(Refusal(x))
  }

  /** A verified request knows the row as it is. */
  lemma VerifiedRow(s: State, i: nat)
    requires Reachable(s) && i in s.ops && s.ops[i].Verified?
    ensures Loading(s, i, s.ops[i].row) && Stands(s, i, s.ops[i].stored) && s.ops[i].stored.media.Some?
    ensures s.ops[i].stored.size == s.ops[i].row.expected && s.ops[i].row.event == s.ops[i].event
  {
    ReachableInv(s);
    assert OpOk(s, i, s.ops[i]);
  }

  lemma Committing(s: State, i: nat, ceiling: nat)
    requires i in s.ops && s.ops[i].Verified? && s.ops[i].stored.media.Some?
    requires Loading(s, i, s.ops[i].row) && Stands(s, i, s.ops[i].stored)
    ensures CompleteStep(s, i, ceiling).Some?
    ensures var r := CommitRefusal(s, i, ceiling);
            if r.None? then ReadyAt(CompleteStep(s, i, ceiling).value, s.ops[i].row.session, i) else NoLeave(r.value)
  {}

  /** Neither lets the page send again nor dismisses the asset, and is an answer of the server. */
  predicate NoLeave(e: Failure) { e.Server? && !CanUpload(e) && !Dismisses(e) && !IsTrouble(e) }

  /** The transaction accepts exactly as written out, and refuses on such grounds. */
  lemma CommitExactly(s: State, i: nat, ceiling: nat)
    requires i in s.ops && s.ops[i].Verified? && s.ops[i].stored.media.Some? && Loading(s, i, s.ops[i].row) && s.ops[i].stored.size == s.ops[i].row.expected
    ensures var o, r := s.ops[i], CommitRefusal(s, i, ceiling);
            && (r.None? <==> MayComplete(s.db, o.row, o.link, o.stored.size, o.stored.media.value, ceiling))
            && (r.Some? ==> Grounds(s, o.row.event, o.link, i, r.value.code, ceiling))
  {
    var o := s.ops[i];
    CompleteGranted(s.db, o.row, o.link, i, o.stored.size, o.stored.media.value, ceiling);
    ClassRefused(s.db, o.row.event, o.stored.media.value, o.stored.size);
  }

  lemma ClassRefused(d: Db, e: nat, media: Media, size: nat)
    ensures e in d.events ==> (ReserveClass(d, e, media, size).None? <==> ClassFits(d, e, media, size))
  {}

  lemma ReadyStands(s: State, session: nat, i: nat)
    requires Reachable(s) && i in s.db.assets && s.db.assets[i].session == session && s.db.assets[i].backend.S3? && s.db.assets[i].status.Ready?
    ensures ReadyAt(s, session, i)
  {
    ReachableInv(s);
  }

  lemma StillPending(s: State, session: nat, i: nat)
    requires Reachable(s) && i in s.ops && Completing(s.ops[i]) && s.ops[i].row.session == session
    ensures PendingAt(s, session, i)
  {
    ReachableInv(s);
    assert OpOk(s, i, s.ops[i]);
  }

  lemma PreparedRow(s: State, p: Preparation, id: nat, now: nat)
    requires Reachable(s) && id !in s.drawn && Shared(s, p.event) && PrepareTx(s.db, p, id, now).Ok?
    ensures PrepareStep(s, p, id, now).Some? && IsRow(PrepareStep(s, p, id, now).value, p.event, p.session, p.request, PrepareTx(s.db, p, id, now).value.0)
  {
    var i := PrepareTx(s.db, p, id, now).value.0;
    if i in s.db.assets { RowIsDrawn(s, i); }
  }

  lemma RowIsDrawn(s: State, i: nat)
    requires Reachable(s) && i in s.db.assets
    ensures i in s.drawn && (s.db.assets[i].request.Some? ==> s.db.assets[i].backend.S3?)
    ensures s.db.assets[i].session in s.db.sessions && s.db.sessions[s.db.assets[i].session].event == s.db.assets[i].event
  {
    ReachableInv(s);
    assert RowOk(s.db, s.drawn, i);
  }
}
