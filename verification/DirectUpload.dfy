/** The page's direct upload against the server, with any other activity in between and any reply lost. */
module DirectUpload {
  import opened Wrappers
  import opened Ordered
  import opened MediaModel
  import opened MediaSteps
  import opened MediaInvariant
  import opened MediaSafety
  import opened MediaHistory
  import opened MediaTheorems
  import opened DirectWatch
  import opened DirectServer

  /** The session a file is sent in, the id of its request, and the asset id it was given. */
  datatype Attempt = Attempt(grant: Option<nat>, request: nat, asset: Option<nat>)

  /** What the page did, in order. */
  datatype Act = DidPrepare(answer: Result<bool, Failure>) | DidAuthorize(result: Result<(), Failure>)
               | DidComplete(result: Result<(), Failure>) | DidPut(ok: bool)

  /** The file goes to the session of the attempt's grant, under its request id. */
  predicate Addressed(f: Preparation, a: Attempt) { a.grant == Some(f.session) && a.request == f.request }

  /** The attempt's row, if it has one: the asset id it holds is, or once was, the row of its request. */
  ghost predicate Owns(s: State, f: Preparation, a: Attempt) {
    a.asset.Some? ==> IsRow(s, f.event, f.session, f.request, a.asset.value)
  }

  lemma OwnsStays(s: State, n: State, f: Preparation, a: Attempt)
    requires Tracked(s, n) && Owns(s, f, a)
    ensures Owns(n, f, a)
  {
    if a.asset.Some? { IsRowStays(s, n, f.event, f.session, f.request, a.asset.value); }
  }

  // ---------------------------------------------------------------- the order of calls

  datatype Phase = Fresh(known: bool)      // nothing done yet
                 | MayPut(sent: nat)       // holds a plan
                 | MustVerify(sent: nat, ok: bool) // a PUT was sent, and succeeded or failed
                 | MustAuthorize(sent: nat)
                 | Over

  /** The calls the protocol allows next, and where they lead. */
  function After(p: Phase, a: Act): Option<Phase> {
    match p
    case Fresh(known) =>
      if known && a.DidComplete? then Some(if a.result.Err? && CanUpload(a.result.error) then MustAuthorize(0) else Over)
      else if !known && a.DidPrepare? then Some(if a.answer == Ok(false) then MayPut(0) else Over)
      else None
    case MayPut(n) => if a.DidPut? then Some(MustVerify(n + 1, a.ok)) else None
    case MustVerify(n, ok) =>
      if a.DidComplete? then Some(if a.result.Err? && CanUpload(a.result.error) && !ok && n < 2 then MustAuthorize(n) else Over) else None
    case MustAuthorize(n) => if a.DidAuthorize? then Some(if a.result.Ok? then MayPut(n) else Over) else None
    case Over => None
  }

  function Follows(p: Phase, trace: seq<Act>): Option<Phase> {
    if trace == [] then Some(p)
    else match Follows(p, trace[..|trace| - 1])
         case None => None
         case Some(q) => After(q, trace[|trace| - 1])
  }

  function Puts(trace: seq<Act>): nat { if trace == [] then 0 else Puts(trace[..|trace| - 1]) + if trace[|trace| - 1].DidPut? then 1 else 0 }

  lemma {:induction false} PutsOf(known: bool, trace: seq<Act>)
    requires Follows(Fresh(known), trace).Some?
    ensures Puts(trace) <= 2
    ensures var q := Follows(Fresh(known), trace).value;
            match q case Fresh(_) => trace == [] case MayPut(n) => n == Puts(trace) < 2 case MustVerify(n, ok) => n == Puts(trace) <= 2 && trace[|trace| - 1] == DidPut(ok)
                    case MustAuthorize(n) => n == Puts(trace) < 2 case Over => true
    decreases |trace|
  {
    if trace != [] { PutsOf(known, trace[..|trace| - 1]); }
  }

  lemma {:induction false} FollowsPrefix(p: Phase, trace: seq<Act>, n: nat)
    requires n <= |trace| && Follows(p, trace).Some?
    ensures Follows(p, trace[..n]).Some?
    decreases |trace|
  {
    if n < |trace| {
      assert trace[..|trace| - 1][..n] == trace[..n];
      FollowsPrefix(p, trace[..|trace| - 1], n);
    } else {
      assert trace[..n] == trace;
    }
  }

  lemma PhaseAt(known: bool, trace: seq<Act>, i: nat)
    requires Follows(Fresh(known), trace).Some? && i < |trace|
    ensures Follows(Fresh(known), trace[..i]).Some? && After(Follows(Fresh(known), trace[..i]).value, trace[i]).Some?
  {
    FollowsPrefix(Fresh(known), trace, i + 1);
    assert trace[..i + 1][..i] == trace[..i];
  }

  /** The last call tells which phase the page is in. */
  lemma PhaseAfter(known: bool, trace: seq<Act>)
    requires trace != [] && Follows(Fresh(known), trace).Some?
    ensures var q, last := Follows(Fresh(known), trace).value, trace[|trace| - 1];
            match last
            case DidPut(ok) => q.MustVerify? && q.ok == ok
            case DidComplete(r) => q.Over? || (q.MustAuthorize? && r.Err? && CanUpload(r.error))
            case DidAuthorize(r) => q.Over? || (q.MayPut? && r.Ok?)
            case DidPrepare(r) => q.Over? || (q.MayPut? && r == Ok(false))
  {}

  /** What every run of the page keeps to: at most two PUTs; a held asset id is verified first; a PUT follows a new plan and a
      verification follows a PUT; nothing follows a success or an error outside the retryable codes. */
  lemma Protocol(known: bool, trace: seq<Act>, i: nat)
    requires Follows(Fresh(known), trace).Some? && i < |trace|
    ensures Puts(trace) <= 2
    ensures i == 0 ==> if known then trace[0].DidComplete? else trace[0].DidPrepare?
    ensures i > 0 ==> match trace[i - 1]
                      case DidPut(_) => trace[i].DidComplete?
                      case DidComplete(r) => r.Err? && CanUpload(r.error) && trace[i].DidAuthorize?
                      case DidAuthorize(r) => r.Ok? && trace[i].DidPut?
                      case DidPrepare(r) => r == Ok(false) && trace[i].DidPut?
  {
    PutsOf(known, trace);
    PhaseAt(known, trace, i);
    assert trace[..0] == [];
    if i > 0 {
      assert trace[..i][i - 1] == trace[i - 1];
      PhaseAfter(known, trace[..i]);
    }
  }

  /** What a run that was not canceled answers, by its last calls. */
  function Verdict(trace: seq<Act>): Result<(), Failure> {
    if trace == [] then Err(Network)
    else
      match trace[|trace| - 1]
      case DidPrepare(r) => if r.Ok? then Ok(()) else Err(r.error)
      case DidAuthorize(r) => r
      case DidPut(_) => Err(Network)
      case DidComplete(r) => if r.Err? && CanUpload(r.error) && Failing(trace, |trace| - 1) then Err(GaveUp) else r
  }

  /** The call before was a PUT that failed. */
  predicate Failing(trace: seq<Act>, i: nat)
    requires i < |trace|
  {
    i > 0 && trace[i - 1] == DidPut(false)
  }

  /** The verification at `i` followed a PUT that failed, and its error lets the page send the file again. */
  predicate FailedPut(trace: seq<Act>, i: nat)
    requires i < |trace|
  {
    Failing(trace, i) && trace[i].DidComplete? && trace[i].result.Err? && trace[i].result.error.Server?
    && trace[i].result.error.code in [ObjectMissing, SizeMismatch, Unsupported, EmptyFile, ObjectChanged]
  }

  lemma PhaseOver(known: bool, trace: seq<Act>, i: nat)
    requires Follows(Fresh(known), trace) == Some(Over) && i + 1 < |trace|
    ensures Follows(Fresh(known), trace[..i + 1]).Some? && !Follows(Fresh(known), trace[..i + 1]).value.Over?
  {
    PhaseAt(known, trace, i + 1);
  }

  /** The lower bound: a run that ends by the protocol does not stop after a first PUT that failed and was found missing or bad. It asks
      for a new plan, and if it gets one it sends the file a second time. */
  lemma TriesAgain(known: bool, trace: seq<Act>, i: nat)
    requires Follows(Fresh(known), trace) == Some(Over) && i < |trace| && FailedPut(trace, i) && Puts(trace[..i]) == 1
    ensures i + 1 < |trace| && trace[i + 1].DidAuthorize?
    ensures trace[i + 1].result.Ok? ==> i + 2 < |trace| && trace[i + 2].DidPut?
  {
    PutFirst(known, trace, i);
    assert trace[..|trace|] == trace;
    if i + 1 < |trace| {
      Protocol(known, trace, i + 1);
      NextPhase(known, trace, i + 1);
      if i + 2 < |trace| { Protocol(known, trace, i + 2); }
    }
  }

  lemma NextPhase(known: bool, trace: seq<Act>, i: nat)
    requires Follows(Fresh(known), trace).Some? && i < |trace|
    ensures Follows(Fresh(known), trace[..i]).Some? && Follows(Fresh(known), trace[..i + 1]) == After(Follows(Fresh(known), trace[..i]).value, trace[i])
  {
    FollowsPrefix(Fresh(known), trace, i);
    FollowsPrefix(Fresh(known), trace, i + 1);
    assert trace[..i + 1][..i] == trace[..i];
  }

  /** After the failed verification of the first PUT the page must ask for a plan. */
  lemma PutFirst(known: bool, trace: seq<Act>, i: nat)
    requires Follows(Fresh(known), trace).Some? && i < |trace| && FailedPut(trace, i) && Puts(trace[..i]) == 1
    ensures Follows(Fresh(known), trace[..i + 1]) == Some(MustAuthorize(1))
  {
    NextPhase(known, trace, i);
    PutsOf(known, trace[..i]);
    PhaseAfter(known, trace[..i]);
    assert trace[..i][i - 1] == DidPut(false);
  }

  lemma GaveUpPut(known: bool, trace: seq<Act>, i: nat)
    requires Follows(Fresh(known), trace) == Some(Over) && Honest(trace) && Verdict(trace) == Err(GaveUp) && i < |trace| && trace[i].DidPut?
    ensures i + 1 < |trace| && FailedPut(trace, i + 1)
  {
    NextPhase(known, trace, i);
    assert trace[..|trace|] == trace;
    if i + 1 < |trace| {
      Protocol(known, trace, i + 1);
      NextPhase(known, trace, i + 1);
      assert Truthful(trace[|trace| - 1]);
      if i + 2 < |trace| { PhaseOver(known, trace, i + 1); }
    }
  }

  lemma {:induction false} LastPut(trace: seq<Act>) returns (p: nat)
    requires Puts(trace) > 0
    ensures p < |trace| && trace[p].DidPut? && Puts(trace[..p + 1]) == Puts(trace)
    decreases |trace|
  {
    var k := |trace| - 1;
    if trace[k].DidPut? {
      p := k;
      assert trace[..k + 1] == trace;
    } else {
      p := LastPut(trace[..k]);
      assert trace[..k][..p + 1] == trace[..p + 1];
    }
  }

  /** The verification of a second failed PUT is the last call. */
  lemma SecondPutLast(known: bool, trace: seq<Act>, p: nat)
    requires Follows(Fresh(known), trace) == Some(Over) && p + 1 < |trace| && trace[p].DidPut? && Puts(trace[..p + 1]) == 2 && FailedPut(trace, p + 1)
    ensures |trace| == p + 2 && Verdict(trace) == Err(GaveUp)
  {
    NextPhase(known, trace, p + 1);
    PutsOf(known, trace[..p + 1]);
    PhaseAfter(known, trace[..p + 1]);
    assert trace[..p + 1][p] == trace[p];
    if p + 2 < |trace| { PhaseOver(known, trace, p + 1); }
  }

  /** And it gives up exactly after two PUTs, each failed and each followed by such a verification. */
  lemma GivesUpExactly(known: bool, trace: seq<Act>)
    requires Follows(Fresh(known), trace) == Some(Over) && Honest(trace)
    ensures Verdict(trace) == Err(GaveUp) <==>
              Puts(trace) == 2 && forall i :: 0 <= i < |trace| && trace[i].DidPut? ==> i + 1 < |trace| && FailedPut(trace, i + 1)
  {
    if Verdict(trace) == Err(GaveUp) {
      TwoPuts(known, trace);
      forall i | 0 <= i < |trace| && trace[i].DidPut? ensures i + 1 < |trace| && FailedPut(trace, i + 1) { GaveUpPut(known, trace, i); }
    }
    if Puts(trace) == 2 && forall i :: 0 <= i < |trace| && trace[i].DidPut? ==> i + 1 < |trace| && FailedPut(trace, i + 1) {
      var p := LastPut(trace);
      SecondPutLast(known, trace, p);
    }
  }

  lemma TwoPuts(known: bool, trace: seq<Act>)
    requires Follows(Fresh(known), trace) == Some(Over) && Honest(trace) && Verdict(trace) == Err(GaveUp)
    ensures Puts(trace) == 2
  {
    var k := |trace| - 1;
    assert Truthful(trace[k]);
    assert trace[..k + 1] == trace;
    NextPhase(known, trace, k);
    PutsOf(known, trace[..k]);
    PhaseAfter(known, trace[..k]);
    assert trace[..k][k - 1] == trace[k - 1];
  }

  /** No call reports what only the page can say. */
  predicate Honest(trace: seq<Act>) { forall i :: 0 <= i < |trace| ==> Truthful(trace[i]) }

  predicate Truthful(a: Act) {
    match a
    case DidPrepare(r) => r.Err? ==> Spoken(r.error)
    case DidAuthorize(r) => r.Err? ==> Spoken(r.error)
    case DidComplete(r) => r.Err? ==> Spoken(r.error)
    case DidPut(_) => true
  }

  // ---------------------------------------------------------------- the page and its calls

  /** What the page shows. */
  datatype Stage = Preparing | Uploading | Verifying

  /** The page's calls. Each goes to the server's handler, and its reply may be lost on the way back. */
  class Page {
    const server: Server
    const file: Preparation
    var stage: Stage
    var canceled: bool
    var trace: seq<Act>

    constructor (server: Server, file: Preparation)
      ensures this.server == server && this.file == file && stage == Preparing && !canceled && trace == []
    {
      this.server, this.file, stage, canceled, trace := server, file, Preparing, false, [];
    }

    /** The server watches this page's file. */
    ghost predicate Watched() { server.watch.file == file }

    method Complete(ghost begin: State, id: nat) returns (result: Result<(), Failure>, ghost n: State)
      requires Tracked(begin, server.s)
      modifies this`trace, server
      ensures Answers(begin, n, server.s, file.session, id, result) && trace == old(trace) + [DidComplete(result)]
      ensures result.Err? ==> Explains(begin, n, server.s, file.event, file.link, file.session, id, result.error)
      ensures (server.calm ==> old(server.calm)) && (server.welcome ==> old(server.welcome))
      ensures server.calm && Watched() && Mine(old(server.s), file, id) ==> Concluded(old(server.s), server.s, file, id, result)
    {
      ghost var before := server.s;
      result, n := server.Complete(begin, file.event, file.link, file.session, id);
      ghost var was := server.s;
      var c, alive := server.Wait(begin, None);
      ConcludedStays(before, was, server.s, file, id, result);
      if !alive { result := Err(Network); } else if Tracked(n, was) { TrackedOn(n, was, server.s); }
      trace := trace + [DidComplete(result)];
    }

    method Prepare(ghost begin: State) returns (result: Result<(nat, bool), Failure>)
      requires Tracked(begin, server.s)
      modifies this`trace, server
      ensures Tracked(begin, server.s) && (result.Err? ==> Spoken(result.error))
      ensures trace == old(trace) + [DidPrepare(if result.Ok? then Ok(result.value.1) else Err(result.error))]
      ensures result.Ok? ==> IsRow(server.s, file.event, file.session, file.request, result.value.0)
      ensures result.Ok? && result.value.1 ==> ReadyAt(server.s, file.session, result.value.0)
      ensures (server.calm ==> old(server.calm)) && (server.welcome ==> old(server.welcome))
      ensures server.calm && server.welcome && Watched() && server.Preparable(old(server.s)) ==>
                result.Ok? && !result.value.1 && Planned(server.s, file, result.value.0)
    {
      var answer := server.Prepare(begin, file);
      ghost var was := server.s;
      var c, alive := server.Wait(begin, None);
      if answer.Ok? { PlannedAside(was, server.s, file, answer.value.0); }
      result := if !alive then Err(Network) else if answer.Ok? then Ok((answer.value.0, answer.value.1.status.Ready?)) else Err(answer.error);
      if result.Ok? { IsRowStays(was, server.s, file.event, file.session, file.request, result.value.0); }
      trace := trace + [DidPrepare(if result.Ok? then Ok(result.value.1) else Err(result.error))];
    }

    method Authorize(ghost begin: State, id: nat) returns (result: Result<(), Failure>, ghost n: State)
      requires Tracked(begin, server.s)
      modifies this`trace, server
      ensures Tracked(begin, server.s) && trace == old(trace) + [DidAuthorize(result)] && (result.Err? ==> Spoken(result.error))
      ensures result.Err? ==> Explains(begin, n, server.s, file.event, file.link, file.session, id, result.error)
      ensures (server.calm ==> old(server.calm)) && (server.welcome ==> old(server.welcome))
      ensures server.calm && server.welcome && Watched() && Waiting(old(server.s), file, id) ==>
                result.Ok? && Planned(server.s, file, id) && (id in server.s.objects <==> id in old(server.s).objects)
    {
      var plan;
      plan, n := server.Authorize(begin, file.event, file.link, file.session, id);
      ghost var was := server.s;
      var c, alive := server.Wait(begin, None);
      PlannedAside(was, server.s, file, id);
      result := if !alive then Err(Network) else if plan.Ok? then Ok(()) else Err(plan.error);
      if Tracked(n, was) { TrackedOn(n, was, server.s); }
      trace := trace + [DidAuthorize(result)];
    }

    method Put(ghost begin: State, id: nat) returns (ok: bool)
      requires Tracked(begin, server.s)
      modifies this`trace, server
      ensures Tracked(begin, server.s) && trace == old(trace) + [DidPut(ok)]
      ensures (server.calm ==> old(server.calm)) && (server.welcome ==> old(server.welcome))
      ensures server.calm && Watched() && Planned(old(server.s), file, id) ==>
                Planned(server.s, file, id) && (ok <==> id !in old(server.s).objects) && (ok ==> Arrived(server.s, file, id))
    {
      ok := server.Put(begin, id);
      trace := trace + [DidPut(ok)];
    }

    /** Once canceled, the run stays canceled. */
    method IsCanceled() returns (yes: bool)
      modifies this`canceled, server`chances
      ensures yes == canceled && (old(canceled) ==> canceled)
    {
      var c := server.Draw();
      canceled := canceled || c.canceled;
      yes := canceled;
    }

    method Show(stage: Stage)
      modifies this`stage
      ensures this.stage == stage
    {
      this.stage := stage;
    }
  }

  lemma ConcludedStays(was: State, m: State, s: State, f: Preparation, i: nat, result: Result<(), Failure>)
    ensures Concluded(was, m, f, i, result) && Aside(m, s, f) ==> Concluded(was, s, f, i, result)
  {
    if Concluded(was, m, f, i, result) && Aside(m, s, f) { AsideMine(m, s, f, i); }
  }

  /** A run of the page from `begin`: where the server is now, and the protocol phase of the calls. */
  ghost predicate Running(p: Page, begin: State, known: bool, a: Attempt, q: Phase)
    reads p, p.server
  {
    && Tracked(begin, p.server.s) && Owns(p.server.s, p.file, a) && Addressed(p.file, a)
    && Follows(Fresh(known), p.trace) == Some(q) && Honest(p.trace)
  }

  /** At some moment of the run the row of the attempt was ready, with its object unless the key was retired. */
  ghost predicate WasReady(begin: State, end: State, f: Preparation, a: Attempt) {
    a.asset.Some? && exists n :: Between(begin, n, end) && ReadyAt(n, f.session, a.asset.value)
                                 && a.asset.value in Requested(n.db.assets, f.session, f.request)
  }

  /** At some moment of the run asset `i` was gone, or not ready. */
  ghost predicate WasOpen(begin: State, end: State, i: nat) {
    exists n :: Between(begin, n, end) && (i !in n.db.assets || n.db.assets[i].status.Pending?)
  }

  /** An error that dismisses the asset was answered at a moment when it was gone or pending. */
  lemma Dismissed(begin: State, was: State, n: State, end: State, f: Preparation, i: nat, error: Failure)
    requires Tracked(begin, was) && Explains(was, n, end, f.event, f.link, f.session, i, error) && IsRow(was, f.event, f.session, f.request, i)
    ensures Dismisses(error) ==> WasOpen(begin, end, i)
  {
    if Dismisses(error) {
      TrackedOn(begin, was, n);
      IsRowStays(was, n, f.event, f.session, f.request, i);
      assert Between(begin, n, end);
    }
  }

  /** A positive answer was given at a moment when the row was ready. */
  lemma Answered(begin: State, was: State, n: State, end: State, f: Preparation, a: Attempt, result: Result<(), Failure>)
    requires Tracked(begin, was) && a.asset.Some? && Answers(was, n, end, f.session, a.asset.value, result) && Owns(was, f, a)
    ensures result.Ok? ==> WasReady(begin, end, f, a)
  {
    if result.Ok? {
      TrackedOn(begin, was, n);
      OwnsStays(was, n, f, a);
      assert Between(begin, n, end);
    }
  }

  lemma Follow(known: bool, trace: seq<Act>, q: Phase, a: Act)
    requires Follows(Fresh(known), trace) == Some(q) && Honest(trace)
    ensures Follows(Fresh(known), trace + [a]) == After(q, a) && (Truthful(a) ==> Honest(trace + [a]))
  {
    assert (trace + [a])[..|trace|] == trace;
  }

  /** The page's `complete`: verification, unless the guest has canceled. */
  method Verify(p: Page, ghost begin: State, ghost known: bool, a: Attempt, ghost q: Phase) returns (result: Result<(), Failure>, ghost next: Phase)
    requires Running(p, begin, known, a, q) && a.asset.Some? && (q == Fresh(true) || q.MustVerify?) && !p.canceled
    modifies p, p.server
    ensures Running(p, begin, known, a, next)
    ensures result.Ok? ==> WasReady(begin, p.server.s, p.file, a)
    ensures result.Err? && Dismisses(result.error) ==> WasOpen(begin, p.server.s, a.asset.value)
    ensures if p.canceled then result == Err(Canceled) else p.trace == old(p.trace) + [DidComplete(result)] && Some(next) == After(q, DidComplete(result))
    ensures (p.server.calm ==> old(p.server.calm)) && (p.server.welcome ==> old(p.server.welcome))
    ensures p.server.calm && p.Watched() && Mine(old(p.server.s), p.file, a.asset.value) && !p.canceled ==>
              Concluded(old(p.server.s), p.server.s, p.file, a.asset.value, result)
  {
    var canceled := p.IsCanceled();
    if canceled { return Err(Canceled), q; }
    p.Show(Verifying);
    ghost var n;
    ghost var trace, was := p.trace, p.server.s;
    TrackedSelf(was);
    result, n := p.Complete(was, a.asset.value);
    Follow(known, trace, q, DidComplete(result));
    TrackedOn(begin, was, p.server.s);
    OwnsStays(was, p.server.s, p.file, a);
    next := After(q, DidComplete(result)).value;
    Answered(begin, was, n, p.server.s, p.file, a, result);
    if result.Err? { Dismissed(begin, was, n, p.server.s, p.file, a.asset.value, result.error); }
  }

  method Reauthorize(p: Page, ghost begin: State, ghost known: bool, a: Attempt, ghost q: Phase) returns (result: Result<(), Failure>, ghost next: Phase)
    requires Running(p, begin, known, a, q) && a.asset.Some? && q.MustAuthorize?
    modifies p`stage, p`trace, p.server
    ensures Running(p, begin, known, a, next) && next == if result.Ok? then MayPut(q.sent) else Over
    ensures result.Err? && Dismisses(result.error) ==> WasOpen(begin, p.server.s, a.asset.value)
    ensures p.trace == old(p.trace) + [DidAuthorize(result)]
    ensures (p.server.calm ==> old(p.server.calm)) && (p.server.welcome ==> old(p.server.welcome))
    ensures p.server.calm && p.server.welcome && p.Watched() && Waiting(old(p.server.s), p.file, a.asset.value) ==>
              result.Ok? && Planned(p.server.s, p.file, a.asset.value)
              && (a.asset.value in p.server.s.objects <==> a.asset.value in old(p.server.s).objects)
  {
    p.Show(Preparing);
    ghost var n;
    ghost var trace, was := p.trace, p.server.s;
    TrackedSelf(was);
    result, n := p.Authorize(was, a.asset.value);
    Follow(known, trace, q, DidAuthorize(result));
    TrackedOn(begin, was, p.server.s);
    OwnsStays(was, p.server.s, p.file, a);
    next := After(q, DidAuthorize(result)).value;
    if result.Err? { Dismissed(begin, was, n, p.server.s, p.file, a.asset.value, result.error); }
  }

  method Send(p: Page, ghost begin: State, ghost known: bool, a: Attempt, ghost q: Phase) returns (ok: bool, ghost next: Phase)
    requires Running(p, begin, known, a, q) && a.asset.Some? && q.MayPut?
    modifies p`stage, p`trace, p.server
    ensures Running(p, begin, known, a, next) && next == MustVerify(q.sent + 1, ok) && p.trace == old(p.trace) + [DidPut(ok)]
    ensures (p.server.calm ==> old(p.server.calm)) && (p.server.welcome ==> old(p.server.welcome))
    ensures p.server.calm && p.Watched() && Planned(old(p.server.s), p.file, a.asset.value) ==>
              Planned(p.server.s, p.file, a.asset.value) && (ok <==> a.asset.value !in old(p.server.s).objects)
              && (ok ==> Arrived(p.server.s, p.file, a.asset.value))
  {
    p.Show(Uploading);
    ghost var trace, was := p.trace, p.server.s;
    TrackedSelf(was);
    ok := p.Put(was, a.asset.value);
    Follow(known, trace, q, DidPut(ok));
    TrackedOn(begin, was, p.server.s);
    OwnsStays(was, p.server.s, p.file, a);
    next := MustVerify(q.sent + 1, ok);
  }

  /** What a failure of a run that held an asset id tells. */
  ghost predicate Tells(begin: State, end: State, a: Attempt, error: Failure) {
    a.asset.Some? && Dismisses(error) ==> WasOpen(begin, end, a.asset.value)
  }

  /** What the end of a run tells: after success the row was ready, and without cancellation the protocol is at its end and the result
      is that of the last calls. */
  ghost predicate Ends(p: Page, begin: State, a: Attempt, q: Phase, result: Result<(), Failure>)
    reads p, p.server
  {
    && (result.Ok? ==> WasReady(begin, p.server.s, p.file, a)) && (result.Err? ==> Tells(begin, p.server.s, a, result.error))
    && if p.canceled then result == Err(Canceled) else q == Over && result == Verdict(p.trace)
  }

  /** One PUT and its verification; None means that the page may try again with a new plan. */
  method PutAndVerify(p: Page, ghost begin: State, ghost known: bool, a: Attempt, ghost q: Phase, attempt: nat) returns (result: Option<Result<(), Failure>>, ghost next: Phase)
    requires Running(p, begin, known, a, q) && a.asset.Some? && q == MayPut(attempt) && attempt < 2 && !p.canceled
    modifies p, p.server
    ensures Running(p, begin, known, a, next)
    ensures if result.Some? then Ends(p, begin, a, next, result.value) else attempt == 0 && next == MayPut(1) && !p.canceled
    ensures (p.server.calm ==> old(p.server.calm)) && (p.server.welcome ==> old(p.server.welcome))
    ensures p.server.calm && p.server.welcome && p.Watched() && !p.canceled ==>
              Planned(old(p.server.s), p.file, a.asset.value) && (attempt == 0 || a.asset.value !in old(p.server.s).objects) ==> Goes(p, a.asset.value, result)
  {
    var canceled := p.IsCanceled();
    if canceled { return Some(Err(Canceled)), q; }
    var ok;
    ok, next := Send(p, begin, known, a, q);
    if !ok {
      canceled := p.IsCanceled();
      if canceled { return Some(Err(Canceled)), next; }
    }
    result, next := VerifyPut(p, begin, known, a, next, attempt, ok);
  }

  /** What undisturbed attempts come to: success, or a second plan with no object in the way. */
  ghost predicate Goes(p: Page, i: nat, result: Option<Result<(), Failure>>)
    reads p, p.server
  {
    match result
    case Some(r) => r.Ok?
    case None => Planned(p.server.s, p.file, i) && i !in p.server.s.objects
  }

  method VerifyPut(p: Page, ghost begin: State, ghost known: bool, a: Attempt, ghost q: Phase, attempt: nat, ok: bool) returns (result: Option<Result<(), Failure>>, ghost next: Phase)
    requires Running(p, begin, known, a, q) && a.asset.Some? && q == MustVerify(attempt + 1, ok) && attempt < 2 && !p.canceled
    requires p.trace != [] && p.trace[|p.trace| - 1] == DidPut(ok)
    modifies p, p.server
    ensures Running(p, begin, known, a, next)
    ensures if result.Some? then Ends(p, begin, a, next, result.value) else attempt == 0 && next == MayPut(1) && !p.canceled
    ensures (p.server.calm ==> old(p.server.calm)) && (p.server.welcome ==> old(p.server.welcome))
    ensures p.server.calm && p.server.welcome && p.Watched() && !p.canceled ==>
              Planned(old(p.server.s), p.file, a.asset.value) && ((!ok && attempt == 0) || Arrived(old(p.server.s), p.file, a.asset.value)) ==>
                Goes(p, a.asset.value, result)
  {
    ghost var trace := p.trace;
    var verified;
    verified, next := Verify(p, begin, known, a, q);
    VerifiedLast(trace, p.trace, ok, verified);
    if ok || verified.Ok? || !CanUpload(verified.error) { return Some(verified), next; }
    result, next := PlanAgain(p, begin, known, a, next, attempt);
  }

  lemma VerifiedLast(trace: seq<Act>, now: seq<Act>, ok: bool, r: Result<(), Failure>)
    requires trace != [] && trace[|trace| - 1] == DidPut(ok)
    ensures now == trace + [DidComplete(r)] ==> Verdict(now) == if r.Err? && CanUpload(r.error) && !ok then Err(GaveUp) else r
  {}

  method PlanAgain(p: Page, ghost begin: State, ghost known: bool, a: Attempt, ghost q: Phase, attempt: nat) returns (result: Option<Result<(), Failure>>, ghost next: Phase)
    requires Running(p, begin, known, a, q) && a.asset.Some? && !p.canceled
    requires if attempt == 0 then q == MustAuthorize(1) else q == Over && Verdict(p.trace) == Err(GaveUp)
    modifies p, p.server
    ensures Running(p, begin, known, a, next)
    ensures if result.Some? then result.value.Err? && Ends(p, begin, a, next, result.value) else attempt == 0 && next == MayPut(1) && !p.canceled
    ensures (p.server.calm ==> old(p.server.calm)) && (p.server.welcome ==> old(p.server.welcome))
    ensures p.server.calm && p.server.welcome && p.Watched() && attempt == 0 ==>
              Waiting(old(p.server.s), p.file, a.asset.value) && a.asset.value !in old(p.server.s).objects ==> Goes(p, a.asset.value, result)
  {
    if attempt > 0 { return Some(Err(GaveUp)), q; }
    var plan;
    plan, next := Reauthorize(p, begin, known, a, q);
    result := if plan.Ok? then None else Some(Err(plan.error));
  }

  /** The page's `prepare`: the attempt learns its asset id, and holds a plan unless the row is ready. */
  method Begin(p: Page, ghost begin: State, attempt: Attempt) returns (result: Result<bool, Failure>, a: Attempt, ghost next: Phase)
    requires Running(p, begin, false, attempt, Fresh(false)) && attempt.asset.None? && p.trace == [] && !p.canceled
    modifies p`stage, p`trace, p.server
    ensures Running(p, begin, false, a, next) && a == attempt.(asset := a.asset) && (result.Ok? <==> a.asset.Some?)
    ensures result == Ok(true) ==> WasReady(begin, p.server.s, p.file, a)
    ensures next == (if result == Ok(false) then MayPut(0) else Over) && p.trace == [DidPrepare(result)]
    ensures (p.server.calm ==> old(p.server.calm)) && (p.server.welcome ==> old(p.server.welcome))
    ensures p.server.calm && p.server.welcome && p.Watched() && p.server.Preparable(old(p.server.s)) ==>
              result == Ok(false) && Planned(p.server.s, p.file, a.asset.value)
  {
    p.Show(Preparing);
    var prepared := p.Prepare(begin);
    a := if prepared.Ok? then attempt.(asset := Some(prepared.value.0)) else attempt;
    result := if prepared.Ok? then Ok(prepared.value.1) else Err(prepared.error);
    Follow(false, [], Fresh(false), DidPrepare(result));
    assert [] + [DidPrepare(result)] == [DidPrepare(result)];
    next := After(Fresh(false), DidPrepare(result)).value;
    if result == Ok(true) {
      TrackedSelf(p.server.s);
      assert Between(begin, p.server.s, p.server.s);
    }
  }

  /** Nothing stands in the way of the file at the start: a held asset id is that of its idle row, and without one the row is pending, if
      there is one. */
  ghost predicate Ready(p: Page, s: State, a: Attempt)
    reads p.server
  {
    p.Watched() && match a.asset case Some(i) => Mine(s, p.file, i) case None => p.server.Preparable(s)
  }

  /** The first verification of a held asset id, and a new plan if the file has to be sent again; None means that it has. */
  method Resume(p: Page, ghost begin: State, a: Attempt) returns (result: Option<Result<(), Failure>>, ghost next: Phase)
    requires Running(p, begin, true, a, Fresh(true)) && a.asset.Some? && p.trace == [] && !p.canceled
    modifies p, p.server
    ensures Running(p, begin, true, a, next)
    ensures if result.Some? then Ends(p, begin, a, next, result.value) else next == MayPut(0) && !p.canceled
    ensures (p.server.calm ==> old(p.server.calm)) && (p.server.welcome ==> old(p.server.welcome))
    ensures p.server.calm && p.server.welcome && p.Watched() && Mine(old(p.server.s), p.file, a.asset.value) && !p.canceled ==> Goes(p, a.asset.value, result)
  {
    var verified;
    verified, next := Verify(p, begin, true, a, Fresh(true));
    if verified.Ok? || !CanUpload(verified.error) { return Some(verified), next; }
    var canceled := p.IsCanceled();
    if canceled { return Some(Err(Canceled)), next; }
    var plan;
    plan, next := Reauthorize(p, begin, true, a, next);
    result := if plan.Ok? then None else Some(Err(plan.error));
  }

  /** runDirect. A normal return means that the attempt's row was ready at some moment of the run, by the server's own steps; the
      attempt may learn its asset id. Unless it is canceled, the run ends only where the protocol ends, with the result of the last
      calls; and if nothing disturbs the file, no call is lost or refused, and event and session stay open with room for it, it
      succeeds. */
  method RunDirect(p: Page, attempt: Attempt) returns (result: Result<(), Failure>, a: Attempt)
    requires Reachable(p.server.s) && Owns(p.server.s, p.file, attempt) && Addressed(p.file, attempt) && p.trace == [] && !p.canceled
    modifies p, p.server
    ensures Tracked(old(p.server.s), p.server.s) && Owns(p.server.s, p.file, a)
    ensures a == attempt || (attempt.asset.None? && a == attempt.(asset := a.asset))
    ensures Follows(Fresh(attempt.asset.Some?), p.trace).Some? && Honest(p.trace)
    ensures result.Ok? ==> WasReady(old(p.server.s), p.server.s, p.file, a)
    ensures result.Err? ==> Tells(old(p.server.s), p.server.s, a, result.error)
    ensures if p.canceled then result == Err(Canceled) else Follows(Fresh(attempt.asset.Some?), p.trace) == Some(Over) && result == Verdict(p.trace)
    ensures p.server.calm && p.server.welcome && !p.canceled && Ready(p, old(p.server.s), attempt) ==> result.Ok?
  {
    ghost var begin, known := p.server.s, attempt.asset.Some?;
    ghost var q := Fresh(known);
    TrackedSelf(begin);
    a := attempt;
    if a.asset.Some? {
      var done;
      done, q := Resume(p, begin, a);
      if done.Some? { return done.value, a; }
    } else {
      var canceled := p.IsCanceled();
      if canceled { return Err(Canceled), a; }
      var prepared;
      prepared, a, q := Begin(p, begin, a);
      if prepared.Err? { return Err(prepared.error), a; }
      if prepared.value { return Ok(()), a; }
    }
    result, q := PutTwice(p, begin, known, a, q);
  }

  /** At most two PUTs. */
  method PutTwice(p: Page, ghost begin: State, ghost known: bool, a: Attempt, ghost q: Phase) returns (result: Result<(), Failure>, ghost next: Phase)
    requires Running(p, begin, known, a, q) && a.asset.Some? && q == MayPut(0) && !p.canceled
    modifies p, p.server
    ensures Running(p, begin, known, a, next) && Ends(p, begin, a, next, result)
    ensures (p.server.calm ==> old(p.server.calm)) && (p.server.welcome ==> old(p.server.welcome))
    ensures p.server.calm && p.server.welcome && p.Watched() && Planned(old(p.server.s), p.file, a.asset.value) && !p.canceled ==> result.Ok?
  {
    next := q;
    var put := 0;
    while put < 2
      invariant 0 <= put < 2 && Running(p, begin, known, a, next) && next == MayPut(put) && !p.canceled
      invariant (p.server.calm ==> old(p.server.calm)) && (p.server.welcome ==> old(p.server.welcome))
      invariant p.server.calm && p.server.welcome && p.Watched() && Planned(old(p.server.s), p.file, a.asset.value) ==>
                  Planned(p.server.s, p.file, a.asset.value) && (put == 1 ==> a.asset.value !in p.server.s.objects)
    {
      var done;
      done, next := PutAndVerify(p, begin, known, a, next, put);
      if done.Some? { return done.value, next; }
      put := put + 1;
    }
    assert false;
  }

  // ---------------------------------------------------------------- recoverUploadGrant

  /** Whether the page forgets: the server says the session or the asset is gone, or refuses a new authorization. */
  predicate Forgets(e: Failure, stage: Stage) {
    && e.Server?
    && ((e.status == 404 && (e.code.SessionNotFound? || e.code.AssetNotFound?))
        || (!stage.Verifying? && e.status == 409 && (e.code.SessionExpired? || e.code.SessionQuota?)))
  }

  /** The grant goes with the asset id; the request id stays. */
  function RecoverGrant(a: Attempt, e: Failure, stage: Stage): Attempt {
    if Forgets(e, stage) then Attempt(None, a.request, None) else a
  }

  lemma Forgotten(begin: State, end: State, a: Attempt, error: Failure, stage: Stage)
    requires Tells(begin, end, a, error)
    ensures var r := RecoverGrant(a, error, stage);
            if Forgets(error, stage) then r.grant.None? && r.asset.None? && (a.asset.Some? ==> WasOpen(begin, end, a.asset.value)) else r == a
  {}

  /** The server says that the session or the asset is gone or, before the verification, that the session has expired or is full. */
  predicate Spent(e: Failure, stage: Stage) {
    match e
    case Server(code, status) =>
      (status == 404 && code in [SessionNotFound, AssetNotFound]) || (status == 409 && code in [SessionExpired, SessionQuota] && stage != Verifying)
    case _ => false
  }

  lemma ForgetsExactly(e: Failure, stage: Stage)
    ensures Forgets(e, stage) <==> Spent(e, stage)
  {}

  /** One attempt of the page at a file. It forgets an asset id that it held only if at some moment of the attempt the row was
      gone or pending; else it keeps what it has, and after a normal return the row was ready. */
  method Try(p: Page, attempt: Attempt) returns (ok: bool, a: Attempt, ghost held: Option<nat>, ghost failure: Option<Failure>)
    requires Reachable(p.server.s) && Owns(p.server.s, p.file, attempt) && Addressed(p.file, attempt) && p.trace == [] && !p.canceled
    modifies p, p.server
    ensures Tracked(old(p.server.s), p.server.s) && a.request == attempt.request && (attempt.asset.Some? ==> held == attempt.asset)
    ensures if a.grant.None? then a.asset.None? && (held.Some? ==> WasOpen(old(p.server.s), p.server.s, held.value))
            else a.grant == attempt.grant && a.asset == held && Owns(p.server.s, p.file, a)
    ensures ok ==> a.grant.Some? && WasReady(old(p.server.s), p.server.s, p.file, a)
    ensures if p.canceled then failure == Some(Canceled)
            else failure == match Verdict(p.trace) case Ok(_) => None case Err(e) => Some(e)
    ensures (ok <==> failure.None?) && (a.grant.None? <==> failure.Some? && Spent(failure.value, p.stage))
  {
    var result;
    result, a := RunDirect(p, attempt);
    held := a.asset;
    ok := result.Ok?;
    failure := if ok then None else Some(result.error);
    if !ok {
      ForgetsExactly(result.error, p.stage);
      Forgotten(old(p.server.s), p.server.s, a, result.error, p.stage);
      a := RecoverGrant(a, result.error, p.stage);
    }
  }

  /** Sending again after forgetting: the new session is not the old one, so the request id finds no old row. Whenever it is
      prepared there, the session has exactly one row of the request, distinct from the old one; the first time that is one
      further row, and later nothing is added. */
  lemma SendsAgain(ts: seq<Step>, s: State, e: nat, session: nat, request: nat, i: nat, k: nat, x: Session, link: nat, now: nat, n: State,
                   us: seq<Step>, m: State, p: Preparation, j: nat, later: nat, q: State)
    requires Reaches(ts, s) && IsRow(s, e, session, request, i) && OpenSessionStep(s, k, x, link, now) == Some(n) && Run(n, us) == Some(m)
    requires p.session == k && p.request == request && PrepareStep(m, p, j, later) == Some(q)
    ensures Requested(n.db.assets, k, request) == {}
    ensures exists r :: Requested(q.db.assets, k, request) == {r} && r != i
    ensures if Requested(m.db.assets, k, request) == {} then j !in m.db.assets && j != i && q.db.assets - {j} == m.db.assets && j in q.db.assets
            else q.db.assets == m.db.assets
  {
    ReachedInv(ts, s);
    OpenSessionSafe(s, k, x, link, now);
    NewSessionEmpty(s, n, k, x, link, now, request);
    RunSafe(n, us);
    RunKeeps(n, us);
    PrepareSafe(m, p, j, later);
    PreparedOnce(m, p, j, later, q);
    PrepareKept(m, p, j, later);
    NotOfSession(n, m, k, i);
    NotOfSession(m, q, k, i);
    var r :| Requested(q.db.assets, k, request) == {r};
    assert r in Requested(q.db.assets, k, request);
  }

  /** A drawn id that is no row of session `k` never becomes one. */
  lemma NotOfSession(s: State, n: State, k: nat, i: nat)
    requires Keeps(s, n) && i in s.drawn && (i in s.db.assets ==> s.db.assets[i].session != k)
    ensures i in n.drawn && (i in n.db.assets ==> n.db.assets[i].session != k)
  {
    assert AssetKept(s, n, i);
  }

  lemma NewSessionEmpty(s: State, n: State, k: nat, x: Session, link: nat, now: nat, request: nat)
    requires Inv(s) && OpenSessionStep(s, k, x, link, now) == Some(n)
    ensures n.db.assets == s.db.assets && s.drawn <= n.drawn && Requested(n.db.assets, k, request) == {}
    ensures forall i :: i in n.db.assets ==> n.db.assets[i].session != k
  {
    forall i | i in s.db.assets ensures s.db.assets[i].session != k { assert s.db.assets[i].session in s.db.sessions; }
  }

  /** After a preparation its session has exactly one row of the request. */
  lemma PreparedOnce(s: State, p: Preparation, j: nat, now: nat, q: State)
    requires Inv(s) && Inv(q) && PrepareStep(s, p, j, now) == Some(q)
    ensures exists r :: Requested(q.db.assets, p.session, p.request) == {r}
    ensures if Requested(s.db.assets, p.session, p.request) == {} then j !in s.db.assets && q.db.assets - {j} == s.db.assets && j in q.db.assets
            else q.db.assets == s.db.assets
  {
    var rows := Requested(q.db.assets, p.session, p.request);
    Undrawn(s, j);
    var r := if Requested(s.db.assets, p.session, p.request) == {} then j else Min(Requested(s.db.assets, p.session, p.request));
    assert r in rows;
    forall i | i in rows ensures i == r { assert SameRequest(q.db.assets[i], q.db.assets[r]); }
    assert rows == {r};
  }
}
