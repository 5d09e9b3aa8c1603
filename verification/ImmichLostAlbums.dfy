/** What becomes of a CreateAlbum request whose answer was lost: its album is found again by its marker, exactly if the request
    arrived. */
module ImmichLostAlbums {
  import opened Wrappers
  import opened Ordered
  import opened ImmichSteps
  import opened ImmichInvariant
  import opened ImmichRuns
  import opened ImmichTheorems

  /** A CreateAlbum request with this marker. */
  predicate Asks(s: State, t: Step, m: nat) { t.SendCreate? && s.exec.Exec? && s.exec.phase.AlbumIntent? && s.exec.phase.marker == m }

  /** How the last request with the marker went in a run from empty tables, if there was one. */
  function CreateOf(ts: seq<Step>, m: nat): Option<Outcome> {
    if ts == [] then None
    else
      var p, t := ts[..|ts| - 1], ts[|ts| - 1];
      match Run(START, p)
      case None => None
      case Some(s) => if Asks(s, t, m) then Some(t.outcome) else CreateOf(p, m)
  }

  predicate Arrived(o: Option<Outcome>) { o == Some(Answered) || o == Some(ReplyLost) }

  ghost predicate HasAlbum(albums: map<nat, nat>, m: nat) { exists i :: i in albums && albums[i] == m }

  /** The remote has one album for each marker whose request arrived, and no other. */
  ghost predicate Made(ts: seq<Step>, r: Remote) {
    && (forall m :: m in r.creates <==> CreateOf(ts, m).Some?)
    && (forall m :: HasAlbum(r.albums, m) <==> Arrived(CreateOf(ts, m)))
    && (forall i, j :: i in r.albums && j in r.albums && r.albums[i] == r.albums[j] ==> i == j)
  }

  lemma CreateAfter(ts: seq<Step>, s: State, t: Step, m: nat)
    requires Run(START, ts) == Some(s)
    ensures CreateOf(ts + [t], m) == if Asks(s, t, m) then Some(t.outcome) else CreateOf(ts, m)
  {
    assert (ts + [t])[..|ts|] == ts;
  }

  predicate AlbumsSame(r: Remote, n: Remote) { n.albums == r.albums && n.creates == r.creates }

  predicate OfWorker(t: Step) {
    t.Take? || t.Drop? || t.Load? || t.Mark? || t.Upload? || t.Save? || t.Add? || t.Account? || t.Fault?
  }

  predicate OfJob(t: Step) {
    t.EndWork? || t.Finish? || t.StopFeeding? || t.AlbumKnown? || t.MarkCreating? || t.FindAlbum? || t.SaveAlbum? || t.Crash? || t.Stop?
    || t.Recover? || t.Observe? || t.Claim? || t.FailEarly? || t.TakeSnapshot?
  }

  lemma WorkerSame(s: State, t: Step)
    requires OfWorker(t) && Next(s, t).Some?
    ensures AlbumsSame(s.remote, Next(s, t).value.remote)
  {}

  lemma JobSame(s: State, t: Step)
    requires OfJob(t) && Next(s, t).Some?
    ensures AlbumsSame(s.remote, Next(s, t).value.remote)
  {}

  lemma OthersSame(s: State, t: Step)
    requires !t.SendCreate? && !OfWorker(t) && !OfJob(t) && Next(s, t).Some?
    ensures AlbumsSame(s.remote, Next(s, t).value.remote)
  {}

  lemma MadeStays(ts: seq<Step>, s: State, t: Step)
    requires Run(START, ts) == Some(s) && Made(ts, s.remote) && !t.SendCreate? && Next(s, t).Some?
    ensures Made(ts + [t], Next(s, t).value.remote)
  {
    if OfWorker(t) { WorkerSame(s, t); } else if OfJob(t) { JobSame(s, t); } else { OthersSame(s, t); }
    forall m ensures CreateOf(ts + [t], m) == CreateOf(ts, m) { CreateAfter(ts, s, t, m); }
  }

  lemma MadeMore(ts: seq<Step>, s: State, o: Outcome, id: nat)
    requires Run(START, ts) == Some(s) && Inv(s) && Made(ts, s.remote) && SendCreateStep(s, o, id).Some?
    ensures Made(ts + [SendCreate(o, id)], SendCreateStep(s, o, id).value.remote)
  {
    var m, n, us := s.exec.phase.marker, SendCreateStep(s, o, id).value, ts + [SendCreate(o, id)];
    forall k ensures CreateOf(us, k) == if k == m then Some(o) else CreateOf(ts, k) { CreateAfter(ts, s, SendCreate(o, id), k); }
    assert !HasAlbum(s.remote.albums, m);
    forall k ensures HasAlbum(n.remote.albums, k) <==> Arrived(CreateOf(us, k)) {
      if HasAlbum(s.remote.albums, k) {
        var i :| i in s.remote.albums && s.remote.albums[i] == k;
        assert n.remote.albums[i] == k;
      }
      if !o.Refused? { assert n.remote.albums[id] == m; }
    }
  }

  lemma {:induction false} MadeAlways(ts: seq<Step>, n: State)
    requires Reaches(ts, n)
    ensures Made(ts, n.remote)
    decreases |ts|
  {
    if ts != [] {
      var p, t := ts[..|ts| - 1], ts[|ts| - 1];
      LastStep(ts, n);
      assert ts == p + [t];
      var s := Run(START, p).value;
      MadeAlways(p, s);
      ReachedInv(p, s);
      if t.SendCreate? { MadeMore(p, s, t.outcome, t.id); } else { MadeStays(p, s, t); }
    }
  }

  /** An album asked for earlier, whose id is not stored, is looked up by its marker. In any run an answered lookup finds it
      exactly if the run's one request for it arrived, and then no other album carries the marker; the job that finds it goes on
      with it. */
  lemma LookupFinds(ts: seq<Step>, n: State)
    requires Reaches(ts, n) && AtLookup(n) && n.db.bindings[n.exec.binding].album.None? && n.db.bindings[n.exec.binding].state.Creating?
    ensures FindAlbumStep(n, true).Some?
    ensures var m, p := n.db.bindings[n.exec.binding].marker, FindAlbumStep(n, true).value.exec.phase;
            && (p.AlbumReply? <==> Arrived(CreateOf(ts, m)))
            && (p.AlbumReply? ==> forall i :: i in n.remote.albums && n.remote.albums[i] == m <==> i == p.reply)
  {
    MadeAlways(ts, n);
    var m, albums := n.db.bindings[n.exec.binding].marker, n.remote.albums;
    var found := set i | i in albums && albums[i] == m;
    if HasAlbum(albums, m) {
      var i :| i in albums && albums[i] == m;
      assert found == {i};
      FoundIs(n, found);
    } else {
      assert found == {};
      FoundIs(n, found);
    }
  }

  /** The answer names an album exactly if one carries the marker. */
  lemma FoundIs(n: State, found: set<nat>)
    requires AtLookup(n) && n.db.bindings[n.exec.binding].album.None? && n.db.bindings[n.exec.binding].state.Creating?
    requires forall i :: i in found <==> i in n.remote.albums && n.remote.albums[i] == n.db.bindings[n.exec.binding].marker
    ensures FindAlbumStep(n, true).Some?
    ensures FindAlbumStep(n, true).value.exec.phase == if |found| == 1 then AlbumReply(n.exec.phase.todo, Min(found)) else Done(true)
  {
    var f := set i | i in n.remote.albums && n.remote.albums[i] == n.db.bindings[n.exec.binding].marker;
    assert f == found;
    assert FindAlbumStep(n, true) == Some(Phased(n, if |f| == 1 then AlbumReply(n.exec.phase.todo, Min(f)) else Done(true)));
  }
}
