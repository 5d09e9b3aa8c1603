/** The media service as an object over its tables, files and objects, one request at a time. Each method's contract gives
    the whole new state, and that it is reached by steps of the interleaved machine: so every method keeps its invariant. */
module MediaStore {
  import opened Wrappers
  import opened Ordered
  import opened Cursors
  import opened MediaModel
  import opened MediaSteps
  import opened MediaRuns
  import opened MediaDeletion

  const CLEANUP_LIMIT: nat := 1000

  // ---------------------------------------------------------------- local.go

  /** Whether Put renames its .part file to the final name: `size` bytes arrive, and `fault` is an error of an operation up to
      the rename. */
  predicate Publishes(parts: map<nat, nat>, finals: map<nat, nat>, i: nat, size: nat, limit: nat, fault: bool) {
    limit > 0 && i !in parts && i !in finals && 0 < size <= limit && !fault
  }

  /** The .part files it leaves; `stuck` is an error of removing the .part. */
  function PutParts(parts: map<nat, nat>, i: nat, size: nat, limit: nat, published: bool, stuck: bool): map<nat, nat> {
    if published || !stuck || limit == 0 || i in parts then parts else parts[i := if size > limit then limit + 1 else size]
  }

  // ---------------------------------------------------------------- removeAttempt

  /** What removeAttempt leaves of a pending asset. `Refused`: its first storage request failed. `ReplyLost`: the last one did. */
  function Attempted(s: State, i: nat, o: Outcome): State
    requires i in s.db.assets
  {
    match s.db.assets[i].backend
    case Local =>
      (match o
       case Refused => s
       case ReplyLost => s.(parts := s.parts - {i})
       case Answered => s.(parts := s.parts - {i}, finals := s.finals - {i}, db := RemoveTx(s.db, i)))
    case S3 =>
      (match o
       case Refused => s.(db := RetireTx(s.db, i))
       case ReplyLost => s.(db := RetireTx(s.db, i), objects := s.objects - {i})
       case Answered => s.(db := RemoveTx(RetireTx(s.db, i), i), objects := s.objects - {i}))
  }

  /** removeAttempt under the event's exclusive lock is a run of the machine. */
  lemma AttemptedLeads(s: State, e: nat, i: nat, d: bool, o: Outcome, now: nat)
    requires AtRest(s, e, d) && i in s.db.assets && s.db.assets[i].event == e && s.db.assets[i].status.Pending? && (d || Stale(s.db.assets[i], now))
    ensures Leads(s, Attempted(s, i, o))
  {
    var a := ChooseStep(s, e, i, now).value;
    ChooseLeads(s, e, i, now);
    if s.db.assets[i].backend.Local? { LocalAttempt(s, a, e, i, d, o); } else { DirectAttempt(s, a, e, i, d, o); }
    LeadsOn(s, a, Attempted(s, i, o));
  }

  predicate ChosenFrom(s: State, a: State, e: nat, i: nat, d: bool) {
    AtRest(s, e, d) && i in s.db.assets && a == s.(locks := s.locks[e := Holder(d, Some((i, Checked)))])
  }

  lemma LocksBack(locks: map<nat, Holder>, e: nat, d: bool, h: Holder)
    requires e in locks && locks[e] == Holder(d, None)
    ensures locks[e := h][e := Holder(d, None)] == locks
  {}

  lemma LocalAttempt(s: State, a: State, e: nat, i: nat, d: bool, o: Outcome)
    requires ChosenFrom(s, a, e, i, d) && s.db.assets[i].backend.Local?
    ensures Leads(a, Attempted(s, i, o))
  {
    var b := RemovePartStep(a, e).value;
    var c := RemoveFinalStep(b, e).value;
    LocksBack(s.locks, e, d, Holder(d, Some((i, Checked))));
    LocksBack(s.locks, e, d, Holder(d, Some((i, PartGone))));
    LocksBack(s.locks, e, d, Holder(d, Some((i, FinalGone))));
    assert a.locks[e := Holder(d, Some((i, PartGone)))] == s.locks[e := Holder(d, Some((i, PartGone)))];
    assert b.locks[e := Holder(d, Some((i, FinalGone)))] == s.locks[e := Holder(d, Some((i, FinalGone)))];
    match o {
      case Refused => AbandonLeads(a, e);
      case ReplyLost => RemovePartLeads(a, e); AbandonLeads(b, e); LeadsOn(a, b, AbandonStep(b, e).value);
      case Answered => RemovePartLeads(a, e); RemoveFinalLeads(b, e); RemoveRowLeads(c, e); LeadsOn(a, b, c); LeadsOn(a, c, RemoveRowStep(c, e).value);
    }
  }

  lemma DirectAttempt(s: State, a: State, e: nat, i: nat, d: bool, o: Outcome)
    requires ChosenFrom(s, a, e, i, d) && s.db.assets[i].backend.S3?
    ensures Leads(a, Attempted(s, i, o))
  {
    var b := RetireStep(a, e).value;
    var c := DeleteObjectStep(b, e, o).value;
    LocksBack(s.locks, e, d, Holder(d, Some((i, Retired))));
    LocksBack(s.locks, e, d, Holder(d, Some((i, ObjectGone))));
    assert a.locks[e := Holder(d, Some((i, Retired)))] == s.locks[e := Holder(d, Some((i, Retired)))];
    RetireLeads(a, e);
    DeleteObjectLeads(b, e, o);
    LeadsOn(a, b, c);
    if o.Answered? {
      assert c.locks == s.locks[e := Holder(d, Some((i, ObjectGone)))];
      RemoveRowLeads(c, e);
      LeadsOn(a, c, RemoveRowStep(c, e).value);
    }
  }

  // ---------------------------------------------------------------- Cleanup

  function StaleIds(s: State, now: nat): set<nat> { set i | i in s.db.assets && Stale(s.db.assets[i], now) }

  /** One stale row: skipped while its event is busy. `fate` says how each removal goes. */
  function Cleaned(s: State, i: nat, now: nat, busy: set<nat>, fate: nat -> Outcome): State {
    if i !in s.db.assets || !Stale(s.db.assets[i], now) || s.db.assets[i].event in busy then s else Attempted(s, i, fate(i))
  }

  function Swept(s: State, ids: seq<nat>, now: nat, busy: set<nat>, fate: nat -> Outcome): State {
    if ids == [] then s else Cleaned(Swept(s, ids[..|ids| - 1], now, busy, fate), ids[|ids| - 1], now, busy, fate)
  }

  /** DELETE of expired sessions that have no asset; which of them one statement takes is `gone`. */
  function Reclaimed(s: State, gone: set<nat>, now: nat): State {
    s.(db := s.db.(sessions := s.db.sessions - (set k | k in gone && Reclaimable(s.db, k, now))))
  }

  lemma {:induction false} ReclaimedLeads(s: State, gone: set<nat>, now: nat)
    ensures Leads(s, Reclaimed(s, gone, now))
    decreases |gone|
  {
    if k :| k in gone && Reclaimable(s.db, k, now) {
      var rest := gone - {k};
      var n := ReclaimStep(s, k, now).value;
      ReclaimLeads(s, k, now);
      ReclaimedLeads(n, rest, now);
      ReclaimedMore(s, n, gone, k, now);
      LeadsOn(s, n, Reclaimed(n, rest, now));
    } else {
      assert (set k | k in gone && Reclaimable(s.db, k, now)) == {};
      assert s.db.sessions - {} == s.db.sessions;
      LeadsSelf(s);
    }
  }

  lemma ReclaimedMore(s: State, n: State, gone: set<nat>, k: nat, now: nat)
    requires k in gone && ReclaimStep(s, k, now) == Some(n)
    ensures Reclaimed(n, gone - {k}, now) == Reclaimed(s, gone, now)
  {
    var a, b := set i | i in gone && Reclaimable(s.db, i, now), set i | i in gone - {k} && Reclaimable(n.db, i, now);
    assert a == b + {k};
    assert s.db.sessions - {k} - b == s.db.sessions - a;
  }

  /** Of the sessions a statement takes, exactly those go that have expired and have no asset. */
  lemma ReclaimedExactly(s: State, gone: set<nat>, now: nat, k: nat)
    requires k in s.db.sessions
    ensures k !in Reclaimed(s, gone, now).db.sessions
            <==> k in gone && s.db.sessions[k].expires <= now && forall i :: i in s.db.assets ==> s.db.assets[i].session != k
  {
    if i :| i in s.db.assets && s.db.assets[i].session == k { assert i in Members(s.db.assets, OfSession(k)); }
  }

  lemma ReclaimLeads(s: State, i: nat, now: nat)
    requires ReclaimStep(s, i, now).Some?
    ensures Leads(s, ReclaimStep(s, i, now).value)
  {
    LeadsOne(s, Reclaim(i, now));
  }

  /** Nothing else is going on. */
  predicate Alone(s: State) { s.ops == map[] && s.locks == map[] }

  /** The removal does not depend on the locks. */
  lemma LockAttempt(s: State, e: nat, i: nat, o: Outcome)
    requires Alone(s) && i in s.db.assets
    ensures var a := s.(locks := map[e := Holder(false, None)]);
            UnlockStep(Attempted(a, i, o), e) == Some(Attempted(s, i, o)) && Alone(Attempted(s, i, o))
  {
    assert map[e := Holder(false, None)] - {e} == map[];
  }

  lemma Locked(s: State, e: nat)
    requires Alone(s)
    ensures LockStep(s, e, false) == Some(s.(locks := map[e := Holder(false, None)]))
  {
    assert s.locks[e := Holder(false, None)] == map[e := Holder(false, None)];
  }

  lemma CleanedLeads(s: State, i: nat, now: nat, busy: set<nat>, fate: nat -> Outcome)
    requires Alone(s)
    ensures Leads(s, Cleaned(s, i, now, busy, fate)) && Alone(Cleaned(s, i, now, busy, fate))
  {
    LeadsSelf(s);
    if i in s.db.assets && Stale(s.db.assets[i], now) && s.db.assets[i].event !in busy {
      var e := s.db.assets[i].event;
      var a := s.(locks := map[e := Holder(false, None)]);
      Locked(s, e);
      LockLeads(s, e, false);
      AttemptedLeads(a, e, i, false, fate(i), now);
      LockAttempt(s, e, i, fate(i));
      UnlockLeads(Attempted(a, i, fate(i)), e);
      LeadsOn(s, a, Attempted(a, i, fate(i)));
      LeadsOn(s, Attempted(a, i, fate(i)), Attempted(s, i, fate(i)));
    }
  }

  lemma {:induction false} SweptLeads(s: State, ids: seq<nat>, now: nat, busy: set<nat>, fate: nat -> Outcome)
    requires Alone(s)
    ensures Leads(s, Swept(s, ids, now, busy, fate)) && Alone(Swept(s, ids, now, busy, fate))
    decreases |ids|
  {
    if ids == [] {
      LeadsSelf(s);
    } else {
      var m := Swept(s, ids[..|ids| - 1], now, busy, fate);
      SweptLeads(s, ids[..|ids| - 1], now, busy, fate);
      CleanedLeads(m, ids[|ids| - 1], now, busy, fate);
      LeadsOn(s, m, Swept(s, ids, now, busy, fate));
    }
  }

  /** Rows outside `ids` stay, and no row is added or changed. */
  ghost predicate RowsKept(d: map<nat, Asset>, n: map<nat, Asset>, ids: seq<nat>) {
    (forall i :: i in d && i !in ids ==> i in n) && forall i :: i in n ==> i in d && n[i] == d[i]
  }

  lemma AttemptedRows(s: State, i: nat, o: Outcome)
    requires i in s.db.assets
    ensures Attempted(s, i, o).db.assets == if s.db.assets[i].status.Pending? && o.Answered? then s.db.assets - {i} else s.db.assets
  {}

  lemma OneLess(d: map<nat, Asset>, n: map<nat, Asset>, i: nat)
    requires n == d || n == d - {i}
    ensures RowsKept(d, n, [i])
  {}

  lemma CleanedRows(s: State, i: nat, now: nat, busy: set<nat>, fate: nat -> Outcome)
    ensures RowsKept(s.db.assets, Cleaned(s, i, now, busy, fate).db.assets, [i])
  {
    if i in s.db.assets { AttemptedRows(s, i, fate(i)); }
    OneLess(s.db.assets, Cleaned(s, i, now, busy, fate).db.assets, i);
  }

  lemma KeptTwice(d: map<nat, Asset>, m: map<nat, Asset>, n: map<nat, Asset>, ids: seq<nat>, i: nat)
    requires RowsKept(d, m, ids) && RowsKept(m, n, [i])
    ensures RowsKept(d, n, ids + [i])
  {}

  lemma {:induction false} SweptRows(s: State, ids: seq<nat>, now: nat, busy: set<nat>, fate: nat -> Outcome)
    ensures RowsKept(s.db.assets, Swept(s, ids, now, busy, fate).db.assets, ids)
    decreases |ids|
  {
    if ids != [] {
      var rest, last := ids[..|ids| - 1], ids[|ids| - 1];
      var m := Swept(s, rest, now, busy, fate);
      SweptRows(s, rest, now, busy, fate);
      CleanedRows(m, last, now, busy, fate);
      KeptTwice(s.db.assets, m.db.assets, Swept(s, ids, now, busy, fate).db.assets, rest, last);
      assert ids == rest + [last];
    }
  }

  /** A row that cleanup removes: pending, created and last authorized more than an hour before `now`, its event not busy, and
      every storage request of its removal answered. */
  predicate Outdated(a: Asset, now: nat, busy: set<nat>, o: Outcome) {
    && a.status == Pending && a.created + 3600 < now && (match a.authorized case None => true case Some(t) => t + 3600 < now)
    && a.event !in busy && o == Answered
  }

  lemma CleanedExactly(s: State, i: nat, now: nat, busy: set<nat>, fate: nat -> Outcome)
    requires i in s.db.assets
    ensures i !in Cleaned(s, i, now, busy, fate).db.assets <==> Outdated(s.db.assets[i], now, busy, fate(i))
  {
    AttemptedRows(s, i, fate(i));
  }

  /** A pass over `ids` removes exactly the outdated rows among them: a younger row keeps its reservation, and so does every row
      of a busy event. */
  lemma {:induction false} SweptExactly(s: State, ids: seq<nat>, now: nat, busy: set<nat>, fate: nat -> Outcome, i: nat)
    requires i in s.db.assets
    ensures i !in Swept(s, ids, now, busy, fate).db.assets <==> i in ids && Outdated(s.db.assets[i], now, busy, fate(i))
    decreases |ids|
  {
    if ids != [] {
      var rest, last := ids[..|ids| - 1], ids[|ids| - 1];
      var m := Swept(s, rest, now, busy, fate);
      SweptExactly(s, rest, now, busy, fate, i);
      SweptRows(s, rest, now, busy, fate);
      CleanedRows(m, last, now, busy, fate);
      assert ids == rest + [last];
      if i == last && i in m.db.assets { CleanedExactly(m, i, now, busy, fate); }
    }
  }

  /** The rows a pass looks at, in order. */
  function Batch(s: State, now: nat, after: nat): seq<nat> { Sorted(Window(StaleIds(s, now), after, CLEANUP_LIMIT)) }

  /** Of the next 1000 after the cursor: a row is looked at exactly if it is pending, was created and last authorized more than an
      hour before, and fewer than 1000 such rows stand between the cursor and it. */
  lemma BatchExactly(s: State, now: nat, after: nat, i: nat)
    ensures i in Batch(s, now, after) <==>
              && i in s.db.assets && s.db.assets[i].status == Pending && s.db.assets[i].created + 3600 < now
              && (match s.db.assets[i].authorized case None => true case Some(t) => t + 3600 < now)
              && i > after && |Cursors.Between(StaleIds(s, now), after, i)| < 1000
  {
    WindowExactly(StaleIds(s, now), after, CLEANUP_LIMIT, i);
  }

  /** Where the pass after `ids` starts. */
  function AfterBatch(ids: seq<nat>): nat { if |ids| < CLEANUP_LIMIT then 0 else ids[|ids| - 1] }

  lemma BatchCursor(s: State, now: nat, after: nat)
    ensures AfterBatch(Batch(s, now, after)) == NextCursor(Window(StaleIds(s, now), after, CLEANUP_LIMIT), CLEANUP_LIMIT)
  {
    LastIsMax(Window(StaleIds(s, now), after, CLEANUP_LIMIT));
  }

  /** A pass and its cursor have the shape for which no id is starved. */
  lemma CleanupPass(s: State, now: nat, after: nat, busy: set<nat>, fate: nat -> Outcome)
    ensures var n := Swept(s, Batch(s, now, after), now, busy, fate);
            PassAt([StaleIds(s, now), StaleIds(n, now)], [after, AfterBatch(Batch(s, now, after))], CLEANUP_LIMIT, 1)
  {
    BatchCursor(s, now, after);
    SweptRows(s, Batch(s, now, after), now, busy, fate);
  }

  /** Passes one after the other, whatever is busy and whichever removals fail. */
  ghost predicate CleanupRuns(xs: seq<State>, cs: seq<nat>, now: nat, busy: seq<set<nat>>, fates: seq<nat -> Outcome>) {
    && |xs| == |cs| == |busy| == |fates|
    && forall k: nat :: 0 < k < |xs| ==> CleanupAt(xs, cs, now, busy, fates, k)
  }

  ghost predicate CleanupAt(xs: seq<State>, cs: seq<nat>, now: nat, busy: seq<set<nat>>, fates: seq<nat -> Outcome>, k: nat)
    requires 0 < k < |xs| == |cs| == |busy| == |fates|
  {
    && xs[k] == Swept(xs[k - 1], Batch(xs[k - 1], now, cs[k - 1]), now, busy[k - 1], fates[k - 1])
    && cs[k] == AfterBatch(Batch(xs[k - 1], now, cs[k - 1]))
  }

  lemma CleanupPasses(xs: seq<State>, cs: seq<nat>, now: nat, busy: seq<set<nat>>, fates: seq<nat -> Outcome>, ss: seq<set<nat>>)
    requires CleanupRuns(xs, cs, now, busy, fates) && |ss| == |xs| && forall k :: 0 <= k < |xs| ==> ss[k] == StaleIds(xs[k], now)
    ensures Passes(ss, cs, CLEANUP_LIMIT)
  {
    forall k: nat | 0 < k < |ss| ensures PassAt(ss, cs, CLEANUP_LIMIT, k) {
      assert CleanupAt(xs, cs, now, busy, fates, k);
      CleanupPass(xs[k - 1], now, cs[k - 1], busy[k - 1], fates[k - 1]);
    }
  }

  /** Every stale row is considered within ⌊n / 1000⌋ + 1 passes from a reset cursor, and within twice that from any, even
      if some removals always fail. */
  lemma CleanupReaches(xs: seq<State>, cs: seq<nat>, now: nat, busy: seq<set<nat>>, fates: seq<nat -> Outcome>, i: nat)
    requires CleanupRuns(xs, cs, now, busy, fates) && |xs| > 0 && i in StaleIds(xs[0], now) && i > 0
    requires |xs| > 2 * (|StaleIds(xs[0], now)| / CLEANUP_LIMIT + 1)
    ensures cs[0] == 0 ==> exists k :: 0 <= k <= |StaleIds(xs[0], now)| / CLEANUP_LIMIT && i in Batch(xs[k], now, cs[k])
    ensures exists k :: 0 <= k < 2 * (|StaleIds(xs[0], now)| / CLEANUP_LIMIT + 1) && i in Batch(xs[k], now, cs[k])
  {
    var ss := seq(|xs|, k requires 0 <= k < |xs| => StaleIds(xs[k], now));
    CleanupPasses(xs, cs, now, busy, fates, ss);
    NoStarvation(ss, cs, CLEANUP_LIMIT, i);
    forall k | 0 <= k < |xs| && Seen(ss, cs, CLEANUP_LIMIT, i, k) ensures i in Batch(xs[k], now, cs[k]) {}
  }

  // ---------------------------------------------------------------- DeleteEvent

  function On(s: State, ids: set<nat>, b: Backend): set<nat> { set i | i in ids && i in s.db.assets && s.db.assets[i].backend == b }

  /** The assets `done` of a deleting event are gone with what was stored for them. */
  function Partly(s: State, done: set<nat>): State {
    var l, d := On(s, done, Local), On(s, done, S3);
    s.(db := s.db.(assets := s.db.assets - done, retired := s.db.retired + d), parts := s.parts - l, finals := s.finals - l, objects := s.objects - d)
  }

  /** One iteration: out of the ready state, then removed. */
  lemma PartlyMore(s: State, done: set<nat>, i: nat)
    requires i in s.db.assets && i !in done
    ensures var m := Partly(s, done); Attempted(m.(db := UnreadyTx(m.db, i)), i, Answered) == Partly(s, done + {i})
  {
    var m := Partly(s, done);
    var u := UnreadyTx(m.db, i);
    assert u.assets - {i} == s.db.assets - (done + {i});
    if s.db.assets[i].backend.Local? {
      assert On(s, done + {i}, Local) == On(s, done, Local) + {i} && On(s, done + {i}, S3) == On(s, done, S3);
      assert m.parts - {i} == s.parts - On(s, done + {i}, Local) && m.finals - {i} == s.finals - On(s, done + {i}, Local);
    } else {
      assert On(s, done + {i}, S3) == On(s, done, S3) + {i} && On(s, done + {i}, Local) == On(s, done, Local);
      assert m.objects - {i} == s.objects - On(s, done + {i}, S3);
      assert m.db.retired + {i} == s.db.retired + On(s, done + {i}, S3);
    }
  }

  // ---------------------------------------------------------------- retired keys and when they were last checked

  /** INSERT OR IGNORE: what is retired between `was` and `known` is checked `now`, and the earlier keys keep their times. */
  ghost predicate Stamps(was: map<nat, nat>, known: map<nat, nat>, now: nat) { was.Keys <= known.Keys && known == Stamped(was, known.Keys, now) }

  function Stamped(was: map<nat, nat>, keys: set<nat>, now: nat): map<nat, nat> { map i | i in keys :: if i in was then was[i] else now }

  lemma StampsOn(a: map<nat, nat>, b: map<nat, nat>, c: map<nat, nat>, now: nat)
    requires Stamps(a, b, now) && Stamps(b, c, now)
    ensures Stamps(a, c, now)
  {}

  /** The keys not checked within the hour. */
  function Due(r: map<nat, nat>, now: nat): set<nat> { set i | i in r && r[i] + HOUR < now }

  function DueBatch(r: map<nat, nat>, now: nat, after: nat): seq<nat> { Sorted(Window(Due(r, now), after, CLEANUP_LIMIT)) }

  /** Those of `ids` whose DELETE was answered are checked `now`. */
  function Rechecked(r: map<nat, nat>, ids: seq<nat>, fate: nat -> Outcome, now: nat): (n: map<nat, nat>)
    ensures n.Keys == r.Keys
  {
    map i | i in r :: if i in ids && fate(i).Answered? then now else r[i]
  }

  lemma RecheckedMore(r: map<nat, nat>, ids: seq<nat>, i: nat, fate: nat -> Outcome, now: nat)
    requires i in r
    ensures var m := Rechecked(r, ids, fate, now);
            Rechecked(r, ids + [i], fate, now) == if fate(i).Answered? then m[i := now] else m
  {}

  ghost predicate RetiredRuns(xs: seq<map<nat, nat>>, cs: seq<nat>, now: nat, fates: seq<nat -> Outcome>) {
    |xs| == |cs| == |fates| && forall k: nat :: 0 < k < |xs| ==> RetiredAt(xs, cs, now, fates, k)
  }

  ghost predicate RetiredAt(xs: seq<map<nat, nat>>, cs: seq<nat>, now: nat, fates: seq<nat -> Outcome>, k: nat)
    requires 0 < k < |xs| == |cs| == |fates|
  {
    && xs[k] == Rechecked(xs[k - 1], DueBatch(xs[k - 1], now, cs[k - 1]), fates[k - 1], now)
    && cs[k] == AfterBatch(DueBatch(xs[k - 1], now, cs[k - 1]))
  }

  /** Only keys of the pass stop being due. */
  lemma RetiredPass(r: map<nat, nat>, now: nat, after: nat, fate: nat -> Outcome)
    ensures var n := Rechecked(r, DueBatch(r, now, after), fate, now);
            PassAt([Due(r, now), Due(n, now)], [after, AfterBatch(DueBatch(r, now, after))], CLEANUP_LIMIT, 1)
  {
    LastIsMax(Window(Due(r, now), after, CLEANUP_LIMIT));
  }

  lemma RetiredPasses(xs: seq<map<nat, nat>>, cs: seq<nat>, now: nat, fates: seq<nat -> Outcome>, ss: seq<set<nat>>)
    requires RetiredRuns(xs, cs, now, fates) && |ss| == |xs| && forall k :: 0 <= k < |xs| ==> ss[k] == Due(xs[k], now)
    ensures Passes(ss, cs, CLEANUP_LIMIT)
  {
    forall k: nat | 0 < k < |ss| ensures PassAt(ss, cs, CLEANUP_LIMIT, k) {
      assert RetiredAt(xs, cs, now, fates, k);
      RetiredPass(xs[k - 1], now, cs[k - 1], fates[k - 1]);
    }
  }

  /** Every due key is tried within as many passes as a stale row is considered, even if some DELETEs always fail. */
  lemma RetiredReaches(xs: seq<map<nat, nat>>, cs: seq<nat>, now: nat, fates: seq<nat -> Outcome>, i: nat)
    requires RetiredRuns(xs, cs, now, fates) && |xs| > 0 && i in Due(xs[0], now) && i > 0
    requires |xs| > 2 * (|Due(xs[0], now)| / CLEANUP_LIMIT + 1)
    ensures cs[0] == 0 ==> exists k :: 0 <= k <= |Due(xs[0], now)| / CLEANUP_LIMIT && i in DueBatch(xs[k], now, cs[k])
    ensures exists k :: 0 <= k < 2 * (|Due(xs[0], now)| / CLEANUP_LIMIT + 1) && i in DueBatch(xs[k], now, cs[k])
  {
    var ss := seq(|xs|, k requires 0 <= k < |xs| => Due(xs[k], now));
    RetiredPasses(xs, cs, now, fates, ss);
    NoStarvation(ss, cs, CLEANUP_LIMIT, i);
    forall k | 0 <= k < |xs| && Seen(ss, cs, CLEANUP_LIMIT, i, k) ensures i in DueBatch(xs[k], now, cs[k]) {}
  }

  /** The objects of `ids` whose DELETE was applied are gone. */
  function Purged(objects: map<nat, Object>, ids: seq<nat>, fate: nat -> Outcome): map<nat, Object> {
    map i | i in objects && !(i in ids && !fate(i).Refused?) :: objects[i]
  }

  /** Of the next 1000 after the cursor: a pass tries exactly the keys not checked for an hour with fewer than 1000 such keys between.
      Exactly the objects whose DELETE was applied go, and exactly the keys whose DELETE was answered count as checked. */
  lemma RetiredExactly(r: map<nat, nat>, objects: map<nat, Object>, now: nat, after: nat, fate: nat -> Outcome, i: nat)
    ensures var ids := DueBatch(r, now, after);
            && (i in ids <==> i in r && r[i] + 3600 < now && i > after && |Cursors.Between(Due(r, now), after, i)| < 1000)
            && (i in objects ==> (i !in Purged(objects, ids, fate) <==> i in ids && fate(i) != Refused))
            && (i in r ==> Rechecked(r, ids, fate, now)[i] == if i in ids && fate(i) == Answered then now else r[i])
  {
    WindowExactly(Due(r, now), after, CLEANUP_LIMIT, i);
  }

  lemma PurgedMore(objects: map<nat, Object>, ids: seq<nat>, i: nat, fate: nat -> Outcome)
    ensures var m := Purged(objects, ids, fate);
            Purged(objects, ids + [i], fate) == if fate(i).Refused? then m else m - {i}
  {}

  lemma {:induction false} PurgedLeads(s: State, ids: seq<nat>, fate: nat -> Outcome)
    requires forall i :: i in ids ==> i in s.db.retired
    ensures Leads(s, s.(objects := Purged(s.objects, ids, fate)))
    decreases |ids|
  {
    if ids == [] {
      assert Purged(s.objects, ids, fate) == s.objects;
      LeadsSelf(s);
    } else {
      var rest, i := ids[..|ids| - 1], ids[|ids| - 1];
      var m := s.(objects := Purged(s.objects, rest, fate));
      PurgedLeads(s, rest, fate);
      RetiredDeleteLeads(m, i, fate(i));
      PurgedMore(s.objects, rest, i, fate);
      assert ids == rest + [i];
      LeadsOn(s, m, RetiredDeleteStep(m, i, fate(i)).value);
    }
  }

  // ---------------------------------------------------------------- the service

  class Service {
    var events: map<nat, Event>
    var sessions: map<nat, Session>
    var assets: map<nat, Asset>
    var retired: map<nat, nat>
    var parts: map<nat, nat>
    var finals: map<nat, nat>
    var objects: map<nat, Object>
    var issued: set<nat>
    var drawn: set<nat>
    var cleanupAfter: nat
    var retiredAfter: nat

    constructor (s: State, checked: map<nat, nat>)
      requires Alone(s) && checked.Keys == s.db.retired
      ensures View() == s && retired == checked && cleanupAfter == 0 && retiredAfter == 0
    {
      events, sessions, assets, retired := s.db.events, s.db.sessions, s.db.assets, checked;
      parts, finals, objects, issued, drawn := s.parts, s.finals, s.objects, s.issued, s.drawn;
      cleanupAfter, retiredAfter := 0, 0;
    }

    ghost function View(): State
      reads this
    {
      State(Db(events, sessions, assets, retired.Keys), parts, finals, objects, issued, drawn, map[], map[])
    }

    /** Local Put: a .part created exclusively, written, and renamed to a final name that was absent. `unsynced` is an error of the
        checks after the rename, which leaves the final file. */
    method Put(i: nat, size: nat, limit: nat, fault: bool, stuck: bool, unsynced: bool) returns (ok: bool)
      modifies this`parts, this`finals
      ensures ok <==> 0 < size <= limit && i !in old(parts) && i !in old(finals) && !fault && !unsynced
      ensures var published := Publishes(old(parts), old(finals), i, size, limit, fault);
              && (published <==> ok || (unsynced && 0 < size <= limit && i !in old(parts) && i !in old(finals) && !fault))
              && finals == (if published then old(finals)[i := size] else old(finals))
              && parts == PutParts(old(parts), i, size, limit, published, stuck)
    {
      if limit == 0 || i in parts { return false; }
      parts := parts[i := 0];
      var written := if size > limit then limit + 1 else size;
      parts := parts[i := written];
      if fault || written > limit || written == 0 || i in finals {
        if !stuck { parts := parts - {i}; }
        return false;
      }
      finals := finals[i := parts[i]];
      parts := parts - {i};
      ok := !unsynced;
    }

    /** Local Delete: the .part first, then the final file. */
    method Delete(i: nat, o: Outcome) returns (ok: bool)
      modifies this`parts, this`finals
      ensures ok == o.Answered?
      ensures parts == (if o.Refused? then old(parts) else old(parts) - {i})
      ensures finals == if ok then old(finals) - {i} else old(finals)
    {
      if o.Refused? { return false; }
      parts := parts - {i};
      if o.ReplyLost? { return false; }
      finals := finals - {i};
      ok := true;
    }

    /** removeAttempt, for a row of this event. */
    method RemoveAttempt(i: nat, o: Outcome, now: nat) returns (ok: bool)
      requires i in assets && assets[i].status.Pending?
      modifies this`assets, this`retired, this`parts, this`finals, this`objects
      ensures ok == o.Answered? && View() == Attempted(old(View()), i, o) && Stamps(old(retired), retired, now)
    {
      if assets[i].backend.Local? {
        ok := Delete(i, o);
      } else {
        if i !in retired { retired := retired[i := now]; }
        if !o.Refused? { objects := objects - {i}; }
        ok := o.Answered?;
      }
      if ok { assets := assets - {i}; }
    }

    method CleanOne(i: nat, now: nat, busy: set<nat>, fate: nat -> Outcome)
      modifies this`assets, this`retired, this`parts, this`finals, this`objects
      ensures View() == Cleaned(old(View()), i, now, busy, fate) && Stamps(old(retired), retired, now)
    {
      if i !in assets || !Stale(assets[i], now) || assets[i].event in busy { return; }
      var ok := RemoveAttempt(i, fate(i), now);
    }

    /** A cleanup pass: at most 1000 stale rows after the cursor. */
    method Cleanup(now: nat, busy: set<nat>, fate: nat -> Outcome)
      modifies this`assets, this`retired, this`parts, this`finals, this`objects, this`cleanupAfter
      ensures View() == Swept(old(View()), Batch(old(View()), now, old(cleanupAfter)), now, busy, fate)
      ensures cleanupAfter == AfterBatch(Batch(old(View()), now, old(cleanupAfter)))
      ensures Leads(old(View()), View()) && Stamps(old(retired), retired, now)
    {
      var ids := StaleBatch(now);
      BatchCursor(View(), now, cleanupAfter);
      SweptLeads(View(), ids, now, busy, fate);
      CleanAll(ids, now, busy, fate);
      if |ids| < CLEANUP_LIMIT { cleanupAfter := 0; }
    }

    method StaleBatch(now: nat) returns (ids: seq<nat>)
      ensures ids == Batch(View(), now, cleanupAfter)
    {
      var stale := set i | i in assets && Stale(assets[i], now);
      assert stale == StaleIds(View(), now);
      ids := Sorted(Window(stale, cleanupAfter, CLEANUP_LIMIT));
    }

    method CleanAll(ids: seq<nat>, now: nat, busy: set<nat>, fate: nat -> Outcome)
      modifies this`assets, this`retired, this`parts, this`finals, this`objects, this`cleanupAfter
      ensures View() == Swept(old(View()), ids, now, busy, fate) && Stamps(old(retired), retired, now)
      ensures cleanupAfter == if ids == [] then old(cleanupAfter) else ids[|ids| - 1]
    {
      ghost var begin := View();
      var k := 0;
      while k < |ids|
        invariant 0 <= k <= |ids| && View() == Swept(begin, ids[..k], now, busy, fate) && Stamps(old(retired), retired, now)
        invariant cleanupAfter == if k == 0 then old(cleanupAfter) else ids[k - 1]
      {
        cleanupAfter := ids[k];
        ghost var before := retired;
        CleanOne(ids[k], now, busy, fate);
        StampsOn(old(retired), before, retired, now);
        assert ids[..k + 1][..k] == ids[..k];
        k := k + 1;
      }
      assert ids[..|ids|] == ids;
    }

    /** A pass over at most 1000 retired keys that were not checked within the hour. */
    method CleanupRetired(now: nat, fate: nat -> Outcome)
      modifies this`retired, this`objects, this`retiredAfter
      ensures Leads(old(View()), View())
      ensures var ids := DueBatch(old(retired), now, old(retiredAfter));
              && retiredAfter == AfterBatch(ids) && retired == Rechecked(old(retired), ids, fate, now)
              && View() == old(View()).(objects := Purged(old(objects), ids, fate))
    {
      var ids := RetiredBatch(now);
      TryRetired(ids, fate, now);
    }

    method TryRetired(ids: seq<nat>, fate: nat -> Outcome, now: nat)
      requires forall i :: i in ids ==> i in retired
      modifies this`retired, this`objects, this`retiredAfter
      ensures Leads(old(View()), View()) && View() == old(View()).(objects := Purged(old(objects), ids, fate))
      ensures retiredAfter == AfterBatch(ids) && retired == Rechecked(old(retired), ids, fate, now)
    {
      PurgedLeads(View(), ids, fate);
      DeleteObjects(ids, fate, now);
      if |ids| < CLEANUP_LIMIT { retiredAfter := 0; }
    }

    method RetiredBatch(now: nat) returns (ids: seq<nat>)
      ensures ids == DueBatch(retired, now, retiredAfter) && forall i :: i in ids ==> i in retired
    {
      var due := set i | i in retired && retired[i] + HOUR < now;
      assert due == Due(retired, now);
      ids := Sorted(Window(due, retiredAfter, CLEANUP_LIMIT));
    }

    method DeleteObjects(ids: seq<nat>, fate: nat -> Outcome, now: nat)
      requires forall i :: i in ids ==> i in retired
      modifies this`retired, this`objects, this`retiredAfter
      ensures retiredAfter == if ids == [] then old(retiredAfter) else ids[|ids| - 1]
      ensures retired == Rechecked(old(retired), ids, fate, now) && objects == Purged(old(objects), ids, fate)
    {
      var k := 0;
      while k < |ids|
        invariant 0 <= k <= |ids| && retiredAfter == if k == 0 then old(retiredAfter) else ids[k - 1]
        invariant retired == Rechecked(old(retired), ids[..k], fate, now) && objects == Purged(old(objects), ids[..k], fate)
      {
        retiredAfter := ids[k];
        RecheckedMore(old(retired), ids[..k], ids[k], fate, now);
        PurgedMore(old(objects), ids[..k], ids[k], fate);
        assert ids[..k] + [ids[k]] == ids[..k + 1];
        if !fate(ids[k]).Refused? { objects := objects - {ids[k]}; }
        if fate(ids[k]).Answered? { retired := retired[ids[k] := now]; }
        k := k + 1;
      }
      assert ids[..|ids|] == ids;
    }

    method ReclaimSessions(gone: set<nat>, now: nat)
      modifies this`sessions
      ensures View() == Reclaimed(old(View()), gone, now) && Leads(old(View()), View())
    {
      ghost var begin := View();
      ReclaimedLeads(begin, gone, now);
      var done := set k | k in gone && Reclaimable(Db(events, sessions, assets, retired.Keys), k, now);
      sessions := sessions - done;
    }

    /** A whole pass: expired sessions without assets (those of `gone`), stale rows, then retired keys. */
    method Maintain(now: nat, gone: set<nat>, busy: set<nat>, fate: nat -> Outcome, late: nat -> Outcome)
      modifies this`sessions, this`assets, this`retired, this`parts, this`finals, this`objects, this`cleanupAfter, this`retiredAfter
      ensures Leads(old(View()), View())
      ensures var m := Reclaimed(old(View()), gone, now);
              var n := Swept(m, Batch(m, now, old(cleanupAfter)), now, busy, fate);
              var r := Stamped(old(retired), n.db.retired, now);
              var ids := DueBatch(r, now, old(retiredAfter));
              && View() == n.(objects := Purged(n.objects, ids, late)) && retired == Rechecked(r, ids, late, now)
              && cleanupAfter == AfterBatch(Batch(m, now, old(cleanupAfter))) && retiredAfter == AfterBatch(ids)
    {
      ghost var begin := View();
      MaintainRows(now, gone, busy, fate);
      ghost var n := View();
      CleanupRetired(now, late);
      LeadsOn(begin, n, View());
    }

    method MaintainRows(now: nat, gone: set<nat>, busy: set<nat>, fate: nat -> Outcome)
      modifies this`sessions, this`assets, this`retired, this`parts, this`finals, this`objects, this`cleanupAfter
      ensures Leads(old(View()), View()) && retired == Stamped(old(retired), View().db.retired, now)
      ensures var m := Reclaimed(old(View()), gone, now);
              View() == Swept(m, Batch(m, now, old(cleanupAfter)), now, busy, fate) && cleanupAfter == AfterBatch(Batch(m, now, old(cleanupAfter)))
    {
      ghost var begin := View();
      ReclaimSessions(gone, now);
      ghost var m := View();
      Cleanup(now, busy, fate);
      LeadsOn(begin, m, View());
    }

    /** One asset of an event being deleted. */
    method RemoveOne(e: nat, i: nat, o: Outcome, now: nat) returns (ok: bool)
      requires i in assets && assets[i].event == e
      modifies this`assets, this`retired, this`parts, this`finals, this`objects
      ensures ok == o.Answered? && View() == Dropped(old(View()), i, o) && Stamps(old(retired), retired, now)
      ensures Progress(old(View()), View(), e)
    {
      IterationLeads(View(), e, i, o);
      DroppedUntouched(View(), i, o);
      assets := assets[i := assets[i].(status := Pending)];
      ok := RemoveAttempt(i, o, now);
    }

    method DrainOne(ghost begin: State, ghost done: set<nat>, e: nat, i: nat, o: Outcome, now: nat) returns (ok: bool)
      requires View() == Partly(begin, done) && Progress(begin, View(), e)
      requires i in begin.db.assets && i !in done && begin.db.assets[i].event == e
      modifies this`assets, this`retired, this`parts, this`finals, this`objects
      ensures ok == o.Answered? && Progress(begin, View(), e) && (ok ==> View() == Partly(begin, done + {i})) && Stamps(old(retired), retired, now)
    {
      ghost var before := View();
      PartlyMore(begin, done, i);
      ok := RemoveOne(e, i, o, now);
      Progressed(begin, before, View(), e);
    }

    /** Removes the assets of `e`, until a removal fails. */
    method Drain(e: nat, now: nat, fate: nat -> Outcome) returns (ok: bool)
      modifies this`assets, this`retired, this`parts, this`finals, this`objects
      ensures ok <==> forall i :: i in Members(old(assets), OfEvent(e)) ==> fate(i).Answered?
      ensures ok ==> View() == Partly(old(View()), Members(old(assets), OfEvent(e)))
      ensures Progress(old(View()), View(), e) && Stamps(old(retired), retired, now)
    {
      ghost var begin, all := View(), Members(assets, OfEvent(e));
      ghost var done: set<nat> := {};
      PartlyNone(begin);
      LeadsSelf(Held(begin, e));
      var next := AnyAsset(e);
      while next.Some?
        invariant done <= all && (forall i :: i in done ==> fate(i).Answered?)
        invariant View() == Partly(begin, done) && Progress(begin, View(), e) && Stamps(old(retired), retired, now)
        invariant if next.Some? then next.value in all - done else done == all
        decreases all - done, if next.Some? then 1 else 0
      {
        ghost var before := retired;
        ok := DrainOne(begin, done, e, next.value, fate(next.value), now);
        StampsOn(old(retired), before, retired, now);
        if !ok { return; }
        done := done + {next.value};
        LeftOver(begin, done, e);
        next := AnyAsset(e);
      }
      ok := true;
    }

    /** SELECT ... WHERE event_id = ? LIMIT 1. */
    method AnyAsset(e: nat) returns (found: Option<nat>)
      ensures var left := Members(assets, OfEvent(e)); if found.Some? then found.value in left else left == {}
    {
      var left := set i | i in assets && assets[i].event == e;
      assert left == Members(assets, OfEvent(e));
      found := if left == {} then None else Some(Min(left));
    }

    /** DeleteEvent; `busy` means that the event's lock could not be taken. A failed removal ends it, to be retried. */
    method DeleteEvent(e: nat, now: nat, busy: bool, fate: nat -> Outcome) returns (ok: bool)
      modifies this`events, this`sessions, this`assets, this`retired, this`parts, this`finals, this`objects
      ensures ok <==> e in old(events) && !busy && forall i :: i in Members(old(assets), OfEvent(e)) ==> fate(i).Answered?
      ensures ok ==> View() == Ended(old(View()), e)
      ensures busy || e !in old(events) ==> View() == old(View())
      ensures !ok && e in events && !busy ==> events[e].deleting
      ensures Leads(old(View()), View()) && Untouched(old(View()), View(), e) && Stamps(old(retired), retired, now)
    {
      LeadsSelf(View());
      if e !in events || busy { return false; }
      ghost var begin := View();
      MarkedLeads(begin, e);
      events := events[e := events[e].(deleting := true, enabled := false)];
      ok := Drain(e, now, fate);
      LeadsOn(begin, Held(Marked(begin, e), e), Held(View(), e));
      if !ok {
        ReleaseLeads(View(), e);
        LeadsOn(begin, Held(View(), e), View());
        return;
      }
      ghost var drained := View();
      EndLeads(drained, e);
      events := events - {e};
      sessions := map s | s in sessions && sessions[s].event != e :: sessions[s];
      assets := map i | i in assets && assets[i].event != e :: assets[i];
      LeadsOn(begin, Held(drained, e), View());
      EndedUntouched(begin, e);
    }
  }

  /** Under the lock of `e`, `s` leads to `n`, and other events are untouched. */
  ghost predicate Progress(s: State, n: State, e: nat) { Leads(Held(s, e), Held(n, e)) && Untouched(s, n, e) }

  lemma Progressed(s: State, n: State, m: State, e: nat)
    requires Progress(s, n, e) && Progress(n, m, e)
    ensures Progress(s, m, e)
  {
    LeadsOn(Held(s, e), Held(n, e), Held(m, e));
    UntouchedOn(s, n, m, e);
  }

  /** An asset out of the ready state, then removed as far as `o` says. */
  function Dropped(s: State, i: nat, o: Outcome): State
    requires i in s.db.assets
  {
    Attempted(s.(db := UnreadyTx(s.db, i)), i, o)
  }

  /** The event's exclusive lock is held for deletion. */
  function Held(s: State, e: nat): State { s.(locks := map[e := Holder(true, None)]) }

  function Marked(s: State, e: nat): State
    requires e in s.db.events
  {
    s.(db := BeginDeleteTx(s.db, e))
  }

  /** The event, its sessions and assets are gone with everything stored for them. */
  function Ended(s: State, e: nat): State
    requires e in s.db.events
  {
    var p := Partly(Marked(s, e), Members(s.db.assets, OfEvent(e)));
    p.(db := DeleteEventTx(p.db, e))
  }

  lemma LeftOver(s: State, done: set<nat>, e: nat)
    requires done <= Members(s.db.assets, OfEvent(e))
    ensures Members(Partly(s, done).db.assets, OfEvent(e)) == Members(s.db.assets, OfEvent(e)) - done
  {}

  lemma PartlyNone(s: State)
    ensures Partly(s, {}) == s
  {}

  lemma MarkedLeads(s: State, e: nat)
    requires Alone(s) && e in s.db.events
    ensures Leads(s, Held(Marked(s, e), e))
  {
    assert s.locks[e := Holder(true, None)] == map[e := Holder(true, None)];
    LockLeads(s, e, true);
  }

  lemma IterationLeads(s: State, e: nat, i: nat, o: Outcome)
    requires Alone(s) && i in s.db.assets && s.db.assets[i].event == e
    ensures var u := s.(db := UnreadyTx(s.db, i)); Leads(Held(s, e), Held(Attempted(u, i, o), e))
  {
    var u := s.(db := UnreadyTx(s.db, i));
    UnreadyLeads(Held(s, e), e, i);
    AttemptedLeads(Held(u, e), e, i, true, o, 0);
    HeldAttempt(u, e, i, o);
    LeadsOn(Held(s, e), Held(u, e), Held(Attempted(u, i, o), e));
  }

  lemma HeldAttempt(u: State, e: nat, i: nat, o: Outcome)
    requires i in u.db.assets
    ensures Attempted(Held(u, e), i, o) == Held(Attempted(u, i, o), e)
  {}

  lemma ReleaseLeads(s: State, e: nat)
    requires Alone(s)
    ensures Leads(Held(s, e), s)
  {
    assert Held(s, e).locks - {e} == map[];
    UnlockLeads(Held(s, e), e);
  }

  lemma EndLeads(s: State, e: nat)
    requires Alone(s) && forall i :: i in s.db.assets ==> s.db.assets[i].event != e
    ensures Leads(Held(s, e), s.(db := DeleteEventTx(s.db, e)))
  {
    assert Held(s, e).locks - {e} == map[];
    DeleteEventLeads(Held(s, e), e);
  }

  lemma EndedUntouched(s: State, e: nat)
    requires e in s.db.events
    ensures Untouched(s, Ended(s, e), e)
  {}

  lemma UnreadyUntouched(s: State, i: nat)
    requires i in s.db.assets
    ensures Untouched(s, s.(db := UnreadyTx(s.db, i)), s.db.assets[i].event)
  {}

  lemma LocalUntouched(s: State, i: nat, o: Outcome)
    requires i in s.db.assets && s.db.assets[i].backend.Local?
    ensures Untouched(s, Attempted(s, i, o), s.db.assets[i].event)
  {}

  lemma DirectUntouched(s: State, i: nat, o: Outcome)
    requires i in s.db.assets && s.db.assets[i].backend.S3?
    ensures Untouched(s, Attempted(s, i, o), s.db.assets[i].event)
  {}

  lemma UntouchedOn(s: State, n: State, m: State, e: nat)
    requires Untouched(s, n, e) && Untouched(n, m, e)
    ensures Untouched(s, m, e)
  {}

  lemma DroppedUntouched(s: State, i: nat, o: Outcome)
    requires i in s.db.assets
    ensures Untouched(s, Dropped(s, i, o), s.db.assets[i].event)
  {
    var u := s.(db := UnreadyTx(s.db, i));
    UnreadyUntouched(s, i);
    if u.db.assets[i].backend.Local? { LocalUntouched(u, i, o); } else { DirectUntouched(u, i, o); }
    UntouchedOn(s, u, Attempted(u, i, o), s.db.assets[i].event);
  }
}
