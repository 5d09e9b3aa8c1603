/** The asset rows are the reservation ledger: no transaction takes a live scope past its limits. */
module MediaLedger {
  import opened Wrappers
  import opened MediaModel
  import opened MediaUsage

  /** Foreign keys: an asset belongs to its session's event. */
  ghost predicate Linked(db: Db) {
    && (forall s :: s in db.sessions ==> db.sessions[s].event in db.events)
    && (forall i :: i in db.assets ==> db.assets[i].session in db.sessions && db.sessions[db.assets[i].session].event == db.assets[i].event)
  }

  /** The scope exists and its event is not being deleted. */
  predicate Live(db: Db, c: Scope) {
    match c
    case OfEvent(e) => e in db.events && !db.events[e].deleting
    case OfClass(e, _) => e in db.events && !db.events[e].deleting
    case OfSession(s) => s in db.sessions && db.sessions[s].event in db.events && !db.events[db.sessions[s].event].deleting
  }

  function LimitsOf(db: Db, c: Scope): Limits
    requires Live(db, c)
  {
    match c
    case OfEvent(e) => db.events[e].total
    case OfClass(e, k) => ClassLimits(db.events[e], k)
    case OfSession(s) => db.sessions[s].limits
  }

  predicate Fits(n: nat, max: Option<nat>) { max.None? || n <= max.value }

  /** Both measures of a live scope are no larger than before, or within its current limits. */
  ghost predicate Guarded(d: Db, n: Db, c: Scope) {
    Live(n, c) ==>
      && (Count(n.assets, c) <= Count(d.assets, c) || Fits(Count(n.assets, c), LimitsOf(n, c).count))
      && (Used(n.assets, c) <= Used(d.assets, c) || Fits(Used(n.assets, c), LimitsOf(n, c).bytes))
  }

  /** The storage test of the source, on 64-bit integers, is the one the reservation uses. */
  lemma OverIsBeyond(used: int64, size: int64, max: int64)
    requires used >= 0 && size >= 0 && max >= 0
    ensures Over(used, size, max) <==> Beyond(used as nat, size as nat, Some(max as nat))
    ensures Over(used, size, max) <==> !Fits(used as nat + size as nat, Some(max as nat))
  {}

  lemma Refuses(used: nat, size: nat, count: nat, limits: Limits)
    ensures !Full(count, limits.count) <==> Fits(count + 1, limits.count)
    ensures !Beyond(used, size, limits.bytes) <==> Fits(used + size, limits.bytes)
  {}

  /** A reservation is granted exactly when one more row of `size` bytes fits all three scopes. */
  lemma ReserveExactly(db: Db, e: nat, s: nat, size: nat, media: Media)
    requires e in db.events && s in db.sessions
    ensures Reserve(db, e, s, size, media).None? <==>
              && Fits(Count(db.assets, OfEvent(e)) + 1, db.events[e].total.count)
              && Fits(Used(db.assets, OfEvent(e)) + size, db.events[e].total.bytes)
              && Fits(Count(db.assets, OfSession(s)) + 1, db.sessions[s].limits.count)
              && Fits(Used(db.assets, OfSession(s)) + size, db.sessions[s].limits.bytes)
              && Fits(Count(db.assets, OfClass(e, media)) + 1, ClassLimits(db.events[e], media).count)
              && Fits(Used(db.assets, OfClass(e, media)) + size, ClassLimits(db.events[e], media).bytes)
  {}

  /** Inserting a reserved row. */
  lemma InsertGuarded(d: Db, i: nat, x: Asset, c: Scope)
    requires i !in d.assets && x.event in d.events && x.session in d.sessions && x.media.Some?
    requires x.status.Pending? && Reserve(d, x.event, x.session, x.expected, x.media.value).None?
    ensures Guarded(d, d.(assets := d.assets[i := x]), c)
  {
    ReserveExactly(d, x.event, x.session, x.expected, x.media.value);
    With(d.assets, i, x, c);
  }

  lemma UploadGuarded(d: Db, u: UploadRequest, i: nat, now: nat, c: Scope)
    requires i !in d.assets && UploadTx(d, u, i, now).Ok?
    ensures Guarded(d, UploadTx(d, u, i, now).value, c)
  {
    var limit := FileLimit(d.events[u.event], u.media, u.limit);
    InsertGuarded(d, i, Asset(u.event, u.session, Local, Pending, 0, Expected(u, limit), Some(u.media), None, u.meta, now, None), c);
  }

  lemma PrepareGuarded(d: Db, p: Preparation, i: nat, now: nat, c: Scope)
    requires i !in d.assets && PrepareTx(d, p, i, now).Ok?
    ensures Guarded(d, PrepareTx(d, p, i, now).value.1, c)
  {
    if Requested(d.assets, p.session, p.request) == {} {
      InsertGuarded(d, i, Asset(p.event, p.session, S3, Pending, 0, p.size, Some(p.media), Some(p.request), p.meta, now, None), c);
    }
  }

  /** Completing a local upload never raises a scope: the stored size is at most the reserved one. */
  lemma FinishGuarded(d: Db, e: nat, link: nat, i: nat, size: nat, now: nat, c: Scope)
    requires FinishTx(d, e, link, i, size, now).Ok? && size <= d.assets[i].expected
    ensures var n := FinishTx(d, e, link, i, size, now).value;
            Count(n.assets, c) == Count(d.assets, c) && Used(n.assets, c) <= Used(d.assets, c)
  {
    Changed(d.assets, i, d.assets[i].(status := Ready, size := size), c);
  }

  /** Completing a direct upload leaves event and session usage as it was. A row with a class leaves its class as it was;
      a row without one is added to the class of its object once, within that class's limits. */
  lemma CompleteGuarded(d: Db, link: nat, i: nat, media: Media, ceiling: nat, c: Scope)
    requires i in d.assets && CompleteTx(d, d.assets[i], link, i, d.assets[i].expected, media, ceiling).Ok?
    requires d.assets[i].media.None? || d.assets[i].media == Some(media)
    ensures var n := CompleteTx(d, d.assets[i], link, i, d.assets[i].expected, media, ceiling).value;
            && Guarded(d, n, c)
            && (!c.OfClass? || d.assets[i].media.Some? || c != OfClass(d.assets[i].event, media) ==>
                  Count(n.assets, c) == Count(d.assets, c) && Used(n.assets, c) == Used(d.assets, c))
            && (d.assets[i].media.None? && c == OfClass(d.assets[i].event, media) ==>
                  Count(n.assets, c) == Count(d.assets, c) + 1 && Used(n.assets, c) == Used(d.assets, c) + d.assets[i].expected)
  {
    var x := d.assets[i];
    Changed(d.assets, i, x.(status := Ready, size := x.expected, media := Some(media)), c);
  }

  lemma RemoveGuarded(d: Db, i: nat, c: Scope)
    ensures Count(RemoveTx(d, i).assets, c) <= Count(d.assets, c) && Used(RemoveTx(d, i).assets, c) <= Used(d.assets, c)
  {
    if i in d.assets { Without(d.assets, i, c); }
  }

  lemma AuthorizeGuarded(d: Db, e: nat, link: nat, s: nat, i: nat, until: nat, now: nat, c: Scope)
    requires AuthorizeTx(d, e, link, s, i, until, now).Ok?
    ensures var n := AuthorizeTx(d, e, link, s, i, until, now).value;
            Count(n.assets, c) == Count(d.assets, c) && Used(n.assets, c) == Used(d.assets, c)
  {
    if i in d.assets { Changed(d.assets, i, d.assets[i].(authorized := Some(until)), c); }
  }

  /** Usage may rise when deletion takes a row back to pending, but only in scopes of the event being deleted. */
  lemma UnreadyGuarded(d: Db, i: nat, c: Scope)
    requires Linked(d) && i in d.assets && d.events[d.assets[i].event].deleting
    ensures Guarded(d, UnreadyTx(d, i), c)
  {
    Changed(d.assets, i, d.assets[i].(status := Pending), c);
  }
}
