/** The tables of the media service and its SQL transactions, each as one function from tables to tables. An asset's
    storage key is a function of its event and its random id, so the id stands for the key. */
module MediaModel {
  import opened Wrappers
  import opened Ordered

  datatype Media = Photo | Video
  datatype Status = Pending | Ready
  datatype Backend = Local | S3
  datatype Meta = Meta(name: string, kind: string)

  /** `media` is None only on rows that predate media classes; `request` is None on local uploads. */
  datatype Asset = Asset(event: nat, session: nat, backend: Backend, status: Status, size: nat, expected: nat,
                         media: Option<Media>, request: Option<nat>, meta: Meta, created: nat, authorized: Option<nat>)

  datatype Limits = Limits(count: Option<nat>, bytes: Option<nat>)
  datatype Event = Event(link: nat, enabled: bool, deleting: bool, expires: Option<nat>, total: Limits, photo: Limits, video: Limits,
                         photoFile: Option<nat>, videoFile: Option<nat>)
  datatype Session = Session(event: nat, expires: nat, limits: Limits)
  datatype Db = Db(events: map<nat, Event>, sessions: map<nat, Session>, assets: map<nat, Asset>, retired: set<nat>)

  datatype Error = ErrClosed | ErrSession | ErrExpired | ErrSessionQuota | ErrEventCount | ErrEventBytes
                 | ErrClassCount(media: Media) | ErrClassBytes(media: Media) | ErrFile(media: Media)
                 | ErrRequest | ErrAsset | ErrReady

  // ---------------------------------------------------------------- usage

  datatype Scope = OfEvent(event: nat) | OfSession(session: nat) | OfClass(event: nat, media: Media)

  predicate In(a: Asset, c: Scope) {
    match c
    case OfEvent(e) => a.event == e
    case OfSession(s) => a.session == s
    case OfClass(e, k) => a.event == e && a.media == Some(k)
  }

  /** CASE WHEN status='ready' THEN size_bytes ELSE expected_size_bytes END. */
  function Usage(a: Asset): nat { if a.status.Ready? then a.size else a.expected }

  function Members(assets: map<nat, Asset>, c: Scope): set<nat> { set i | i in assets && In(assets[i], c) }

  function Count(assets: map<nat, Asset>, c: Scope): nat { |Members(assets, c)| }

  function Total(assets: map<nat, Asset>, ids: set<nat>): nat
    requires ids <= assets.Keys
    decreases |ids|
  {
    if ids == {} then 0
    else
      var m := Min(ids);
      var rest := ids - {m};
      assert |rest| == |ids| - 1;
      Usage(assets[m]) + Total(assets, rest)
  }

  function Used(assets: map<nat, Asset>, c: Scope): nat { Total(assets, Members(assets, c)) }

  // ---------------------------------------------------------------- quotas.go

  newtype int64 = x: int | -0x8000_0000_0000_0000 <= x <= 0x7fff_ffff_ffff_ffff

  /** The storage test on 64-bit integers: it never overflows, and refuses exactly when the sum would pass the limit. */
  function Over(used: int64, size: int64, max: int64): (over: bool)
    requires used >= 0 && size >= 0 && max >= 0
    ensures over <==> used as int + size as int > max as int
  {
    used > max || size > max - used
  }

  predicate Full(count: nat, max: Option<nat>) { max.Some? && count >= max.value }

  predicate Beyond(used: nat, size: nat, max: Option<nat>) { max.Some? && (used > max.value || size > max.value - used) }

  function ClassLimits(x: Event, media: Media): Limits { if media.Video? then x.video else x.photo }

  function EffectiveFileLimit(server: nat, event: Option<nat>): nat {
    if event.Some? && event.value < server then event.value else server
  }

  function FileLimit(x: Event, media: Media, server: nat): nat {
    EffectiveFileLimit(server, if media.Video? then x.videoFile else x.photoFile)
  }

  function ReserveClass(db: Db, e: nat, media: Media, size: nat): Option<Error>
    requires e in db.events
  {
    var limits := ClassLimits(db.events[e], media);
    if Full(Count(db.assets, OfClass(e, media)), limits.count) then Some(ErrClassCount(media))
    else if Beyond(Used(db.assets, OfClass(e, media)), size, limits.bytes) then Some(ErrClassBytes(media))
    else None
  }

  /** The event, then the session, then the class; the count before the bytes. */
  function Reserve(db: Db, e: nat, s: nat, size: nat, media: Media): Option<Error>
    requires e in db.events && s in db.sessions
  {
    var total, session := db.events[e].total, db.sessions[s].limits;
    if Full(Count(db.assets, OfEvent(e)), total.count) then Some(ErrEventCount)
    else if Beyond(Used(db.assets, OfEvent(e)), size, total.bytes) then Some(ErrEventBytes)
    else if Full(Count(db.assets, OfSession(s)), session.count) then Some(ErrSessionQuota)
    else if Beyond(Used(db.assets, OfSession(s)), size, session.bytes) then Some(ErrSessionQuota)
    else ReserveClass(db, e, media, size)
  }

  predicate IsOpen(db: Db, e: nat, link: nat, now: nat) {
    && e in db.events && db.events[e].link == link && db.events[e].enabled && !db.events[e].deleting
    && (db.events[e].expires.None? || now < db.events[e].expires.value)
  }

  function CheckSession(db: Db, e: nat, s: nat, now: nat): Option<Error> {
    if s !in db.sessions || db.sessions[s].event != e then Some(ErrSession)
    else if now >= db.sessions[s].expires then Some(ErrExpired)
    else None
  }

  // ---------------------------------------------------------------- local upload

  /** `claimed` is None for a stream of unknown length; `prefix` bytes are read before the reservation. */
  datatype UploadRequest = UploadRequest(event: nat, link: nat, session: nat, meta: Meta, media: Media, prefix: nat, claimed: Option<nat>, limit: nat)

  function Expected(u: UploadRequest, limit: nat): nat { if u.claimed.Some? then u.claimed.value else limit }

  /** Upload's first transaction. */
  function UploadTx(db: Db, u: UploadRequest, id: nat, now: nat): Result<Db, Error> {
    if !IsOpen(db, u.event, u.link, now) then Err(ErrClosed)
    else if CheckSession(db, u.event, u.session, now).Some? then Err(CheckSession(db, u.event, u.session, now).value)
    else
      var limit := FileLimit(db.events[u.event], u.media, u.limit);
      if u.prefix > limit || (u.claimed.Some? && u.claimed.value > limit) then Err(ErrFile(u.media))
      else
        var refused := Reserve(db, u.event, u.session, Expected(u, limit), u.media);
        if refused.Some? then Err(refused.value)
        else Ok(db.(assets := db.assets[id := Asset(u.event, u.session, Local, Pending, 0, Expected(u, limit), Some(u.media), None, u.meta, now, None)]))
  }

  /** Upload's last transaction: the pending row becomes ready with the stored size. */
  function FinishTx(db: Db, e: nat, link: nat, id: nat, size: nat, now: nat): Result<Db, Error> {
    if !IsOpen(db, e, link, now) then Err(ErrClosed)
    else if id !in db.assets || !db.assets[id].status.Pending? then Err(ErrAsset)
    else Ok(db.(assets := db.assets[id := db.assets[id].(status := Ready, size := size)]))
  }

  // ---------------------------------------------------------------- direct upload

  datatype Preparation = Preparation(event: nat, link: nat, session: nat, request: nat, meta: Meta, media: Media, size: nat, limit: nat)

  /** The rows of a session that carry a client request id. */
  function Requested(assets: map<nat, Asset>, s: nat, request: nat): set<nat> {
    set i | i in assets && assets[i].session == s && assets[i].request == Some(request)
  }

  /** Prepare's transaction: a repeated request finds its row; a new one reserves and inserts `id`. */
  function PrepareTx(db: Db, p: Preparation, id: nat, now: nat): Result<(nat, Db), Error> {
    if !IsOpen(db, p.event, p.link, now) then Err(ErrClosed)
    else if CheckSession(db, p.event, p.session, now).Some? then Err(CheckSession(db, p.event, p.session, now).value)
    else
      var found := Requested(db.assets, p.session, p.request);
      if found != {} then
        var x := db.assets[Min(found)];
        if x.meta != p.meta || x.expected != p.size || (x.media.Some? && x.media.value != p.media) then Err(ErrRequest) else Ok((Min(found), db))
      else if p.size > FileLimit(db.events[p.event], p.media, p.limit) then Err(ErrFile(p.media))
      else
        var refused := Reserve(db, p.event, p.session, p.size, p.media);
        if refused.Some? then Err(refused.value)
        else Ok((id, db.(assets := db.assets[id := Asset(p.event, p.session, S3, Pending, 0, p.size, Some(p.media), Some(p.request), p.meta, now, None)])))
  }

  /** Authorize's transaction, once the loaded row was pending. */
  function AuthorizeTx(db: Db, e: nat, link: nat, s: nat, id: nat, until: nat, now: nat): Result<Db, Error> {
    if !IsOpen(db, e, link, now) then Err(ErrClosed)
    else if CheckSession(db, e, s, now).Some? then Err(CheckSession(db, e, s, now).value)
    else if id in db.assets && db.assets[id].status.Pending? then Ok(db.(assets := db.assets[id := db.assets[id].(authorized := Some(until))]))
    else Ok(db)
  }

  /** Complete's transaction for a verified object of `size` and `media`; `row` is the asset as loaded before. */
  function CompleteTx(db: Db, row: Asset, link: nat, id: nat, size: nat, media: Media, ceiling: nat): Result<Db, Error> {
    var e := row.event;
    if e !in db.events || db.events[e].link != link || db.events[e].deleting then Err(ErrClosed)
    else if row.media.None? && size > FileLimit(db.events[e], media, ceiling) then Err(ErrFile(media))
    else if row.media.None? && ReserveClass(db, e, media, size).Some? then Err(ReserveClass(db, e, media, size).value)
    else if id !in db.assets || !db.assets[id].status.Pending? then Err(ErrAsset)
    else Ok(db.(assets := db.assets[id := db.assets[id].(status := Ready, size := size, media := Some(media))]))
  }

  // ---------------------------------------------------------------- removal

  function RetireTx(db: Db, id: nat): Db { db.(retired := db.retired + {id}) }

  /** DELETE of a pending asset row. */
  function RemoveTx(db: Db, id: nat): Db {
    if id in db.assets && db.assets[id].status.Pending? then db.(assets := db.assets - {id}) else db
  }

  function BeginDeleteTx(db: Db, e: nat): Db
    requires e in db.events
  {
    db.(events := db.events[e := db.events[e].(deleting := true, enabled := false)])
  }

  /** UPDATE assets SET status='pending'. */
  function UnreadyTx(db: Db, id: nat): Db
    requires id in db.assets
  {
    db.(assets := db.assets[id := db.assets[id].(status := Pending)])
  }

  /** DELETE of an event cascades to its sessions and assets; retired keys stay. */
  function DeleteEventTx(db: Db, e: nat): Db {
    db.(events := db.events - {e},
        sessions := map s | s in db.sessions && db.sessions[s].event != e :: db.sessions[s],
        assets := map i | i in db.assets && db.assets[i].event != e :: db.assets[i])
  }

  /** Expired sessions without assets are reclaimed. */
  predicate Reclaimable(db: Db, s: nat, now: nat) {
    s in db.sessions && db.sessions[s].expires <= now && Members(db.assets, OfSession(s)) == {}
  }

  const HOUR: nat := 3600

  /** Neither created nor authorized within the hour before `now`, and not complete. */
  predicate Stale(a: Asset, now: nat) {
    a.status.Pending? && a.created + HOUR < now && (a.authorized.None? || a.authorized.value + HOUR < now)
  }
}
