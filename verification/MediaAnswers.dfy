/** When each transaction of the media service accepts, written out on the tables. */
module MediaAnswers {
  import opened Wrappers
  import Ordered
  import opened MediaModel
  import opened MediaLedger

  /** The event exists under its link, is enabled and not being deleted, and has not expired. */
  predicate OpenAt(d: Db, e: nat, link: nat, now: nat) {
    && e in d.events && d.events[e].link == link && d.events[e].enabled && !d.events[e].deleting
    && match d.events[e].expires case None => true case Some(t) => now < t
  }

  /** The session is one of the event and has not expired. */
  predicate SessionAt(d: Db, e: nat, k: nat, now: nat) { k in d.sessions && d.sessions[k].event == e && now < d.sessions[k].expires }

  /** A file of the class is no larger than the server and the event allow. */
  predicate FileFits(x: Event, media: Media, size: nat, server: nat) {
    size <= server && match (if media == Video then x.videoFile else x.photoFile) case None => true case Some(m) => size <= m
  }

  /** One more file of `size` bytes fits the class. */
  predicate ClassFits(d: Db, e: nat, media: Media, size: nat)
    requires e in d.events
  {
    var limits := if media == Video then d.events[e].video else d.events[e].photo;
    Fits(Count(d.assets, OfClass(e, media)) + 1, limits.count) && Fits(Used(d.assets, OfClass(e, media)) + size, limits.bytes)
  }

  /** One more file of `size` bytes fits the event, the session and the class. */
  predicate RoomFor(d: Db, e: nat, k: nat, media: Media, size: nat)
    requires e in d.events && k in d.sessions
  {
    && Fits(Count(d.assets, OfEvent(e)) + 1, d.events[e].total.count) && Fits(Used(d.assets, OfEvent(e)) + size, d.events[e].total.bytes)
    && Fits(Count(d.assets, OfSession(k)) + 1, d.sessions[k].limits.count) && Fits(Used(d.assets, OfSession(k)) + size, d.sessions[k].limits.bytes)
    && ClassFits(d, e, media, size)
  }

  // ---------------------------------------------------------------- uploads

  /** What a local upload reserves: its claimed size, or all that the file limits allow. */
  function Reserves(x: Event, u: UploadRequest): nat {
    match u.claimed
    case Some(n) => n
    case None =>
      match (if u.media == Video then x.videoFile else x.photoFile)
      case None => u.limit
      case Some(m) => if m < u.limit then m else u.limit
  }

  /** Event and session are open, neither the bytes read nor the claim pass the file limits, and what the upload reserves fits. */
  predicate MayUpload(d: Db, u: UploadRequest, now: nat) {
    && OpenAt(d, u.event, u.link, now) && SessionAt(d, u.event, u.session, now)
    && FileFits(d.events[u.event], u.media, u.prefix, u.limit) && (u.claimed.Some? ==> FileFits(d.events[u.event], u.media, u.claimed.value, u.limit))
    && RoomFor(d, u.event, u.session, u.media, Reserves(d.events[u.event], u))
  }

  /** A local upload is granted exactly then. */
  lemma UploadGranted(d: Db, u: UploadRequest, i: nat, now: nat)
    ensures UploadTx(d, u, i, now).Ok? <==> MayUpload(d, u, now)
    ensures UploadTx(d, u, i, now).Ok? ==>
              UploadTx(d, u, i, now).value
              == d.(assets := d.assets[i := Asset(u.event, u.session, Local, Pending, 0, Reserves(d.events[u.event], u), Some(u.media), None, u.meta, now, None)])
  {
    if OpenAt(d, u.event, u.link, now) && SessionAt(d, u.event, u.session, now) {
      ReserveExactly(d, u.event, u.session, Reserves(d.events[u.event], u), u.media);
    }
  }

  /** The end of a local upload is accepted exactly if the event is open and the row is still pending. */
  lemma FinishGranted(d: Db, e: nat, link: nat, i: nat, size: nat, now: nat)
    ensures FinishTx(d, e, link, i, size, now).Ok? <==> OpenAt(d, e, link, now) && i in d.assets && d.assets[i].status == Pending
    ensures FinishTx(d, e, link, i, size, now).Ok? ==>
              FinishTx(d, e, link, i, size, now).value == d.(assets := d.assets[i := d.assets[i].(status := Ready, size := size)])
  {}

  /** The error names what stands in the way of a new row: a closed event, a session that is gone or has expired, or the first limit
      that one more file of `size` bytes would pass. */
  predicate Names(d: Db, e: nat, link: nat, k: nat, media: Media, size: nat, now: nat, x: Error) {
    (OpenAt(d, e, link, now) <==> x != ErrClosed)
    && match x
      case ErrClosed => true
      case ErrSession => !(k in d.sessions && d.sessions[k].event == e)
      case ErrExpired => k in d.sessions && d.sessions[k].event == e && d.sessions[k].expires <= now
      case ErrEventCount => !Fits(Count(d.assets, OfEvent(e)) + 1, d.events[e].total.count)
      case ErrEventBytes => !Fits(Used(d.assets, OfEvent(e)) + size, d.events[e].total.bytes)
      case ErrSessionQuota =>
        && k in d.sessions
        && !(Fits(Count(d.assets, OfSession(k)) + 1, d.sessions[k].limits.count) && Fits(Used(d.assets, OfSession(k)) + size, d.sessions[k].limits.bytes))
      case ErrClassCount(m) => m == media && !Fits(Count(d.assets, OfClass(e, m)) + 1, (if m == Video then d.events[e].video else d.events[e].photo).count)
      case ErrClassBytes(m) => m == media && !Fits(Used(d.assets, OfClass(e, m)) + size, (if m == Video then d.events[e].video else d.events[e].photo).bytes)
      case _ => false
  }

  lemma ReserveNames(d: Db, e: nat, link: nat, k: nat, media: Media, size: nat, now: nat)
    requires OpenAt(d, e, link, now) && SessionAt(d, e, k, now) && Reserve(d, e, k, size, media).Some?
    ensures Names(d, e, link, k, media, size, now, Reserve(d, e, k, size, media).value)
  {}

  /** A refused upload is told what stands in the way. */
  lemma UploadRefused(d: Db, u: UploadRequest, i: nat, now: nat)
    requires UploadTx(d, u, i, now).Err?
    ensures var x := UploadTx(d, u, i, now).error;
            if x.ErrFile? then
              && x.media == u.media && OpenAt(d, u.event, u.link, now)
              && !(FileFits(d.events[u.event], u.media, u.prefix, u.limit) && (u.claimed.Some? ==> FileFits(d.events[u.event], u.media, u.claimed.value, u.limit)))
            else Names(d, u.event, u.link, u.session, u.media, if u.event in d.events then Reserves(d.events[u.event], u) else 0, now, x)
  {
    if OpenAt(d, u.event, u.link, now) && SessionAt(d, u.event, u.session, now) && Reserve(d, u.event, u.session, Reserves(d.events[u.event], u), u.media).Some? {
      ReserveNames(d, u.event, u.link, u.session, u.media, Reserves(d.events[u.event], u), now);
    }
  }

  // ---------------------------------------------------------------- direct uploads

  /** The row says what the request says. */
  predicate SameFile(x: Asset, p: Preparation) { x.meta == p.meta && x.expected == p.size && (x.media == None || x.media == Some(p.media)) }

  /** A preparation is accepted exactly if event and session are open and either its request has a row that says the same, or it
      has none and one more file of its size is allowed and fits. The first adds nothing, the second one pending row. */
  lemma PrepareGranted(d: Db, p: Preparation, i: nat, now: nat)
    requires forall j, k :: j in Requested(d.assets, p.session, p.request) && k in Requested(d.assets, p.session, p.request) ==> j == k
    ensures PrepareTx(d, p, i, now).Ok? <==>
              && OpenAt(d, p.event, p.link, now) && SessionAt(d, p.event, p.session, now)
              && (forall j :: j in Requested(d.assets, p.session, p.request) ==> SameFile(d.assets[j], p))
              && (Requested(d.assets, p.session, p.request) == {} ==>
                    FileFits(d.events[p.event], p.media, p.size, p.limit) && RoomFor(d, p.event, p.session, p.media, p.size))
    ensures PrepareTx(d, p, i, now).Ok? ==>
              var (j, n) := PrepareTx(d, p, i, now).value;
              if Requested(d.assets, p.session, p.request) == {} then
                j == i && n == d.(assets := d.assets[i := Asset(p.event, p.session, S3, Pending, 0, p.size, Some(p.media), Some(p.request), p.meta, now, None)])
              else n == d && Requested(d.assets, p.session, p.request) == {j}
  {
    var found := Requested(d.assets, p.session, p.request);
    if OpenAt(d, p.event, p.link, now) && SessionAt(d, p.event, p.session, now) {
      ReserveExactly(d, p.event, p.session, p.size, p.media);
      if found != {} { OneRow(d.assets, p.session, p.request); }
    }
  }

  /** A refused preparation is told what stands in the way; a request id used for another file is one more reason. */
  lemma PrepareRefused(d: Db, p: Preparation, i: nat, now: nat)
    requires forall j, k :: j in Requested(d.assets, p.session, p.request) && k in Requested(d.assets, p.session, p.request) ==> j == k
    requires PrepareTx(d, p, i, now).Err?
    ensures var x := PrepareTx(d, p, i, now).error;
            if x.ErrFile? then x.media == p.media && OpenAt(d, p.event, p.link, now) && !FileFits(d.events[p.event], p.media, p.size, p.limit)
            else if x.ErrRequest? then exists j :: j in Requested(d.assets, p.session, p.request) && !SameFile(d.assets[j], p)
            else Names(d, p.event, p.link, p.session, p.media, p.size, now, x)
  {
    if OpenAt(d, p.event, p.link, now) && SessionAt(d, p.event, p.session, now) {
      if Requested(d.assets, p.session, p.request) != {} { OneRow(d.assets, p.session, p.request); }
      else if Reserve(d, p.event, p.session, p.size, p.media).Some? { ReserveNames(d, p.event, p.link, p.session, p.media, p.size, now); }
    }
  }

  lemma OneRow(assets: map<nat, Asset>, k: nat, request: nat)
    requires Requested(assets, k, request) != {}
    requires forall i, j :: i in Requested(assets, k, request) && j in Requested(assets, k, request) ==> i == j
    ensures Ordered.Min(Requested(assets, k, request)) in Requested(assets, k, request)
    ensures Requested(assets, k, request) == {Ordered.Min(Requested(assets, k, request))}
  {}

  /** A further plan is authorized exactly while event and session are open. */
  lemma AuthorizeGranted(d: Db, e: nat, link: nat, k: nat, i: nat, until: nat, now: nat)
    ensures AuthorizeTx(d, e, link, k, i, until, now).Ok? <==> OpenAt(d, e, link, now) && SessionAt(d, e, k, now)
    ensures AuthorizeTx(d, e, link, k, i, until, now).Ok? && i in d.assets && d.assets[i].status == Pending ==>
              AuthorizeTx(d, e, link, k, i, until, now).value == d.(assets := d.assets[i := d.assets[i].(authorized := Some(until))])
  {}

  /** The row of a verified object may become ready: its event still has the link and is not being deleted, and a row that holds no
      class yet finds room in the class of its object. Whether the event is enabled or has expired does not matter. */
  predicate MayComplete(d: Db, row: Asset, link: nat, size: nat, media: Media, ceiling: nat) {
    && row.event in d.events && d.events[row.event].link == link && !d.events[row.event].deleting
    && (row.media == None ==> FileFits(d.events[row.event], media, size, ceiling) && ClassFits(d, row.event, media, size))
  }

  lemma CompleteGranted(d: Db, row: Asset, link: nat, i: nat, size: nat, media: Media, ceiling: nat)
    ensures CompleteTx(d, row, link, i, size, media, ceiling).Ok? <==>
              MayComplete(d, row, link, size, media, ceiling) && i in d.assets && d.assets[i].status == Pending
    ensures CompleteTx(d, row, link, i, size, media, ceiling).Ok? ==>
              CompleteTx(d, row, link, i, size, media, ceiling).value
              == d.(assets := d.assets[i := d.assets[i].(status := Ready, size := size, media := Some(media))])
  {
    if row.event in d.events {
      Refuses(Used(d.assets, OfClass(row.event, media)), size, Count(d.assets, OfClass(row.event, media)), ClassLimits(d.events[row.event], media));
    }
  }
}
