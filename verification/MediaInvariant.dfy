/** What the media tables, the files, the objects and the requests in progress satisfy in every reachable state. */
module MediaInvariant {
  import opened MediaModel
  import opened MediaSteps
  import opened MediaLedger

  ghost predicate SameRequest(x: Asset, y: Asset) { x.session == y.session && x.request.Some? && x.request == y.request }

  ghost predicate RowOk(db: Db, drawn: set<nat>, i: nat)
    requires i in db.assets
  {
    var x := db.assets[i];
    && i in drawn && x.event in db.events && (x.status.Ready? ==> x.size > 0)
    && (x.backend.S3? && x.status.Ready? ==> x.size == x.expected)
    && (x.request.Some? ==> x.backend.S3?)
  }

  /** Tables: foreign keys, drawn ids, and one row per request id of a session. */
  ghost predicate TablesOk(db: Db, drawn: set<nat>) {
    && Linked(db) && db.retired <= drawn && db.sessions.Keys <= drawn
    && (forall i :: i in db.assets ==> RowOk(db, drawn, i))
    && (forall i, j {:trigger SameRequest(db.assets[i], db.assets[j])} ::
          i in db.assets && j in db.assets && SameRequest(db.assets[i], db.assets[j]) ==> i == j)
  }

  ghost predicate IsLocal(db: Db, i: nat) { i in db.assets && db.assets[i].backend.Local? }

  /** Every .part and final file belongs to a local row; a ready local row has a whole file of its recorded size. */
  ghost predicate FilesOk(db: Db, parts: map<nat, nat>, finals: map<nat, nat>) {
    && (forall i :: i in parts ==> IsLocal(db, i))
    && (forall i :: i in finals ==> IsLocal(db, i))
    && (forall i :: IsLocal(db, i) && db.assets[i].status.Ready? ==> HasFile(finals, i, db.assets[i].size))
  }

  ghost predicate HasFile(finals: map<nat, nat>, i: nat, size: nat) { i in finals && finals[i] == size }

  ghost predicate Known(db: Db, i: nat) { i in db.retired || (i in db.assets && db.assets[i].backend.S3?) }

  ghost predicate HasObject(objects: map<nat, Object>, i: nat, size: nat) { i in objects && objects[i].size == size }

  /** Every key a guest can write belongs to an S3 row or is retired; a ready row that is not retired has its object. */
  ghost predicate ObjectsOk(db: Db, objects: map<nat, Object>, issued: set<nat>) {
    && (forall i :: i in issued ==> Known(db, i))
    && (forall i :: i in objects ==> i in issued)
    && (forall i :: i in db.assets && db.assets[i].backend.S3? && db.assets[i].status.Ready? && i !in db.retired ==>
          HasObject(objects, i, db.assets[i].size))
  }

  /** The object a completion looked at is still there, unless its key is retired. */
  ghost predicate Stands(s: State, i: nat, o: Object) { i in s.db.retired || (i in s.objects && s.objects[i] == o) }

  ghost predicate Loading(s: State, i: nat, row: Asset) {
    i in s.db.assets && s.db.assets[i] == row && row.backend.S3? && row.status.Pending?
  }

  ghost predicate OpOk(s: State, i: nat, o: Op) {
    && i in s.db.assets && s.db.assets[i].event == o.event && o.event !in s.locks
    && var x := s.db.assets[i];
       match o
       case Reserved(_, _) => x.backend.Local? && x.status.Pending? && i !in s.parts && i !in s.finals
       case Writing(_, _) => x.backend.Local? && x.status.Pending? && i in s.parts && i !in s.finals
       case Sealed(_, _, size) => x.backend.Local? && x.status.Pending? && i in s.parts && s.parts[i] == size && 0 < size <= x.expected && i !in s.finals
       case Published(_, _, size) => x.backend.Local? && x.status.Pending? && i !in s.parts && HasFile(s.finals, i, size) && 0 < size <= x.expected
       case Failed(_) => x.backend.Local?
       case Undoing(_, at) => x.backend.Local? && x.status.Pending? && RemovalOk(s, i, at) && (at.Checked? || at.PartGone? || at.FinalGone?)
       case Loaded(_, _, row) => Loading(s, i, row)
       case Headed(_, _, row, stored) => Loading(s, i, row) && Stands(s, i, stored)
       case Verified(_, _, row, stored) => Loading(s, i, row) && Stands(s, i, stored) && stored.size == row.expected > 0
                                           && stored.media.Some? && (row.media.None? || row.media == stored.media)
       case Rejected(_, row) => Loading(s, i, row)
  }

  ghost predicate RemovalOk(s: State, i: nat, at: Removal) {
    i in s.db.assets && s.db.assets[i].status.Pending?
    && match at
       case Checked => true
       case PartGone => s.db.assets[i].backend.Local? && i !in s.parts
       case FinalGone => s.db.assets[i].backend.Local? && i !in s.parts && i !in s.finals
       case Retired => s.db.assets[i].backend.S3? && i in s.db.retired
       case ObjectGone => s.db.assets[i].backend.S3? && i in s.db.retired
  }

  ghost predicate HolderOk(s: State, e: nat, h: Holder) {
    && (h.deleting ==> e in s.db.events && s.db.events[e].deleting)
    && (h.job.Some? ==> RemovalOk(s, h.job.value.0, h.job.value.1) && s.db.assets[h.job.value.0].event == e)
  }

  ghost predicate OpsOk(s: State) { forall i :: i in s.ops ==> OpOk(s, i, s.ops[i]) }

  ghost predicate LocksOk(s: State) { forall e :: e in s.locks ==> HolderOk(s, e, s.locks[e]) }

  ghost predicate Inv(s: State) {
    && TablesOk(s.db, s.drawn) && FilesOk(s.db, s.parts, s.finals) && ObjectsOk(s.db, s.objects, s.issued)
    && OpsOk(s) && LocksOk(s)
  }
}
