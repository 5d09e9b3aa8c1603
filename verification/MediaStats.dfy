/** The usage statistics shown to organizers, against the counts and sums the reservation checks use. */
module MediaStats {
  import opened Wrappers
  import opened Ordered
  import opened MediaModel
  import opened MediaUsage

  datatype Typed = Typed(ready: nat, bytes: nat, pending: nat, reserved: nat)
  datatype Stats = Stats(total: Typed, photos: Typed, videos: Typed)

  const NONE := Typed(0, 0, 0, 0)

  /** One group of rows: SUM(status='ready'), the ready bytes, SUM(status='pending'), the reserved bytes. */
  function GroupOf(assets: map<nat, Asset>, ids: set<nat>): Typed
    requires ids <= assets.Keys
    decreases |ids|
  {
    if ids == {} then NONE
    else
      var m := Min(ids);
      var rest := ids - {m};
      assert |rest| == |ids| - 1;
      var t, a := GroupOf(assets, rest), assets[m];
      if a.status.Ready? then t.(ready := t.ready + 1, bytes := t.bytes + a.size)
      else t.(pending := t.pending + 1, reserved := t.reserved + a.expected)
  }

  /** The rows of one event and one class column. */
  function InGroup(assets: map<nat, Asset>, e: nat, media: Option<Media>): set<nat> {
    set i | i in assets && assets[i].event == e && assets[i].media == media
  }

  function Plus(a: Typed, b: Typed): Typed { Typed(a.ready + b.ready, a.bytes + b.bytes, a.pending + b.pending, a.reserved + b.reserved) }

  lemma {:induction false} GroupCounts(assets: map<nat, Asset>, ids: set<nat>)
    requires ids <= assets.Keys
    ensures var t := GroupOf(assets, ids); t.ready + t.pending == |ids| && t.bytes + t.reserved == Total(assets, ids)
    decreases |ids|
  {
    if ids != {} {
      var rest := ids - {Min(ids)};
      assert |rest| == |ids| - 1;
      GroupCounts(assets, rest);
    }
  }

  lemma {:induction false} TotalJoin(assets: map<nat, Asset>, a: set<nat>, b: set<nat>)
    requires a <= assets.Keys && b <= assets.Keys && a !! b
    ensures Total(assets, a + b) == Total(assets, a) + Total(assets, b)
    decreases |a|
  {
    if a == {} {
      assert a + b == b;
    } else {
      var m := Min(a);
      var rest := a - {m};
      assert |rest| == |a| - 1;
      assert a + b - {m} == rest + b;
      TotalLess(assets, a + b, m);
      TotalJoin(assets, rest, b);
    }
  }

  // ---------------------------------------------------------------- the loop over the query's rows

  /** A row of the query: one (event, class) pair. */
  datatype GroupRow = GroupRow(event: nat, media: Option<Media>, typed: Typed)

  const ZERO := Stats(NONE, NONE, NONE)

  /** The entry of an event; an event without one has no asset. */
  function Entry(m: map<nat, Stats>, e: nat): Stats { if e in m then m[e] else ZERO }

  /** One row adds to the totals and fills its class. */
  function Added(s: Stats, row: GroupRow): Stats {
    Stats(Plus(s.total, row.typed), if row.media == Some(Photo) then row.typed else s.photos, if row.media == Some(Video) then row.typed else s.videos)
  }

  function Gathered(rows: seq<GroupRow>): map<nat, Stats> {
    if rows == [] then map[]
    else
      var m, row := Gathered(rows[..|rows| - 1]), rows[|rows| - 1];
      m[row.event := Added(Entry(m, row.event), row)]
  }

  method Gather(rows: seq<GroupRow>) returns (result: map<nat, Stats>)
    ensures result == Gathered(rows)
  {
    result := map[];
    var i := 0;
    while i < |rows|
      invariant 0 <= i <= |rows| && result == Gathered(rows[..i])
    {
      var row := rows[i];
      var stats := if row.event in result then result[row.event] else ZERO;
      stats := stats.(total := Plus(stats.total, row.typed));
      if row.media == Some(Photo) { stats := stats.(photos := row.typed); }
      if row.media == Some(Video) { stats := stats.(videos := row.typed); }
      result := result[row.event := stats];
      assert rows[..i + 1][..i] == rows[..i];
      i := i + 1;
    }
    assert rows[..i] == rows;
  }

  predicate SameGroup(x: GroupRow, y: GroupRow) { x.event == y.event && x.media == y.media }

  /** The rows are distinct pairs. */
  ghost predicate Distinct(rows: seq<GroupRow>) { forall i, j :: 0 <= i < j < |rows| ==> !SameGroup(rows[i], rows[j]) }

  ghost predicate RowTrue(assets: map<nat, Asset>, row: GroupRow) {
    InGroup(assets, row.event, row.media) != {} && row.typed == GroupOf(assets, InGroup(assets, row.event, row.media))
  }

  ghost predicate Listed(rows: seq<GroupRow>, a: Asset) { exists i :: 0 <= i < |rows| && rows[i].event == a.event && rows[i].media == a.media }

  /** GROUP BY event_id, media_class: one row for each pair that occurs, in any order. */
  ghost predicate Answers(assets: map<nat, Asset>, rows: seq<GroupRow>) {
    && Distinct(rows) && (forall i :: 0 <= i < |rows| ==> RowTrue(assets, rows[i])) && (forall a :: a in assets ==> Listed(rows, assets[a]))
  }

  /** The row of a pair, as far as the loop has come. */
  function Find(rows: seq<GroupRow>, e: nat, media: Option<Media>): Typed {
    if rows == [] then NONE
    else if rows[|rows| - 1].event == e && rows[|rows| - 1].media == media then rows[|rows| - 1].typed
    else Find(rows[..|rows| - 1], e, media)
  }

  function OfRows(others: Typed, photos: Typed, videos: Typed): Stats { Stats(Plus(Plus(others, photos), videos), photos, videos) }

  lemma {:induction false} FindIs(rows: seq<GroupRow>, e: nat, media: Option<Media>)
    ensures (forall i :: 0 <= i < |rows| ==> rows[i].event != e || rows[i].media != media) ==> Find(rows, e, media) == NONE
    ensures forall i :: 0 <= i < |rows| && Distinct(rows) && rows[i].event == e && rows[i].media == media ==> Find(rows, e, media) == rows[i].typed
    decreases |rows|
  {
    if rows != [] {
      var rest := rows[..|rows| - 1];
      FindIs(rest, e, media);
      forall i | 0 <= i < |rows| && Distinct(rows) && rows[i].event == e && rows[i].media == media ensures Find(rows, e, media) == rows[i].typed {
        if i < |rows| - 1 {
          assert rest[i] == rows[i];
          assert !SameGroup(rows[i], rows[|rows| - 1]);
        }
      }
    }
  }

  predicate HasEvent(rows: seq<GroupRow>, e: nat) { exists i :: 0 <= i < |rows| && rows[i].event == e }

  lemma HasEventLast(rest: seq<GroupRow>, row: GroupRow, e: nat)
    ensures HasEvent(rest + [row], e) <==> row.event == e || HasEvent(rest, e)
  {
    var rows := rest + [row];
    assert rows[|rest|] == row;
    if i :| 0 <= i < |rest| && rest[i].event == e { assert rows[i].event == e; }
  }

  /** A class that has no row yet gets one. */
  lemma AddedRow(others: Typed, photos: Typed, videos: Typed, row: GroupRow)
    ensures row.media == None && others == NONE ==> Added(OfRows(others, photos, videos), row) == OfRows(row.typed, photos, videos)
    ensures row.media == Some(Photo) && photos == NONE ==> Added(OfRows(others, photos, videos), row) == OfRows(others, row.typed, videos)
    ensures row.media == Some(Video) && videos == NONE ==> Added(OfRows(others, photos, videos), row) == OfRows(others, photos, row.typed)
  {}

  function Found(rows: seq<GroupRow>, e: nat): Stats { OfRows(Find(rows, e, None), Find(rows, e, Some(Photo)), Find(rows, e, Some(Video))) }

  lemma FoundLast(rest: seq<GroupRow>, row: GroupRow, e: nat)
    requires Find(rest, row.event, row.media) == NONE
    ensures Found(rest + [row], e) == if row.event == e then Added(Found(rest, e), row) else Found(rest, e)
  {
    assert (rest + [row])[..|rest|] == rest;
    AddedRow(Find(rest, e, None), Find(rest, e, Some(Photo)), Find(rest, e, Some(Video)), row);
    MediaCases(row.media);
  }

  lemma MediaCases(media: Option<Media>)
    ensures media == None || media == Some(Photo) || media == Some(Video)
  {
    if media.Some? { assert media.value.Photo? || media.value.Video?; }
  }

  lemma GatheredLast(rest: seq<GroupRow>, row: GroupRow, e: nat)
    ensures var m, n := Gathered(rest), Gathered(rest + [row]);
            && Entry(n, e) == (if row.event == e then Added(Entry(m, e), row) else Entry(m, e))
            && (e in n <==> row.event == e || e in m)
  {
    assert (rest + [row])[..|rest|] == rest;
  }

  /** What the loop's map says of an event once `rows` are done. */
  ghost predicate EntryIs(rows: seq<GroupRow>, e: nat) {
    Entry(Gathered(rows), e) == Found(rows, e) && (e in Gathered(rows) <==> HasEvent(rows, e))
  }

  lemma DistinctLast(rest: seq<GroupRow>, last: GroupRow)
    requires Distinct(rest + [last])
    ensures Distinct(rest) && Find(rest, last.event, last.media) == NONE
  {
    var rows := rest + [last];
    forall i, j | 0 <= i < j < |rest| ensures !SameGroup(rest[i], rest[j]) { assert !SameGroup(rows[i], rows[j]); }
    forall i | 0 <= i < |rest| ensures rest[i].event != last.event || rest[i].media != last.media {
      assert !SameGroup(rows[i], rows[|rest|]);
    }
    FindIs(rest, last.event, last.media);
  }

  lemma EntryLast(rest: seq<GroupRow>, last: GroupRow, e: nat)
    requires Find(rest, last.event, last.media) == NONE && EntryIs(rest, e)
    ensures EntryIs(rest + [last], e)
  {
    GatheredLast(rest, last, e);
    FoundLast(rest, last, e);
    HasEventLast(rest, last, e);
  }

  lemma FindNone(rows: seq<GroupRow>, e: nat, media: Option<Media>)
    requires |rows| == 0
    ensures Find(rows, e, media) == NONE
  {}

  lemma FoundNone(rows: seq<GroupRow>, e: nat)
    requires |rows| == 0
    ensures Found(rows, e) == ZERO
  {
    FindNone(rows, e, None);
    FindNone(rows, e, Some(Photo));
    FindNone(rows, e, Some(Video));
  }

  lemma GatheredNone(rows: seq<GroupRow>, e: nat)
    requires |rows| == 0
    ensures Entry(Gathered(rows), e) == ZERO && e !in Gathered(rows)
  {}

  lemma ListedNone(rows: seq<GroupRow>, e: nat)
    requires |rows| == 0
    ensures e in Gathered(rows) <==> HasEvent(rows, e)
  {
    GatheredNone(rows, e);
    assert !HasEvent(rows, e);
  }

  lemma CountedNone(rows: seq<GroupRow>, e: nat)
    requires |rows| == 0
    ensures Entry(Gathered(rows), e) == Found(rows, e)
  {
    GatheredNone(rows, e);
    FoundNone(rows, e);
  }

  lemma EntryNone(rows: seq<GroupRow>, e: nat)
    requires |rows| == 0
    ensures EntryIs(rows, e)
  {
    CountedNone(rows, e);
    ListedNone(rows, e);
  }

  lemma DistinctPrefix(rows: seq<GroupRow>, k: nat)
    requires Distinct(rows) && k < |rows|
    ensures Distinct(rows[..k] + [rows[k]]) && rows[..k] + [rows[k]] == rows[..k + 1]
  {
    var part := rows[..k] + [rows[k]];
    forall i, j | 0 <= i < j < |part| ensures !SameGroup(part[i], part[j]) { assert !SameGroup(rows[i], rows[j]); }
  }

  /** The map's entry of every event after any number of rows, whatever their order. */
  lemma {:induction false} GatheredEntry(rows: seq<GroupRow>, k: nat, e: nat)
    requires Distinct(rows) && k <= |rows|
    ensures EntryIs(rows[..k], e)
    decreases k
  {
    if k == 0 {
      EntryNone(rows[..0], e);
    } else {
      var p: nat := k - 1;
      GatheredEntry(rows, p, e);
      DistinctPrefix(rows, p);
      DistinctLast(rows[..p], rows[p]);
      EntryLast(rows[..p], rows[p], e);
    }
  }

  function GroupAt(assets: map<nat, Asset>, e: nat, media: Option<Media>): Typed { GroupOf(assets, InGroup(assets, e, media)) }

  /** The statistics of an event, by its groups. */
  function StatsOf(assets: map<nat, Asset>, e: nat): Stats {
    OfRows(GroupAt(assets, e, None), GroupAt(assets, e, Some(Photo)), GroupAt(assets, e, Some(Video)))
  }

  lemma FindsGroup(assets: map<nat, Asset>, rows: seq<GroupRow>, e: nat, media: Option<Media>)
    requires Answers(assets, rows)
    ensures Find(rows, e, media) == GroupAt(assets, e, media)
  {
    FindIs(rows, e, media);
    if i :| 0 <= i < |rows| && rows[i].event == e && rows[i].media == media {
      assert RowTrue(assets, rows[i]);
    } else {
      forall a | a in assets ensures a !in InGroup(assets, e, media) { assert Listed(rows, assets[a]); }
      assert InGroup(assets, e, media) == {};
    }
  }

  /** The loop gives every event its statistics, for any number of events and any order of the rows, and no entry to an event
      without assets. */
  lemma GatheredStats(assets: map<nat, Asset>, rows: seq<GroupRow>, e: nat)
    requires Answers(assets, rows)
    ensures Entry(Gathered(rows), e) == StatsOf(assets, e)
    ensures e in Gathered(rows) <==> Members(assets, OfEvent(e)) != {}
  {
    GatheredEntry(rows, |rows|, e);
    assert rows[..|rows|] == rows;
    FindsGroup(assets, rows, e, None);
    FindsGroup(assets, rows, e, Some(Photo));
    FindsGroup(assets, rows, e, Some(Video));
    EventListed(assets, rows, e);
  }

  lemma EventListed(assets: map<nat, Asset>, rows: seq<GroupRow>, e: nat)
    requires Answers(assets, rows)
    ensures HasEvent(rows, e) <==> Members(assets, OfEvent(e)) != {}
  {
    if HasEvent(rows, e) {
      var i :| 0 <= i < |rows| && rows[i].event == e;
      assert RowTrue(assets, rows[i]);
      var a :| a in InGroup(assets, e, rows[i].media);
      assert a in Members(assets, OfEvent(e));
    }
    if a :| a in Members(assets, OfEvent(e)) { assert Listed(rows, assets[a]); }
  }

  function ClassStats(s: Stats, media: Media): Typed { if media.Photo? then s.photos else s.videos }

  lemma ClassGroup(assets: map<nat, Asset>, e: nat, media: Media)
    ensures InGroup(assets, e, Some(media)) == Members(assets, OfClass(e, media))
  {}

  /** The statistics count exactly what the reservation checks count. */
  lemma StatsAgree(assets: map<nat, Asset>, e: nat, media: Media)
    ensures var s := StatsOf(assets, e);
            && s.total.ready + s.total.pending == Count(assets, OfEvent(e))
            && s.total.bytes + s.total.reserved == Used(assets, OfEvent(e))
            && ClassStats(s, media).ready + ClassStats(s, media).pending == Count(assets, OfClass(e, media))
            && ClassStats(s, media).bytes + ClassStats(s, media).reserved == Used(assets, OfClass(e, media))
  {
    var n, p, v := InGroup(assets, e, None), InGroup(assets, e, Some(Photo)), InGroup(assets, e, Some(Video));
    GroupCounts(assets, n);
    GroupCounts(assets, p);
    GroupCounts(assets, v);
    TotalJoin(assets, n, p);
    TotalJoin(assets, n + p, v);
    ClassGroup(assets, e, Photo);
    ClassGroup(assets, e, Video);
    assert Members(assets, OfEvent(e)) == n + p + v by {
      forall i | i in Members(assets, OfEvent(e)) ensures i in n + p + v {
        if assets[i].media.Some? { assert assets[i].media.value.Photo? || assets[i].media.value.Video?; }
      }
    }
  }
}
