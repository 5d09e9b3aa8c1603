/** A run in which a job works on through reused ids: claimed to set up an album only, it uploads, and settles a row whose
    binding has no album. */
module ImmichMisplaced {
  import opened Wrappers
  import opened Ordered
  import opened ImmichModel
  import opened ImmichSteps
  import opened ImmichInvariant
  import opened ImmichRuns

  const MEDIA: nat := 7
  const SETUP := Request(1, 0, "album", "new", true, true, true, true, 101)
  const OTHER := Request(2, 0, "other", "new", true, true, true, true, 102)
  const MANUAL := Request(1, 0, "album", "new", false, true, true, true, 103)

  const ONE_EVENT := map[1 := Event("a", false)]
  const BOTH_EVENTS := map[1 := Event("a", false), 2 := Event("b", false)]
  const MEDIA_ROW := map[MEDIA := Asset(1, true, 50, 0)]
  const ALBUM_JOB := Job(1, NewMedia, true, Queued, false)

  function Claim(p: Phase): Exec { Exec(1, 1, 1, 101, true, p, false) }

  function At(events: map<nat, Event>, assets: map<nat, Asset>, bindings: map<nat, Binding>, jobs: map<nat, Job>,
              remote: Remote, exec: Exec, used: set<nat>, markers: set<nat>): State {
    State(Db(events, assets, bindings, jobs), remote, true, false, exec, used, markers)
  }

  // ---------------------------------------------------------------- the steps in between, for any states

  lemma SetupLeads(s: State, n: State, m: State, k: State, name: string, r: Request)
    requires NewEventStep(s, name) == n && EnqueueStep(n, r) == Some(m) && RecoverStep(m) == Some(k)
    ensures Leads(s, k)
  {
    NewEventLeads(s, n, name);
    EnqueueLeads(n, m, r);
    RecoverLeads(m, k);
    LeadsOn(s, n, m);
    LeadsOn(s, m, k);
  }

  lemma OrphanLeads(s: State, n: State, m: State, k: State, e: nat)
    requires ClaimStep(s) == Some(n) && BeginDeleteStep(n, e) == Some(m) && RemoveEventStep(m, e) == Some(k)
    ensures Leads(s, k)
  {
    ClaimLeads(s, n);
    DeleteLeads(n, m, k, e);
    LeadsOn(s, n, k);
  }

  lemma IntendLeads(s: State, n: State, m: State, k: State, r: Request)
    requires EnqueueStep(s, r) == Some(n) && SnapshotStep(n) == Some(m) && MarkCreatingStep(m) == Some(k)
    ensures Leads(s, k)
  {
    EnqueueLeads(s, n, r);
    IntentLeads(n, m, k);
    LeadsOn(s, n, k);
  }

  lemma IntentLeads(s: State, n: State, m: State)
    requires SnapshotStep(s) == Some(n) && MarkCreatingStep(n) == Some(m)
    ensures Leads(s, m)
  {
    LeadsTwo(s, TakeSnapshot, MarkCreating, n, m);
  }

  lemma CreateLeads(s: State, n: State, m: State, id: nat)
    requires SendCreateStep(s, Answered, id) == Some(n) && SaveAlbumStep(n) == Some(m)
    ensures Leads(s, m)
  {
    LeadsTwo(s, SendCreate(Answered, id), SaveAlbum, n, m);
  }

  lemma ReplaceLeads(s: State, n: State, m: State, k: State, e: nat, r: Request)
    requires BeginDeleteStep(s, e) == Some(n) && RemoveEventStep(n, e) == Some(m) && EnqueueStep(m, r) == Some(k)
    ensures Leads(s, k)
  {
    DeleteLeads(s, n, m, e);
    EnqueueLeads(m, k, r);
    LeadsOn(s, m, k);
  }

  lemma LoadLeads(s: State, n: State, m: State, a: nat)
    requires TakeStep(s, a) == Some(n) && LoadStep(n, a) == Some(m)
    ensures Leads(s, m)
  {
    LeadsTwo(s, Take(a), Load(a), n, m);
  }

  lemma MarkLeads(s: State, n: State, m: State, k: State, a: nat)
    requires TakeStep(s, a) == Some(n) && LoadStep(n, a) == Some(m) && MarkStep(m, a) == Some(k)
    ensures Leads(s, k)
  {
    LoadLeads(s, n, m, a);
    LeadsOne(m, Mark(a), k);
    LeadsOn(s, m, k);
  }

  lemma UploadLeads(s: State, n: State, m: State, a: nat, id: nat)
    requires UploadStep(s, a, Answered, id) == Some(n) && SaveStep(n, a) == Some(m)
    ensures Leads(s, m)
  {
    LeadsTwo(s, Upload(a, Answered, id), Save(a), n, m);
  }

  lemma SettleLeads(s: State, n: State, m: State, a: nat)
    requires AddStep(s, a, Answered) == Some(n) && AccountStep(n, a) == Some(m)
    ensures Leads(s, m)
  {
    LeadsTwo(s, Add(a, Answered), Account(a), n, m);
  }

  // ---------------------------------------------------------------- the claimed job loses its event

  const ASKED := At(ONE_EVENT, map[], map[1 := Binding(1, 0, "album", 101, false, NewAlbum, None, map[])], map[1 := ALBUM_JOB],
                    START.remote, Idle, {}, {101})
  const CLAIMED := ASKED.(db := ASKED.db.(jobs := map[1 := ALBUM_JOB.(status := Running)]), exec := Claim(Claimed))
  const ORPHAN := At(map[], map[], map[], map[], START.remote, Claim(Claimed), {}, {101})

  lemma Setup()
    ensures EnqueueStep(NewEventStep(START, "a"), SETUP) == Some(ASKED.(recovered := false))
  {
    var s := NewEventStep(START, "a");
    assert s.db.events == ONE_EVENT && BindingsOf(s.db, 1, 0) == {};
    var n := EnqueueStep(s, SETUP).value;
    assert n.db.bindings == ASKED.db.bindings && n.db.jobs == ASKED.db.jobs && n.usedMarkers == {101};
  }

  lemma Started()
    ensures RecoverStep(ASKED.(recovered := false)) == Some(ASKED)
  {
    var n := RecoverStep(ASKED.(recovered := false)).value;
    assert Requeue(map[]) == map[];
    assert n.db.bindings == ASKED.db.bindings && n.db.jobs == ASKED.db.jobs;
  }

  lemma JobClaimed()
    ensures ClaimStep(ASKED) == Some(CLAIMED)
  {
    assert QueuedJobs(ASKED.db) == {1};
    assert ClaimStep(ASKED).value.db.jobs == CLAIMED.db.jobs;
  }

  lemma EventRemoved()
    ensures BeginDeleteStep(CLAIMED, 1).Some? && RemoveEventStep(BeginDeleteStep(CLAIMED, 1).value, 1) == Some(ORPHAN)
  {
    var s := BeginDeleteStep(CLAIMED, 1).value;
    var n := RemoveEventStep(s, 1).value;
    assert n.db.events == map[] && n.db.bindings == map[] && n.db.jobs == map[];
  }

  lemma Orphaned()
    ensures Leads(START, ORPHAN)
  {
    Setup();
    Started();
    JobClaimed();
    EventRemoved();
    SetupLeads(START, NewEventStep(START, "a"), ASKED.(recovered := false), ASKED, "a", SETUP);
    OrphanLeads(ASKED, CLAIMED, BeginDeleteStep(CLAIMED, 1).value, ORPHAN, 1);
    LeadsOn(START, ASKED, ORPHAN);
  }

  // ---------------------------------------------------------------- another event's binding gets the claimed id

  const EMPTY_AGAIN := At(BOTH_EVENTS, MEDIA_ROW, map[], map[], START.remote, Claim(Claimed), {MEDIA}, {101})

  function OtherBinding(state: AlbumState, album: Option<nat>): map<nat, Binding> {
    map[1 := Binding(2, 0, "other", 102, false, state, album, map[])]
  }

  function Setting(state: AlbumState, album: Option<nat>, remote: Remote, p: Phase): State {
    At(BOTH_EVENTS, MEDIA_ROW, OtherBinding(state, album), map[1 := ALBUM_JOB], remote, Claim(p), {MEDIA}, {101, 102})
  }

  const TODO := {MEDIA}
  const CREATED := START.remote.(creates := map[102 := 1], albums := map[500 := 102])

  lemma EventsAgain()
    ensures Leads(ORPHAN, EMPTY_AGAIN)
  {
    var n := NewEventStep(ORPHAN, "a");
    assert n.db.events == ONE_EVENT && n.db.events.Keys == {1};
    var m := NewEventStep(n, "b");
    assert NextId({1}) == 2;
    assert m.db.events == BOTH_EVENTS;
    var k := MediaStep(m, MEDIA, 1, 50, 0).value;
    assert k.db.assets == MEDIA_ROW && k.usedAssets == {MEDIA};
    NewEventLeads(ORPHAN, n, "a");
    NewEventLeads(n, m, "b");
    LeadsOne(m, MediaReady(MEDIA, 1, 50, 0), k);
    LeadsOn(ORPHAN, n, m);
    LeadsOn(ORPHAN, m, k);
  }

  lemma OtherAsked()
    ensures EnqueueStep(EMPTY_AGAIN, OTHER) == Some(Setting(NewAlbum, None, START.remote, Claimed))
  {
    assert BindingsOf(EMPTY_AGAIN.db, 2, 0) == {};
    var n := EnqueueStep(EMPTY_AGAIN, OTHER).value;
    assert n.db.bindings == OtherBinding(NewAlbum, None) && n.db.jobs == map[1 := ALBUM_JOB] && n.usedMarkers == {101, 102};
  }

  lemma Snapshot()
    ensures SnapshotStep(Setting(NewAlbum, None, START.remote, Claimed)) == Some(Setting(NewAlbum, None, START.remote, AlbumLookup(TODO)))
  {
    assert ReadyAssets(Setting(NewAlbum, None, START.remote, Claimed).db, 1) == TODO;
  }

  lemma Intended()
    ensures MarkCreatingStep(Setting(NewAlbum, None, START.remote, AlbumLookup(TODO)))
            == Some(Setting(Creating, None, START.remote, AlbumIntent(TODO, 102)))
  {
    var n := MarkCreatingStep(Setting(NewAlbum, None, START.remote, AlbumLookup(TODO))).value;
    assert n.db.bindings == OtherBinding(Creating, None);
  }

  lemma Sent()
    ensures SendCreateStep(Setting(Creating, None, START.remote, AlbumIntent(TODO, 102)), Answered, 500)
            == Some(Setting(Creating, None, CREATED, AlbumReply(TODO, 500)))
  {
    var n := SendCreateStep(Setting(Creating, None, START.remote, AlbumIntent(TODO, 102)), Answered, 500).value;
    assert n.remote.creates == CREATED.creates && n.remote.albums == CREATED.albums;
  }

  const WORKING := Setting(AlbumReady, Some(500), CREATED, Work(TODO, map[], false, 500))

  lemma AlbumSaved()
    ensures SaveAlbumStep(Setting(Creating, None, CREATED, AlbumReply(TODO, 500))) == Some(WORKING)
  {
    var n := SaveAlbumStep(Setting(Creating, None, CREATED, AlbumReply(TODO, 500))).value;
    assert n.db.bindings == OtherBinding(AlbumReady, Some(500));
  }

  lemma Works()
    ensures Leads(EMPTY_AGAIN, WORKING)
  {
    OtherAsked();
    Snapshot();
    Intended();
    Sent();
    AlbumSaved();
    IntendLeads(EMPTY_AGAIN, Setting(NewAlbum, None, START.remote, Claimed), Setting(NewAlbum, None, START.remote, AlbumLookup(TODO)),
                Setting(Creating, None, START.remote, AlbumIntent(TODO, 102)), OTHER);
    CreateLeads(Setting(Creating, None, START.remote, AlbumIntent(TODO, 102)), Setting(Creating, None, CREATED, AlbumReply(TODO, 500)), WORKING, 500);
    LeadsOn(EMPTY_AGAIN, Setting(Creating, None, START.remote, AlbumIntent(TODO, 102)), WORKING);
  }

  // ---------------------------------------------------------------- and then a third binding

  const ALONE := At(ONE_EVENT, MEDIA_ROW, map[], map[], CREATED, Claim(Work(TODO, map[], false, 500)), {MEDIA}, {101, 102})

  /** Binding 1 is now the one of event 1, with the row `x` and no album. */
  function Row(x: ImmichModel.Row, remote: Remote, todo: set<nat>, workers: map<nat, Worker>): State {
    At(ONE_EVENT, MEDIA_ROW, map[1 := Binding(1, 0, "album", 103, false, NewAlbum, None, map[MEDIA := x])],
       map[1 := Job(1, NewMedia, false, Queued, false)], remote, Claim(Work(todo, workers, false, 500)), {MEDIA}, {101, 102, 103})
  }

  lemma OtherRemoved()
    ensures BeginDeleteStep(WORKING, 2).Some? && RemoveEventStep(BeginDeleteStep(WORKING, 2).value, 2) == Some(ALONE)
  {
    var s := BeginDeleteStep(WORKING, 2).value;
    var n := RemoveEventStep(s, 2).value;
    assert n.db.events == ONE_EVENT && n.db.bindings == map[] && n.db.jobs == map[];
  }

  lemma ManualAsked()
    ensures EnqueueStep(ALONE, MANUAL) == Some(Row(FRESH_ROW, CREATED, TODO, map[]))
  {
    assert BindingsOf(ALONE.db, 1, 0) == {} && ReadyAssets(ALONE.db, 1) == TODO;
    var n := EnqueueStep(ALONE, MANUAL).value;
    assert Select(map[], TODO) == map[MEDIA := FRESH_ROW];
    assert n.db.bindings == Row(FRESH_ROW, CREATED, TODO, map[]).db.bindings;
    assert n.db.jobs == Row(FRESH_ROW, CREATED, TODO, map[]).db.jobs && n.usedMarkers == {101, 102, 103};
  }

  lemma Selected()
    ensures Leads(WORKING, Row(FRESH_ROW, CREATED, TODO, map[]))
  {
    OtherRemoved();
    ManualAsked();
    ReplaceLeads(WORKING, BeginDeleteStep(WORKING, 2).value, ALONE, Row(FRESH_ROW, CREATED, TODO, map[]), 2, MANUAL);
  }

  const MARKED_ROW := FRESH_ROW.(status := Importing, attempts := 1)
  const SAVED_ROW := MARKED_ROW.(remote := Some(900))
  const STORED := CREATED.(sent := [UploadCall(MEDIA, true, false, true)], copies := map[900 := 50])
  const ADDED := STORED.(added := {(500, 900)})

  lemma Taken()
    ensures TakeStep(Row(FRESH_ROW, CREATED, TODO, map[]), MEDIA) == Some(Row(FRESH_ROW, CREATED, {}, map[MEDIA := Took]))
    ensures LoadStep(Row(FRESH_ROW, CREATED, {}, map[MEDIA := Took]), MEDIA) == Some(Row(FRESH_ROW, CREATED, {}, map[MEDIA := Loaded(None, false)]))
  {
    assert TODO - {MEDIA} == {};
    var none: map<nat, Worker> := map[];
    assert none[MEDIA := Took] == map[MEDIA := Took] && map[MEDIA := Took][MEDIA := Loaded(None, false)] == map[MEDIA := Loaded(None, false)];
  }

  lemma Written(x: ImmichModel.Row, remote: Remote, v: Worker, y: ImmichModel.Row, w: Worker)
    ensures PutWorker(WriteRow(Row(x, remote, {}, map[MEDIA := v]), MEDIA, y), MEDIA, w) == Row(y, remote, {}, map[MEDIA := w])
  {
    var s := Row(x, remote, {}, map[MEDIA := v]);
    assert map[MEDIA := x][MEDIA := y] == map[MEDIA := y] && map[MEDIA := v][MEDIA := w] == map[MEDIA := w];
    assert WriteRow(s, MEDIA, y).db.bindings == Row(y, remote, {}, map[MEDIA := v]).db.bindings;
  }

  lemma Marked()
    ensures MarkStep(Row(FRESH_ROW, CREATED, {}, map[MEDIA := Loaded(None, false)]), MEDIA)
            == Some(Row(MARKED_ROW, CREATED, {}, map[MEDIA := Worker.Marked(None, false)]))
  {
    Written(FRESH_ROW, CREATED, Loaded(None, false), MARKED_ROW, Worker.Marked(None, false));
  }

  lemma NoneKnown(copies: map<nat, nat>, content: nat)
    requires forall i :: i in copies ==> copies[i] != content
    ensures (set i | i in copies && copies[i] == content) == {}
  {}

  lemma Uploads()
    ensures UploadStep(Row(MARKED_ROW, CREATED, {}, map[MEDIA := Worker.Marked(None, false)]), MEDIA, Answered, 900)
            == Some(Row(MARKED_ROW, STORED, {}, map[MEDIA := Uploaded(900, false)]))
  {
    var s := Row(MARKED_ROW, CREATED, {}, map[MEDIA := Worker.Marked(None, false)]);
    NoneKnown(s.remote.copies, 50);
    var n := UploadStep(s, MEDIA, Answered, 900).value;
    assert n.remote.copies == STORED.copies && n.remote.sent == STORED.sent;
    assert map[MEDIA := Worker.Marked(None, false)][MEDIA := Uploaded(900, false)] == map[MEDIA := Uploaded(900, false)];
  }

  lemma Saves()
    ensures SaveStep(Row(MARKED_ROW, STORED, {}, map[MEDIA := Uploaded(900, false)]), MEDIA)
            == Some(Row(SAVED_ROW, STORED, {}, map[MEDIA := Saved(900, false)]))
  {
    Written(MARKED_ROW, STORED, Uploaded(900, false), SAVED_ROW, Saved(900, false));
  }

  lemma Adds()
    ensures AddStep(Row(SAVED_ROW, STORED, {}, map[MEDIA := Saved(900, false)]), MEDIA, Answered)
            == Some(Row(SAVED_ROW, ADDED, {}, map[MEDIA := Added(900, false)]))
  {
    var s := Row(SAVED_ROW, STORED, {}, map[MEDIA := Saved(900, false)]);
    assert AddStep(s, MEDIA, Answered).value.remote.added == {(500, 900)};
    assert map[MEDIA := Saved(900, false)][MEDIA := Added(900, false)] == map[MEDIA := Added(900, false)];
  }

  lemma Accounts()
    ensures AccountStep(Row(SAVED_ROW, ADDED, {}, map[MEDIA := Added(900, false)]), MEDIA)
            == Some(Row(SAVED_ROW.(status := Imported), ADDED, {}, map[]))
  {
    var s := Row(SAVED_ROW, ADDED, {}, map[MEDIA := Added(900, false)]);
    Written(SAVED_ROW, ADDED, Added(900, false), SAVED_ROW.(status := Imported), Added(900, false));
    assert map[MEDIA := Added(900, false)] - {MEDIA} == map[];
  }

  lemma Imports()
    ensures Leads(Row(FRESH_ROW, CREATED, TODO, map[]), Row(SAVED_ROW, STORED, {}, map[MEDIA := Saved(900, false)]))
  {
    Taken();
    Marked();
    Uploads();
    Saves();
    MarkLeads(Row(FRESH_ROW, CREATED, TODO, map[]), Row(FRESH_ROW, CREATED, {}, map[MEDIA := Took]),
              Row(FRESH_ROW, CREATED, {}, map[MEDIA := Loaded(None, false)]), Row(MARKED_ROW, CREATED, {}, map[MEDIA := Worker.Marked(None, false)]), MEDIA);
    UploadLeads(Row(MARKED_ROW, CREATED, {}, map[MEDIA := Worker.Marked(None, false)]), Row(MARKED_ROW, STORED, {}, map[MEDIA := Uploaded(900, false)]),
                Row(SAVED_ROW, STORED, {}, map[MEDIA := Saved(900, false)]), MEDIA, 900);
    LeadsOn(Row(FRESH_ROW, CREATED, TODO, map[]), Row(MARKED_ROW, CREATED, {}, map[MEDIA := Worker.Marked(None, false)]),
            Row(SAVED_ROW, STORED, {}, map[MEDIA := Saved(900, false)]));
  }

  lemma Settles()
    ensures Leads(Row(SAVED_ROW, STORED, {}, map[MEDIA := Saved(900, false)]), Row(SAVED_ROW.(status := Imported), ADDED, {}, map[]))
  {
    Adds();
    Accounts();
    SettleLeads(Row(SAVED_ROW, STORED, {}, map[MEDIA := Saved(900, false)]), Row(SAVED_ROW, ADDED, {}, map[MEDIA := Added(900, false)]),
                Row(SAVED_ROW.(status := Imported), ADDED, {}, map[]), MEDIA);
  }

  /** A run from empty tables, with every request answered and every write done, after which an album-only job has uploaded
      and an imported row is in no album. */
  lemma MisplacedWitness()
    ensures exists ts, n :: Run(START, ts) == Some(n) && !Albumed(n.db, n.remote.added) && exists c :: c in n.remote.sent && c.albumOnly
  {
    Orphaned();
    EventsAgain();
    Works();
    Selected();
    Imports();
    Settles();
    var n := Row(SAVED_ROW.(status := Imported), ADDED, {}, map[]);
    LeadsOn(START, ORPHAN, EMPTY_AGAIN);
    LeadsOn(START, EMPTY_AGAIN, WORKING);
    LeadsOn(START, WORKING, Row(FRESH_ROW, CREATED, TODO, map[]));
    LeadsOn(START, Row(FRESH_ROW, CREATED, TODO, map[]), Row(SAVED_ROW, STORED, {}, map[MEDIA := Saved(900, false)]));
    LeadsOn(START, Row(SAVED_ROW, STORED, {}, map[MEDIA := Saved(900, false)]), n);
    var ts :| Run(START, ts) == Some(n);
    assert !RowAlbumed(n.db.bindings[1].album, n.db.bindings[1].imports[MEDIA], n.remote.added);
    assert n.remote.sent[0] in n.remote.sent;
  }
}
