/** Indexed segments outlive the process: after an index or a save, a restart and a restore, a search
    finds the plan that was indexed, in the files that were written for it. */
module Restarts {
  import opened Basics
  import opened Persistent
  import opened SessionState
  import opened SegmentPlanner
  import opened IncrementalPlan
  import opened ContentHash
  import opened CacheManifest
  import opened SegmentKV
  import opened ResidentStore
  import opened Coherence
  import opened KVManager
  import opened MemoryRoom
  import opened SessionFiles
  import opened SessionSaving
  import opened Durability
  import opened StorageNames
  import opened PlanInvariant
  import opened PlanRestore
  import opened PlanOrder
  import opened SessionPlans
  import opened SessionCommands
  import opened IndexCommands
  import opened SearchResults
  import opened SearchCommands
  import opened SavedSegments

  // ----- Cached estimates do not matter to what is saved -----

  lemma {:induction false} SameTextsHashAlike(a: seq<MemoryRecord>, b: seq<MemoryRecord>, indices: seq<int>)
    requires forall idx :: TextOf(a, idx) == TextOf(b, idx) && (FindMemory(a, idx).Some? <==> FindMemory(b, idx).Some?)
    ensures HashedItems(a, indices) == HashedItems(b, indices)
  {
    hide FindMemory;
    if indices != [] {
      assert TextOf(a, indices[0]) == TextOf(b, indices[0]);
      SameTextsHashAlike(a, b, indices[1..]);
    }
  }

  lemma {:induction false} SameFactsHashAlike(a: SessionStore, b: SessionStore, indices: seq<int>)
    requires SameFacts(a, b)
    ensures SegmentHash(a, indices) == SegmentHash(b, indices)
  {
    hide HashedItems, Fnv, Hex, TextOf, FindMemory, SameFacts;
    SameName(a, b);
    forall idx ensures TextOf(a.memories, idx) == TextOf(b.memories, idx) && (FindMemory(a.memories, idx).Some? <==> FindMemory(b.memories, idx).Some?) {
      PresentUpToEstimates(a, b, idx);
    }
    SameTextsHashAlike(a.memories, b.memories, indices);
  }

  /** The same facts, cut into the same runs, are described by the same manifest. */
  lemma {:induction false} DescribedAlike(a: SessionStore, b: SessionStore, before: seq<Segment>, after: seq<Segment>, manifest: Manifest, model: ModelKey)
    requires DescribesFirst(a, before, manifest, model, |before|) && SameFacts(a, b) && SameRuns(before, after)
    ensures DescribesFirst(b, after, manifest, model, |after|)
    ensures |after| == |before| && forall k :: 0 <= k < |before| ==> ContentAt(b, after[k]) == ContentAt(a, before[k])
  {
    hide SegmentHash, SameFacts, SegmentTexts, SameRuns;
    SameName(a, b);
    SameIndices(before, after);
    SameIds(before, after);
    forall k | 0 <= k < |after| ensures Describes(b, after[k], manifest.segments[k]) && ContentAt(b, after[k]) == ContentAt(a, before[k]) {
      assert Describes(a, before[k], manifest.segments[k]);
      SameFactsHashAlike(a, b, after[k].indices);
      ContentUpToEstimates(a, b, after[k]);
    }
  }

  lemma {:induction false} SameIds(a: seq<Segment>, b: seq<Segment>)
    requires SameRuns(a, b)
    ensures |a| == |b| && forall k :: 0 <= k < |a| ==> a[k].id == b[k].id
  {
    forall k | 0 <= k < |a| ensures a[k].id == b[k].id {
      assert WithTokens(a[k], 0).id == a[k].id && WithTokens(b[k], 0).id == b[k].id;
    }
  }

  // ----- Planning what was indexed -----

  /** What an index or save left of a session: a manifest that describes its plan and entries and is sure
      to be accepted, and a file for each segment that loads for what the segment holds. */
  ghost predicate LeftBehind(core: Core, model: ModelKey, id: Bytes, v: SessionView, manifest: Option<Manifest>, engine: Engine, files: map<Key, Snapshot>) {
    && InOrder(v.store, v.segments) && v.segments != [] && core.contextLength > 0 && v.store.sessionId == id
    && manifest.Some? && DescribesFirst(v.store, v.segments, manifest.value, model, |v.segments|)
    && RecordsFirst(manifest.value, v.metadata, |v.segments|)
    && (forall k :: 0 <= k < |v.segments| ==> ContiguousRun(v.segments[k].indices) && v.metadata[k].tokenCount <= core.contextLength)
    && (forall k | 0 <= k < |v.segments| :: Key(id, k) in files && Loads(engine, files[Key(id, k)], ContentAt(v.store, v.segments[k])))
  }

  /** The segments that were indexed, with the counts of their entries. */
  ghost predicate PlannedAs(v: SessionView, segments: seq<Segment>) {
    && |segments| == |v.segments|
    && forall k :: 0 <= k < |segments| ==> k in v.metadata && segments[k] == WithTokens(v.segments[k], v.metadata[k].tokenCount)
  }

  lemma {:induction false} PlannedAsRuns(v: SessionView, segments: seq<Segment>)
    requires PlannedAs(v, segments)
    ensures SameRuns(v.segments, segments)
  {
  }

  /** The plan that is made of what was left behind is the one that was indexed. */
  lemma {:induction false} PlannedAsIndexed(core: Core, model: ModelKey, id: Bytes, v: SessionView, manifest: Option<Manifest>, engine: Engine,
                                            files: map<Key, Snapshot>, loaded: SessionStore, ok: bool, planned: seq<Segment>)
    requires LeftBehind(core, model, id, v, manifest, engine, files) && SameFacts(loaded, v.store)
    requires PlannedAnew(core, model, manifest, loaded, ok, planned)
    ensures ok && PlannedAs(v, planned)
  {
    hide Accepts, PlanFrom, SortedById, SameFacts, SameRuns, Partition, Ascending, DescribesFirst, ContiguousRun, WithTokens;
    SameFactsBack(loaded, v.store);
    RunsOfItself(v.segments);
    DescribedAlike(v.store, loaded, v.segments, v.segments, manifest.value, model);
    EstimatesInOrder(v.store, loaded, v.segments);
    IndexSurvivesRestart(core, loaded, v.segments, model, manifest.value);
    SomethingPlanned(loaded, v.segments);
  }

  lemma {:induction false} SomethingPlanned(store: SessionStore, segments: seq<Segment>)
    requires InOrder(store, segments) && segments != []
    ensures store.memories != []
  {
    PartitionIsOk(store, segments);
    FirstIsPresent(store, segments);
  }

  /** What was left behind can be searched, as soon as its facts are loaded. */
  lemma {:induction false} LeftBehindIsSearchable(core: Core, model: ModelKey, id: Bytes, v: SessionView, manifest: Option<Manifest>, engine: Engine,
                                                  files: map<Key, Snapshot>, loaded: SessionStore)
    requires LeftBehind(core, model, id, v, manifest, engine, files) && SameFacts(loaded, v.store)
    ensures SearchableAnew(core, model, manifest, loaded, id, engine, files, |v.segments|)
  {
    hide LeftBehind, PlannedAnew, PlannedAs, SameFacts, SameRuns, EntriesRefreshed, ViewSavedAndLoads;
    forall ok, now: SessionView | PlannedAnew(core, model, manifest, loaded, ok, now.segments) && SameFacts(now.store, loaded)
      ensures ok && |now.segments| == |v.segments| && (EntriesRefreshed(now, manifest, model, files) ==> ViewSavedAndLoads(id, now, engine, files))
    {
      PlannedAsIndexed(core, model, id, v, manifest, engine, files, loaded, ok, now.segments);
      PlannedAsRuns(v, now.segments);
      SameLength(v.segments, now.segments);
      SameFactsChain(now.store, loaded, v.store);
      if EntriesRefreshed(now, manifest, model, files) {
        FoundAgain(core, model, id, v, manifest, engine, files, now);
      }
    }
  }

  /** The restored session has the entries that the indexed one had, as far as counts and sizes go, and all
      of its segments count as saved. */
  lemma {:induction false} FoundAgain(core: Core, model: ModelKey, id: Bytes, v: SessionView, manifest: Option<Manifest>, engine: Engine,
                                      files: map<Key, Snapshot>, now: SessionView)
    requires LeftBehind(core, model, id, v, manifest, engine, files) && SameFacts(now.store, v.store) && SameRuns(v.segments, now.segments)
    requires EntriesRefreshed(now, manifest, model, files)
    ensures ViewSavedAndLoads(id, now, engine, files)
    ensures forall k | 0 <= k < |now.segments| ::
              k in now.metadata && k in v.metadata
              && now.metadata[k].tokenCount == v.metadata[k].tokenCount && now.metadata[k].bytes == v.metadata[k].bytes
  {
    hide EntriesRefreshed, SameFacts, SameRuns, DescribesFirst, ContiguousRun, Loads, ContentAt, Partition, Ascending;
    SameFactsBack(now.store, v.store);
    SameName(now.store, v.store);
    DescribedAlike(v.store, now.store, v.segments, now.segments, manifest.value, model);
    DescribedIsNumbered(now.store, now.segments, manifest.value, model);
    RestartFindsFiles(id, now, manifest.value, model, files);
    forall k | 0 <= k < |now.segments| ensures HasDisk(now.metadata, files, Key(id, k)) {
    }
  }

  lemma {:induction false} DescribedIsNumbered(store: SessionStore, segments: seq<Segment>, manifest: Manifest, model: ModelKey)
    requires DescribesFirst(store, segments, manifest, model, |segments|)
    ensures NumberedInOrder(segments)
  {
    hide SegmentHash;
    forall k | 0 <= k < |segments| ensures segments[k].id == k {
      assert Describes(store, segments[k], manifest.segments[k]);
    }
  }

  lemma LeftSome(core: Core, model: ModelKey, id: Bytes, v: SessionView, manifest: Option<Manifest>, engine: Engine, files: map<Key, Snapshot>)
    requires LeftBehind(core, model, id, v, manifest, engine, files)
    ensures v.segments != [] && manifest.Some? && DescribesFirst(v.store, v.segments, manifest.value, model, |v.segments|)
  {
    hide InOrder, DescribesFirst, RecordsFirst;
  }

  lemma {:induction false} WantedAsIndexed(id: Bytes, store: SessionStore, segments: seq<Segment>, store': SessionStore, segments': seq<Segment>,
                                           want: map<Key, Content>, manifest: Manifest, model: ModelKey)
    requires DescribesFirst(store, segments, manifest, model, |segments|) && SameFacts(store', store) && SameRuns(segments, segments')
    requires WantedOf(want, id, store', segments')
    ensures |segments'| == |segments|
    ensures forall k :: 0 <= k < |segments| ==> Key(id, k) in want && want[Key(id, k)] == ContentAt(store, segments[k])
  {
    hide DescribesFirst, SameFacts, SameRuns, ContentAt;
    SameFactsBack(store', store);
    DescribedAlike(store, store', segments, segments', manifest, model);
  }

  lemma StillEmptyHanded(kv: KVState, id: Bytes)
    requires kv == KVState([], map[], map[], None)
    ensures Uncached(Deactivated(kv, id), id) == kv
  {
  }

  /** The plan cuts the store in order, and no segment has a gap in its memory numbers. */
  ghost predicate Gapless(store: SessionStore, segments: seq<Segment>) {
    InOrder(store, segments) && segments != [] && forall k :: 0 <= k < |segments| ==> ContiguousRun(segments[k].indices)
  }

  /** A finished index of a session with kv_persist, and a finished save, leave behind what a search after
      a restart needs, as long as the plan is gapless, no file was stale, no count in the entries is beyond
      the context, and the facts could be stored. */
  lemma {:induction false} IndexLeavesBehind(m: SessionManager, engine: Engine, id: Bytes, files: map<Key, Snapshot>)
    requires m.Inv() && id in m.sessions && m.core.contextLength > 0 && LoadsFreshFiles(engine)
    requires var s := m.sessions[id].session;
             && s.store.kvPersist && !s.factsDirty && m.sessions[id].storable && Gapless(s.store, s.segments)
             && Indexes(id, View(s), m.kv.State(), m.disk, m.model, files, m.want) && NoStaleFile(id, files, m.want, 0)
             && forall k :: 0 <= k < |s.segments| ==> k in s.metadata && s.metadata[k].tokenCount <= m.core.contextLength
    ensures var d := m.sessions[id];
            && Load(d.dir.files, id).Some? && SameFacts(Load(d.dir.files, id).value, d.session.store)
            && LeftBehind(m.core, m.model, id, View(d.session), m.ManifestOf(id), engine, m.disk.files)
  {
    hide SessionManager.Inv, SessionOk, Load, SameFacts, InOrder, ContiguousRun, DescribesFirst, HasDisk, ContentAt, ValidStore, Storable, PastOlder, OlderState;
    var d := m.sessions[id];
    InvOpened(m);
    SessionOpened(d, id, m.want);
    DirectoryHasItsName(d, id, m.want);
    forall k | 0 <= k < |d.session.segments|
      ensures Key(id, k) in m.disk.files && Loads(engine, m.disk.files[Key(id, k)], ContentAt(d.session.store, d.session.segments[k]))
    {
      assert FreshFile(m.disk.files, m.want, Key(id, k));
    }
  }

  // ----- The restart -----

  /** The process ends after an index or a save, the session is restored from its directory and searched.
      It has the plan that was indexed, with the counts of its entries; each segment is ranked on a context
      with its content, and as long as the engine works nothing fails. */
  method RestartAndSearch(m: SessionManager, engine: Engine, id: Bytes, query: Query, topK: int)
    returns (error: Option<ErrorCode>, result: seq<MemoryRef>, ghost rankings: seq<seq<int>>, ghost seen: seq<KVState>)
    requires m.Inv() && id in m.sessions && IsValidSessionId(id) && SessionLayout(m.model, id).session == id
    requires var d := m.sessions[id];
             && Load(d.dir.files, id).Some? && SameFacts(Load(d.dir.files, id).value, d.session.store)
             && LeftBehind(m.core, m.model, id, View(d.session), m.ManifestOf(id), engine, m.disk.files)
    modifies m, m.kv, m.kv.table, m.kv.resident, m.kv.log, m.repr
    ensures m.Inv() && m.sessions.Keys == {id} && m.disk.files == old(m.disk.files)
    ensures var (s, v) := (m.sessions[id].session, old(View(m.sessions[id].session)));
            error == None ==>
              && SameFacts(s.store, v.store) && PlannedAs(v, s.segments)
              && |rankings| == |v.segments| && EachSearchedAlone(engine, id, seen, rankings, query, m.want)
              && (forall k :: 0 <= k < |v.segments| ==> Key(id, k) in m.want && m.want[Key(id, k)] == ContentAt(v.store, v.segments[k]))
              && result == Contributions(s.store, s.segments, rankings, topK)
    ensures forall limit: nat | Works(engine, limit) && Answers(query)
              && Roomy(Held([], map[]), m.disk.files, id, limit, |old(View(m.sessions[id].session)).segments|)
              :: error == None
  {
    hide *;
    var d := m.sessions[id];
    ghost var v, manifest := View(d.session), m.ManifestOf(id);
    PartsOf(d.session);
    LayoutName(m.model, id);
    m.Restart();
    ghost var kv := m.kv.State();
    var dir := new SessionDirectory(id, d.dir.files);
    error := m.RestoreSession(id, true, dir);
    StillEmptyHanded(kv, id);
    HeldParts(m.kv);
    ResidentKeys(m.kv);
    ObjectsMean(m, id);
    ghost var loaded := m.sessions[id].session.store;
    LeftBehindIsSearchable(m.core, m.model, id, v, manifest, engine, m.disk.files, loaded);
    LeftSome(m.core, m.model, id, v, manifest, engine, m.disk.files);
    error, result, rankings, seen := Search(m, engine, id, query, topK);
    if error == None {
      var s := m.sessions[id].session;
      PlannedAsIndexed(m.core, m.model, id, v, manifest, engine, m.disk.files, loaded, true, s.segments);
      PlannedAsRuns(v, s.segments);
      SameFactsChain(s.store, loaded, v.store);
      WantedNow(m, id);
      WantedAsIndexed(id, v.store, v.segments, s.store, s.segments, m.want, manifest.value, m.model);
    }
  }

  // ----- Index, restart and search -----

  /** With nothing in memory there is room for as many segments. */
  lemma {:induction false} EmptiedIsRoomy(engine: Engine, id: Bytes, a: Held, files: map<Key, Snapshot>, b: Held, files': map<Key, Snapshot>, n: nat)
    requires StaysRoomy(engine, id, a, files, b, files', n)
    ensures forall limit: nat | Works(engine, limit) && Roomy(a, files, id, limit, n) :: Roomy(Held([], map[]), files', id, limit, n)
  {
    hide Works, SizeFits;
    forall limit: nat | Works(engine, limit) && Roomy(a, files, id, limit, n) ensures Roomy(Held([], map[]), files', id, limit, n) {
      assert Roomy(b, files', id, limit, n - n);
      Monotone(n + 1, |a.entries| + n + 1, limit);
    }
  }

  lemma StaysStorable(before: Facts, after: Facts)
    requires StayStorable(before, after, 0) && before.storable && StoreFits(before.store, 0)
    ensures after.storable
  {
    hide StoreFits;
  }

  lemma {:induction false} StillGapless(store: SessionStore, before: seq<Segment>, after: seq<Segment>)
    requires Gapless(store, before) && SameRuns(before, after)
    ensures Gapless(store, after)
  {
    hide ContiguousRun, InOrder, SameRuns;
    CountedInOrder(store, store, before, after);
    SameIndices(before, after);
  }

  lemma {:induction false} AllWanted(want: map<Key, Content>, id: Bytes, store: SessionStore, segments: seq<Segment>)
    requires WantedOf(want, id, store, segments)
    ensures forall k | 0 <= k < |segments| :: Key(id, k) in want
  {
  }

  lemma AccountsMean(engine: Engine, id: Bytes, kv0: KVState, files0: map<Key, Snapshot>, metadata0: map<int, CacheEntry>,
                     files: map<Key, Snapshot>, metadata: map<int, CacheEntry>, want: map<Key, Content>, n: nat)
    requires Accounts(engine, id, kv0, files0, metadata0, files, metadata, want, n)
    ensures CountsUpTo(engine, id, kv0, files0, metadata0, metadata, want, n)
  {
  }

  /** An index, the end of the process, a restore and a search, from a planned session with kv_persist whose
      plan is gapless, over no stale file, with counts within the context: whatever the search finds is found
      in the plan that was indexed, and when everything works nothing fails. */
  method IndexRestartAndSearch(m: SessionManager, engine: Engine, id: Bytes, faults: SaveFaults, indexFaults: IndexFaults, query: Query, topK: int)
    returns (error: Option<ErrorCode>, result: seq<MemoryRef>, ghost rankings: seq<seq<int>>, ghost seen: seq<KVState>)
    requires m.Inv() && id in m.sessions && IsValidSessionId(id) && SessionLayout(m.model, id).session == id
    requires m.core.contextLength > 0 && LoadsFreshFiles(engine)
    requires var s := m.sessions[id].session;
             && s.planReady && s.store.kvPersist && Gapless(s.store, s.segments) && m.sessions[id].storable && StoreFits(s.store, 0)
             && NoStaleFile(id, m.disk.files, m.want, 0)
             && CountsWithin(engine, m.kv.State(), m.disk.files, s.metadata, id, |s.segments|, m.core.contextLength)
    modifies m, m.kv, m.kv.table, m.kv.resident, m.kv.log, m.disk, m.repr
    ensures m.Inv() && id in m.sessions
    ensures var (s, v) := (m.sessions[id].session, old(View(m.sessions[id].session)));
            error == None ==>
              && SameFacts(s.store, v.store) && SameRuns(v.segments, s.segments)
              && |rankings| == |v.segments| && EachSearchedAlone(engine, id, seen, rankings, query, m.want)
              && (forall k :: 0 <= k < |v.segments| ==> Key(id, k) in m.want && m.want[Key(id, k)] == ContentAt(v.store, v.segments[k]))
              && result == Contributions(s.store, s.segments, rankings, topK)
    ensures forall limit: nat | Works(engine, limit) && Answers(query) && faults == NO_FAULTS
              && Roomy(old(m.kv.InMemory()), old(m.disk.files), id, limit, |old(View(m.sessions[id].session)).segments|)
              && indexFaults.None(|old(View(m.sessions[id].session)).segments|)
              :: error == None
  {
    hide *;
    ObjectsInRepr(m);
    var d := m.sessions[id];
    ghost var v, kv, files, held, facts := View(d.session), m.kv.State(), m.disk.files, m.kv.InMemory(), FactsOf(d);
    PartsOf(d.session);
    FactsParts(d);
    GaplessParts(v.store, v.segments);
    result, rankings, seen := [], [], [];
    ReadyPlan(m, id);
    error := IndexSession(m, engine, id, faults, indexFaults);
    FactsParts(d);
    PartsOf(d.session);
    SameLength(v.segments, d.session.segments);
    if error.Some? {
      return;
    }
    StaysStorable(facts, FactsOf(d));
    StillGapless(v.store, v.segments, d.session.segments);
    WantedNow(m, id);
    AllWanted(m.want, id, d.session.store, d.session.segments);
    AccountsMean(engine, id, kv, files, v.metadata, m.disk.files, d.session.metadata, m.want, |d.session.segments|);
    CountsFit(engine, id, kv, files, v.metadata, d.session.metadata, m.want, |d.session.segments|, m.core.contextLength);
    IndexLeavesBehind(m, engine, id, files);
    EmptiedIsRoomy(engine, id, held, files, m.kv.InMemory(), m.disk.files, |v.segments|);
    ghost var indexed := View(d.session);
    error, result, rankings, seen := RestartAndSearch(m, engine, id, query, topK);
    if error == None {
      PlannedAsRuns(indexed, m.sessions[id].session.segments);
      SameRunsChain(v.segments, indexed.segments, m.sessions[id].session.segments);
      SameContentsRuns(v.store, v.segments, indexed.segments);
    }
  }

  lemma GaplessParts(store: SessionStore, segments: seq<Segment>)
    requires Gapless(store, segments)
    ensures InOrder(store, segments) && segments != []
  {
  }

  lemma {:induction false} SameContentsRuns(store: SessionStore, a: seq<Segment>, b: seq<Segment>)
    requires SameRuns(a, b)
    ensures |a| == |b| && forall k :: 0 <= k < |a| ==> ContentAt(store, b[k]) == ContentAt(store, a[k])
  {
    hide SameRuns, SegmentTexts;
    SameIndices(a, b);
  }
}
