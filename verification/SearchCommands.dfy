/** Searching a session segment by segment, and searching without a session
    (search_runner.cpp, search_service.cpp). */
module SearchCommands {
  import opened Basics
  import opened Persistent
  import opened SessionState
  import opened SegmentPlanner
  import opened CacheManifest
  import opened SegmentKV
  import opened Coherence
  import opened ResidentStore
  import opened KVManager
  import opened MemoryRoom
  import opened IncrementalPlan
  import opened Durability
  import opened ContentHash
  import opened PlanInvariant
  import opened SessionPlans
  import opened SessionCommands
  import opened IndexCommands
  import opened SearchResults

  /** A query: its length in tokens, when it can be built, and the ranking that the engine gives for
      it on a live context. */
  datatype Query = Query(tokens: Option<nat>, rank: ActiveKV -> Option<seq<int>>)

  /** The query can be built and ranked on every context. */
  ghost predicate Answers(query: Query) {
    query.tokens.Some? && forall a: ActiveKV :: a.Live? ==> query.rank(a).Some?
  }

  /** The segment counts as saved, and its file loads for what the segment holds now. */
  ghost predicate SavedAndLoads(engine: Engine, want: map<Key, Content>, files: map<Key, Snapshot>, metadata: map<int, CacheEntry>, k: Key) {
    HasDisk(metadata, files, k) && k in want && Loads(engine, files[k], want[k])
  }

  ghost predicate AllSavedAndLoad(id: Bytes, engine: Engine, want: map<Key, Content>, files: map<Key, Snapshot>, metadata: map<int, CacheEntry>,
                                  n: nat) {
    forall k | 0 <= k < n :: SavedAndLoads(engine, want, files, metadata, Key(id, k))
  }

  /** The segment is in memory, or counts as saved with a file that loads. */
  ghost predicate Findable(engine: Engine, held: set<Key>, want: map<Key, Content>, files: map<Key, Snapshot>, metadata: map<int, CacheEntry>, k: Key) {
    k in held || SavedAndLoads(engine, want, files, metadata, k)
  }

  ghost predicate AllFindable(id: Bytes, engine: Engine, held: set<Key>, want: map<Key, Content>, files: map<Key, Snapshot>,
                              metadata: map<int, CacheEntry>, n: nat) {
    forall k | 0 <= k < n :: Findable(engine, held, want, files, metadata, Key(id, k))
  }

  /** However the session is planned, it gets `n` segments, and all of them are saved and load. */
  ghost predicate SearchableAnew(core: Core, model: ModelKey, manifest: Option<Manifest>, store: SessionStore, id: Bytes, engine: Engine,
                                 files: map<Key, Snapshot>, n: nat) {
    forall ok, v: SessionView | PlannedAnew(core, model, manifest, store, ok, v.segments) && SameFacts(v.store, store) ::
      ok && |v.segments| == n && (EntriesRefreshed(v, manifest, model, files) ==> ViewSavedAndLoads(id, v, engine, files))
  }

  ghost predicate ViewSavedAndLoads(id: Bytes, v: SessionView, engine: Engine, files: map<Key, Snapshot>) {
    forall k | 0 <= k < |v.segments| ::
      HasDisk(v.metadata, files, Key(id, k)) && Loads(engine, files[Key(id, k)], ContentAt(v.store, v.segments[k]))
  }

  lemma {:induction false} SearchableMeans(core: Core, model: ModelKey, manifest: Option<Manifest>, store: SessionStore, id: Bytes, engine: Engine,
                                           files: map<Key, Snapshot>, ok: bool, v: SessionView, want: map<Key, Content>)
    requires PlannedAnew(core, model, manifest, store, ok, v.segments) && SameFacts(v.store, store)
    requires ok ==> EntriesRefreshed(v, manifest, model, files) && WantedOf(want, id, v.store, v.segments)
    ensures forall n: nat | SearchableAnew(core, model, manifest, store, id, engine, files, n) ::
              ok && |v.segments| == n && AllSavedAndLoad(id, engine, want, files, v.metadata, |v.segments|)
  {
    hide PlannedAnew, SameFacts, EntriesRefreshed, HasDisk, Loads, ContentAt;
  }

  // ----- One segment -----

  /** The context that is searched. */
  ghost function SearchedContext(kv: KVState): ActiveKV {
    if kv.active.Some? && kv.active.value.handle < |kv.cells| then kv.cells[kv.active.value.handle].active else Dead
  }

  /** Segment `k` is the one that is active, alone, and its context holds its present content. */
  ghost predicate SearchedAlone(kv: KVState, k: Key, want: map<Key, Content>) {
    && OnlyActiveLive(kv) && kv.active.value.key == k && k in want
    && SearchedContext(kv).Live? && SearchedContext(kv).metadata.content == want[k]
  }

  method ActivateSegment(m: SessionManager, engine: Engine, id: Bytes, d: DurableSession, k: nat, tokens: nat) returns (ok: bool)
    requires m.Inv() && id in m.sessions && d == m.sessions[id] && d.session.planReady && k < |d.session.segments|
    requires OthersAsleep(m.kv.State(), id)
    modifies m.kv, m.kv.table, m.kv.resident, d.session`metadata
    ensures m.Inv() && OthersAsleep(m.kv.State(), id) && m.kv.resident.budget == old(m.kv.resident.budget)
    ensures ok ==> SearchedAlone(m.kv.State(), Key(id, k), m.want) && RoomToSearch(engine, m.kv.State(), Key(id, k), tokens)
    ensures OnlyEntry(old(d.session.metadata), d.session.metadata, k) && NoneAdded(old(m.kv.State()), m.kv.State(), Key(id, k))
    ensures KeepsLoadable(id, engine, m.want, m.disk.files, old(d.session.metadata), m.disk.files, d.session.metadata)
    ensures Described(d.session.segments, old(d.session.metadata)) ==> Described(d.session.segments, d.session.metadata)
    ensures StaysRoomy(engine, id, old(m.kv.InMemory()), m.disk.files, m.kv.InMemory(), m.disk.files, 1)
    ensures forall limit: nat, n: nat | Works(engine, limit) && Roomy(old(m.kv.InMemory()), m.disk.files, id, limit, n) && 1 <= n
              && Findable(engine, old(m.kv.resident.entries).Keys, m.want, m.disk.files, old(d.session.metadata), Key(id, k))
              :: ok
    ensures NoneEvicted(engine, FileOf(m.disk.files, Key(id, k)), {Key(id, k)}, m.kv.resident.budget, old(m.kv.InMemory()), m.kv.resident.entries.Keys)
  {
    hide *;
    ghost var held := m.kv.InMemory();
    SameKeys(m.kv);
    InvOpened(m);
    SessionsApart(m, id);
    SessionOpened(d, id, m.want);
    WantsSegment(m.want, id, d.session.store, d.session.segments, k);
    FoundCanPrepare(engine, m.want, m.disk.files, d.session.metadata, m.kv.State(), id, k, d.session.store, d.session.segments);
    ghost var s0 := m.kv.State();
    HandlesInTable(s0, m.want);
    ok := m.kv.ActivateForSearch(engine, m.disk, d.session, k, tokens, m.want);
    AsleepStaysAsleep(s0, m.kv.State(), Key(id, k));
    NoOthersAdded(s0, m.kv.State(), Key(id, k));
    ghost var prepared: bool :| (ok ==> prepared) &&
      PrepareMarks(engine, m.disk.files, d.session.store, d.session.segments, k, false, Key(id, k) in s0.resident, prepared,
                   old(d.session.metadata), d.session.metadata);
    MarksOneEntry(engine, m.disk.files, d.session.store, d.session.segments, k, false,
                  Key(id, k) in s0.resident, prepared, old(d.session.metadata), d.session.metadata);
    MarksKeepLoadable(engine, m.disk.files, d.session.store, d.session.segments, k, false,
                      Key(id, k) in s0.resident, prepared, old(d.session.metadata), d.session.metadata, m.want);
    StateParts(m.kv);
    ActivatedIsRoomy(m, engine, id, k, held);
    if ok {
      WantedKey(m.want, id, d.session.store, d.session.segments, k);
      AloneMeans(m.kv.State(), Key(id, k), m.want);
    }
    SessionClosed(d, id, m.want);
    InvClosed(m);
  }

  /** Where there was room before a segment was activated, nothing was in the way. */
  lemma {:induction false} ActivatedIsRoomy(m: SessionManager, engine: Engine, id: Bytes, k: int, held: Held)
    requires Coherent(m.kv.State(), m.want) && StaysSized(engine, FileOf(m.disk.files, Key(id, k)), held, m.kv.InMemory())
    requires forall j | j in m.kv.State().resident && j != Key(id, k) :: j in held.entries
    ensures StaysRoomy(engine, id, held, m.disk.files, m.kv.InMemory(), m.disk.files, 1)
    ensures forall limit: nat, n: nat | Works(engine, limit) && Roomy(held, m.disk.files, id, limit, n) && 1 <= n ::
              Fits(m.kv.resident, m.disk.files, Key(id, k), limit) && !EmptyBlob(m.kv.State(), Key(id, k))
  {
    hide *;
    SameKeys(m.kv);
    OneMoreEntry(held.entries, m.kv.resident.entries, Key(id, k));
    SizedIsRoomy(engine, id, k, held, m.kv.InMemory(), m.disk.files, 1);
    RoomMeans(m, engine, id, k, held, m.disk.files);
    NothingEmptyHere(engine, id, k, held, m.disk.files, m.kv.State(), m.want, m.kv.resident.entries);
  }

  /** No segment but `k` became resident. */
  ghost predicate NoneAdded(before: KVState, after: KVState, k: Key) {
    forall j | j in after.resident && j != k :: j in before.resident
  }

  lemma NoOthersAdded(before: KVState, after: KVState, k: Key)
    requires OthersOnlyShrink(before, after, k)
    ensures NoneAdded(before, after, k)
  {
  }

  lemma {:induction false} FoundCanPrepare(engine: Engine, want: map<Key, Content>, files: map<Key, Snapshot>, metadata: map<int, CacheEntry>,
                                           kv: KVState, id: Bytes, k: int, store: SessionStore, segments: seq<Segment>)
    requires PlanOk(store, segments) && Wants(want, store, segments, k) && store.sessionId == id
    ensures 0 <= k < |segments| ==> ContentOf(store, segments, k).Some?
    ensures ContentOf(store, segments, k).Some? && Findable(engine, kv.resident.Keys, want, files, metadata, Key(id, k)) ==>
              CanPrepare(engine, files, metadata, k, kv, Key(id, k), ContentOf(store, segments, k).value, false)
  {
    hide MembersPresent, Disjoint, ContentAt, ContentOf, HasPrefix, Loads;
    PlannedContent(store, segments, k);
  }

  lemma {:induction false} NothingEmptyHere(engine: Engine, id: Bytes, k: int, held: Held, files: map<Key, Snapshot>, kv: KVState,
                                            want: map<Key, Content>, entries: map<Key, Entry>)
    requires Coherent(kv, want) && StaysRoomy(engine, id, held, files, Held(kv.cells, entries), files, 1)
    ensures forall limit: nat, n: nat | Works(engine, limit) && Roomy(held, files, id, limit, n) && 1 <= n :: !EmptyBlob(kv, Key(id, k))
  {
    hide Works, Sized, Coherent, EmptyBlob;
    forall limit: nat, n: nat | Works(engine, limit) && Roomy(held, files, id, limit, n) && 1 <= n ensures !EmptyBlob(kv, Key(id, k)) {
      assert Roomy(Held(kv.cells, entries), files, id, limit, n - 1);
      NothingEmpty(kv, want, entries, Key(id, k), limit);
    }
  }

  lemma {:induction false} HandlesInTable(kv: KVState, want: map<Key, Content>)
    requires Coherent(kv, want)
    ensures forall j | j in kv.resident :: kv.resident[j] < |kv.cells|
  {
    hide NotShared, Holds, HoldsPrefix;
  }

  lemma WantedKey(want: map<Key, Content>, id: Bytes, store: SessionStore, segments: seq<Segment>, k: nat)
    requires WantedOf(want, id, store, segments) && k < |segments|
    ensures Key(id, k) in want
  {
  }

  lemma {:induction false} AloneMeans(kv: KVState, k: Key, want: map<Key, Content>)
    requires OnlyActiveLive(kv) && kv.active.Some? && kv.active.value.key == k && k in want
    requires LiveAt(kv, kv.active.value.handle) && kv.cells[kv.active.value.handle].active.metadata.content == want[k]
    ensures SearchedAlone(kv, k, want)
  {
  }

  /** After a segment that is on disk was searched, its copy in memory is given up. */
  method ReleaseSegment(m: SessionManager, engine: Engine, id: Bytes, d: DurableSession, k: nat)
    requires m.Inv() && id in m.sessions && d == m.sessions[id] && d.session.planReady
    requires OthersAsleep(m.kv.State(), id)
    modifies m.kv, m.kv.table, m.kv.resident, d.session`metadata
    ensures m.Inv() && OthersAsleep(m.kv.State(), id) && m.kv.resident.budget == old(m.kv.resident.budget)
    ensures KeepsLoadable(id, engine, m.want, m.disk.files, old(d.session.metadata), m.disk.files, d.session.metadata)
    ensures Described(d.session.segments, old(d.session.metadata)) ==> Described(d.session.segments, d.session.metadata)
    ensures StaysRoomy(engine, id, old(m.kv.InMemory()), m.disk.files, m.kv.InMemory(), m.disk.files, 0)
    ensures forall j: Key | j.session == id :: HasDisk(old(d.session.metadata), m.disk.files, j) <==> HasDisk(d.session.metadata, m.disk.files, j)
    ensures d.session.metadata == ReleasedEntry(old(d.session.metadata), k, Key(id, k) in m.disk.files)
    ensures m.kv.active == None && Key(id, k) !in m.kv.State().resident
    ensures m.kv.State() == GivenUp(old(m.kv.State()), Key(id, k))
    ensures OnlyEntry(old(d.session.metadata), d.session.metadata, k) && NoneAdded(old(m.kv.State()), m.kv.State(), Key(id, k))
    ensures m.kv.resident.entries.Keys == old(m.kv.resident.entries).Keys - {Key(id, k)}
  {
    hide *;
    InvOpened(m);
    SessionsApart(m, id);
    ghost var s0 := m.kv.State();
    ghost var h0 := m.kv.InMemory();
    HeldParts(m.kv);
    HandlesInTable(s0, m.want);
    StateParts(m.kv);
    m.kv.RemoveResidentSegment(Key(id, k));
    ghost var s1 := m.kv.State();
    ghost var h1 := m.kv.InMemory();
    HeldParts(m.kv);
    ReleasedIsRoomy(engine, id, k, h0, s1, h1.entries, m.disk.files);
    RemovingShrinks(s0, s1, Key(id, k));
    DemoteEntry(engine, m.disk.files, id, d, k, m.want);
    m.kv.ResetActive();
    ResetShrinks(s1);
    ShrinkingTwice(s0, s1, m.kv.State());
    ShrinkingKeepsCoherence(s0, m.kv.State(), m.want);
    ShrinkingStaysAsleep(s0, m.kv.State(), id);
    NoneActive(s1);
    GivenUpMeans(s0, s1, Key(id, k));
    RemovedIsGone(s0, s1, Key(id, k));
    StateParts(m.kv);
    HeldParts(m.kv);
    InvClosed(m);
  }

  lemma {:induction false} ResetIsRoomy(engine: Engine, id: Bytes, kv: KVState, entries: map<Key, Entry>, files: map<Key, Snapshot>)
    ensures StaysRoomy(engine, id, Held(kv.cells, entries), files, Held(Reset(kv).cells, entries), files, 0)
  {
    hide StaysSized, StaysRoomy, Reset;
    var a, b := Held(kv.cells, entries), Held(Reset(kv).cells, entries);
    ResetStaysSized(engine, kv, entries);
    StaysSizedMore(engine, {}, FileOf(files, Key(id, 0)), a, b);
    SizedIsRoomy(engine, id, 0, a, b, files, 0);
  }

  lemma {:induction false} ReleasedIsRoomy(engine: Engine, id: Bytes, k: int, held: Held, kv: KVState, entries: map<Key, Entry>, files: map<Key, Snapshot>)
    requires held.cells == kv.cells && entries == held.entries - {Key(id, k)}
    ensures StaysRoomy(engine, id, held, files, Held(Reset(kv).cells, entries), files, 0)
  {
    hide StaysSized, StaysRoomy, Reset;
    var removed := Held(kv.cells, entries);
    SameStaysSized(engine, FileOf(files, Key(id, k)), held, removed);
    NoMoreEntries(held.entries, entries);
    SizedIsRoomy(engine, id, k, held, removed, files, 0);
    ResetIsRoomy(engine, id, kv, entries, files);
    StaysRoomyTwice(engine, id, held, files, removed, files, Held(Reset(kv).cells, entries), files, 0, 0);
  }

  /** The entry of a segment that is no longer in memory falls back to its file, or to missing. */
  function ReleasedEntry(metadata: map<int, CacheEntry>, k: int, fileExists: bool): map<int, CacheEntry> {
    if k in metadata then metadata[k := ClearedEntry(metadata[k], fileExists)] else metadata
  }

  /** The cache once a segment is neither in memory nor staged, and nothing is active. */
  ghost function GivenUp(kv: KVState, k: Key): KVState {
    Reset(kv.(resident := kv.resident - {k}, prefixes := kv.prefixes - {k}))
  }

  lemma GivenUpMeans(before: KVState, after: KVState, k: Key)
    requires after == before.(resident := before.resident - {k}, prefixes := before.prefixes - {k})
    ensures Reset(after) == GivenUp(before, k)
  {
  }

  lemma RemovedIsGone(before: KVState, after: KVState, k: Key)
    requires after.resident == before.resident - {k}
    ensures k !in Reset(after).resident && NoneAdded(before, Reset(after), k)
  {
  }

  lemma NoneActive(kv: KVState)
    ensures Reset(kv).active == None
  {
  }

  lemma {:induction false} RemovingShrinks(before: KVState, after: KVState, k: Key)
    requires after == before.(resident := before.resident - {k}, prefixes := before.prefixes - {k})
    ensures Shrinks(before, after)
  {
    NothingChanges(before, k);
  }

  lemma {:induction false} ShrinkingStaysAsleep(before: KVState, after: KVState, id: Bytes)
    requires Shrinks(before, after) && OthersAsleep(before, id)
    requires forall j | j in before.resident :: before.resident[j] < |before.cells|
    ensures OthersAsleep(after, id)
  {
    forall k | k in after.resident && k.session != id ensures !LiveAt(after, after.resident[k]) {
      assert Faithful(before.cells[before.resident[k]], after.cells[before.resident[k]]);
    }
  }

  method DemoteEntry(ghost engine: Engine, files: map<Key, Snapshot>, id: Bytes, d: DurableSession, k: int, ghost want: map<Key, Content>)
    requires SessionOk(d, id, want) && d.session.planReady
    modifies d.session`metadata
    ensures SessionOk(d, id, want) && OnlyEntry(old(d.session.metadata), d.session.metadata, k)
    ensures d.session.metadata == ReleasedEntry(old(d.session.metadata), k, Key(id, k) in files)
    ensures forall j: Key | j.session == id :: HasDisk(old(d.session.metadata), files, j) <==> HasDisk(d.session.metadata, files, j)
    ensures KeepsLoadable(id, engine, want, files, old(d.session.metadata), files, d.session.metadata)
    ensures Described(d.session.segments, old(d.session.metadata)) ==> Described(d.session.segments, d.session.metadata)
  {
    hide PlanOk, WantedOf, DurableSession.Inv, SessionOk, ValidStore, SegmentHash, Loads;
    SessionOpened(d, id, want);
    if k in d.session.metadata {
      d.session.metadata := d.session.metadata[k := ClearedEntry(d.session.metadata[k], Key(id, k) in files)];
    }
    SessionClosed(d, id, want);
  }

  method ClearActive(m: SessionManager, id: Bytes)
    requires m.Inv() && OthersAsleep(m.kv.State(), id)
    modifies m.kv, m.kv.table
    ensures m.Inv() && OthersAsleep(m.kv.State(), id)
  {
    hide *;
    InvOpened(m);
    ghost var s0 := m.kv.State();
    HandlesInTable(s0, m.want);
    m.kv.ResetActive();
    ResetShrinks(s0);
    ShrinkingKeepsCoherence(s0, m.kv.State(), m.want);
    ShrinkingStaysAsleep(s0, m.kv.State(), id);
    InvClosed(m);
  }

  /** One turn: the segment is activated, ranked and merged, and given up again when the session is
      streamed through a limited memory. `seen` is the cache when it was ranked. */
  method SearchSegment(m: SessionManager, engine: Engine, id: Bytes, d: DurableSession, k: nat, query: Query, stream: bool, ordered: seq<MemoryRef>)
    returns (ok: bool, merged: seq<MemoryRef>, ghost ranked: seq<int>, ghost seen: KVState)
    requires m.Inv() && id in m.sessions && d == m.sessions[id] && d.session.planReady && k < |d.session.segments|
    requires OthersAsleep(m.kv.State(), id) && query.tokens.Some?
    modifies m.kv, m.kv.table, m.kv.resident, m.kv.log, d.session`metadata
    ensures m.Inv() && OthersAsleep(m.kv.State(), id) && m.kv.resident.budget == old(m.kv.resident.budget)
    ensures KeepsLoadable(id, engine, m.want, m.disk.files, old(d.session.metadata), m.disk.files, d.session.metadata)
    ensures Described(d.session.segments, old(d.session.metadata)) ==> Described(d.session.segments, d.session.metadata)
    ensures ok ==> m.kv.log.rankings == old(m.kv.log.rankings) + [Ranking(seen, Some(ranked))]
    ensures ok ==> m.kv.State() == if stream && HasDisk(d.session.metadata, m.disk.files, Key(id, k)) then GivenUp(seen, Key(id, k)) else seen
    ensures ok ==> OnlyEntry(old(d.session.metadata), d.session.metadata, k) && NoneAdded(old(m.kv.State()), m.kv.State(), Key(id, k))
    ensures ok && stream && HasDisk(d.session.metadata, m.disk.files, Key(id, k)) ==> Key(id, k) !in m.kv.State().resident
    ensures ok ==>
              && SearchedAlone(seen, Key(id, k), m.want) && RoomFor(engine, seen, Key(id, k), query) && query.rank(SearchedContext(seen)) == Some(ranked)
              && merged == Merged(d.session.store, d.session.segments[k], ranked, ordered)
    ensures ok ==> StaysRoomy(engine, id, old(m.kv.InMemory()), m.disk.files, m.kv.InMemory(), m.disk.files, 1)
    ensures forall limit: nat, n: nat | Works(engine, limit) && Roomy(old(m.kv.InMemory()), m.disk.files, id, limit, n) && 1 <= n && Answers(query)
              && Findable(engine, old(m.kv.resident.entries).Keys, m.want, m.disk.files, old(d.session.metadata), Key(id, k))
              :: ok
    ensures ok ==> OthersStay(engine, FileOf(m.disk.files, Key(id, k)), Key(id, k), m.kv.resident.budget, old(m.kv.InMemory()), m.kv.resident.entries.Keys)
  {
    hide *;
    ghost var held := m.kv.InMemory();
    merged, ranked, seen := ordered, [], m.kv.State();
    ok := ActivateSegment(m, engine, id, d, k, query.tokens.value);
    if !ok {
      ClearActive(m, id);
      return;
    }
    seen := m.kv.State();
    StateParts(m.kv);
    NoneIsOther(engine, FileOf(m.disk.files, Key(id, k)), Key(id, k), m.kv.resident.budget, held, m.kv.resident.entries.Keys);
    AnswersMeans(query, SearchedContext(seen));
    RoomForMeans(engine, seen, Key(id, k), query);
    ActiveInTable(seen, Key(id, k), m.want);
    CacheIsValid(m);
    var inference := m.kv.RankActive(query.rank);
    if inference == None {
      ClearActive(m, id);
      ok := false;
      return;
    }
    ranked := inference.value;
    merged := MergeSegmentRankedResults(d.session.store, d.session.segments[k], inference.value, ordered);
    if stream && IsSaved(d.session.metadata, m.disk.files, Key(id, k)) {
      ghost var metadata, held', present := d.session.metadata, m.kv.InMemory(), m.kv.resident.entries.Keys;
      ReleaseSegment(m, engine, id, d, k);
      assert HasDisk(metadata, m.disk.files, Key(id, k)) <==> HasDisk(d.session.metadata, m.disk.files, Key(id, k));
      OthersStayWithout(engine, FileOf(m.disk.files, Key(id, k)), Key(id, k), m.kv.resident.budget, held, present);
      StaysRoomyTwice(engine, id, held, m.disk.files, held', m.disk.files, m.kv.InMemory(), m.disk.files, 1, 0);
      KeepsLoadableChain(id, engine, m.want, m.disk.files, old(d.session.metadata), metadata, d.session.metadata);
      OnlyEntryChain(old(d.session.metadata), metadata, d.session.metadata, k);
      NoneAddedChain(old(m.kv.State()), seen, m.kv.State(), Key(id, k));
    }
  }

  /** At most segment `k` came, and where the budget has room at most `k` went. */
  ghost predicate OthersStay(engine: Engine, files: set<Snapshot>, k: Key, budget: nat, a: Held, now: set<Key>) {
    && now <= a.entries.Keys + {k}
    && forall limit: nat | Works(engine, limit) && Sized(a, limit) && (forall f | f in files :: SizeFits(f.blobBytes, limit))
                           && Ample(budget, a.entries.Keys + {k}, limit) ::
         a.entries.Keys - {k} <= now
  }

  lemma NoneIsOther(engine: Engine, files: set<Snapshot>, k: Key, budget: nat, a: Held, now: set<Key>)
    requires NoneEvicted(engine, files, {k}, budget, a, now)
    ensures OthersStay(engine, files, k, budget, a, now)
  {
    hide Works, Sized, SizeFits, Ample;
  }

  lemma OthersStayWithout(engine: Engine, files: set<Snapshot>, k: Key, budget: nat, a: Held, now: set<Key>)
    requires OthersStay(engine, files, k, budget, a, now)
    ensures OthersStay(engine, files, k, budget, a, now - {k})
  {
    hide Works, Sized, SizeFits, Ample;
  }

  /** Before turn `k` of a search: of the segments still to come those are in memory that were, where the
      budget has room for all. */
  ghost predicate RestStays(engine: Engine, files: map<Key, Snapshot>, id: Bytes, budget: nat, a: Held, n: nat, k: nat, now: set<Key>) {
    && now <= a.entries.Keys + SegmentKeys(id, n)
    && forall limit: nat | Works(engine, limit) && Roomy(a, files, id, limit, n) && Ample(budget, a.entries.Keys + SegmentKeys(id, n), limit) ::
         forall j: int | k <= j < n && Key(id, j) in a.entries :: Key(id, j) in now
  }

  lemma NothingWent(engine: Engine, files: map<Key, Snapshot>, id: Bytes, budget: nat, a: Held, n: nat)
    ensures RestStays(engine, files, id, budget, a, n, 0, a.entries.Keys)
  {
    hide Works, Roomy, Ample;
  }

  lemma {:induction false} OneMoreStays(engine: Engine, files: map<Key, Snapshot>, id: Bytes, budget: nat, a: Held, b: Held, n: nat, k: nat, now: set<Key>)
    requires RestStays(engine, files, id, budget, a, n, k, b.entries.Keys) && k < n
    requires OthersStay(engine, FileOf(files, Key(id, k)), Key(id, k), budget, b, now)
    requires StaysRoomy(engine, id, a, files, b, files, k)
    ensures RestStays(engine, files, id, budget, a, n, k + 1, now)
  {
    hide Works, Sized, SizeFits, Ample;
    var all := a.entries.Keys + SegmentKeys(id, n);
    assert Key(id, k) in SegmentKeys(id, n);
    forall limit: nat | Works(engine, limit) && Roomy(a, files, id, limit, n) && Ample(budget, all, limit)
      ensures forall j: int | k + 1 <= j < n && Key(id, j) in a.entries :: Key(id, j) in now
    {
      assert Roomy(b, files, id, limit, n - k);
      FewerAmple(budget, b.entries.Keys + {Key(id, k)}, all, limit);
    }
  }

  /** The segment of this turn is found, if it was at the start. */
  lemma {:induction false} StillFindable(id: Bytes, engine: Engine, want: map<Key, Content>, files: map<Key, Snapshot>,
                                         before: map<int, CacheEntry>, now: map<int, CacheEntry>, budget: nat, a: Held, n: nat, k: nat, held: set<Key>)
    requires KeepsLoadable(id, engine, want, files, before, files, now) && k < n && RestStays(engine, files, id, budget, a, n, k, held)
    ensures forall limit: nat | Works(engine, limit) && Roomy(a, files, id, limit, n) && Ample(budget, a.entries.Keys + SegmentKeys(id, n), limit)
              && AllFindable(id, engine, a.entries.Keys, want, files, before, n) :: Findable(engine, held, want, files, now, Key(id, k))
    ensures AllSavedAndLoad(id, engine, want, files, before, n) ==> Findable(engine, held, want, files, now, Key(id, k))
  {
    hide HasDisk, Loads, Works, Roomy, Ample;
    StillSaved(id, engine, want, files, before, now, n, k);
    assert AllFindable(id, engine, a.entries.Keys, want, files, before, n) ==> Findable(engine, a.entries.Keys, want, files, before, Key(id, k));
  }

  lemma {:induction false} CacheIsValid(m: SessionManager)
    requires m.Inv()
    ensures m.kv.Valid() && m.kv.log !in m.repr
  {
    hide SessionManager.Inv, SessionOk, Coherent, Unrelated;
    InvOpened(m);
    SeparateMeans(m);
  }

  lemma AnswersMeans(query: Query, context: ActiveKV)
    ensures Answers(query) && context.Live? ==> query.rank(context).Some?
  {
  }

  lemma RoomForMeans(engine: Engine, kv: KVState, k: Key, query: Query)
    ensures RoomFor(engine, kv, k, query) <==> query.tokens.Some? && RoomToSearch(engine, kv, k, query.tokens.value)
  {
  }

  lemma OnlyEntryChain(a: map<int, CacheEntry>, b: map<int, CacheEntry>, c: map<int, CacheEntry>, k: int)
    requires OnlyEntry(a, b, k) && OnlyEntry(b, c, k)
    ensures OnlyEntry(a, c, k)
  {
  }

  lemma NoneAddedChain(a: KVState, b: KVState, c: KVState, k: Key)
    requires NoneAdded(a, b, k) && NoneAdded(b, c, k)
    ensures NoneAdded(a, c, k)
  {
  }

  lemma {:induction false} ActiveInTable(kv: KVState, k: Key, want: map<Key, Content>)
    requires SearchedAlone(kv, k, want)
    ensures kv.active.Some? && kv.active.value.handle < |kv.cells| && SearchedContext(kv) == kv.cells[kv.active.value.handle].active
    ensures SearchedContext(kv).Live?
  {
  }

  // ----- The search command -----

  /** The active context has room for the segment and the query. */
  ghost predicate RoomFor(engine: Engine, kv: KVState, k: Key, query: Query) {
    query.tokens.Some? && RoomToSearch(engine, kv, k, query.tokens.value)
  }

  /** Every segment was searched alone, on a context with its present content and room for the query. */
  ghost predicate EachSearchedAlone(engine: Engine, id: Bytes, seen: seq<KVState>, rankings: seq<seq<int>>, query: Query, want: map<Key, Content>) {
    |seen| == |rankings| &&
    forall k :: 0 <= k < |seen| ==>
      SearchedAlone(seen[k], Key(id, k), want) && RoomFor(engine, seen[k], Key(id, k), query) && query.rank(SearchedContext(seen[k])) == Some(rankings[k])
  }

  /** The questions of a search, with their answers. */
  ghost function Asked(seen: seq<KVState>, rankings: seq<seq<int>>): seq<Ranking>
    requires |seen| == |rankings|
  {
    seq(|seen|, k requires 0 <= k < |seen| => Ranking(seen[k], Some(rankings[k])))
  }

  lemma {:induction false} OneMoreAsked(seen: seq<KVState>, rankings: seq<seq<int>>, state: KVState, ranked: seq<int>)
    requires |seen| == |rankings|
    ensures Asked(seen + [state], rankings + [ranked]) == Asked(seen, rankings) + [Ranking(state, Some(ranked))]
  {
  }

  method SearchSegments(m: SessionManager, engine: Engine, id: Bytes, d: DurableSession, query: Query)
    returns (ok: bool, ordered: seq<MemoryRef>, ghost rankings: seq<seq<int>>, ghost seen: seq<KVState>)
    requires m.Inv() && id in m.sessions && d == m.sessions[id] && d.session.planReady
    requires OthersAsleep(m.kv.State(), id) && query.tokens.Some?
    modifies m.kv, m.kv.table, m.kv.resident, m.kv.log, d.session`metadata
    ensures m.Inv() && m.kv.resident.budget == old(m.kv.resident.budget)
    ensures ok ==> |seen| == |rankings| && m.kv.log.rankings == old(m.kv.log.rankings) + Asked(seen, rankings)
    ensures KeepsLoadable(id, engine, m.want, m.disk.files, old(d.session.metadata), m.disk.files, d.session.metadata)
    ensures Described(d.session.segments, old(d.session.metadata)) ==> Described(d.session.segments, d.session.metadata)
    ensures ok ==>
              && |rankings| == |d.session.segments| && EachSearchedAlone(engine, id, seen, rankings, query, m.want)
              && ordered == MergedAll(d.session.store, d.session.segments, rankings)
    ensures ok && m.kv.resident.budget > 0 && |d.session.segments| > 1 ==>
              SavedAreReleased(id, m.kv.State(), d.session.metadata, m.disk.files, |d.session.segments|)
    ensures ok && seen != [] && (m.kv.resident.budget == 0 || |d.session.segments| <= 1) ==> m.kv.State() == Last(seen)
    ensures forall limit: nat | Works(engine, limit) && Roomy(old(m.kv.InMemory()), m.disk.files, id, limit, |d.session.segments|) && Answers(query)
              && AllSavedAndLoad(id, engine, m.want, m.disk.files, old(d.session.metadata), |d.session.segments|)
              :: ok
    ensures forall limit: nat | Works(engine, limit) && Roomy(old(m.kv.InMemory()), m.disk.files, id, limit, |d.session.segments|) && Answers(query)
              && Ample(m.kv.resident.budget, old(m.kv.resident.entries).Keys + SegmentKeys(id, |d.session.segments|), limit)
              && AllFindable(id, engine, old(m.kv.resident.entries).Keys, m.want, m.disk.files, old(d.session.metadata), |d.session.segments|)
              :: ok
  {
    hide *;
    ghost var held := m.kv.InMemory();
    NotGrown(engine, id, m.disk.files, held);
    HeldParts(m.kv);
    NothingWent(engine, m.disk.files, id, m.kv.resident.budget, held, |d.session.segments|);
    NothingSearched(engine, id, query, m.want);
    ordered, rankings, seen := [], [], [];
    SessionPlan(m, id, d);
    PlanIsNumbered(d.session.store, d.session.segments);
    NumberedIsSorted(d.session.segments);
    NothingLost(id, engine, m.want, m.disk.files, d.session.metadata);
    NothingReleasedYet(id, m.kv.State(), d.session.metadata, m.disk.files);
    var stream := m.kv.resident.budget > 0 && |d.session.segments| > 1;
    var sorted := SegmentsById(d.session.segments);
    for k := 0 to |sorted|
      invariant m.Inv() && OthersAsleep(m.kv.State(), id) && |rankings| == k
      invariant StaysRoomy(engine, id, held, m.disk.files, m.kv.InMemory(), m.disk.files, k)
      invariant KeepsLoadable(id, engine, m.want, m.disk.files, old(d.session.metadata), m.disk.files, d.session.metadata)
      invariant Described(d.session.segments, old(d.session.metadata)) ==> Described(d.session.segments, d.session.metadata)
      invariant EachSearchedAlone(engine, id, seen, rankings, query, m.want)
      invariant ordered == MergedAll(d.session.store, sorted[..k], rankings)
      invariant m.kv.resident.budget == old(m.kv.resident.budget)
      invariant |seen| == |rankings| && m.kv.log.rankings == old(m.kv.log.rankings) + Asked(seen, rankings)
      invariant !stream && seen != [] ==> m.kv.State() == Last(seen)
      invariant stream ==> SavedAreReleased(id, m.kv.State(), d.session.metadata, m.disk.files, k)
      invariant RestStays(engine, m.disk.files, id, m.kv.resident.budget, held, |sorted|, k, m.kv.resident.entries.Keys)
    {
      ghost var metadata, ranked, state := d.session.metadata, [], m.kv.State();
      StillFindable(id, engine, m.want, m.disk.files, old(d.session.metadata), metadata, m.kv.resident.budget, held, |sorted|, k, m.kv.resident.entries.Keys);
      ghost var kv := m.kv.State();
      ghost var held' := m.kv.InMemory();
      HeldParts(m.kv);
      StillRoom(engine, id, held, m.disk.files, held', m.disk.files, k, |sorted|);
      ok, ordered, ranked, state := SearchSegment(m, engine, id, d, k, query, stream, ordered);
      OneMoreReleased(id, kv, m.kv.State(), metadata, d.session.metadata, m.disk.files, k);
      KeepsLoadableChain(id, engine, m.want, m.disk.files, old(d.session.metadata), metadata, d.session.metadata);
      if !ok {
        return;
      }
      StaysRoomyTwice(engine, id, held, m.disk.files, held', m.disk.files, m.kv.InMemory(), m.disk.files, k, 1);
      OneMoreStays(engine, m.disk.files, id, m.kv.resident.budget, held, held', |sorted|, k, m.kv.resident.entries.Keys);
      OneMoreSearched(engine, id, seen, rankings, query, m.want, state, ranked);
      OneMoreMerged(d.session.store, sorted, rankings, ranked, k);
      OneMoreAsked(seen, rankings, state, ranked);
      rankings, seen := rankings + [ranked], seen + [state];
      LastSeen(seen, state);
    }
    assert sorted[..|sorted|] == sorted;
    ok := true;
  }

  lemma LastSeen(seen: seq<KVState>, state: KVState)
    ensures seen != [] && seen[|seen| - 1] == state ==> Last(seen) == state
  {
  }

  /** Of the first `n` segments those that are saved are not in memory. */
  ghost predicate SavedAreReleased(id: Bytes, kv: KVState, metadata: map<int, CacheEntry>, files: map<Key, Snapshot>, n: nat) {
    forall k | 0 <= k < n && HasDisk(metadata, files, Key(id, k)) :: Key(id, k) !in kv.resident
  }

  lemma {:induction false} OneMoreReleased(id: Bytes, kv: KVState, kv': KVState, metadata: map<int, CacheEntry>, metadata': map<int, CacheEntry>,
                                           files: map<Key, Snapshot>, k: nat)
    ensures SavedAreReleased(id, kv, metadata, files, k) && OnlyEntry(metadata, metadata', k) && NoneAdded(kv, kv', Key(id, k))
            && (HasDisk(metadata', files, Key(id, k)) ==> Key(id, k) !in kv'.resident)
            ==> SavedAreReleased(id, kv', metadata', files, k + 1)
  {
  }

  lemma {:induction false} StillSaved(id: Bytes, engine: Engine, want: map<Key, Content>, files: map<Key, Snapshot>,
                                      before: map<int, CacheEntry>, now: map<int, CacheEntry>, n: nat, k: nat)
    requires KeepsLoadable(id, engine, want, files, before, files, now) && k < n
    ensures AllSavedAndLoad(id, engine, want, files, before, n) ==> SavedAndLoads(engine, want, files, now, Key(id, k))
  {
    hide HasDisk, Loads;
    assert AllSavedAndLoad(id, engine, want, files, before, n) ==> SavedAndLoads(engine, want, files, before, Key(id, k));
  }

  lemma NothingReleasedYet(id: Bytes, kv: KVState, metadata: map<int, CacheEntry>, files: map<Key, Snapshot>)
    ensures SavedAreReleased(id, kv, metadata, files, 0)
  {
  }

  lemma NothingSearched(engine: Engine, id: Bytes, query: Query, want: map<Key, Content>)
    ensures EachSearchedAlone(engine, id, [], [], query, want)
    ensures forall store, segments: seq<Segment> :: MergedAll(store, segments[..0], []) == []
    ensures Asked([], []) == []
  {
  }

  lemma {:induction false} OneMoreSearched(engine: Engine, id: Bytes, seen: seq<KVState>, rankings: seq<seq<int>>, query: Query,
                                           want: map<Key, Content>, state: KVState, ranked: seq<int>)
    requires EachSearchedAlone(engine, id, seen, rankings, query, want)
    requires SearchedAlone(state, Key(id, |rankings|), want) && RoomFor(engine, state, Key(id, |rankings|), query) && query.rank(SearchedContext(state)) == Some(ranked)
    ensures EachSearchedAlone(engine, id, seen + [state], rankings + [ranked], query, want)
  {
    hide SearchedAlone, SearchedContext, RoomFor;
  }

  lemma {:induction false} OneMoreMerged(store: SessionStore, segments: seq<Segment>, rankings: seq<seq<int>>, ranked: seq<int>, k: nat)
    requires k < |segments| && |rankings| == k
    ensures MergedAll(store, segments[..k + 1], rankings + [ranked]) ==
            Merged(store, segments[k], ranked, MergedAll(store, segments[..k], rankings))
  {
    hide Merged;
    assert Init(segments[..k + 1]) == segments[..k] && Init(rankings + [ranked]) == rankings;
  }

  /** A search of an indexed session: the first `topK` distinct hits of every segment in the order of
      the plan, each ranked alone on a context with exactly the segment's present content. */
  method Search(m: SessionManager, engine: Engine, id: Bytes, query: Query, topK: int)
    returns (error: Option<ErrorCode>, result: seq<MemoryRef>, ghost rankings: seq<seq<int>>, ghost seen: seq<KVState>)
    requires m.Inv()
    modifies m`want, m.kv, m.kv.table, m.kv.resident, m.kv.log, m.ObjectsOf(id)
    ensures id in m.sessions ==> |m.sessions[id].session.store.memories| == |old(m.sessions[id].session.store.memories)|
    ensures m.Inv() && m.kv.resident.budget == old(m.kv.resident.budget)
    ensures error == None ==>
              && id in m.sessions
              && var s := m.sessions[id].session;
              && |rankings| == |s.segments| && EachSearchedAlone(engine, id, seen, rankings, query, m.want)
              && m.kv.log.rankings == old(m.kv.log.rankings) + Asked(seen, rankings)
              && result == Contributions(s.store, s.segments, rankings, topK) && NoRepeats(result)
              && (m.kv.resident.budget > 0 && |s.segments| > 1 ==>
                    SavedAreReleased(id, m.kv.State(), s.metadata, m.disk.files, |s.segments|))
              && (seen != [] && (m.kv.resident.budget == 0 || |s.segments| <= 1) ==> m.kv.State() == Last(seen))
    ensures id in m.sessions ==>
              StayStorable(old(FactsOf(m.sessions[id])), FactsOf(m.sessions[id]), 0) && m.sessions[id].saved == old(m.sessions[id].saved)
    ensures id in m.sessions && old(Settled(m.sessions[id].session)) ==>
              PlannedOf(m.sessions[id].session) == old(PlannedOf(m.sessions[id].session))
    ensures error == None && id in m.sessions && !old(m.sessions[id].session.planReady) ==>
              && SameFacts(m.sessions[id].session.store, old(m.sessions[id].session.store))
              && PlannedAnew(m.core, m.model, m.ManifestOf(id), old(m.sessions[id].session.store), true, m.sessions[id].session.segments)
    ensures forall limit: nat, n: nat | id in m.sessions && Works(engine, limit)
              && Roomy(old(m.kv.InMemory()), m.disk.files, id, limit, n) && Answers(query)
              && IsValidSessionId(id) && !old(m.sessions[id].session.planReady) && n > 0
              && SearchableAnew(m.core, m.model, m.ManifestOf(id), old(m.sessions[id].session.store), id, engine, m.disk.files, n)
              :: error == None
    ensures id in m.sessions && old(m.sessions[id].session.planReady) ==>
              KeepsLoadable(id, engine, m.want, m.disk.files, old(m.sessions[id].session.metadata),
                               m.disk.files, m.sessions[id].session.metadata)
    ensures forall limit: nat | id in m.sessions && Works(engine, limit)
              && Roomy(old(m.kv.InMemory()), m.disk.files, id, limit, |m.sessions[id].session.segments|) && Answers(query)
              && IsValidSessionId(id) && old(m.sessions[id].session.planReady) && m.sessions[id].session.segments != []
              && AllSavedAndLoad(id, engine, m.want, m.disk.files, old(m.sessions[id].session.metadata), |m.sessions[id].session.segments|)
              :: error == None
    ensures forall limit: nat | id in m.sessions && Works(engine, limit)
              && Roomy(old(m.kv.InMemory()), m.disk.files, id, limit, |m.sessions[id].session.segments|) && Answers(query)
              && Ample(m.kv.resident.budget, old(m.kv.resident.entries).Keys + SegmentKeys(id, |m.sessions[id].session.segments|), limit)
              && IsValidSessionId(id) && old(m.sessions[id].session.planReady) && m.sessions[id].session.segments != []
              && AllFindable(id, engine, old(m.kv.resident.entries).Keys, m.want, m.disk.files, old(m.sessions[id].session.metadata),
                             |m.sessions[id].session.segments|)
              :: error == None
    ensures Exports(engine) && IsValidSessionId(id) && id in m.sessions ==>
              && (old(m.PlanAt(id)).error.Some? ==> error == Some(InternalError))
              && (old(m.PlanAt(id)) == Outcome(None, []) ==> error == Some(InvalidRequest))
    ensures Exports(engine) && IsValidSessionId(id) && id in m.sessions && old(m.sessions[id].session.planReady) ==>
              (error == Some(InvalidRequest) <==>
                 NotIndexed(id, old(m.sessions[id].session.segments), old(m.kv.State()), old(m.sessions[id].session.metadata), m.disk.files))
  {
    hide *;
    WorkingCounts(engine, Content([], []));
    result, rankings, seen := [], [], [];
    if id in m.sessions {
      SameStoreStays(FactsOf(m.sessions[id]), FactsOf(m.sessions[id]), 0);
      PartsOf(m.sessions[id].session);
      NothingLost(id, engine, m.want, m.disk.files, m.sessions[id].session.metadata);
    }
    ObjectsMean(m, id);
    SameKeys(m.kv);
    ghost var kv, held := m.kv.State(), m.kv.resident.entries.Keys;
    ghost var plan := if id in m.sessions then m.PlanAt(id) else Outcome(None, []);
    if id in m.sessions {
      PlanAtMeans(m, id);
    }
    error := EnterWithRoom(m, engine, id);
    SameKeys(m.kv);
    SameIndexed(id, kv, m.kv.State(), m.disk.files);
    if error.Some? {
      return;
    }
    var d := m.sessions[id];
    FoundAsBefore(id, engine, m.kv.resident.budget, held, m.kv.resident.entries.Keys, m.disk.files, |d.session.segments|);
    var ok := PlanForSearch(m, engine, id, d);
    PartsOf(d.session);
    if !ok {
      error := Some(InternalError);
      return;
    }
    EmptyIsNotIndexed(id, d.session.segments, m.kv.State(), d.session.metadata, m.disk.files);
    RoomAfter(engine, id, old(m.kv.InMemory()), m.disk.files, m.kv.InMemory(), |d.session.segments|);
    error, result, rankings, seen := SearchPlanned(m, engine, id, d, query, topK);
    PartsOf(d.session);
  }

  /** The plan is made ready; what makes a new one searchable is there. */
  method PlanForSearch(m: SessionManager, ghost engine: Engine, id: Bytes, d: DurableSession) returns (ok: bool)
    requires m.Inv() && id in m.sessions && d == m.sessions[id]
    modifies m`want, d`storable, d.session
    ensures m.Inv() && d.session.planReady && |d.session.store.memories| == |old(d.session.store.memories)|
    ensures StayStorable(old(FactsOf(d)), FactsOf(d), 0)
    ensures ok <==> old(m.PlanAt(id)).error == None
    ensures d.session.segments == old(m.PlanAt(id)).segments
    ensures old(d.session.planReady) ==> ok && m.want == old(m.want) && View(d.session) == old(View(d.session))
    ensures old(Settled(d.session)) ==> PlannedOf(d.session) == old(PlannedOf(d.session))
    ensures !old(d.session.planReady) ==>
              && SameFacts(d.session.store, old(d.session.store))
              && PlannedAnew(m.core, m.model, m.ManifestOf(id), old(d.session.store), ok, d.session.segments)
    ensures forall n: nat | !old(d.session.planReady) && SearchableAnew(m.core, m.model, m.ManifestOf(id), old(d.session.store), id, engine, m.disk.files, n) ::
              ok && |d.session.segments| == n && AllSavedAndLoad(id, engine, m.want, m.disk.files, d.session.metadata, n)
  {
    hide *;
    PartsOf(d.session);
    SettledMeans(d.session);
    SessionPlanned(m, id);
    PlanAtMeans(m, id);
    ghost var store, ready := d.session.store, d.session.planReady;
    ok := m.PreparePlan(id, d);
    PartsOf(d.session);
    if !ready && store.memories == [] {
      NothingToPlan(m.core, m.model, m.ManifestOf(id), store, d.session.store, ok, d.session.segments);
    }
    if !ready {
      WantedNow(m, id);
      SearchableMeans(m.core, m.model, m.ManifestOf(id), store, id, engine, m.disk.files, ok, View(d.session), m.want);
    }
  }

  lemma EmptyIsNotIndexed(id: Bytes, segments: seq<Segment>, kv: KVState, metadata: map<int, CacheEntry>, files: map<Key, Snapshot>)
    ensures segments == [] ==> NotIndexed(id, segments, kv, metadata, files)
  {
  }

  /** The search of a planned session, as long as all of it is indexed. */
  method SearchPlanned(m: SessionManager, engine: Engine, id: Bytes, d: DurableSession, query: Query, topK: int)
    returns (error: Option<ErrorCode>, result: seq<MemoryRef>, ghost rankings: seq<seq<int>>, ghost seen: seq<KVState>)
    requires m.Inv() && id in m.sessions && d == m.sessions[id] && d.session.planReady && OthersAsleep(m.kv.State(), id)
    modifies m.kv, m.kv.table, m.kv.resident, m.kv.log, d.session`metadata
    ensures m.Inv() && m.kv.resident.budget == old(m.kv.resident.budget)
    ensures error == None ==>
              && |rankings| == |d.session.segments| && EachSearchedAlone(engine, id, seen, rankings, query, m.want)
              && m.kv.log.rankings == old(m.kv.log.rankings) + Asked(seen, rankings)
              && result == Contributions(d.session.store, d.session.segments, rankings, topK) && NoRepeats(result)
              && (m.kv.resident.budget > 0 && |d.session.segments| > 1 ==>
                    SavedAreReleased(id, m.kv.State(), d.session.metadata, m.disk.files, |d.session.segments|))
              && (seen != [] && (m.kv.resident.budget == 0 || |d.session.segments| <= 1) ==> m.kv.State() == Last(seen))
    ensures KeepsLoadable(id, engine, m.want, m.disk.files, old(d.session.metadata), m.disk.files, d.session.metadata)
    ensures forall limit: nat | Works(engine, limit) && Roomy(old(m.kv.InMemory()), m.disk.files, id, limit, |d.session.segments|) && Answers(query)
              && d.session.segments != []
              && AllSavedAndLoad(id, engine, m.want, m.disk.files, old(d.session.metadata), |d.session.segments|)
              :: error == None
    ensures forall limit: nat | Works(engine, limit) && Roomy(old(m.kv.InMemory()), m.disk.files, id, limit, |d.session.segments|) && Answers(query)
              && Ample(m.kv.resident.budget, old(m.kv.resident.entries).Keys + SegmentKeys(id, |d.session.segments|), limit)
              && AllFindable(id, engine, old(m.kv.resident.entries).Keys, m.want, m.disk.files, old(d.session.metadata), |d.session.segments|)
              && d.session.segments != [] :: error == None
    ensures error == Some(InvalidRequest) <==>
              NotIndexed(id, d.session.segments, old(m.kv.State()), old(d.session.metadata), m.disk.files)
  {
    hide SegmentKVManager.InMemory, Works, Roomy, StaysRoomy, SavedAndLoads, AllSavedAndLoad, SavedAreReleased;
    hide SessionManager.Inv, OthersAsleep, KeepsLoadable, Described, EachSearchedAlone, Indexed, Contributions;
    hide MergedAll, Limited, NoRepeats, PlanOk, HashesOk, ValidStore, HasDisk, Ample, AllFindable;
    result, rankings, seen := [], [], [];
    NothingLost(id, engine, m.want, m.disk.files, d.session.metadata);
    FoundIsIndexed(id, engine, m.want, m.disk.files, d.session.metadata, m.kv.State(), |d.session.segments|);
    SameKeys(m.kv);
    var indexed := AllIndexed(m, id, d);
    if d.session.segments == [] || !indexed {
      error := Some(InvalidRequest);
      return;
    }
    if query.tokens == None {
      error := Some(InternalError);
      return;
    }
    var ok, ordered;
    ok, ordered, rankings, seen := SearchSegments(m, engine, id, d, query);
    if !ok {
      error := Some(InternalError);
      return;
    }
    error := None;
    SessionPlan(m, id, d);
    PlanIsPartitioned(d.session.store, d.session.segments);
    SearchReturnsContributions(d.session.store, d.session.segments, rankings, topK);
    SearchResultIsSound(d.session.store, d.session.segments, rankings, topK);
    result := ApplySearchResultLimits(ordered, topK);
  }

  lemma {:induction false} FoundIsIndexed(id: Bytes, engine: Engine, want: map<Key, Content>, files: map<Key, Snapshot>,
                                          metadata: map<int, CacheEntry>, kv: KVState, n: nat)
    ensures AllSavedAndLoad(id, engine, want, files, metadata, n) || AllFindable(id, engine, kv.resident.Keys, want, files, metadata, n) ==>
              forall k | 0 <= k < n :: Indexed(kv, metadata, files, Key(id, k))
  {
    hide HasDisk, Loads;
    if AllFindable(id, engine, kv.resident.Keys, want, files, metadata, n) {
      forall k | 0 <= k < n ensures Indexed(kv, metadata, files, Key(id, k)) {
        assert Findable(engine, kv.resident.Keys, want, files, metadata, Key(id, k));
      }
    }
  }

  /** There is nothing to search, or something that is neither in memory nor saved. */
  ghost predicate NotIndexed(id: Bytes, segments: seq<Segment>, kv: KVState, metadata: map<int, CacheEntry>, files: map<Key, Snapshot>) {
    segments == [] || exists k | 0 <= k < |segments| :: !Indexed(kv, metadata, files, Key(id, k))
  }

  /** Entering a command leaves all of the session in memory that was there. */
  lemma {:induction false} SameIndexed(id: Bytes, kv: KVState, kv': KVState, files: map<Key, Snapshot>)
    requires forall k | k in kv.resident && k.session == id :: k in kv'.resident
    requires forall k | k in kv'.resident :: k in kv.resident
    ensures forall segments, metadata :: NotIndexed(id, segments, kv', metadata, files) <==> NotIndexed(id, segments, kv, metadata, files)
  {
    hide HasDisk;
    forall metadata, k: Key | k.session == id ensures Indexed(kv', metadata, files, k) <==> Indexed(kv, metadata, files, k) {
    }
  }

  lemma {:induction false} FoundAsBefore(id: Bytes, engine: Engine, budget: nat, held: set<Key>, held': set<Key>, files: map<Key, Snapshot>, n: nat)
    requires held' <= held && forall k | k in held && k.session == id :: k in held'
    ensures forall limit: nat | Ample(budget, held + SegmentKeys(id, n), limit) :: Ample(budget, held' + SegmentKeys(id, n), limit)
    ensures forall want, metadata | AllFindable(id, engine, held, want, files, metadata, n) :: AllFindable(id, engine, held', want, files, metadata, n)
  {
    hide Ample, SavedAndLoads;
    FewerStillAmple(budget, held, held', id, n);
    forall want, metadata | AllFindable(id, engine, held, want, files, metadata, n) ensures AllFindable(id, engine, held', want, files, metadata, n) {
      forall k | 0 <= k < n ensures Findable(engine, held', want, files, metadata, Key(id, k)) {
        assert Findable(engine, held, want, files, metadata, Key(id, k));
      }
    }
  }

  /** The check before a search. */
  method AllIndexed(m: SessionManager, id: Bytes, d: DurableSession) returns (indexed: bool)
    requires m.Inv() && id in m.sessions && d == m.sessions[id]
    ensures indexed <==> forall k | 0 <= k < |d.session.segments| :: Indexed(m.kv.State(), d.session.metadata, m.disk.files, Key(id, k))
  {
    hide SessionManager.Inv, PlanOk, HashesOk, HasDisk, ValidStore;
    SessionPlan(m, id, d);
    PlanIsNumbered(d.session.store, d.session.segments);
    for k := 0 to |d.session.segments|
      invariant forall j | 0 <= j < k :: Indexed(m.kv.State(), d.session.metadata, m.disk.files, Key(id, j))
    {
      var key := Key(id, d.session.segments[k].id);
      assert key == Key(id, k);
      if key !in m.kv.resident.entries && !IsSaved(d.session.metadata, m.disk.files, key) {
        assert !Indexed(m.kv.State(), d.session.metadata, m.disk.files, Key(id, k));
        return false;
      }
    }
    return true;
  }

  lemma {:induction false} PlanIsPartitioned(store: SessionStore, segments: seq<Segment>)
    requires PlanOk(store, segments)
    ensures Partitioned(segments)
  {
    hide MembersPresent;
  }
}
