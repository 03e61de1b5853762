/** Indexing and saving: getting the KV state of every segment into memory or onto disk
    (segment_kv_cache_commands.cpp). */
module IndexCommands {
  import opened Basics
  import opened Persistent
  import opened SessionState
  import opened SegmentPlanner
  import opened ContentHash
  import opened CacheManifest
  import opened SegmentKV
  import opened Coherence
  import opened KVManager
  import opened ResidentStore
  import opened MemoryRoom
  import opened SessionSaving
  import opened Durability
  import opened PlanShape
  import opened PlanRestore
  import opened PlanInvariant
  import opened SessionPlans
  import opened SessionCommands

  /** Which file operations of one index or save succeed. */
  datatype IndexFaults = IndexFaults(directory: bool, kvFile: int -> bool, manifest: int -> bool) {

    ghost predicate None(n: nat) {
      directory && forall k | 0 <= k < n :: kvFile(k) && manifest(k)
    }
  }

  // ----- Bringing one segment into memory -----

  /** The entries of the other segments did not change. */
  ghost predicate OnlyEntry(before: map<int, CacheEntry>, after: map<int, CacheEntry>, k: int) {
    && (forall j | j in before && j != k :: j in after && after[j] == before[j])
    && (forall j | j in after && j != k :: j in before)
  }

  lemma {:induction false} MarksOneEntry(engine: Engine, files: map<Key, Snapshot>, store: SessionStore, segments: seq<Segment>, id: int,
                                         allowBuild: bool, found: bool, ok: bool, before: map<int, CacheEntry>, after: map<int, CacheEntry>)
    requires PrepareMarks(engine, files, store, segments, id, allowBuild, found, ok, before, after)
    ensures OnlyEntry(before, after, id)
    ensures HashesOk(store, segments, before) ==> HashesOk(store, segments, after)
    ensures Described(segments, before) ==> Described(segments, after)
  {
    hide SegmentHash, ContentOf;
  }

  /** Segments that count as saved, with files that load for what the segments hold now, still do,
      with the same files. */
  ghost predicate KeepsLoadable(id: Bytes, engine: Engine, want: map<Key, Content>, files: map<Key, Snapshot>, metadata: map<int, CacheEntry>,
                                files': map<Key, Snapshot>, metadata': map<int, CacheEntry>) {
    forall j: Key | j.session == id && HasDisk(metadata, files, j) && j in want && Loads(engine, files[j], want[j]) ::
      HasDisk(metadata', files', j) && files'[j] == files[j]
  }

  lemma {:induction false} MarksKeepLoadable(engine: Engine, files: map<Key, Snapshot>, store: SessionStore, segments: seq<Segment>, id: int,
                                             allowBuild: bool, found: bool, ok: bool, before: map<int, CacheEntry>, after: map<int, CacheEntry>,
                                             want: map<Key, Content>)
    requires PrepareMarks(engine, files, store, segments, id, allowBuild, found, ok, before, after)
    requires Wants(want, store, segments, id)
    ensures KeepsLoadable(store.sessionId, engine, want, files, before, files, after)
  {
    hide ContentOf;
  }

  method PrepareSegment(m: SessionManager, engine: Engine, id: Bytes, d: DurableSession, k: int, allowBuild: bool) returns (h: Option<Handle>)
    requires m.Inv() && id in m.sessions && d == m.sessions[id] && d.session.planReady
    modifies m.kv, m.kv.table, m.kv.resident, d.session`metadata
    ensures m.Inv() && m.kv.resident.budget == old(m.kv.resident.budget)
    ensures h.Some? ==> IsResident(m.kv.State(), Key(id, k), h.value) && OnlySegmentAwake(m.kv.State(), Key(id, k))
    ensures PrepareMarks(engine, m.disk.files, d.session.store, d.session.segments, k, allowBuild,
                         Key(id, k) in old(m.kv.State()).resident, h.Some?, old(d.session.metadata), d.session.metadata)
    ensures h.Some? && Key(id, k) !in old(m.kv.State()).resident ==>
              k in d.session.metadata && d.session.metadata[k].tokenCount == m.kv.BaseTokens(h.value)
    ensures OnlyEntry(old(d.session.metadata), d.session.metadata, k)
    ensures KeepsLoadable(id, engine, m.want, m.disk.files, old(d.session.metadata), m.disk.files, d.session.metadata)
    ensures Described(d.session.segments, old(d.session.metadata)) ==> Described(d.session.segments, d.session.metadata)
    ensures forall j | j in m.kv.State().resident && j != Key(id, k) :: j in old(m.kv.State()).resident
    ensures StaysRoomy(engine, id, old(m.kv.InMemory()), old(m.disk.files), m.kv.InMemory(), m.disk.files, 1)
    ensures forall limit: nat, n: nat | Works(engine, limit) && Roomy(old(m.kv.InMemory()), m.disk.files, id, limit, n) && 1 <= n
              && allowBuild && 0 <= k < |d.session.segments| :: h.Some?
    ensures h.Some? && Key(id, k) in m.want ==>
              Counted(engine, old(m.kv.State()), m.disk.files, Key(id, k), m.want[Key(id, k)], m.kv.BaseTokens(h.value))
    ensures KeepsTokens(old(m.kv.State()), m.kv.State(), Key(id, k))
    ensures NoneEvicted(engine, FileOf(m.disk.files, Key(id, k)), {Key(id, k)}, m.kv.resident.budget, old(m.kv.InMemory()), m.kv.resident.entries.Keys)
  {
    hide *;
    ghost var h0 := m.kv.InMemory();
    SameKeys(m.kv);
    InvOpened(m);
    SessionsApart(m, id);
    SessionOpened(d, id, m.want);
    WantsSegment(m.want, id, d.session.store, d.session.segments, k);
    h := m.kv.PrepareResidentSegment(engine, m.disk, d.session, k, allowBuild, m.want);
    MarksOneEntry(engine, m.disk.files, d.session.store, d.session.segments, k, allowBuild,
                  Key(id, k) in old(m.kv.State()).resident, h.Some?, old(d.session.metadata), d.session.metadata);
    MarksKeepLoadable(engine, m.disk.files, d.session.store, d.session.segments, k, allowBuild,
                      Key(id, k) in old(m.kv.State()).resident, h.Some?, old(d.session.metadata), d.session.metadata, m.want);
    OthersWereThere(old(m.kv.State()), m.kv.State(), Key(id, k));
    SameKeys(m.kv);
    OneMoreEntry(h0.entries, m.kv.resident.entries, Key(id, k));
    SizedIsRoomy(engine, id, k, h0, m.kv.InMemory(), m.disk.files, 1);
    RoomMeans(m, engine, id, k, h0, m.disk.files);
    BuildingCanPrepare(engine, m.disk.files, old(d.session.metadata), k, old(m.kv.State()), Key(id, k), d.session.store, d.session.segments, allowBuild);
    OthersKeepTokens(old(m.kv.State()), m.kv.State(), m.want, Key(id, k));
    if h.Some? {
      PreparedMeans(m.kv.State(), Key(id, k), h.value);
      HasContent(d.session.store, d.session.segments, id, k, m.want);
      CountComesFrom(m.kv, engine, m.disk.files, old(d.session.metadata), k, old(m.kv.State()), Key(id, k),
                     ContentOf(d.session.store, d.session.segments, k).value, allowBuild, h.value, m.want);
    }
    SessionClosed(d, id, m.want);
    InvClosed(m);
  }

  // ----- Where a token count comes from -----

  /** A count is that of a state in memory, that of a file for the content, or one that the engine gives for
      the content, built or appended to what is there of it. */
  ghost predicate Counted(engine: Engine, kv: KVState, files: map<Key, Snapshot>, k: Key, content: Content, tokens: int) {
    || (k in kv.resident && tokens == TokensIn(kv, k))
    || (k in files && files[k].metadata.content == content && tokens == files[k].metadata.baseTokens)
    || (engine.build(content).Some? && tokens == engine.build(content).value.0)
    || AppendedCount(engine, content, tokens)
  }

  ghost predicate AppendedCount(engine: Engine, content: Content, tokens: int) {
    exists context: ActiveKV, texts: seq<Bytes> ::
      && context.Live? && context.metadata.content.memories + texts == content.memories
      && engine.extend(context, texts).Some? && engine.extend(context, texts).value == tokens
  }

  lemma {:induction false} CountComesFrom(m: SegmentKVManager, engine: Engine, files: map<Key, Snapshot>, metadata: map<int, CacheEntry>, id: int,
                                          before: KVState, k: Key, content: Content, allowBuild: bool, h: Handle, want: map<Key, Content>)
    requires PreparedFrom(engine, files, metadata, id, before, k, content, allowBuild, m.State(), h)
    requires Coherent(before, want) && k in want && want[k] == content
    requires k in before.resident ==> m.BaseTokens(h) == TokensIn(before, k)
    ensures Counted(engine, before, files, k, content, m.BaseTokens(h))
  {
    hide HasPrefix, FileUsable, Coherent, AppendedCount, WasExtended;
    if k !in before.resident {
      var s := m.table.cells[h];
      assert s == m.State().cells[h];
      if CameFrom(engine, files, metadata, id, k, content, allowBuild, s) {
        CountOfNew(engine, files, metadata, id, k, content, allowBuild, s);
      } else {
        AppendedToPrefix(engine, before, k, content, s, want);
      }
    }
  }

  lemma {:induction false} CountOfNew(engine: Engine, files: map<Key, Snapshot>, metadata: map<int, CacheEntry>, id: int, k: Key, content: Content,
                                      allowBuild: bool, s: SegmentKVState)
    requires CameFrom(engine, files, metadata, id, k, content, allowBuild, s)
    ensures s.Metadata().Some?
    ensures var tokens := s.Metadata().value.baseTokens;
            || (k in files && files[k].metadata.content == content && tokens == files[k].metadata.baseTokens)
            || (engine.build(content).Some? && tokens == engine.build(content).value.0)
  {
  }

  lemma {:induction false} AppendedToPrefix(engine: Engine, before: KVState, k: Key, content: Content, s: SegmentKVState, want: map<Key, Content>)
    requires CameFromPrefix(engine, before, k, content, s) && Coherent(before, want) && k in want && want[k] == content
    ensures s.Metadata().Some? && AppendedCount(engine, content, s.Metadata().value.baseTokens)
  {
    PrefixIsUsable(before.cells[before.prefixes[k]], content);
    var prefix := before.cells[before.prefixes[k]].Metadata().value.content;
    var rest := content.memories[|prefix.memories|..];
    assert prefix.memories + rest == content.memories;
    var context: ActiveKV :| context.Live? && context.metadata.content == prefix && engine.extend(context, rest) == Some(s.active.metadata.baseTokens);
  }

  lemma {:induction false} HasContent(store: SessionStore, segments: seq<Segment>, id: Bytes, k: int, want: map<Key, Content>)
    requires Wants(want, store, segments, k) && store.sessionId == id && ContentOf(store, segments, k).Some?
    ensures Key(id, k) in want && want[Key(id, k)] == ContentOf(store, segments, k).value
  {
    hide ContentOf;
  }

  /** Where there was room before a segment was prepared, the next one still fits. */
  lemma {:induction false} RoomMeans(m: SessionManager, engine: Engine, id: Bytes, k: int, held: Held, files: map<Key, Snapshot>)
    requires StaysRoomy(engine, id, held, files, m.kv.InMemory(), m.disk.files, 1)
    ensures forall limit: nat, n: nat | Works(engine, limit) && Roomy(held, files, id, limit, n) && 1 <= n ::
              Fits(m.kv.resident, m.disk.files, Key(id, k), limit)
  {
    hide Works, Roomy, Fits;
    forall limit: nat, n: nat | Works(engine, limit) && Roomy(held, files, id, limit, n) && 1 <= n
      ensures Fits(m.kv.resident, m.disk.files, Key(id, k), limit)
    {
      RoomyFits(m.kv, m.disk.files, id, k, limit, n - 1);
    }
  }

  lemma {:induction false} BuildingCanPrepare(engine: Engine, files: map<Key, Snapshot>, metadata: map<int, CacheEntry>, id: int, before: KVState, k: Key,
                                              store: SessionStore, segments: seq<Segment>, allowBuild: bool)
    requires PlanOk(store, segments)
    ensures 0 <= id < |segments| ==> ContentOf(store, segments, id).Some?
    ensures allowBuild && ContentOf(store, segments, id).Some? ==>
              CanPrepare(engine, files, metadata, id, before, k, ContentOf(store, segments, id).value, allowBuild)
  {
    hide MembersPresent, Disjoint, ContentAt, ContentOf, HasPrefix, Loadable;
    PlannedContent(store, segments, id);
  }

  lemma {:induction false} OthersWereThere(before: KVState, after: KVState, k: Key)
    requires OthersOnlyShrink(before, after, k)
    ensures forall j | j in after.resident && j != k :: j in before.resident
  {
  }

  lemma {:induction false} PreparedMeans(kv: KVState, k: Key, h: Handle)
    requires Prepared(kv, k, h)
    ensures IsResident(kv, k, h) && OnlySegmentAwake(kv, k)
  {
  }

  lemma {:induction false} WantsSegment(want: map<Key, Content>, id: Bytes, store: SessionStore, segments: seq<Segment>, k: int)
    requires WantedOf(want, id, store, segments) && PlanOk(store, segments) && store.sessionId == id
    ensures Wants(want, store, segments, k)
  {
    hide MembersPresent, Disjoint, SegmentTexts, ContentAt, FindSegment;
    PlannedContent(store, segments, k);
  }

  // ----- Writing one segment's file -----

  /** The entry of a segment has the token count and the size of its file. */
  ghost predicate Measured(metadata: map<int, CacheEntry>, files: map<Key, Snapshot>, k: Key) {
    && k.segment in metadata && k in files
    && metadata[k.segment].tokenCount == files[k].metadata.baseTokens && metadata[k.segment].bytes == files[k].blobBytes
  }

  /** The KV state of a resident segment goes to its file. When it cannot, no file is left. */
  method PersistSnapshot(m: SessionManager, engine: Engine, id: Bytes, d: DurableSession, k: nat, h: Handle, canSave: bool) returns (ok: bool)
    requires m.Inv() && id in m.sessions && d == m.sessions[id] && d.session.planReady && k < |d.session.segments|
    requires IsResident(m.kv.State(), Key(id, k), h)
    modifies m.kv.table, m.disk`files, d.session`metadata
    ensures m.Inv() && m.kv.State().resident == old(m.kv.State()).resident
    ensures OnlyEntry(old(d.session.metadata), d.session.metadata, k)
    ensures Described(d.session.segments, old(d.session.metadata)) ==> Described(d.session.segments, d.session.metadata)
    ensures SameFilesBut(old(m.disk.files), m.disk.files, Key(id, k))
    ensures ok ==> HasDisk(d.session.metadata, m.disk.files, Key(id, k)) && Key(id, k) in m.want
                   && m.disk.files[Key(id, k)].metadata.content == m.want[Key(id, k)]
    ensures ok ==> k in d.session.metadata && d.session.metadata[k].tokenCount == old(m.kv.BaseTokens(h))
    ensures ok ==> Measured(d.session.metadata, m.disk.files, Key(id, k))
    ensures SameTokens(old(m.kv.State()), m.kv.State())
    ensures !ok ==> Key(id, k) !in m.disk.files
    ensures Exports(engine) && canSave ==> ok
    ensures StaysRoomy(engine, id, old(m.kv.InMemory()), old(m.disk.files), m.kv.InMemory(), m.disk.files, 0)
  {
    hide SessionManager.Inv, HasDisk, Described, SameFilesBut, Exports, StaysRoomy;
    ghost var held, files := m.kv.InMemory(), m.disk.files;
    MarkEntryResident(m, id, d, k);
    var snapshot := ExportFor(m, engine, id, k, h);
    ghost var exported := m.kv.InMemory();
    ok := snapshot.Some? && canSave;
    WriteKvFile(m, Key(id, k), if ok then snapshot else None);
    KeptBut(files, m.disk.files, Key(id, k));
    WritingIsRoomy(engine, id, exported, files, m.disk.files, Key(id, k));
    StaysRoomyTwice(engine, id, held, files, exported, files, exported, m.disk.files, 0, 0);
    if ok {
      SetEntrySizes(m, id, d, k, m.kv.BaseTokens(h), m.disk.files[Key(id, k)].blobBytes);
    }
  }

  method MarkEntryResident(m: SessionManager, id: Bytes, d: DurableSession, k: nat)
    requires m.Inv() && id in m.sessions && d == m.sessions[id] && d.session.planReady && k < |d.session.segments|
    modifies d.session`metadata
    ensures m.Inv() && OnlyEntry(old(d.session.metadata), d.session.metadata, k)
    ensures k in d.session.metadata && d.session.metadata[k].hasPath && d.session.metadata[k].state == Resident
    ensures Described(d.session.segments, old(d.session.metadata)) ==> Described(d.session.segments, d.session.metadata)
  {
    hide *;
    InvOpened(m);
    SessionsApart(m, id);
    InitializeEntry(id, d, k, m.want);
    InvClosed(m);
  }

  method ExportFor(m: SessionManager, engine: Engine, id: Bytes, k: nat, h: Handle) returns (snapshot: Option<Snapshot>)
    requires m.Inv() && IsResident(m.kv.State(), Key(id, k), h)
    modifies m.kv.table
    ensures m.Inv() && m.kv.State().resident == old(m.kv.State()).resident && m.kv.BaseTokens(h) == old(m.kv.BaseTokens(h))
    ensures snapshot.Some? ==> Key(id, k) in m.want && snapshot.value.metadata.content == m.want[Key(id, k)]
    ensures snapshot.Some? ==> snapshot.value.metadata.baseTokens == m.kv.BaseTokens(h)
    ensures SameTokens(old(m.kv.State()), m.kv.State())
    ensures Exports(engine) ==> snapshot.Some?
    ensures snapshot.Some? ==> h < |m.kv.InMemory().cells| && m.kv.InMemory().cells[h].snapshot == snapshot
    ensures StaysRoomy(engine, id, old(m.kv.InMemory()), m.disk.files, m.kv.InMemory(), m.disk.files, 0)
  {
    hide *;
    InvOpened(m);
    ghost var held := m.kv.InMemory();
    HeldParts(m.kv);
    StateParts(m.kv);
    snapshot := m.kv.ExportSnapshot(engine, Key(id, k), h, m.want);
    HeldParts(m.kv);
    StateParts(m.kv);
    NoMoreEntries(held.entries, m.kv.resident.entries);
    StaysSizedMore(engine, {}, FileOf(m.disk.files, Key(id, k)), held, m.kv.InMemory());
    SizedIsRoomy(engine, id, k, held, m.kv.InMemory(), m.disk.files, 0);
    ShrinkingKeepsTokens(old(m.kv.State()), m.kv.State(), m.want);
    InvClosed(m);
  }

  /** Writes the file of a segment, or removes it when there is nothing that could be written. */
  method WriteKvFile(m: SessionManager, k: Key, snapshot: Option<Snapshot>)
    requires m.Inv()
    modifies m.disk`files
    ensures m.Inv() && SameFilesBut(old(m.disk.files), m.disk.files, k)
    ensures if snapshot.Some? then k in m.disk.files && m.disk.files[k] == snapshot.value else k !in m.disk.files
  {
    hide *;
    InvOpened(m);
    if snapshot == None {
      m.disk.files := m.disk.files - {k};
      FileGone(old(m.disk.files), m.disk.files, k);
    } else {
      m.disk.files := m.disk.files[k := snapshot.value];
      FileWritten(old(m.disk.files), k, snapshot.value);
    }
    InvClosed(m);
  }

  method SetEntrySizes(m: SessionManager, id: Bytes, d: DurableSession, k: nat, tokens: nat, bytes: nat)
    requires m.Inv() && id in m.sessions && d == m.sessions[id] && d.session.planReady
    requires k in d.session.metadata && d.session.metadata[k].hasPath && d.session.metadata[k].state == Resident && Key(id, k) in m.disk.files
    modifies d.session`metadata
    ensures m.Inv() && HasDisk(d.session.metadata, m.disk.files, Key(id, k))
    ensures d.session.metadata == old(d.session.metadata)[k := old(d.session.metadata)[k].(tokenCount := tokens, bytes := bytes)]
    ensures Described(d.session.segments, old(d.session.metadata)) ==> Described(d.session.segments, d.session.metadata)
  {
    hide *;
    InvOpened(m);
    SessionsApart(m, id);
    SetSizes(id, d, k, tokens, bytes, m.disk.files, m.want);
    InvClosed(m);
  }

  ghost predicate SameFilesBut(before: map<Key, Snapshot>, after: map<Key, Snapshot>, k: Key) {
    && (forall j | j in before && j != k :: j in after && after[j] == before[j])
    && (forall j | j in after && j != k :: j in before)
  }

  lemma KeptBut(before: map<Key, Snapshot>, after: map<Key, Snapshot>, k: Key)
    requires SameFilesBut(before, after, k)
    ensures forall j | j in after && j != k :: j in before && after[j] == before[j]
  {
  }

  lemma FileGone(before: map<Key, Snapshot>, after: map<Key, Snapshot>, k: Key)
    requires after == before - {k}
    ensures SameFilesBut(before, after, k)
  {
  }

  lemma FileWritten(before: map<Key, Snapshot>, k: Key, file: Snapshot)
    ensures SameFilesBut(before, before[k := file], k)
  {
  }

  /** The entry of a segment is initialised and marked resident. */
  method InitializeEntry(id: Bytes, d: DurableSession, k: nat, ghost want: map<Key, Content>)
    requires SessionOk(d, id, want) && d.session.planReady && k < |d.session.segments|
    modifies d.session`metadata
    ensures SessionOk(d, id, want) && OnlyEntry(old(d.session.metadata), d.session.metadata, k)
    ensures k in d.session.metadata && d.session.metadata[k].hasPath && d.session.metadata[k].state == Resident
    ensures Described(d.session.segments, old(d.session.metadata)) ==> Described(d.session.segments, d.session.metadata)
  {
    hide PlanOk, WantedOf, DurableSession.Inv, SessionOk, SegmentHash;
    SessionOpened(d, id, want);
    var hash := SegmentKvContentHash(d.session.store, d.session.segments[k]);
    var entry := if k in d.session.metadata then d.session.metadata[k] else NEW_ENTRY;
    d.session.metadata := d.session.metadata[k := entry.(hash := hash, hasPath := true, state := Resident)];
    SessionClosed(d, id, want);
  }

  method SetSizes(id: Bytes, d: DurableSession, k: nat, tokens: nat, bytes: nat, ghost files: map<Key, Snapshot>, ghost want: map<Key, Content>)
    requires SessionOk(d, id, want) && d.session.planReady
    requires k in d.session.metadata && d.session.metadata[k].hasPath && d.session.metadata[k].state == Resident && Key(id, k) in files
    modifies d.session`metadata
    ensures SessionOk(d, id, want) && HasDisk(d.session.metadata, files, Key(id, k))
    ensures d.session.metadata == old(d.session.metadata)[k := old(d.session.metadata)[k].(tokenCount := tokens, bytes := bytes)]
    ensures Described(d.session.segments, old(d.session.metadata)) ==> Described(d.session.segments, d.session.metadata)
  {
    hide PlanOk, WantedOf, DurableSession.Inv, SessionOk, SegmentHash;
    SessionOpened(d, id, want);
    d.session.metadata := d.session.metadata[k := d.session.metadata[k].(tokenCount := tokens, bytes := bytes)];
    SessionClosed(d, id, want);
  }

  // ----- Exact token counts -----

  function WithTokens(s: Segment, tokens: int): Segment {
    s.(exact := tokens, estimated := tokens)
  }

  /** Of the plan only the token fields of segment `k` may change; when the turn is done they are the
      exact count that its entry has. */
  ghost predicate TokensMayChange(before: seq<Segment>, after: seq<Segment>, metadata: map<int, CacheEntry>, k: nat, done: bool) {
    && k < |before| == |after| && (forall j :: 0 <= j < |before| && j != k ==> after[j] == before[j])
    && (done ==> k in metadata && after[k] == WithTokens(before[k], metadata[k].tokenCount))
  }

  /** The same segments, up to their token fields. */
  ghost predicate SameRuns(a: seq<Segment>, b: seq<Segment>) {
    |a| == |b| && forall k :: 0 <= k < |a| ==> WithTokens(a[k], 0) == WithTokens(b[k], 0)
  }

  lemma {:induction false} TokensDoNotMatter(store: SessionStore, a: seq<Segment>, b: seq<Segment>, metadata: map<int, CacheEntry>,
                                             id: Bytes, want: map<Key, Content>)
    requires SameRuns(a, b)
    ensures PlanOk(store, a) ==> PlanOk(store, b)
    ensures HashesOk(store, a, metadata) ==> HashesOk(store, b, metadata)
    ensures Described(a, metadata) ==> Described(b, metadata)
    ensures WantedOf(want, id, store, a) ==> WantedOf(want, id, store, b)
    ensures forall older :: OnlyTailUnsaved(older, store, a) ==> OnlyTailUnsaved(older, store, b)
  {
    SameIndices(a, b);
    hide SegmentTexts, SegmentHash, AllPresent, SameRuns;
    assert a != [] ==> Last(a).indices == Last(b).indices;
  }

  lemma {:induction false} SameIndices(a: seq<Segment>, b: seq<Segment>)
    requires SameRuns(a, b)
    ensures |a| == |b| && forall k :: 0 <= k < |a| ==> a[k].id == b[k].id && a[k].indices == b[k].indices
  {
    forall k | 0 <= k < |a| ensures a[k].id == b[k].id && a[k].indices == b[k].indices {
      assert WithTokens(a[k], 0).id == WithTokens(b[k], 0).id && WithTokens(a[k], 0).indices == WithTokens(b[k], 0).indices;
    }
  }

  lemma {:induction false} SameRunsChain(a: seq<Segment>, b: seq<Segment>, c: seq<Segment>)
    requires SameRuns(a, b) && SameRuns(b, c)
    ensures SameRuns(a, c)
  {
  }

  /** The exact count replaces the estimate, both in the plan and as what a restart restores. */
  method SetSegmentTokens(id: Bytes, d: DurableSession, k: nat, tokens: nat, ghost want: map<Key, Content>)
    requires SessionOk(d, id, want) && d.session.planReady && k < |d.session.segments|
    modifies d.session`segments
    ensures SessionOk(d, id, want) && SameRuns(old(d.session.segments), d.session.segments)
    ensures d.session.segments == old(d.session.segments)[k := WithTokens(old(d.session.segments)[k], tokens)]
    ensures Described(old(d.session.segments), d.session.metadata) ==> Described(d.session.segments, d.session.metadata)
  {
    hide PlanOk, WantedOf, HashesOk, SessionOk, OnlyTailUnsaved, ValidStore, Storable, OlderState, SameButMemories;
    SessionOpened(d, id, want);
    d.session.segments := d.session.segments[k := WithTokens(d.session.segments[k], tokens)];
    TokensDoNotMatter(d.session.store, old(d.session.segments), d.session.segments, d.session.metadata, id, want);
    SessionClosed(d, id, want);
  }

  method RecordExactTokens(m: SessionManager, id: Bytes, d: DurableSession, k: nat, h: Handle)
    requires m.Inv() && id in m.sessions && d == m.sessions[id] && d.session.planReady && k < |d.session.segments|
    modifies d.session`segments
    ensures m.Inv() && SameRuns(old(d.session.segments), d.session.segments)
    ensures d.session.segments == old(d.session.segments)[k := WithTokens(old(d.session.segments)[k], m.kv.BaseTokens(h))]
    ensures Described(old(d.session.segments), d.session.metadata) ==> Described(d.session.segments, d.session.metadata)
  {
    hide *;
    InvOpened(m);
    SessionsApart(m, id);
    SetSegmentTokens(id, d, k, m.kv.BaseTokens(h), m.want);
    InvClosed(m);
  }

  // ----- The manifest -----

  /** The record of a saved segment. File names are left empty, which stands for the default ones. */
  function ManifestEntry(s: Segment, e: CacheEntry): SegmentRecord {
    SegmentRecord(s.id, if s.indices == [] then -1 else s.indices[0], if s.indices == [] then -1 else Last(s.indices) + 1,
                  e.hash, [], [], e.tokenCount, e.bytes, 0, 0)
  }

  /** The manifest describes the first `n` segments of the plan. */
  ghost predicate DescribesFirst(store: SessionStore, segments: seq<Segment>, manifest: Manifest, model: ModelKey, n: nat) {
    && n <= |segments| && |manifest.segments| == n
    && manifest.schemaVersion == 1 && manifest.model == model && manifest.session == store.sessionId
    && NumberedRecords(manifest)
    && forall k :: 0 <= k < n ==> Describes(store, segments[k], manifest.segments[k])
  }

  lemma {:induction false} OneMoreDescribed(store: SessionStore, segments: seq<Segment>, metadata: map<int, CacheEntry>,
                                            manifest: Manifest, model: ModelKey, k: nat)
    requires DescribesFirst(store, segments, manifest, model, k) && k < |segments|
    requires PlanOk(store, segments) && HashesOk(store, segments, metadata) && k in metadata && metadata[k].hasPath
    ensures DescribesFirst(store, segments,
                           manifest.(segments := manifest.segments + [ManifestEntry(segments[k], metadata[k])]), model, k + 1)
  {
    hide SegmentHash, AllPresent, Disjoint;
  }

  /** The manifest has the counts and sizes of the first `n` entries. */
  ghost predicate RecordsFirst(manifest: Manifest, metadata: map<int, CacheEntry>, n: nat) {
    && |manifest.segments| == n
    && forall k :: 0 <= k < n ==>
         k in metadata && manifest.segments[k].tokens == metadata[k].tokenCount && manifest.segments[k].bytes == metadata[k].bytes
  }

  lemma {:induction false} OneMoreRecorded(manifest: Manifest, before: map<int, CacheEntry>, after: map<int, CacheEntry>, s: Segment, k: nat)
    requires RecordsFirst(manifest, before, k) && OnlyEntry(before, after, k) && k in after
    ensures RecordsFirst(manifest.(segments := manifest.segments + [ManifestEntry(s, after[k])]), after, k + 1)
  {
  }

  lemma NothingRecorded(manifest: Manifest, metadata: map<int, CacheEntry>)
    requires manifest.segments == []
    ensures RecordsFirst(manifest, metadata, 0)
  {
  }

  lemma {:induction false} DescribedUpToTokens(store: SessionStore, a: seq<Segment>, b: seq<Segment>, manifest: Manifest, model: ModelKey, n: nat)
    requires SameRuns(a, b) && DescribesFirst(store, a, manifest, model, n)
    ensures DescribesFirst(store, b, manifest, model, n)
  {
    SameIndices(a, b);
    hide SegmentHash, SameRuns;
    forall k | 0 <= k < n ensures Describes(store, b[k], manifest.segments[k]) {
      assert Describes(store, a[k], manifest.segments[k]);
    }
  }

  method SaveProgressManifest(m: SessionManager, id: Bytes, d: DurableSession, manifest: Manifest, canSave: bool)
    requires m.Inv() && id in m.sessions && d == m.sessions[id] && NumberedRecords(manifest)
    modifies m.disk`manifests
    ensures m.Inv() && m.disk.manifests == if canSave then old(m.disk.manifests)[id := manifest] else old(m.disk.manifests)
  {
    hide *;
    InvOpened(m);
    DiskMeans(m);
    if canSave {
      m.disk.manifests := m.disk.manifests[id := manifest];
    }
    DiskMeans(m);
    InvClosed(m);
  }

  // ----- One turn of the loop -----

  /** Whether the turn writes the segment's file: not when it counts as saved already, and not when
      it is brought into memory from elsewhere while a file of its name exists. */
  ghost predicate WritesFile(kv: KVState, metadata: map<int, CacheEntry>, files: map<Key, Snapshot>, k: Key) {
    && !HasDisk(metadata, files, k)
    && (k in kv.resident || !(k.segment in metadata && metadata[k.segment].hasPath) || k !in files)
  }

  /** The segment's file holds the segment's present content. */
  ghost predicate FreshFile(files: map<Key, Snapshot>, want: map<Key, Content>, k: Key) {
    k in files && k in want && files[k].metadata.content == want[k]
  }

  lemma {:induction false} PreparedCountsAsSaved(engine: Engine, kv: KVState, files: map<Key, Snapshot>, store: SessionStore, segments: seq<Segment>,
                                                 k: Key, before: map<int, CacheEntry>, after: map<int, CacheEntry>)
    requires PrepareMarks(engine, files, store, segments, k.segment, true, k in kv.resident, true, before, after)
    requires !HasDisk(before, files, k)
    ensures HasDisk(after, files, k) <==> !WritesFile(kv, before, files, k)
    ensures !WritesFile(kv, before, files, k) ==>
              k.segment in before && k.segment in after && after[k.segment].bytes == before[k.segment].bytes && k !in kv.resident
  {
    hide ContentOf;
  }

  method MakeSaved(m: SessionManager, engine: Engine, id: Bytes, d: DurableSession, k: nat, canSave: bool) returns (ok: bool)
    requires m.Inv() && id in m.sessions && d == m.sessions[id] && d.session.planReady && k < |d.session.segments|
    modifies m.kv, m.kv.table, m.kv.resident, m.disk`files, d.session`metadata, d.session`segments
    ensures m.Inv() && SameRuns(old(d.session.segments), d.session.segments)
    ensures OnlyEntry(old(d.session.metadata), d.session.metadata, k) && SameFilesBut(old(m.disk.files), m.disk.files, Key(id, k))
    ensures Described(old(d.session.segments), old(d.session.metadata)) ==> Described(d.session.segments, d.session.metadata)
    ensures forall j | j in m.kv.State().resident && j != Key(id, k) :: j in old(m.kv.State()).resident
    ensures !WritesFile(old(m.kv.State()), old(d.session.metadata), old(m.disk.files), Key(id, k)) ==> m.disk.files == old(m.disk.files)
    ensures if HasDisk(old(d.session.metadata), old(m.disk.files), Key(id, k))
            then ok && d.session.segments == old(d.session.segments) && m.disk.files == old(m.disk.files)
                 && d.session.metadata == old(d.session.metadata)
            else TokensMayChange(old(d.session.segments), d.session.segments, d.session.metadata, k, ok)
    ensures ok ==>
              && HasDisk(d.session.metadata, m.disk.files, Key(id, k))
              && (FreshFile(m.disk.files, m.want, Key(id, k)) <==>
                    WritesFile(old(m.kv.State()), old(d.session.metadata), old(m.disk.files), Key(id, k))
                    || FreshFile(old(m.disk.files), m.want, Key(id, k)))
    ensures ok ==> TurnCounts(engine, old(m.kv.State()), old(m.disk.files), old(d.session.metadata), m.disk.files, d.session.metadata, m.want, Key(id, k))
    ensures KeepsTokens(old(m.kv.State()), m.kv.State(), Key(id, k))
    ensures StaysRoomy(engine, id, old(m.kv.InMemory()), old(m.disk.files), m.kv.InMemory(), m.disk.files, 1)
    ensures forall limit: nat, n: nat | Works(engine, limit) && Roomy(old(m.kv.InMemory()), old(m.disk.files), id, limit, n) && 1 <= n && canSave :: ok
  {
    hide KeepsTokens, SameTokens, Counted, Measured;
    hide SessionManager.Inv, PrepareMarks, OnlySegmentAwake, IsResident, SameRuns, Described, Works, Roomy, StaysRoomy, KeepsLoadable, Exports;
    WorkingCounts(engine, Content([], []));
    ghost var h0 := m.kv.InMemory();
    NotGrown(engine, id, m.disk.files, h0);
    CostsMore(engine, id, h0, m.disk.files, h0, m.disk.files, 0, 1);
    var key := Key(id, k);
    ghost var kv0, files0, metadata0, segments0 := m.kv.State(), m.disk.files, d.session.metadata, d.session.segments;
    RunsOfItself(segments0);
    SameKeepsTokens(kv0, key);
    ok := true;
    if !IsSaved(d.session.metadata, m.disk.files, key) {
      var h := PrepareSegment(m, engine, id, d, k, true);
      if h == None {
        return false;
      }
      PreparedCountsAsSaved(engine, kv0, files0, d.session.store, segments0, key, metadata0, d.session.metadata);
      RecordExactTokens(m, id, d, k, h.value);
      if !IsSaved(d.session.metadata, m.disk.files, key) {
        ghost var h1, kv1 := m.kv.InMemory(), m.kv.State();
        ok := PersistSnapshot(m, engine, id, d, k, h.value, canSave);
        StaysRoomyTwice(engine, id, h0, files0, h1, files0, m.kv.InMemory(), m.disk.files, 1, 0);
        KeepsTokensAlso(kv0, kv1, m.kv.State(), key);
      }
    }
  }

  lemma SameKeepsTokens(kv: KVState, k: Key)
    ensures KeepsTokens(kv, kv, k)
  {
  }

  /** What a turn makes of the count and size in the entry: those of the file, if it writes it, a count of
      the segment's content otherwise; and what they were, if the segment was saved before. */
  ghost predicate TurnCounts(engine: Engine, kv: KVState, files: map<Key, Snapshot>, metadata: map<int, CacheEntry>,
                             files': map<Key, Snapshot>, metadata': map<int, CacheEntry>, want: map<Key, Content>, k: Key) {
    && k.segment in metadata'
    && (HasDisk(metadata, files, k) ==> metadata' == metadata && files' == files)
    && (WritesFile(kv, metadata, files, k) ==> Measured(metadata', files', k))
    && (!HasDisk(metadata, files, k) && !WritesFile(kv, metadata, files, k) ==>
          k.segment in metadata && metadata'[k.segment].bytes == metadata[k.segment].bytes)
    && (!HasDisk(metadata, files, k) && k in want ==> Counted(engine, kv, files, k, want[k], metadata'[k.segment].tokenCount))
  }

  /** One turn: the segment is saved, and the manifest so far is extended by its record and written. */
  method PersistSegment(m: SessionManager, engine: Engine, id: Bytes, d: DurableSession, k: nat, manifest: Manifest, faults: IndexFaults)
    returns (ok: bool, grown: Manifest)
    requires m.Inv() && id in m.sessions && d == m.sessions[id] && d.session.planReady && k < |d.session.segments|
    requires DescribesFirst(d.session.store, d.session.segments, manifest, m.model, k) && RecordsFirst(manifest, d.session.metadata, k)
    modifies m.kv, m.kv.table, m.kv.resident, m.disk, d.session`metadata, d.session`segments
    ensures m.Inv() && SameRuns(old(d.session.segments), d.session.segments)
    ensures OnlyEntry(old(d.session.metadata), d.session.metadata, k) && SameFilesBut(old(m.disk.files), m.disk.files, Key(id, k))
    ensures Described(old(d.session.segments), old(d.session.metadata)) ==> Described(d.session.segments, d.session.metadata)
    ensures forall j | j in m.kv.State().resident && j != Key(id, k) :: j in old(m.kv.State()).resident
    ensures !WritesFile(old(m.kv.State()), old(d.session.metadata), old(m.disk.files), Key(id, k)) ==> m.disk.files == old(m.disk.files)
    ensures if HasDisk(old(d.session.metadata), old(m.disk.files), Key(id, k))
            then HasDisk(d.session.metadata, m.disk.files, Key(id, k)) && m.disk.files == old(m.disk.files)
                 && d.session.segments == old(d.session.segments)
            else TokensMayChange(old(d.session.segments), d.session.segments, d.session.metadata, k, ok)
    ensures ok ==>
              && HasDisk(d.session.metadata, m.disk.files, Key(id, k))
              && DescribesFirst(d.session.store, d.session.segments, grown, m.model, k + 1)
              && RecordsFirst(grown, d.session.metadata, k + 1)
              && TurnCounts(engine, old(m.kv.State()), old(m.disk.files), old(d.session.metadata), m.disk.files, d.session.metadata, m.want, Key(id, k))
              && id in m.disk.manifests && m.disk.manifests[id] == grown
              && (FreshFile(m.disk.files, m.want, Key(id, k)) <==>
                    WritesFile(old(m.kv.State()), old(d.session.metadata), old(m.disk.files), Key(id, k))
                    || FreshFile(old(m.disk.files), m.want, Key(id, k)))
    ensures KeepsTokens(old(m.kv.State()), m.kv.State(), Key(id, k))
    ensures StaysRoomy(engine, id, old(m.kv.InMemory()), old(m.disk.files), m.kv.InMemory(), m.disk.files, 1)
    ensures forall limit: nat, n: nat | Works(engine, limit) && Roomy(old(m.kv.InMemory()), old(m.disk.files), id, limit, n) && 1 <= n
              && faults.kvFile(k) && faults.manifest(k) :: ok
  {
    hide SessionManager.Inv, DescribesFirst, SameRuns, Described, HashesOk, PlanOk, ValidStore, Works, Roomy, StaysRoomy, FreshFile, WritesFile;
    hide OnlyEntry, SameFilesBut, TokensMayChange, RecordsFirst, TurnCounts, KeepsTokens;
    grown := manifest;
    var key := Key(id, k);
    ok := MakeSaved(m, engine, id, d, k, faults.kvFile(k));
    if !ok {
      return;
    }
    DescribedUpToTokens(d.session.store, old(d.session.segments), d.session.segments, manifest, m.model, k);
    SessionPlan(m, id, d);
    SameLength(old(d.session.segments), d.session.segments);
    OneMoreDescribed(d.session.store, d.session.segments, d.session.metadata, manifest, m.model, k);
    OneMoreRecorded(manifest, old(d.session.metadata), d.session.metadata, d.session.segments[k], k);
    grown := manifest.(segments := manifest.segments + [ManifestEntry(d.session.segments[k], d.session.metadata[k])]);
    DescribedAreNumbered(d.session.store, d.session.segments, grown, m.model, k + 1);
    SaveProgressManifest(m, id, d, grown, faults.manifest(k));
    ok := faults.manifest(k);
    TokensMayChangeLess(old(d.session.segments), d.session.segments, d.session.metadata, k, ok);
  }

  lemma TokensMayChangeLess(before: seq<Segment>, after: seq<Segment>, metadata: map<int, CacheEntry>, k: nat, done: bool)
    ensures TokensMayChange(before, after, metadata, k, true) ==> TokensMayChange(before, after, metadata, k, done)
  {
  }

  /** status.has_disk_snapshot */
  function IsSaved(metadata: map<int, CacheEntry>, files: map<Key, Snapshot>, k: Key): (saved: bool)
    ensures saved <==> HasDisk(metadata, files, k)
  {
    k.segment in metadata && metadata[k.segment].hasPath &&
    (metadata[k.segment].state == DiskOnly || metadata[k.segment].state == Resident) && k in files
  }

  lemma RunsOfItself(segments: seq<Segment>)
    ensures SameRuns(segments, segments)
  {
  }

  lemma DescribedAreNumbered(store: SessionStore, segments: seq<Segment>, manifest: Manifest, model: ModelKey, n: nat)
    requires DescribesFirst(store, segments, manifest, model, n)
    ensures NumberedRecords(manifest)
  {
  }

  lemma {:induction false} WantedNow(m: SessionManager, id: Bytes)
    requires m.Inv() && id in m.sessions
    ensures WantedOf(m.want, id, m.sessions[id].session.store, m.sessions[id].session.segments)
  {
    hide SessionManager.Inv, SessionOk, WantedOf;
    InvOpened(m);
    SessionOpened(m.sessions[id], id, m.want);
  }

  lemma {:induction false} SessionPlan(m: SessionManager, id: Bytes, d: DurableSession)
    requires m.Inv() && id in m.sessions && d == m.sessions[id]
    ensures PlanOk(d.session.store, d.session.segments) && HashesOk(d.session.store, d.session.segments, d.session.metadata)
    ensures d.session.store.sessionId == id && ValidStore(d.session.store)
  {
    hide SessionManager.Inv, SessionOk, PlanOk, HashesOk, ValidStore;
    InvOpened(m);
    SessionOpened(d, id, m.want);
  }

  // ----- The loop -----

  /** The first `n` segments have the counts of their entries, unless they were saved before. */
  ghost predicate TokensUpTo(id: Bytes, segments0: seq<Segment>, metadata0: map<int, CacheEntry>, files0: map<Key, Snapshot>,
                             segments: seq<Segment>, metadata: map<int, CacheEntry>, n: nat) {
    && n <= |segments0| == |segments|
    && forall k | 0 <= k < n ::
         if HasDisk(metadata0, files0, Key(id, k)) then segments[k] == segments0[k]
         else k in metadata && segments[k] == WithTokens(segments0[k], metadata[k].tokenCount)
  }

  /** Segments from `n` on are as they were. */
  ghost predicate UntouchedFrom(id: Bytes, segments0: seq<Segment>, metadata0: map<int, CacheEntry>, files0: map<Key, Snapshot>,
                                segments: seq<Segment>, metadata: map<int, CacheEntry>, files: map<Key, Snapshot>, n: nat) {
    && |segments0| == |segments|
    && (forall k :: n <= k < |segments| ==> segments[k] == segments0[k])
    && (forall k: int | n <= k :: HasDisk(metadata, files, Key(id, k)) == HasDisk(metadata0, files0, Key(id, k)))
  }

  lemma {:induction false} OneMoreCounted(id: Bytes, k: nat, segments0: seq<Segment>, metadata0: map<int, CacheEntry>, files0: map<Key, Snapshot>,
                                          segments: seq<Segment>, metadata: map<int, CacheEntry>, files: map<Key, Snapshot>,
                                          segments': seq<Segment>, metadata': map<int, CacheEntry>, files': map<Key, Snapshot>)
    requires TokensUpTo(id, segments0, metadata0, files0, segments, metadata, k) && k < |segments|
    requires UntouchedFrom(id, segments0, metadata0, files0, segments, metadata, files, k)
    requires OnlyEntry(metadata, metadata', k) && SameFilesBut(files, files', Key(id, k))
    requires if HasDisk(metadata, files, Key(id, k)) then segments' == segments
             else TokensMayChange(segments, segments', metadata', k, true)
    ensures TokensUpTo(id, segments0, metadata0, files0, segments', metadata', k + 1)
    ensures UntouchedFrom(id, segments0, metadata0, files0, segments', metadata', files', k + 1)
  {
    hide WithTokens;
  }

  ghost predicate SavedUpTo(id: Bytes, metadata: map<int, CacheEntry>, files: map<Key, Snapshot>, n: nat) {
    forall j | 0 <= j < n :: HasDisk(metadata, files, Key(id, j))
  }

  /** No segment of the session that counted as saved stops to, and its file is not touched. */
  ghost predicate KeepsSaved(id: Bytes, metadata: map<int, CacheEntry>, files: map<Key, Snapshot>,
                             metadata': map<int, CacheEntry>, files': map<Key, Snapshot>) {
    forall j: Key | j.session == id && HasDisk(metadata, files, j) :: HasDisk(metadata', files', j) && files'[j] == files[j]
  }

  /** No file from segment `n` on holds anything but its segment's present content. */
  ghost predicate NoStaleFile(id: Bytes, files: map<Key, Snapshot>, want: map<Key, Content>, n: nat) {
    forall j: Key | j.session == id && n <= j.segment && j in files :: FreshFile(files, want, j)
  }

  ghost predicate FreshUpTo(id: Bytes, files: map<Key, Snapshot>, want: map<Key, Content>, n: nat) {
    forall j | 0 <= j < n :: FreshFile(files, want, Key(id, j))
  }

  ghost predicate OtherFilesKept(id: Bytes, before: map<Key, Snapshot>, after: map<Key, Snapshot>) {
    forall j: Key | j.session != id :: (j in before <==> j in after) && (j in before ==> after[j] == before[j])
  }

  /** A file is left as it is when its segment was not in memory but has an entry with a path. */
  ghost predicate LeavesFiles(id: Bytes, n: int, kv: KVState, metadata: map<int, CacheEntry>, files: map<Key, Snapshot>, files': map<Key, Snapshot>) {
    forall k: Key | k.session == id && k.segment < n && k in files && k !in kv.resident && k.segment in metadata && metadata[k.segment].hasPath ::
      k in files' && files'[k] == files[k]
  }

  /** Segments from `n` on are as they were, as far as this matters for their files. */
  ghost predicate NotReached(id: Bytes, n: int, kv: KVState, metadata: map<int, CacheEntry>, files: map<Key, Snapshot>,
                             kv': KVState, metadata': map<int, CacheEntry>, files': map<Key, Snapshot>) {
    forall k: Key | k.session == id && n <= k.segment ::
      && (k in kv'.resident ==> k in kv.resident)
      && (k.segment in metadata <==> k.segment in metadata') && (k.segment in metadata ==> metadata'[k.segment] == metadata[k.segment])
      && (k in files <==> k in files') && (k in files ==> files'[k] == files[k])
  }

  lemma {:induction false} TurnLeavesFiles(id: Bytes, k: nat, kv0: KVState, m0: map<int, CacheEntry>, f0: map<Key, Snapshot>,
                                           kv: KVState, metadata: map<int, CacheEntry>, files: map<Key, Snapshot>,
                                           kv': KVState, metadata': map<int, CacheEntry>, files': map<Key, Snapshot>)
    requires LeavesFiles(id, k, kv0, m0, f0, files) && NotReached(id, k, kv0, m0, f0, kv, metadata, files)
    requires OnlyEntry(metadata, metadata', k) && SameFilesBut(files, files', Key(id, k))
    requires forall j | j in kv'.resident && j != Key(id, k) :: j in kv.resident
    requires !WritesFile(kv, metadata, files, Key(id, k)) ==> files' == files
    ensures LeavesFiles(id, k + 1, kv0, m0, f0, files') && NotReached(id, k + 1, kv0, m0, f0, kv', metadata', files')
  {
  }

  lemma {:induction false} NothingLeft(id: Bytes, n: int, kv: KVState, metadata: map<int, CacheEntry>, files: map<Key, Snapshot>)
    ensures LeavesFiles(id, n, kv, metadata, files, files) && NotReached(id, n, kv, metadata, files, kv, metadata, files)
  {
  }

  lemma {:induction false} RestNotReached(id: Bytes, k: int, n: int, kv0: KVState, m0: map<int, CacheEntry>, f0: map<Key, Snapshot>,
                                          kv: KVState, metadata: map<int, CacheEntry>, files: map<Key, Snapshot>)
    requires LeavesFiles(id, k, kv0, m0, f0, files) && NotReached(id, k, kv0, m0, f0, kv, metadata, files)
    ensures LeavesFiles(id, n, kv0, m0, f0, files)
  {
  }

  /** The first `n` entries have counts of what their segments hold, or what they had if those were saved. */
  ghost predicate CountsUpTo(engine: Engine, id: Bytes, kv0: KVState, files0: map<Key, Snapshot>, metadata0: map<int, CacheEntry>,
                             metadata: map<int, CacheEntry>, want: map<Key, Content>, n: nat) {
    forall k | 0 <= k < n ::
      && k in metadata
      && if HasDisk(metadata0, files0, Key(id, k)) then k in metadata0 && metadata[k] == metadata0[k]
         else Key(id, k) in want ==> Counted(engine, kv0, files0, Key(id, k), want[Key(id, k)], metadata[k].tokenCount)
  }

  /** The counts are those of the segments' contents, and where all entries had the counts and sizes of
      their files, they all have. */
  ghost predicate Accounts(engine: Engine, id: Bytes, kv0: KVState, files0: map<Key, Snapshot>, metadata0: map<int, CacheEntry>,
                           files: map<Key, Snapshot>, metadata: map<int, CacheEntry>, want: map<Key, Content>, n: nat) {
    && CountsUpTo(engine, id, kv0, files0, metadata0, metadata, want, n)
    && (FilesMeasured(id, metadata0, files0, 0) ==> MeasuredUpTo(id, metadata, files, n))
  }

  lemma {:induction false} AccountsBefore(engine: Engine, id: Bytes, kv0: KVState, kv: KVState, files0: map<Key, Snapshot>, metadata0: map<int, CacheEntry>,
                                          files: map<Key, Snapshot>, metadata: map<int, CacheEntry>, want: map<Key, Content>, n: nat)
    requires SameTokens(kv0, kv)
    ensures Accounts(engine, id, kv, files0, metadata0, files, metadata, want, n) ==> Accounts(engine, id, kv0, files0, metadata0, files, metadata, want, n)
  {
    hide Counted, Measured, HasDisk;
    forall k: Key, content, tokens | Counted(engine, kv, files0, k, content, tokens) ensures Counted(engine, kv0, files0, k, content, tokens) {
      CountedBefore(engine, kv0, files0, kv, files0, k);
    }
  }

  /** No count that there is, or that the engine gives, is above the limit. */
  ghost predicate CountsWithin(engine: Engine, kv: KVState, files: map<Key, Snapshot>, metadata: map<int, CacheEntry>, id: Bytes, n: nat, limit: int) {
    && (forall c: Content :: engine.build(c).Some? ==> engine.build(c).value.0 <= limit)
    && (forall context: ActiveKV, texts: seq<Bytes> :: engine.extend(context, texts).Some? ==> engine.extend(context, texts).value <= limit)
    && (forall k: Key | k in kv.resident && k.session == id :: TokensIn(kv, k) <= limit)
    && (forall k: Key | k in files && k.session == id :: files[k].metadata.baseTokens <= limit)
    && (forall k: int | 0 <= k < n && HasDisk(metadata, files, Key(id, k)) :: metadata[k].tokenCount <= limit)
  }

  /** Then none that is recorded is. */
  lemma {:induction false} CountsFit(engine: Engine, id: Bytes, kv0: KVState, files0: map<Key, Snapshot>, metadata0: map<int, CacheEntry>,
                                     metadata: map<int, CacheEntry>, want: map<Key, Content>, n: nat, limit: int)
    requires CountsUpTo(engine, id, kv0, files0, metadata0, metadata, want, n) && CountsWithin(engine, kv0, files0, metadata0, id, n, limit)
    requires forall k | 0 <= k < n :: Key(id, k) in want
    ensures forall k | 0 <= k < n :: k in metadata && metadata[k].tokenCount <= limit
  {
    hide HasDisk;
    forall k | 0 <= k < n ensures k in metadata && metadata[k].tokenCount <= limit {
      if !HasDisk(metadata0, files0, Key(id, k)) {
        assert Counted(engine, kv0, files0, Key(id, k), want[Key(id, k)], metadata[k].tokenCount);
      }
    }
  }

  /** Every file from segment `n` on counts, with an entry that has its count and size. */
  ghost predicate FilesMeasured(id: Bytes, metadata: map<int, CacheEntry>, files: map<Key, Snapshot>, n: nat) {
    forall j: Key | j.session == id && n <= j.segment && j in files :: HasDisk(metadata, files, j) && Measured(metadata, files, j)
  }

  ghost predicate MeasuredUpTo(id: Bytes, metadata: map<int, CacheEntry>, files: map<Key, Snapshot>, n: nat) {
    forall k | 0 <= k < n :: Measured(metadata, files, Key(id, k))
  }

  /** What turns have done so far to counts and sizes; segments from `n` on are of the tokens they were. */
  ghost predicate CountsKept(engine: Engine, id: Bytes, kv0: KVState, files0: map<Key, Snapshot>, metadata0: map<int, CacheEntry>,
                             kv: KVState, files: map<Key, Snapshot>, metadata: map<int, CacheEntry>, want: map<Key, Content>, n: nat) {
    && CountsUpTo(engine, id, kv0, files0, metadata0, metadata, want, n)
    && (forall j: Key | j.session == id && n <= j.segment && j in kv.resident :: j in kv0.resident && TokensIn(kv, j) == TokensIn(kv0, j))
    && (FilesMeasured(id, metadata0, files0, 0) ==> FilesMeasured(id, metadata, files, n) && MeasuredUpTo(id, metadata, files, n))
  }

  lemma NothingKept(engine: Engine, id: Bytes, kv: KVState, files: map<Key, Snapshot>, metadata: map<int, CacheEntry>, want: map<Key, Content>)
    ensures CountsKept(engine, id, kv, files, metadata, kv, files, metadata, want, 0)
  {
  }

  lemma {:induction false} OneMoreTurn(engine: Engine, id: Bytes, kv0: KVState, files0: map<Key, Snapshot>, metadata0: map<int, CacheEntry>,
                                       kv: KVState, files: map<Key, Snapshot>, metadata: map<int, CacheEntry>,
                                       kv': KVState, files': map<Key, Snapshot>, metadata': map<int, CacheEntry>, want: map<Key, Content>, k: nat)
    requires CountsKept(engine, id, kv0, files0, metadata0, kv, files, metadata, want, k)
    requires NotReached(id, k, kv0, metadata0, files0, kv, metadata, files)
    requires OnlyEntry(metadata, metadata', k) && SameFilesBut(files, files', Key(id, k)) && KeepsTokens(kv, kv', Key(id, k))
    requires TurnCounts(engine, kv, files, metadata, files', metadata', want, Key(id, k))
    ensures CountsKept(engine, id, kv0, files0, metadata0, kv', files', metadata', want, k + 1)
  {
    hide Counted, AppendedCount;
    CountedBefore(engine, kv0, files0, kv, files, Key(id, k));
    assert HasDisk(metadata0, files0, Key(id, k)) == HasDisk(metadata, files, Key(id, k));
    if FilesMeasured(id, metadata0, files0, 0) {
      TurnMeasures(engine, id, kv, files, metadata, kv', files', metadata', want, k);
    }
  }

  lemma {:induction false} CountedBefore(engine: Engine, kv0: KVState, files0: map<Key, Snapshot>, kv: KVState, files: map<Key, Snapshot>, k: Key)
    requires k in kv.resident ==> k in kv0.resident && TokensIn(kv, k) == TokensIn(kv0, k)
    requires k in files ==> k in files0 && files[k] == files0[k]
    ensures forall content, tokens :: Counted(engine, kv, files, k, content, tokens) ==> Counted(engine, kv0, files0, k, content, tokens)
  {
    hide AppendedCount;
  }

  lemma {:induction false} TurnMeasures(engine: Engine, id: Bytes, kv: KVState, files: map<Key, Snapshot>, metadata: map<int, CacheEntry>,
                                        kv': KVState, files': map<Key, Snapshot>, metadata': map<int, CacheEntry>, want: map<Key, Content>, k: nat)
    requires FilesMeasured(id, metadata, files, k) && MeasuredUpTo(id, metadata, files, k)
    requires OnlyEntry(metadata, metadata', k) && SameFilesBut(files, files', Key(id, k))
    requires TurnCounts(engine, kv, files, metadata, files', metadata', want, Key(id, k))
    ensures FilesMeasured(id, metadata', files', k + 1) && MeasuredUpTo(id, metadata', files', k + 1)
  {
    hide Counted;
    assert Key(id, k) in files ==> HasDisk(metadata, files, Key(id, k)) && Measured(metadata, files, Key(id, k));
    assert Measured(metadata', files', Key(id, k));
    forall j | 0 <= j < k ensures Measured(metadata', files', Key(id, j)) {
      assert Measured(metadata, files, Key(id, j));
    }
  }

  /** What one turn changes leaves the other segments as they are. */
  lemma {:induction false} TurnDone(id: Bytes, k: nat, want: map<Key, Content>,
                                    metadata: map<int, CacheEntry>, files: map<Key, Snapshot>,
                                    metadata': map<int, CacheEntry>, files': map<Key, Snapshot>)
    requires OnlyEntry(metadata, metadata', k) && SameFilesBut(files, files', Key(id, k))
    requires HasDisk(metadata, files, Key(id, k)) ==> HasDisk(metadata', files', Key(id, k)) && files' == files
    ensures KeepsSaved(id, metadata, files, metadata', files') && OtherFilesKept(id, files, files')
    ensures SavedUpTo(id, metadata, files, k) && HasDisk(metadata', files', Key(id, k)) ==> SavedUpTo(id, metadata', files', k + 1)
    ensures NoStaleFile(id, files, want, k) ==> NoStaleFile(id, files', want, k + 1)
    ensures FreshUpTo(id, files, want, k) && FreshFile(files', want, Key(id, k)) ==> FreshUpTo(id, files', want, k + 1)
  {
  }

  /** Before a turn nothing is stale: the file is fresh already, or the turn writes it. */
  lemma {:induction false} FreshOrWritten(id: Bytes, kv: KVState, metadata: map<int, CacheEntry>, files: map<Key, Snapshot>,
                                          want: map<Key, Content>, k: nat)
    requires NoStaleFile(id, files, want, k)
    ensures WritesFile(kv, metadata, files, Key(id, k)) || FreshFile(files, want, Key(id, k))
  {
  }

  lemma {:induction false} KeepsSavedChain(id: Bytes, m0: map<int, CacheEntry>, f0: map<Key, Snapshot>, m1: map<int, CacheEntry>, f1: map<Key, Snapshot>,
                                           m2: map<int, CacheEntry>, f2: map<Key, Snapshot>)
    requires KeepsSaved(id, m0, f0, m1, f1) && KeepsSaved(id, m1, f1, m2, f2)
    ensures KeepsSaved(id, m0, f0, m2, f2)
  {
    hide HasDisk;
  }

  lemma {:induction false} OtherFilesChain(id: Bytes, a: map<Key, Snapshot>, b: map<Key, Snapshot>, c: map<Key, Snapshot>)
    requires OtherFilesKept(id, a, b) && OtherFilesKept(id, b, c)
    ensures OtherFilesKept(id, a, c)
  {
  }

  lemma {:induction false} NothingTurned(id: Bytes, metadata: map<int, CacheEntry>, files: map<Key, Snapshot>, want: map<Key, Content>)
    ensures KeepsSaved(id, metadata, files, metadata, files) && OtherFilesKept(id, files, files)
    ensures SavedUpTo(id, metadata, files, 0) && FreshUpTo(id, files, want, 0)
  {
  }

  /** persist_session_segments_to_disk: afterwards every segment is saved and the manifest describes
      the whole plan. Every file then holds its segment's present content, if none was stale before. */
  method PersistSegments(m: SessionManager, engine: Engine, id: Bytes, d: DurableSession, faults: IndexFaults) returns (ok: bool)
    requires m.Inv() && id in m.sessions && d == m.sessions[id] && d.session.planReady
    modifies m.kv, m.kv.table, m.kv.resident, m.disk, d.session`metadata, d.session`segments
    ensures m.Inv() && SameRuns(old(d.session.segments), d.session.segments)
    ensures KeepsSaved(id, old(d.session.metadata), old(m.disk.files), d.session.metadata, m.disk.files)
    ensures OtherFilesKept(id, old(m.disk.files), m.disk.files)
    ensures LeavesFiles(id, |d.session.segments|, old(m.kv.State()), old(d.session.metadata), old(m.disk.files), m.disk.files)
    ensures Described(old(d.session.segments), old(d.session.metadata)) ==> Described(d.session.segments, d.session.metadata)
    ensures ok ==>
              && SavedUpTo(id, d.session.metadata, m.disk.files, |d.session.segments|)
              && (d.session.segments != [] ==>
                    && id in m.disk.manifests
                    && DescribesFirst(d.session.store, d.session.segments, m.disk.manifests[id], m.model, |d.session.segments|))
              && (NoStaleFile(id, old(m.disk.files), m.want, 0) ==> FreshUpTo(id, m.disk.files, m.want, |d.session.segments|))
              && TokensUpTo(id, old(d.session.segments), old(d.session.metadata), old(m.disk.files),
                            d.session.segments, d.session.metadata, |d.session.segments|)
              && (d.session.segments != [] ==> RecordsFirst(m.disk.manifests[id], d.session.metadata, |d.session.segments|))
              && Accounts(engine, id, old(m.kv.State()), old(m.disk.files), old(d.session.metadata), m.disk.files, d.session.metadata, m.want,
                          |d.session.segments|)
    ensures StaysRoomy(engine, id, old(m.kv.InMemory()), old(m.disk.files), m.kv.InMemory(), m.disk.files, |d.session.segments|)
    ensures forall limit: nat | Works(engine, limit) && Roomy(old(m.kv.InMemory()), old(m.disk.files), id, limit, |d.session.segments|)
              && faults.None(|d.session.segments|) :: ok
  {
    hide Works, Roomy, StaysRoomy, TokensUpTo, UntouchedFrom, TokensMayChange;
    hide SessionManager.Inv, DescribesFirst, SameRuns, Described, HasDisk, FreshFile, WritesFile, OnlyEntry, SameFilesBut;
    hide KeepsSaved, OtherFilesKept, SavedUpTo, NoStaleFile, FreshUpTo, NumberedRecords, LeavesFiles, NotReached;
    hide RecordsFirst, CountsKept, Accounts, TurnCounts, KeepsTokens;
    ghost var files0, metadata0, segments0, kv0 := m.disk.files, d.session.metadata, d.session.segments, m.kv.State();
    ghost var h0 := m.kv.InMemory();
    NotGrown(engine, id, files0, h0);
    CostsMore(engine, id, h0, files0, h0, files0, 0, |segments0|);
    NothingLeft(id, 0, kv0, metadata0, files0);
    NothingLeft(id, |segments0|, kv0, metadata0, files0);
    RunsOfItself(segments0);
    NothingTurned(id, metadata0, files0, m.want);
    NothingCounted(id, segments0, metadata0, files0);
    if !faults.directory {
      return false;
    }
    SessionPlan(m, id, d);
    var manifest := Manifest(1, m.model, id, []);
    NothingDescribed(d.session.store, d.session.segments, manifest, m.model);
    NothingRecorded(manifest, metadata0);
    NothingKept(engine, id, kv0, files0, metadata0, m.want);
    var n, k := |d.session.segments|, 0;
    while k < n
      invariant k <= n == |d.session.segments| && d.session.planReady && m.Inv()
      invariant SameRuns(segments0, d.session.segments)
      invariant KeepsSaved(id, metadata0, files0, d.session.metadata, m.disk.files) && OtherFilesKept(id, files0, m.disk.files)
      invariant Described(segments0, metadata0) ==> Described(d.session.segments, d.session.metadata)
      invariant SavedUpTo(id, d.session.metadata, m.disk.files, k)
      invariant DescribesFirst(d.session.store, d.session.segments, manifest, m.model, k)
      invariant RecordsFirst(manifest, d.session.metadata, k)
      invariant k > 0 ==> id in m.disk.manifests && m.disk.manifests[id] == manifest
      invariant CountsKept(engine, id, kv0, files0, metadata0, m.kv.State(), m.disk.files, d.session.metadata, m.want, k)
      invariant TokensUpTo(id, segments0, metadata0, files0, d.session.segments, d.session.metadata, k)
      invariant UntouchedFrom(id, segments0, metadata0, files0, d.session.segments, d.session.metadata, m.disk.files, k)
      invariant StaysRoomy(engine, id, h0, files0, m.kv.InMemory(), m.disk.files, k)
      invariant LeavesFiles(id, k, kv0, metadata0, files0, m.disk.files)
      invariant NotReached(id, k, kv0, metadata0, files0, m.kv.State(), d.session.metadata, m.disk.files)
      invariant NoStaleFile(id, files0, m.want, 0) ==>
                  NoStaleFile(id, m.disk.files, m.want, k) && FreshUpTo(id, m.disk.files, m.want, k)
    {
      ghost var files, metadata, segments, kv := m.disk.files, d.session.metadata, d.session.segments, m.kv.State();
      if NoStaleFile(id, files0, m.want, 0) {
        FreshOrWritten(id, m.kv.State(), metadata, files, m.want, k);
      }
      ghost var h := m.kv.InMemory();
      ok, manifest := PersistSegment(m, engine, id, d, k, manifest, faults);
      StaysRoomyTwice(engine, id, h0, files0, h, files, m.kv.InMemory(), m.disk.files, k, 1);
      CostsMore(engine, id, h0, files0, m.kv.InMemory(), m.disk.files, k + 1, n);
      StillRoom(engine, id, h0, files0, h, files, k, n);
      TurnDone(id, k, m.want, metadata, files, d.session.metadata, m.disk.files);
      KeepsSavedChain(id, metadata0, files0, metadata, files, d.session.metadata, m.disk.files);
      OtherFilesChain(id, files0, files, m.disk.files);
      SameRunsChain(segments0, segments, d.session.segments);
      SameLength(segments, d.session.segments);
      TurnLeavesFiles(id, k, kv0, metadata0, files0, kv, metadata, files, m.kv.State(), d.session.metadata, m.disk.files);
      RestNotReached(id, k + 1, n, kv0, metadata0, files0, m.kv.State(), d.session.metadata, m.disk.files);
      if !ok {
        return;
      }
      OneMoreCounted(id, k, segments0, metadata0, files0, segments, metadata, files, d.session.segments, d.session.metadata, m.disk.files);
      OneMoreTurn(engine, id, kv0, files0, metadata0, kv, files, metadata, m.kv.State(), m.disk.files, d.session.metadata, m.want, k);
      k := k + 1;
    }
    AllCounted(engine, id, kv0, files0, metadata0, m.kv.State(), m.disk.files, d.session.metadata, m.want, n);
    ok := true;
  }

  lemma AllCounted(engine: Engine, id: Bytes, kv0: KVState, files0: map<Key, Snapshot>, metadata0: map<int, CacheEntry>,
                   kv: KVState, files: map<Key, Snapshot>, metadata: map<int, CacheEntry>, want: map<Key, Content>, n: nat)
    requires CountsKept(engine, id, kv0, files0, metadata0, kv, files, metadata, want, n)
    ensures Accounts(engine, id, kv0, files0, metadata0, files, metadata, want, n)
  {
  }

  /** After `k` of `n` segments there is room for another. */
  lemma {:induction false} StillRoom(engine: Engine, id: Bytes, a: Held, f: map<Key, Snapshot>, b: Held, f': map<Key, Snapshot>, k: nat, n: nat)
    requires StaysRoomy(engine, id, a, f, b, f', k) && k < n
    ensures forall limit: nat | Works(engine, limit) && Roomy(a, f, id, limit, n) :: Roomy(b, f', id, limit, n - k)
  {
    hide Works, Roomy;
  }

  lemma NothingCounted(id: Bytes, segments: seq<Segment>, metadata: map<int, CacheEntry>, files: map<Key, Snapshot>)
    ensures TokensUpTo(id, segments, metadata, files, segments, metadata, 0)
    ensures UntouchedFrom(id, segments, metadata, files, segments, metadata, files, 0)
  {
  }

  lemma SameLength(a: seq<Segment>, b: seq<Segment>)
    requires SameRuns(a, b)
    ensures |a| == |b|
  {
  }

  lemma NothingDescribed(store: SessionStore, segments: seq<Segment>, manifest: Manifest, model: ModelKey)
    requires manifest.schemaVersion == 1 && manifest.model == model && manifest.session == store.sessionId && manifest.segments == []
    ensures DescribesFirst(store, segments, manifest, model, 0)
  {
  }

  // ----- The commands -----

  method PersistIfDirty(m: SessionManager, id: Bytes, d: DurableSession, faults: SaveFaults) returns (ok: bool)
    requires m.Inv() && id in m.sessions && d == m.sessions[id]
    modifies d`saved, d.session`factsDirty, d.dir
    ensures m.Inv() && (ok ==> !d.session.factsDirty)
    ensures !old(d.session.factsDirty) ==> ok && d.dir.files == old(d.dir.files)
    ensures faults == NO_FAULTS ==> ok && (old(d.saved) ==> d.saved)
  {
    hide *;
    InvOpened(m);
    SessionsApart(m, id);
    SessionOpened(d, id, m.want);
    ok := d.PersistIfDirty(faults);
    SessionClosed(d, id, m.want);
    InvClosed(m);
  }

  method EvictActive(m: SessionManager, id: Bytes)
    requires m.Inv()
    modifies m.kv, m.kv.table
    ensures m.Inv() && m.kv.State() == Deactivated(old(m.kv.State()), id) && SameTokens(old(m.kv.State()), m.kv.State())
  {
    hide *;
    InvOpened(m);
    ghost var s0 := m.kv.State();
    m.kv.EvictSession(id);
    DeactivatedShrinks(s0, id);
    ShrinkingKeepsCoherence(s0, m.kv.State(), m.want);
    ShrinkingKeepsTokens(s0, m.kv.State(), m.want);
    InvClosed(m);
  }

  ghost predicate ResidentUpTo(kv: KVState, id: Bytes, n: nat) {
    forall k | 0 <= k < n :: Key(id, k) in kv.resident
  }

  lemma {:induction false} KeepsLoadableChain(id: Bytes, engine: Engine, want: map<Key, Content>, files: map<Key, Snapshot>,
                                              m0: map<int, CacheEntry>, m1: map<int, CacheEntry>, m2: map<int, CacheEntry>)
    requires KeepsLoadable(id, engine, want, files, m0, files, m1) && KeepsLoadable(id, engine, want, files, m1, files, m2)
    ensures KeepsLoadable(id, engine, want, files, m0, files, m2)
  {
    hide HasDisk, Loads;
  }

  lemma {:induction false} SavedIsLoadable(id: Bytes, engine: Engine, want: map<Key, Content>, files: map<Key, Snapshot>,
                                           m0: map<int, CacheEntry>, files': map<Key, Snapshot>, m1: map<int, CacheEntry>)
    requires KeepsSaved(id, m0, files, m1, files')
    ensures KeepsLoadable(id, engine, want, files, m0, files', m1)
  {
    hide HasDisk, Loads;
  }

  /** The first `n` segments that were not resident have the exact counts of their entries. */
  ghost predicate CountedUpTo(kv0: KVState, id: Bytes, segments0: seq<Segment>, segments: seq<Segment>, metadata: map<int, CacheEntry>, n: nat) {
    && n <= |segments0| == |segments|
    && forall k | 0 <= k < n && Key(id, k) !in kv0.resident ::
         k in metadata && segments[k] == WithTokens(segments0[k], metadata[k].tokenCount)
  }

  lemma {:induction false} CountedOneMore(kv0: KVState, id: Bytes, segments0: seq<Segment>, segments: seq<Segment>, metadata: map<int, CacheEntry>,
                                          segments': seq<Segment>, metadata': map<int, CacheEntry>, k: nat)
    requires CountedUpTo(kv0, id, segments0, segments, metadata, k) && k < |segments| && segments[k] == segments0[k]
    requires OnlyEntry(metadata, metadata', k) && k in metadata'
    requires segments' == segments[k := WithTokens(segments[k], metadata'[k].tokenCount)]
    ensures CountedUpTo(kv0, id, segments0, segments', metadata', k + 1)
  {
    hide WithTokens;
  }

  /** The first `k` of `n` segments are in memory, where the budget has room for all. */
  ghost predicate FirstStay(engine: Engine, files: map<Key, Snapshot>, id: Bytes, budget: nat, a: Held, n: nat, k: nat, now: set<Key>) {
    && now <= a.entries.Keys + SegmentKeys(id, n)
    && forall limit: nat | Works(engine, limit) && Roomy(a, files, id, limit, n) && Ample(budget, a.entries.Keys + SegmentKeys(id, n), limit) ::
         SegmentKeys(id, k) <= now
  }

  lemma NoneYet(engine: Engine, files: map<Key, Snapshot>, id: Bytes, budget: nat, a: Held, n: nat)
    ensures FirstStay(engine, files, id, budget, a, n, 0, a.entries.Keys)
  {
    hide Works, Roomy, Ample;
  }

  lemma IsThere(m: SegmentKVManager, k: Key, h: Handle)
    requires IsResident(m.State(), k, h)
    ensures k in m.resident.entries
  {
  }

  lemma WasThere(engine: Engine, files: map<Key, Snapshot>, id: Bytes, budget: nat, a: Held, n: nat, k: nat, now: set<Key>)
    requires FirstStay(engine, files, id, budget, a, n, k, now) && Key(id, k) in now
    ensures FirstStay(engine, files, id, budget, a, n, k + 1, now)
  {
    hide Works, Roomy, Ample;
  }

  lemma {:induction false} OneMoreThere(engine: Engine, files: map<Key, Snapshot>, id: Bytes, budget: nat, a: Held, b: Held, n: nat, k: nat, now: set<Key>)
    requires FirstStay(engine, files, id, budget, a, n, k, b.entries.Keys) && k < n && Key(id, k) in now
    requires NoneEvicted(engine, FileOf(files, Key(id, k)), {Key(id, k)}, budget, b, now)
    requires StaysRoomy(engine, id, a, files, b, files, k)
    ensures FirstStay(engine, files, id, budget, a, n, k + 1, now)
  {
    hide Works, Sized, SizeFits, Ample;
    var all := a.entries.Keys + SegmentKeys(id, n);
    assert Key(id, k) in SegmentKeys(id, n);
    forall limit: nat | Works(engine, limit) && Roomy(a, files, id, limit, n) && Ample(budget, all, limit) ensures SegmentKeys(id, k + 1) <= now {
      assert Roomy(b, files, id, limit, n - k);
      FewerAmple(budget, b.entries.Keys + {Key(id, k)}, all, limit);
      assert SegmentKeys(id, k) <= now;
    }
  }

  lemma AllThere(engine: Engine, files: map<Key, Snapshot>, id: Bytes, budget: nat, a: Held, n: nat, now: set<Key>)
    requires FirstStay(engine, files, id, budget, a, n, n, now)
    ensures forall limit: nat | Works(engine, limit) && Roomy(a, files, id, limit, n) && Ample(budget, a.entries.Keys + SegmentKeys(id, n), limit) ::
              forall k: int | 0 <= k < n :: Key(id, k) in now
  {
    hide Works, Roomy, Ample;
    forall k: int | 0 <= k < n ensures Key(id, k) in SegmentKeys(id, n) {
    }
  }

  /** Index without kv_persist: every segment is brought into memory; the budget may have evicted one
      again before the last is in. */
  method IndexInMemory(m: SessionManager, engine: Engine, id: Bytes, d: DurableSession) returns (error: Option<ErrorCode>)
    requires m.Inv() && id in m.sessions && d == m.sessions[id] && d.session.planReady
    modifies m.kv, m.kv.table, m.kv.resident, d.session`metadata, d.session`segments
    ensures m.Inv() && SameRuns(old(d.session.segments), d.session.segments)
    ensures KeepsLoadable(id, engine, m.want, m.disk.files, old(d.session.metadata), m.disk.files, d.session.metadata)
    ensures Described(old(d.session.segments), old(d.session.metadata)) ==> Described(d.session.segments, d.session.metadata)
    ensures StaysRoomy(engine, id, old(m.kv.InMemory()), m.disk.files, m.kv.InMemory(), m.disk.files, |d.session.segments|)
    ensures error == None ==> ResidentUpTo(m.kv.State(), id, |d.session.segments|)
    ensures error == None ==> CountedUpTo(old(m.kv.State()), id, old(d.session.segments), d.session.segments, d.session.metadata, |d.session.segments|)
    ensures m.kv.resident.budget == old(m.kv.resident.budget)
    ensures forall limit: nat | Works(engine, limit) && Roomy(old(m.kv.InMemory()), m.disk.files, id, limit, |d.session.segments|)
              && Ample(m.kv.resident.budget, old(m.kv.resident.entries).Keys + SegmentKeys(id, |d.session.segments|), limit)
              :: error == None
  {
    hide SessionManager.Inv, SameRuns, Described, HasDisk, OnlyEntry, KeepsLoadable, PrepareMarks, OnlySegmentAwake, IsResident;
    hide StaysRoomy, NoneEvicted, FirstStay, Works, Roomy, Ample;
    ghost var h0 := m.kv.InMemory();
    NotGrown(engine, id, m.disk.files, h0);
    CostsMore(engine, id, h0, m.disk.files, h0, m.disk.files, 0, |d.session.segments|);
    ghost var files, metadata0, segments0 := m.disk.files, d.session.metadata, d.session.segments;
    RunsOfItself(segments0);
    NothingLost(id, engine, m.want, files, metadata0);
    ghost var kv0 := m.kv.State();
    var n, k := |d.session.segments|, 0;
    NoneYet(engine, files, id, m.kv.resident.budget, h0, n);
    while k < n
      invariant k <= n == |d.session.segments| && d.session.planReady && m.Inv() && SameRuns(segments0, d.session.segments)
      invariant m.kv.resident.budget == old(m.kv.resident.budget)
      invariant FirstStay(engine, files, id, m.kv.resident.budget, h0, n, k, m.kv.resident.entries.Keys)
      invariant KeepsLoadable(id, engine, m.want, files, metadata0, files, d.session.metadata)
      invariant Described(segments0, metadata0) ==> Described(d.session.segments, d.session.metadata)
      invariant forall j | j in m.kv.State().resident && j.session == id && k <= j.segment :: j in kv0.resident
      invariant StaysRoomy(engine, id, h0, files, m.kv.InMemory(), files, k)
      invariant CountedUpTo(kv0, id, segments0, d.session.segments, d.session.metadata, k)
      invariant forall j :: k <= j < n ==> d.session.segments[j] == segments0[j]
    {
      if Key(id, k) !in m.kv.resident.entries {
        ghost var metadata, segments, held := d.session.metadata, d.session.segments, m.kv.InMemory();
        StillRoom(engine, id, h0, files, held, files, k, n);
        var h := PrepareSegment(m, engine, id, d, k, true);
        StaysRoomyTwice(engine, id, h0, files, held, files, m.kv.InMemory(), files, k, 1);
        CostsMore(engine, id, h0, files, m.kv.InMemory(), files, k + 1, n);
        KeepsLoadableChain(id, engine, m.want, files, metadata0, metadata, d.session.metadata);
        if h == None {
          return Some(InternalError);
        }
        IsThere(m.kv, Key(id, k), h.value);
        OneMoreThere(engine, files, id, m.kv.resident.budget, h0, held, n, k, m.kv.resident.entries.Keys);
        RecordExactTokens(m, id, d, k, h.value);
        SameRunsChain(segments0, segments, d.session.segments);
        SameLength(segments, d.session.segments);
        CountedOneMore(kv0, id, segments0, segments, metadata, d.session.segments, d.session.metadata, k);
      } else {
        CostsMore(engine, id, h0, files, m.kv.InMemory(), files, k, k + 1);
        WasThere(engine, files, id, m.kv.resident.budget, h0, n, k, m.kv.resident.entries.Keys);
      }
      k := k + 1;
    }
    AllThere(engine, files, id, m.kv.resident.budget, h0, n, m.kv.resident.entries.Keys);
    for k := 0 to n
      invariant ResidentUpTo(m.kv.State(), id, k)
    {
      if Key(id, k) !in m.kv.resident.entries {
        return Some(InvalidRequest);
      }
    }
    error := None;
  }

  lemma NothingLost(id: Bytes, engine: Engine, want: map<Key, Content>, files: map<Key, Snapshot>, metadata: map<int, CacheEntry>)
    ensures KeepsLoadable(id, engine, want, files, metadata, files, metadata)
  {
  }

  lemma ShrunkKeys(before: KVState, after: KVState)
    requires Shrinks(before, after)
    ensures forall k | k in after.resident :: k in before.resident
  {
  }

  /** Entering a command leaves the room there was. */
  method EnterWithRoom(m: SessionManager, engine: Engine, id: Bytes) returns (error: Option<ErrorCode>)
    requires m.Inv()
    modifies m.kv, m.kv.table, m.kv.resident
    ensures m.Inv() && m.kv.resident.budget == old(m.kv.resident.budget)
    ensures error == None ==> id in m.sessions && OthersAsleep(m.kv.State(), id)
    ensures Exports(engine) && IsValidSessionId(id) && id in m.sessions ==> error == None
    ensures forall k | k in old(m.kv.State()).resident && k.session == id :: k in m.kv.State().resident
    ensures forall k | k in m.kv.State().resident :: k in old(m.kv.State()).resident
    ensures SameTokens(old(m.kv.State()), m.kv.State())
    ensures StaysRoomy(engine, id, old(m.kv.InMemory()), m.disk.files, m.kv.InMemory(), m.disk.files, 0)
  {
    hide *;
    ghost var held := m.kv.InMemory();
    SameKeys(m.kv);
    InvOpened(m);
    error := m.EnterCommand(engine, id);
    ShrinkingKeepsTokens(old(m.kv.State()), m.kv.State(), m.want);
    SameKeys(m.kv);
    ShrunkKeys(old(m.kv.State()), m.kv.State());
    NoMoreEntries(held.entries, m.kv.resident.entries);
    StaysSizedMore(engine, {}, FileOf(m.disk.files, Key(id, 0)), held, m.kv.InMemory());
    SizedIsRoomy(engine, id, 0, held, m.kv.InMemory(), m.disk.files, 0);
  }

  /** A session can be indexed unless its plan cannot be completed, or is empty. */
  function PlanAnswer(plan: Outcome): Option<ErrorCode> {
    if plan.error.Some? then Some(InternalError) else if plan.segments == [] then Some(InvalidRequest) else None
  }

  lemma ReadyPlan(m: SessionManager, id: Bytes)
    ensures id in m.sessions && m.sessions[id].session.planReady ==>
              && m.PlanAt(id) == Outcome(None, m.sessions[id].session.segments)
              && PlanAnswer(m.PlanAt(id)) == if m.sessions[id].session.segments == [] then Some(InvalidRequest) else None
  {
  }

  lemma SameFlag(a: SessionStore, b: SessionStore)
    ensures a == b || SameFacts(a, b) ==> a.kvPersist == b.kvPersist
  {
    var x, y := a.(memories := []), b.(memories := []);
    assert a.kvPersist == x.kvPersist && b.kvPersist == y.kvPersist;
  }

  lemma PlanAnswers(plan: Outcome)
    ensures plan.error.Some? ==> PlanAnswer(plan) == Some(InternalError)
    ensures plan.error == None ==> PlanAnswer(plan) == if plan.segments == [] then Some(InvalidRequest) else None
  {
  }

  /** What every command that starts with a planned and persisted session does first. */
  method EnterPlanned(m: SessionManager, engine: Engine, id: Bytes, faults: SaveFaults) returns (error: Option<ErrorCode>)
    requires m.Inv()
    modifies m`want, m.kv, m.kv.table, m.kv.resident, m.ObjectsOf(id)
    ensures id in m.sessions ==> |m.sessions[id].session.store.memories| == |old(m.sessions[id].session.store.memories)|
    ensures m.Inv() && m.kv.resident.budget == old(m.kv.resident.budget)
    ensures error == None ==>
              && id in m.sessions && m.sessions[id].session.planReady && !m.sessions[id].session.factsDirty
              && m.sessions[id].session.segments != [] && OthersAsleep(m.kv.State(), id)
    ensures id in m.sessions ==> StayStorable(old(FactsOf(m.sessions[id])), FactsOf(m.sessions[id]), 0)
    ensures id in m.sessions && faults == NO_FAULTS && old(m.sessions[id].saved) ==> m.sessions[id].saved
    ensures error == None && id in m.sessions && !old(m.sessions[id].session.planReady) ==>
              && SameFacts(m.sessions[id].session.store, old(m.sessions[id].session.store))
              && PlannedAnew(m.core, m.model, m.ManifestOf(id), old(m.sessions[id].session.store), true, m.sessions[id].session.segments)
    ensures id in m.sessions && old(m.sessions[id].session.planReady) ==>
              m.sessions[id].session.planReady && m.want == old(m.want) && View(m.sessions[id].session) == old(View(m.sessions[id].session))
    ensures forall k | k in old(m.kv.State()).resident && k.session == id :: k in m.kv.State().resident
    ensures forall k | k in m.kv.State().resident :: k in old(m.kv.State()).resident
    ensures SameTokens(old(m.kv.State()), m.kv.State())
    ensures StaysRoomy(engine, id, old(m.kv.InMemory()), m.disk.files, m.kv.InMemory(), m.disk.files, 0)
    ensures id in m.sessions && error == None ==> m.sessions[id].session.segments == old(m.PlanAt(id)).segments
    ensures id in m.sessions && error == None ==> m.sessions[id].session.store.kvPersist == old(m.sessions[id].session.store.kvPersist)
    ensures IsValidSessionId(id) && id in m.sessions && Exports(engine) && faults == NO_FAULTS ==> error == PlanAnswer(old(m.PlanAt(id)))
  {
    hide *;
    ObjectsMean(m, id);
    ghost var plan := if id in m.sessions then m.PlanAt(id) else Outcome(None, []);
    PlanAnswers(plan);
    if id in m.sessions {
      SameStoreStays(FactsOf(m.sessions[id]), FactsOf(m.sessions[id]), 0);
      PartsOf(m.sessions[id].session);
      PlanAtMeans(m, id);
    }
    error := EnterWithRoom(m, engine, id);
    if error.Some? {
      return;
    }
    var d := m.sessions[id];
    var ok := m.PreparePlan(id, d);
    PartsOf(d.session);
    SameFlag(d.session.store, old(m.sessions[id].session.store));
    if !ok {
      return Some(InternalError);
    }
    ok := PersistIfDirty(m, id, d, faults);
    PartsOf(d.session);
    if !ok {
      return Some(InternalError);
    }
    error := if d.session.segments == [] then Some(InvalidRequest) else None;
  }

  /** Saved, with a manifest that describes the plan. */
  ghost predicate SavedWithManifest(id: Bytes, v: SessionView, disk: CacheDisk, model: ModelKey)
    reads disk
  {
    && SavedUpTo(id, v.metadata, disk.files, |v.segments|)
    && id in disk.manifests && DescribesFirst(v.store, v.segments, disk.manifests[id], model, |v.segments|)
    && RecordsFirst(disk.manifests[id], v.metadata, |v.segments|)
  }

  /** The segments that a session without a plan gets, up to token counts. */
  ghost predicate PlansTo(core: Core, model: ModelKey, manifest: Option<Manifest>, store: SessionStore, segments: seq<Segment>) {
    exists planned :: PlannedAnew(core, model, manifest, store, true, planned) && SameRuns(planned, segments)
  }

  lemma {:induction false} LeavesMore(id: Bytes, n: int, fewer: KVState, more: KVState, metadata: map<int, CacheEntry>,
                                      files: map<Key, Snapshot>, files': map<Key, Snapshot>)
    requires LeavesFiles(id, n, fewer, metadata, files, files') && forall k | k in fewer.resident :: k in more.resident
    ensures LeavesFiles(id, n, more, metadata, files, files')
  {
  }

  method IndexSession(m: SessionManager, engine: Engine, id: Bytes, faults: SaveFaults, indexFaults: IndexFaults) returns (error: Option<ErrorCode>)
    requires m.Inv()
    modifies m`want, m.kv, m.kv.table, m.kv.resident, m.disk, m.ObjectsOf(id)
    ensures id in m.sessions ==> |m.sessions[id].session.store.memories| == |old(m.sessions[id].session.store.memories)|
    ensures m.Inv() && OtherFilesKept(id, old(m.disk.files), m.disk.files)
    ensures id in m.sessions && old(m.sessions[id].session.planReady) ==> m.want == old(m.want)
    ensures id in m.sessions ==> StayStorable(old(FactsOf(m.sessions[id])), FactsOf(m.sessions[id]), 0)
    ensures id in m.sessions && faults == NO_FAULTS && old(m.sessions[id].saved) ==> m.sessions[id].saved
    ensures error == None ==>
              && id in m.sessions
              && var s := m.sessions[id].session;
              && s.planReady && !s.factsDirty && s.segments != []
              && Indexes(id, View(s), m.kv.State(), m.disk, m.model, old(m.disk.files), m.want)
              && (old(id in m.sessions && m.sessions[id].session.planReady) && s.store.kvPersist ==>
                    && TokensUpTo(id, old(m.sessions[id].session.segments), old(m.sessions[id].session.metadata), old(m.disk.files),
                                  s.segments, s.metadata, |s.segments|)
                    && Accounts(engine, id, old(m.kv.State()), old(m.disk.files), old(m.sessions[id].session.metadata), m.disk.files, s.metadata,
                                m.want, |s.segments|))
    ensures error == None ==>
              && id in m.sessions
              && StaysRoomy(engine, id, old(m.kv.InMemory()), old(m.disk.files), m.kv.InMemory(), m.disk.files, |m.sessions[id].session.segments|)
    ensures error == None && id in m.sessions && !old(m.sessions[id].session.planReady) ==>
              && SameFacts(m.sessions[id].session.store, old(m.sessions[id].session.store))
              && PlansTo(m.core, m.model, old(m.ManifestOf(id)), old(m.sessions[id].session.store), m.sessions[id].session.segments)
    ensures id in m.sessions && old(m.sessions[id].session.planReady) ==>
              && m.sessions[id].session.store == old(m.sessions[id].session.store)
              && SameRuns(old(m.sessions[id].session.segments), m.sessions[id].session.segments)
              && KeepsLoadable(id, engine, m.want, old(m.disk.files), old(m.sessions[id].session.metadata),
                               m.disk.files, m.sessions[id].session.metadata)
              && LeavesFiles(id, |m.sessions[id].session.segments|, old(m.kv.State()), old(m.sessions[id].session.metadata),
                             old(m.disk.files), m.disk.files)
    ensures forall limit: nat | id in m.sessions && Works(engine, limit)
              && Roomy(old(m.kv.InMemory()), old(m.disk.files), id, limit, |old(m.PlanAt(id)).segments|) && faults == NO_FAULTS
              && IsValidSessionId(id) && PlanAnswer(old(m.PlanAt(id))) == None
              && (if old(m.sessions[id].session.store.kvPersist) then indexFaults.None(|old(m.PlanAt(id)).segments|)
                  else Ample(old(m.kv.resident.budget), old(m.kv.resident.entries).Keys + SegmentKeys(id, |old(m.PlanAt(id)).segments|), limit))
              :: error == None
    ensures && id in m.sessions && IsValidSessionId(id) && Exports(engine) && faults == NO_FAULTS
            && PlanAnswer(old(m.PlanAt(id))).Some?
            ==> error == PlanAnswer(old(m.PlanAt(id)))
  {
    hide *;
    ObjectsMean(m, id);
    WorkingCounts(engine, Content([], []));
    NothingTurned(id, map[], m.disk.files, m.want);
    ghost var files := m.disk.files;
    ghost var kv := m.kv.State();
    if id in m.sessions {
      PartsOf(m.sessions[id].session);
      RunsOfItself(m.sessions[id].session.segments);
      NothingLost(id, engine, m.want, m.disk.files, m.sessions[id].session.metadata);
      NothingLeft(id, |m.sessions[id].session.segments|, kv, m.sessions[id].session.metadata, files);
    }
    ghost var held := m.kv.InMemory();
    SameKeys(m.kv);
    SameFilesKept(id, files);
    error := EnterPlanned(m, engine, id, faults);
    if id in m.sessions {
      PartsOf(m.sessions[id].session);
    }
    if error.Some? {
      return;
    }
    var d := m.sessions[id];
    ghost var segments, metadata, entered := d.session.segments, d.session.metadata, m.kv.State();
    ghost var held' := m.kv.InMemory();
    RoomAfter(engine, id, held, files, held', |segments|);
    SameKeys(m.kv);
    FewerStillAmple(old(m.kv.resident.budget), old(m.kv.resident.entries).Keys, m.kv.resident.entries.Keys, id, |segments|);
    error := IndexPlanned(m, engine, id, d, indexFaults);
    AccountsBefore(engine, id, kv, entered, files, metadata, m.disk.files, d.session.metadata, m.want, |d.session.segments|);
    LeavesMore(id, |d.session.segments|, entered, kv, metadata, files, m.disk.files);
    PlansToIntro(m.core, m.model, old(m.ManifestOf(id)), old(m.sessions[id].session.store), segments, d.session.segments);
    StaysRoomyTwice(engine, id, held, files, held', files, m.kv.InMemory(), m.disk.files, 0, |segments|);
  }

  lemma SameFilesKept(id: Bytes, files: map<Key, Snapshot>)
    ensures OtherFilesKept(id, files, files)
  {
  }

  lemma {:induction false} FewerStillAmple(budget: nat, more: set<Key>, fewer: set<Key>, id: Bytes, n: nat)
    requires fewer <= more
    ensures forall limit: nat | Ample(budget, more + SegmentKeys(id, n), limit) :: Ample(budget, fewer + SegmentKeys(id, n), limit)
  {
    hide Ample;
    forall limit: nat | Ample(budget, more + SegmentKeys(id, n), limit) ensures Ample(budget, fewer + SegmentKeys(id, n), limit) {
      FewerAmple(budget, fewer + SegmentKeys(id, n), more + SegmentKeys(id, n), limit);
    }
  }

  lemma PlansToIntro(core: Core, model: ModelKey, manifest: Option<Manifest>, store: SessionStore, planned: seq<Segment>, segments: seq<Segment>)
    requires SameRuns(planned, segments)
    ensures PlannedAnew(core, model, manifest, store, true, planned) ==> PlansTo(core, model, manifest, store, segments)
  {
  }

  /** What an index leaves that succeeded: with kv_persist every segment is saved, in files that are
      fresh if none was stale, and described by the manifest; without it every segment is in memory. */
  ghost predicate Indexes(id: Bytes, v: SessionView, kv: KVState, disk: CacheDisk, model: ModelKey, files: map<Key, Snapshot>, want: map<Key, Content>)
    reads disk
  {
    && (v.store.kvPersist ==>
          && SavedWithManifest(id, v, disk, model)
          && (NoStaleFile(id, files, want, 0) ==> FreshUpTo(id, disk.files, want, |v.segments|)))
    && (!v.store.kvPersist ==> ResidentUpTo(kv, id, |v.segments|))
  }

  lemma IndexesMeans(id: Bytes, v: SessionView, kv: KVState, disk: CacheDisk, model: ModelKey, files: map<Key, Snapshot>, want: map<Key, Content>)
    requires Indexes(id, v, kv, disk, model, files, want) && v.store.kvPersist
    ensures SavedUpTo(id, v.metadata, disk.files, |v.segments|)
    ensures NoStaleFile(id, files, want, 0) ==> FreshUpTo(id, disk.files, want, |v.segments|)
  {
    hide FreshFile, HasDisk;
  }

  method IndexPlanned(m: SessionManager, engine: Engine, id: Bytes, d: DurableSession, indexFaults: IndexFaults) returns (error: Option<ErrorCode>)
    requires m.Inv() && id in m.sessions && d == m.sessions[id] && d.session.planReady && d.session.segments != []
    modifies m.kv, m.kv.table, m.kv.resident, m.disk, d.session`metadata, d.session`segments
    ensures m.Inv() && OtherFilesKept(id, old(m.disk.files), m.disk.files) && SameRuns(old(d.session.segments), d.session.segments)
    ensures |d.session.segments| == |old(d.session.segments)|
    ensures KeepsLoadable(id, engine, m.want, old(m.disk.files), old(d.session.metadata), m.disk.files, d.session.metadata)
    ensures LeavesFiles(id, |d.session.segments|, old(m.kv.State()), old(d.session.metadata), old(m.disk.files), m.disk.files)
    ensures StaysRoomy(engine, id, old(m.kv.InMemory()), old(m.disk.files), m.kv.InMemory(), m.disk.files, |d.session.segments|)
    ensures error == None ==>
              && Indexes(id, View(d.session), m.kv.State(), m.disk, m.model, old(m.disk.files), m.want)
              && (d.session.store.kvPersist ==>
                    && TokensUpTo(id, old(d.session.segments), old(d.session.metadata), old(m.disk.files),
                                  d.session.segments, d.session.metadata, |d.session.segments|)
                    && Accounts(engine, id, old(m.kv.State()), old(m.disk.files), old(d.session.metadata), m.disk.files, d.session.metadata,
                                m.want, |d.session.segments|))
    ensures forall limit: nat | Works(engine, limit) && Roomy(old(m.kv.InMemory()), old(m.disk.files), id, limit, |d.session.segments|)
              && d.session.store.kvPersist && indexFaults.None(|d.session.segments|)
              :: error == None
    ensures forall limit: nat | Works(engine, limit) && Roomy(old(m.kv.InMemory()), old(m.disk.files), id, limit, |d.session.segments|)
              && !d.session.store.kvPersist
              && Ample(old(m.kv.resident.budget), old(m.kv.resident.entries).Keys + SegmentKeys(id, |d.session.segments|), limit)
              :: error == None
  {
    hide Ample, RecordsFirst, Accounts, SameTokens;
    hide SessionManager.Inv, SameRuns, Described, KeepsLoadable, KeepsSaved, OtherFilesKept, SavedUpTo, NoStaleFile, FreshUpTo;
    hide ResidentUpTo, DescribesFirst, Works, Roomy, StaysRoomy, IndexFaults.None, TokensUpTo, LeavesFiles;
    ghost var held := m.kv.InMemory();
    HeldParts(m.kv);
    EvictActive(m, id);
    HeldParts(m.kv);
    DeactivatedIsRoomy(engine, id, old(m.kv.State()), held.entries, m.disk.files);
    RoomAfter(engine, id, held, m.disk.files, m.kv.InMemory(), |d.session.segments|);
    ghost var evicted := m.kv.InMemory();
    ghost var files, metadata, segments := m.disk.files, d.session.metadata, d.session.segments;
    EvictedIsResident(old(m.kv.State()), id);
    NothingTurned(id, metadata, files, m.want);
    if d.session.store.kvPersist {
      var ok := PersistSegments(m, engine, id, d, indexFaults);
      SavedIsLoadable(id, engine, m.want, files, metadata, m.disk.files, d.session.metadata);
      LeavesMore(id, |d.session.segments|, Deactivated(old(m.kv.State()), id), old(m.kv.State()), metadata, files, m.disk.files);
      AccountsBefore(engine, id, old(m.kv.State()), Deactivated(old(m.kv.State()), id), files, metadata, m.disk.files, d.session.metadata, m.want,
                     |d.session.segments|);
      error := if ok then None else Some(InternalError);
    } else {
      NothingLeft(id, |segments|, old(m.kv.State()), metadata, files);
      error := IndexInMemory(m, engine, id, d);
    }
    SameLength(segments, d.session.segments);
    StaysRoomyTwice(engine, id, held, files, evicted, files, m.kv.InMemory(), m.disk.files, 0, |segments|);
  }

  lemma {:induction false} RoomAfter(engine: Engine, id: Bytes, a: Held, files: map<Key, Snapshot>, b: Held, n: nat)
    requires StaysRoomy(engine, id, a, files, b, files, 0)
    ensures forall limit: nat | Works(engine, limit) && Roomy(a, files, id, limit, n) :: Roomy(b, files, id, limit, n)
  {
    hide Works, Roomy;
  }

  lemma {:induction false} SizedEntries(engine: Engine, id: Bytes, a: Held, b: Held, files: map<Key, Snapshot>)
    requires StaysSized(engine, {}, a, b) && EntriesFewer(a.entries, b.entries)
    ensures StaysRoomy(engine, id, a, files, b, files, 0)
  {
    hide StaysSized, StaysRoomy;
    NoMoreEntries(a.entries, b.entries);
    StaysSizedMore(engine, {}, FileOf(files, Key(id, 0)), a, b);
    SizedIsRoomy(engine, id, 0, a, b, files, 0);
  }

  lemma {:induction false} DeactivatedIsRoomy(engine: Engine, id: Bytes, kv: KVState, entries: map<Key, Entry>, files: map<Key, Snapshot>)
    ensures StaysRoomy(engine, id, Held(kv.cells, entries), files, Held(Deactivated(kv, id).cells, entries), files, 0)
  {
    hide StaysSized, StaysRoomy, Reset;
    var a, b := Held(kv.cells, entries), Held(Deactivated(kv, id).cells, entries);
    SameStaysSized(engine, {}, a, a);
    ResetStaysSized(engine, kv, entries);
    StaysSizedMore(engine, {}, FileOf(files, Key(id, 0)), a, b);
    SizedIsRoomy(engine, id, 0, a, b, files, 0);
  }

  lemma EvictedIsResident(kv: KVState, id: Bytes)
    ensures Deactivated(kv, id).resident == kv.resident
  {
  }

  method EnableKvPersist(m: SessionManager, id: Bytes, d: DurableSession)
    requires m.Inv() && id in m.sessions && d == m.sessions[id]
    modifies d`storable, d`saved, d.session`store, d.session`factsDirty
    ensures m.Inv() && d.session.store == old(d.session.store).(kvPersist := true)
    ensures StayStorable(old(FactsOf(d)), FactsOf(d), 0)
  {
    hide *;
    InvOpened(m);
    SessionsApart(m, id);
    SessionOpened(d, id, m.want);
    d.EnableKvPersist();
    SameContents(old(d.session.store), d.session.store, d.session.segments, d.session.metadata, id, m.want);
    SessionClosed(d, id, m.want);
    InvClosed(m);
  }

  /** The same facts, of a session that persists its cache. */
  function PersistentStore(store: SessionStore): SessionStore {
    store.(kvPersist := true)
  }

  /** save-session: the segments go to disk, and the session becomes one that persists its cache. */
  method SaveSession(m: SessionManager, engine: Engine, id: Bytes, faults: SaveFaults, indexFaults: IndexFaults) returns (error: Option<ErrorCode>)
    requires m.Inv()
    modifies m`want, m.kv, m.kv.table, m.kv.resident, m.disk, m.ObjectsOf(id)
    ensures id in m.sessions ==> |m.sessions[id].session.store.memories| == |old(m.sessions[id].session.store.memories)|
    ensures m.Inv() && OtherFilesKept(id, old(m.disk.files), m.disk.files)
    ensures id in m.sessions ==> StayStorable(old(FactsOf(m.sessions[id])), FactsOf(m.sessions[id]), 0)
    ensures id in m.sessions && faults == NO_FAULTS && old(m.sessions[id].saved) ==> m.sessions[id].saved
    ensures error == None ==>
              && id in m.sessions
              && var s := m.sessions[id].session;
              && s.planReady && !s.factsDirty && s.segments != [] && s.store.kvPersist
              && Indexes(id, View(s), m.kv.State(), m.disk, m.model, old(m.disk.files), m.want)
              && (old(id in m.sessions && m.sessions[id].session.planReady) ==>
                    && TokensUpTo(id, old(m.sessions[id].session.segments), old(m.sessions[id].session.metadata), old(m.disk.files),
                                  s.segments, s.metadata, |s.segments|)
                    && Accounts(engine, id, old(m.kv.State()), old(m.disk.files), old(m.sessions[id].session.metadata), m.disk.files, s.metadata,
                                m.want, |s.segments|))
    ensures error == None && id in m.sessions && !old(m.sessions[id].session.planReady) ==>
              PlansTo(m.core, m.model, old(m.ManifestOf(id)), old(m.sessions[id].session.store), m.sessions[id].session.segments)
    ensures id in m.sessions && old(m.sessions[id].session.planReady) ==>
              && PersistentStore(m.sessions[id].session.store) == PersistentStore(old(m.sessions[id].session.store))
              && SameRuns(old(m.sessions[id].session.segments), m.sessions[id].session.segments)
              && KeepsLoadable(id, engine, m.want, old(m.disk.files), old(m.sessions[id].session.metadata),
                               m.disk.files, m.sessions[id].session.metadata)
              && LeavesFiles(id, |m.sessions[id].session.segments|, old(m.kv.State()), old(m.sessions[id].session.metadata),
                             old(m.disk.files), m.disk.files)
    ensures forall limit: nat | id in m.sessions && Works(engine, limit)
              && Roomy(old(m.kv.InMemory()), old(m.disk.files), id, limit, |old(m.PlanAt(id)).segments|) && faults == NO_FAULTS
              && IsValidSessionId(id) && PlanAnswer(old(m.PlanAt(id))) == None
              && indexFaults.None(|old(m.PlanAt(id)).segments|)
              :: error == None
    ensures && id in m.sessions && IsValidSessionId(id) && Exports(engine) && faults == NO_FAULTS
            && PlanAnswer(old(m.PlanAt(id))).Some?
            ==> error == PlanAnswer(old(m.PlanAt(id)))
  {
    hide *;
    ObjectsMean(m, id);
    WorkingCounts(engine, Content([], []));
    NothingTurned(id, map[], m.disk.files, m.want);
    ghost var files := m.disk.files;
    ghost var kv := m.kv.State();
    if id in m.sessions {
      PartsOf(m.sessions[id].session);
      RunsOfItself(m.sessions[id].session.segments);
      NothingLost(id, engine, m.want, m.disk.files, m.sessions[id].session.metadata);
      NothingLeft(id, |m.sessions[id].session.segments|, kv, m.sessions[id].session.metadata, files);
    }
    ghost var held := m.kv.InMemory();
    SameFilesKept(id, files);
    error := EnterPlanned(m, engine, id, faults);
    if id in m.sessions {
      PartsOf(m.sessions[id].session);
    }
    if error.Some? {
      return;
    }
    var d := m.sessions[id];
    ghost var segments, metadata, entered, planned := d.session.segments, d.session.metadata, m.kv.State(), FactsOf(d);
    RoomAfter(engine, id, held, files, m.kv.InMemory(), |segments|);
    var ok := SavePlanned(m, engine, id, d, faults, indexFaults);
    AccountsBefore(engine, id, kv, entered, files, metadata, m.disk.files, d.session.metadata, m.want, |d.session.segments|);
    StayStorableTwice(old(FactsOf(m.sessions[id])), planned, FactsOf(d), 0, 0);
    LeavesMore(id, |d.session.segments|, entered, kv, metadata, files, m.disk.files);
    PlansToIntro(m.core, m.model, old(m.ManifestOf(id)), old(m.sessions[id].session.store), segments, d.session.segments);
    error := if ok then None else Some(InternalError);
  }

  method SavePlanned(m: SessionManager, engine: Engine, id: Bytes, d: DurableSession, faults: SaveFaults, indexFaults: IndexFaults) returns (ok: bool)
    requires m.Inv() && id in m.sessions && d == m.sessions[id] && d.session.planReady && !d.session.factsDirty && d.session.segments != []
    modifies m.kv, m.kv.table, m.kv.resident, m.disk, d, d.session, d.dir
    ensures m.Inv() && OtherFilesKept(id, old(m.disk.files), m.disk.files) && d.session.planReady
    ensures ok ==>
              && !d.session.factsDirty && d.session.segments != [] && d.session.store.kvPersist
              && Indexes(id, View(d.session), m.kv.State(), m.disk, m.model, old(m.disk.files), m.want)
              && TokensUpTo(id, old(d.session.segments), old(d.session.metadata), old(m.disk.files), d.session.segments, d.session.metadata,
                            |d.session.segments|)
              && Accounts(engine, id, old(m.kv.State()), old(m.disk.files), old(d.session.metadata), m.disk.files, d.session.metadata, m.want,
                          |d.session.segments|)
    ensures SameRuns(old(d.session.segments), d.session.segments) && |d.session.segments| == |old(d.session.segments)|
    ensures StayStorable(old(FactsOf(d)), FactsOf(d), 0) && (faults == NO_FAULTS && old(d.saved) ==> d.saved)
    ensures LeavesFiles(id, |d.session.segments|, old(m.kv.State()), old(d.session.metadata), old(m.disk.files), m.disk.files)
    ensures d.session.store.memories == old(d.session.store.memories)
    ensures PersistentStore(d.session.store) == PersistentStore(old(d.session.store))
    ensures KeepsLoadable(id, engine, m.want, old(m.disk.files), old(d.session.metadata), m.disk.files, d.session.metadata)
    ensures forall limit: nat | Works(engine, limit) && Roomy(old(m.kv.InMemory()), old(m.disk.files), id, limit, |d.session.segments|)
              && faults == NO_FAULTS && indexFaults.None(|d.session.segments|)
              :: ok
  {
    hide SessionManager.Inv, SameRuns, Described, KeepsLoadable, KeepsSaved, OtherFilesKept, SavedUpTo, NoStaleFile, FreshUpTo;
    hide DescribesFirst, Works, Roomy, StaysRoomy, IndexFaults.None, StayStorable, LeavesFiles, RecordsFirst, TokensUpTo, Accounts;
    SameStoreStays(FactsOf(d), FactsOf(d), 0);
    ok := PersistSegments(m, engine, id, d, indexFaults);
    SavedIsLoadable(id, engine, m.want, old(m.disk.files), old(d.session.metadata), m.disk.files, d.session.metadata);
    SameLength(old(d.session.segments), d.session.segments);
    if ok {
      ok := BecomePersistent(m, id, d, faults);
    }
  }

  /** The last step of a save. */
  method BecomePersistent(m: SessionManager, id: Bytes, d: DurableSession, faults: SaveFaults) returns (ok: bool)
    requires m.Inv() && id in m.sessions && d == m.sessions[id]
    requires id in m.disk.manifests
    requires DescribesFirst(d.session.store, d.session.segments, m.disk.manifests[id], m.model, |d.session.segments|)
    requires !d.session.factsDirty
    modifies d`storable, d`saved, d.session`store, d.session`factsDirty, d.dir
    ensures m.Inv() && d.session.store == old(d.session.store).(kvPersist := true)
    ensures DescribesFirst(d.session.store, d.session.segments, m.disk.manifests[id], m.model, |d.session.segments|)
    ensures ok ==> !d.session.factsDirty
    ensures StayStorable(old(FactsOf(d)), FactsOf(d), 0)
    ensures faults == NO_FAULTS ==> ok && (old(d.saved) ==> d.saved)
  {
    hide SessionManager.Inv, DescribesFirst, StayStorable;
    SameStoreStays(FactsOf(d), FactsOf(d), 0);
    ok := true;
    if !d.session.store.kvPersist {
      EnableKvPersist(m, id, d);
      DescribedUpToFlag(old(d.session.store), d.session.store, d.session.segments, m.disk.manifests[id], m.model, |d.session.segments|);
      ok := m.PersistSession(id, d, faults);
    }
  }

  lemma {:induction false} DescribedUpToFlag(a: SessionStore, b: SessionStore, segments: seq<Segment>, manifest: Manifest, model: ModelKey, n: nat)
    requires DescribesFirst(a, segments, manifest, model, n)
    requires a.system == b.system && a.memories == b.memories && a.sessionId == b.sessionId
    ensures DescribesFirst(b, segments, manifest, model, n)
  {
    hide HashedItems, Fnv, Hex;
    forall k | 0 <= k < n ensures Describes(b, segments[k], manifest.segments[k]) {
      assert Describes(a, segments[k], manifest.segments[k]);
    }
  }

  // ----- After a restart -----

  lemma {:induction false} DescribedIsWritten(store: SessionStore, segments: seq<Segment>, manifest: Manifest, model: ModelKey)
    requires DescribesFirst(store, segments, manifest, model, |segments|)
    ensures WrittenFor(store, segments, manifest.segments) && manifest.model == model && manifest.session == store.sessionId
    ensures |manifest.segments| == |segments|
  {
    hide Describes;
  }

  /** The manifest that a finished index or save leaves for a plan that cuts the store in order is
      accepted after a restart exactly when no segment has a gap in its memory numbers and every count
      is within the context; and then it restores the plan that was indexed, with the recorded counts. */
  lemma {:induction false} IndexSurvivesRestart(core: Core, store: SessionStore, indexed: seq<Segment>, model: ModelKey, manifest: Manifest)
    requires Partition(store, indexed) && indexed != [] && Ascending(store.memories) && core.contextLength > 0
    requires DescribesFirst(store, indexed, manifest, model, |indexed|)
    ensures Accepts(core, store, model, manifest) <==>
            forall k :: 0 <= k < |indexed| ==>
              ContiguousRun(indexed[k].indices) && manifest.segments[k].tokens <= core.contextLength
    ensures Accepts(core, store, model, manifest) ==>
            forall restored :: PlanFrom(store, SortedById(manifest.segments), restored) ==> RestoredWith(restored, indexed, manifest.segments)
  {
    hide Partition, Ascending, DescribesFirst, Accepts, PlanFrom, SortedById, ContiguousRun, SameRuns, WrittenFor;
    DescribedIsWritten(store, indexed, manifest, model);
    OwnManifestIsAccepted(core, store, indexed, model, manifest);
    if Accepts(core, store, model, manifest) {
      forall restored | PlanFrom(store, SortedById(manifest.segments), restored) ensures RestoredWith(restored, indexed, manifest.segments) {
        OwnManifestRestoresThePlan(core, store, indexed, model, manifest, restored);
      }
    }
  }

  /** The segments of `b`, with the counts of their records. */
  predicate RestoredWith(a: seq<Segment>, b: seq<Segment>, records: seq<SegmentRecord>) {
    |a| == |b| <= |records| && forall k :: 0 <= k < |b| ==> a[k] == WithTokens(b[k], records[k].tokens)
  }

  lemma {:induction false} NumberedRecordOf(records: seq<SegmentRecord>, k: nat)
    requires k < |records| && forall j :: 0 <= j < |records| ==> records[j].id == j
    ensures RecordOf(records, k) == Some(records[k])
  {
    if k < |records| - 1 {
      NumberedRecordOf(Init(records), k);
    }
  }

  /** After the restart every segment whose file is still there counts as saved again. */
  lemma {:induction false} RestartFindsFiles(id: Bytes, v: SessionView, manifest: Manifest, model: ModelKey, files: map<Key, Snapshot>)
    requires EntriesRefreshed(v, Some(manifest), model, files) && v.store.sessionId == id && NumberedInOrder(v.segments)
    requires DescribesFirst(v.store, v.segments, manifest, model, |v.segments|)
    ensures forall k | 0 <= k < |v.segments| && Key(id, k) in files :: HasDisk(v.metadata, files, Key(id, k))
    ensures forall k | 0 <= k < |v.segments| && Key(id, k) !in files :: !HasDisk(v.metadata, files, Key(id, k))
    ensures forall k | 0 <= k < |v.segments| && Key(id, k) in files ::
              v.metadata[k].tokenCount == manifest.segments[k].tokens && v.metadata[k].bytes == manifest.segments[k].bytes
  {
    hide SegmentHash, RecordOf;
    forall k | 0 <= k < |v.segments| ensures RecordOf(manifest.segments, k) == Some(manifest.segments[k]) {
      NumberedRecordOf(manifest.segments, k);
    }
    forall k | 0 <= k < |v.segments| && Key(id, k) in files
      ensures HasDisk(v.metadata, files, Key(id, k))
      ensures v.metadata[k].tokenCount == manifest.segments[k].tokens && v.metadata[k].bytes == manifest.segments[k].bytes
    {
      assert Describes(v.store, v.segments[k], manifest.segments[k]);
      assert v.metadata[k] == RefreshedAt(v.store, v.segments[k], map[], Some(manifest), model, files);
    }
  }

  lemma {:induction false} SameRunsBack(a: seq<Segment>, b: seq<Segment>)
    requires SameRuns(a, b)
    ensures SameRuns(b, a)
  {
  }

  lemma {:induction false} RunsWithTokens(a: seq<Segment>, b: seq<Segment>, records: seq<SegmentRecord>)
    requires |a| == |b| <= |records|
    requires forall k :: 0 <= k < |b| ==> a[k] == b[k].(estimated := records[k].tokens, exact := records[k].tokens)
    ensures SameRuns(a, b)
  {
  }
}
