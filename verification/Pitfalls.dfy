/** Two runs in which the program does less than one might expect, each with the rule behind it: a
    file that outlives its content, and two sessions that share their keys. */
module Pitfalls {
  import opened Basics
  import opened Persistent
  import opened SessionState
  import opened SegmentPlanner
  import opened IncrementalPlan
  import opened ContentHash
  import opened CacheManifest
  import opened SegmentKV
  import opened ResidentStore
  import opened Coherence
  import opened KVManager
  import opened MemoryRoom
  import opened SessionFiles
  import opened SessionSaving
  import opened Durability
  import opened StorageNames
  import opened PlanInvariant
  import opened SessionPlans
  import opened SessionCommands
  import opened IndexCommands
  import opened SavedSegments
  import opened Steps
  import opened Names

  // ----- A file that outlives its content -----

  /** The segment counts as saved under the hash of what it holds, but its file holds something else. */
  ghost predicate Stale(s: SessionView, files: map<Key, Snapshot>, k: Key) {
    && 0 <= k.segment < |s.segments| && HasDisk(s.metadata, files, k)
    && s.metadata[k.segment].hash == SegmentHash(s.store, s.segments[k.segment].indices)
    && files[k].metadata.content != ContentAt(s.store, s.segments[k.segment])
  }

  lemma {:induction false} ExtendedBy(core: Core, p: Planned, input: MemoryInput)
    requires ValidStore(p.store) && PlanOk(p.store, p.segments) && p.Decide(core, input.text).Extends?
    ensures var p' := p.Appended(core, input);
            && p.segments != [] && |p'.segments| == |p.segments| && p'.store.kvPersist == p.store.kvPersist
            && ContentAt(p'.store, p'.segments[|p.segments| - 1]) != ContentAt(p.store, p.segments[|p.segments| - 1])
  {
    hide Planned.Decide, Planned.Appended, ValidStore, PlanOk, ContentAt;
    AcceptedAppends(core, p, input);
    AppendGrowsPlan(core, p, input);
    GrownContents(p.store, p.NewRecord(core, input), p.segments, p.Appended(core, input).segments, false);
  }

  /** Adding a memory to a segment whose file is there, and indexing again, always leaves the file as it
      was, registered under the new hash: if it was fresh before, it is stale now. */
  method GrowThenIndex(m: SessionManager, engine: Engine, id: Bytes, input: MemoryInput, faults: SaveFaults, indexFaults: IndexFaults)
    returns (added: Option<ErrorCode>, indexed: Option<ErrorCode>)
    requires m.Inv() && id in m.sessions && m.sessions[id].session.planReady && m.sessions[id].session.store.kvPersist
    requires PlannedOf(m.sessions[id].session).Decide(m.core, input.text).Extends? && m.sessions[id].session.segments != []
    requires Key(id, |m.sessions[id].session.segments| - 1) in m.disk.files
    modifies m`want, m.kv, m.kv.table, m.kv.resident, m.disk, m.ObjectsOf(id)
    ensures m.Inv() && m.sessions == old(m.sessions)
    ensures added == None && indexed == None ==>
              var s, k := m.sessions[id].session, Key(id, |old(m.sessions[id].session.segments)| - 1);
              && PlannedOf(s).store == old(PlannedOf(s)).Appended(m.core, input).store
              && |s.segments| == |old(m.sessions[id].session.segments)|
              && k in m.disk.files && m.disk.files[k] == old(m.disk.files)[k]
              && (old(m.disk.files[k].metadata.content == ContentAt(s.store, s.segments[|s.segments| - 1])) ==> Stale(View(s), m.disk.files, k))
    ensures forall limit: nat | Works(engine, limit) && faults == NO_FAULTS && IsValidSessionId(id)
              && Roomy(old(m.kv.InMemory()), old(m.disk.files), id, limit, |old(m.sessions[id].session.segments)|)
              && indexFaults.None(|old(m.sessions[id].session.segments)|)
              :: added == None && indexed == None
  {
    hide *;
    ObjectsMean(m, id);
    NotItself(m, id);
    var d := m.sessions[id];
    PartsOf(d.session);
    SessionPlan(m, id, d);
    ghost var p, n, held, files := PlannedOf(d.session), |d.session.segments|, m.kv.InMemory(), m.disk.files;
    WorkingCounts(engine, Content([], []));
    ExtendedBy(m.core, p, input);
    ExtendsIsAccepted(m.core, p, input.text);
    ghost var content := ContentAt(d.session.store, d.session.segments[n - 1]);
    HeldParts(m.kv);
    SettledMeans(d.session);
    ReadyPlan(m, id);
    AddAnswers(m.core, p, input, faults);
    added := m.AddMemory(engine, id, input, faults);
    AddEndsReady(m.core, p, input, faults, added, d.session.segments);
    HeldParts(m.kv);
    PartsOf(d.session);
    indexed := None;
    if added.Some? {
      return;
    }
    GrownParts(d.session);
    SizedEntries(engine, id, held, m.kv.InMemory(), files);
    RoomAfter(engine, id, held, files, m.kv.InMemory(), n);
    ghost var grown := View(d.session);
    ghost var kv := m.kv.State();
    ReadyPlan(m, id);
    indexed := IndexSession(m, engine, id, faults, indexFaults);
    PartsOf(d.session);
    SameLength(grown.segments, d.session.segments);
    if indexed.Some? {
      return;
    }
    SessionPlan(m, id, d);
    IndexesMeans(id, View(d.session), m.kv.State(), m.disk, m.model, files, m.want);
    SameStoreContents(grown.store, d.session.store, grown.segments, d.session.segments);
    WasLeft(id, n, kv, grown.metadata, files, m.disk.files, Key(id, n - 1));
    NowStale(View(d.session), m.disk.files, Key(id, n - 1));
    assert files[Key(id, n - 1)].metadata.content == content ==> Stale(View(d.session), m.disk.files, Key(id, n - 1));
  }

  lemma ExtendsIsAccepted(core: Core, p: Planned, text: Bytes)
    ensures p.Decide(core, text).Extends? ==> !p.Decide(core, text).Refused?
  {
  }

  lemma {:induction false} NotItself(m: SessionManager, id: Bytes)
    requires m.Inv()
    ensures m !in m.ObjectsOf(id) && m.disk !in m.ObjectsOf(id)
  {
    Apart(m, id);
  }

  lemma WasLeft(id: Bytes, n: int, kv: KVState, metadata: map<int, CacheEntry>, files: map<Key, Snapshot>, files': map<Key, Snapshot>, k: Key)
    requires LeavesFiles(id, n, kv, metadata, files, files') && k.session == id && k.segment < n && k in files
    requires !Indexed(kv, metadata, files, k) && k.segment in metadata && metadata[k.segment].hasPath
    ensures k in files' && files'[k] == files[k]
  {
  }

  lemma NowStale(s: SessionView, files: map<Key, Snapshot>, k: Key)
    requires 0 <= k.segment < |s.segments| && SavedUpTo(k.session, s.metadata, files, |s.segments|) && HashesOk(s.store, s.segments, s.metadata)
    ensures k in files && (files[k].metadata.content != ContentAt(s.store, s.segments[k.segment]) ==> Stale(s, files, k))
  {
    hide SegmentHash, ContentAt;
    assert HasDisk(s.metadata, files, Key(k.session, k.segment)) && k == Key(k.session, k.segment);
  }

  const A: Bytes := ['a' as int]
  const B: Bytes := ['b' as int]
  const UNDERSCORE_A: Bytes := [UNDERSCORE, 'a' as int]

  /** A tokeniser for which everything is one token, and an engine that always works. */
  const SMALL_CORE := Core((_, _) => Some(1), _ => Some(1), 100)
  const WORKING := Engine(_ => Some(1), _ => Some((1, 1)), (_, _) => Some(1), (_, _) => Some(1), (_, _) => true, _ => Some(1), _ => 1)
  const NO_INDEX_FAULTS := IndexFaults(true, _ => true, _ => true)

  lemma WorkingWorks()
    ensures Works(WORKING, 1) && forall n: nat :: NO_INDEX_FAULTS.None(n)
    ensures NO_FAULTS.writeMetadata && NO_FAULTS.renameMetadata
  {
  }

  lemma NamesAreValid()
    ensures IsValidSessionId(A) && NoUnderscoreAtTheEnds(A) && IsValidSessionId(UNDERSCORE_A) && !NoUnderscoreAtTheEnds(UNDERSCORE_A)
    ensures A != UNDERSCORE_A
  {
  }

  lemma {:induction false} FirstOpens(store: SessionStore, input: MemoryInput)
    requires store.boundaries == []
    ensures var p := Planned(store, []);
            && p.Decide(SMALL_CORE, input.text) == Opens(1, false, false)
            && p.Appended(SMALL_CORE, input) ==
                 Planned(store.(memories := store.memories + [p.NewRecord(SMALL_CORE, input)], nextIdx := store.nextIdx + 1, systemLocked := true),
                         [Segment(0, [store.nextIdx], 1, 1, false, false)])
  {
  }

  lemma {:induction false} SecondExtends(p: Planned, text: Bytes)
    requires p.segments != [] && p.store.boundaries == []
    ensures p.Decide(SMALL_CORE, text).Extends?
  {
  }

  lemma EmptyIsRoomy(held: Held)
    requires StaysSized(WORKING, {}, Held([], map[]), held) && EntriesFewer(map[], held.entries)
    ensures Roomy(held, map[], A, 1, 9)
  {
    WorkingWorks();
    assert Sized(Held([], map[]), 1);
    assert held.entries == map[];
  }

  lemma NoFileIsStale(want: map<Key, Content>)
    ensures NoStaleFile(A, map[], want, 0)
  {
  }

  lemma FirstIsFresh(want: map<Key, Content>, files: map<Key, Snapshot>, store: SessionStore, segments: seq<Segment>)
    requires FreshUpTo(A, files, want, |segments|) && WantedOf(want, A, store, segments) && segments != []
    ensures Key(A, 0) in files && files[Key(A, 0)].metadata.content == ContentAt(store, segments[0])
  {
    hide ContentAt;
    assert FreshFile(files, want, Key(A, 0));
  }

  lemma RoomLeft(before: Held, after: Held, files: map<Key, Snapshot>)
    requires Roomy(before, map[], A, 1, 9) && StaysRoomy(WORKING, A, before, map[], after, files, 1)
    ensures Roomy(after, files, A, 1, 1)
  {
    hide Roomy;
    WorkingWorks();
    FewerAreRoomy(after, files, A, 1, 8, 1);
  }

  lemma FreshParts(id: Bytes, kvPersist: bool)
    ensures FreshStore(id, kvPersist).boundaries == [] && FreshStore(id, kvPersist).kvPersist == kvPersist
  {
  }

  /** A session manager with one new session, which persists its cache. */
  method CreateA(model: ModelKey) returns (m: SessionManager)
    ensures m.Inv() && m.core == SMALL_CORE && A in m.sessions
    ensures fresh(m) && fresh(m.kv) && fresh(m.kv.table) && fresh(m.kv.resident) && fresh(m.disk) && fresh(m.ObjectsOf(A))
    ensures m.kv.InMemory() == Held([], map[]) && m.disk.files == map[]
    ensures var s := m.sessions[A].session; s.store == FreshStore(A, true) && s.planReady && s.segments == []
  {
    hide *;
    NamesAreValid();
    WorkingWorks();
    m := new SessionManager(SMALL_CORE, model, 0);
    var error := m.CreateSession(A, true, false, NO_FAULTS);
    ObjectsInRepr(m);
  }

  /** A new session with one memory. */
  method AddA(model: ModelKey) returns (m: SessionManager)
    ensures m.Inv() && m.core == SMALL_CORE && A in m.sessions
    ensures fresh(m) && fresh(m.kv) && fresh(m.kv.table) && fresh(m.kv.resident) && fresh(m.disk) && fresh(m.ObjectsOf(A))
    ensures var s := m.sessions[A].session; s.planReady && s.store.kvPersist && s.store.boundaries == [] && |s.segments| == 1
    ensures m.disk.files == map[] && Roomy(m.kv.InMemory(), map[], A, 1, 9)
  {
    hide *;
    NamesAreValid();
    WorkingWorks();
    FreshParts(A, true);
    m := CreateA(model);
    var first := MemoryInput(false, [], A);
    var d := m.sessions[A];
    FirstOpens(d.session.store, first);
    PartsOf(d.session);
    ObjectsMean(m, A);
    NotItself(m, A);
    HeldParts(m.kv);
    SettledMeans(d.session);
    ghost var p := PlannedOf(d.session);
    ReadyPlan(m, A);
    AddAnswers(m.core, p, first, NO_FAULTS);
    var e1 := m.AddMemory(WORKING, A, first, NO_FAULTS);
    AddEndsReady(m.core, p, first, NO_FAULTS, e1, d.session.segments);
    PartsOf(d.session);
    HeldParts(m.kv);
    EmptyIsRoomy(m.kv.InMemory());
    GrownParts(d.session);
  }

  /** A new session, one memory and an index: the first segment is saved, and its file is fresh. */
  method IndexA(model: ModelKey) returns (m: SessionManager)
    ensures m.Inv() && m.core == SMALL_CORE && A in m.sessions
    ensures fresh(m) && fresh(m.kv) && fresh(m.kv.table) && fresh(m.kv.resident) && fresh(m.disk) && fresh(m.ObjectsOf(A))
    ensures var s := m.sessions[A].session;
            && s.planReady && s.store.kvPersist && s.store.boundaries == [] && |s.segments| == 1
            && Key(A, 0) in m.disk.files && m.disk.files[Key(A, 0)].metadata.content == ContentAt(s.store, s.segments[0])
    ensures Roomy(m.kv.InMemory(), m.disk.files, A, 1, 1)
  {
    hide *;
    NamesAreValid();
    WorkingWorks();
    m := AddA(model);
    var d := m.sessions[A];
    ObjectsMean(m, A);
    NotItself(m, A);
    FewerAreRoomy(m.kv.InMemory(), map[], A, 1, 9, 1);
    ghost var held, segments := m.kv.InMemory(), d.session.segments;
    ReadyPlan(m, A);
    var e2 := IndexSession(m, WORKING, A, NO_FAULTS, NO_INDEX_FAULTS);
    PartsOf(d.session);
    SameLength(segments, d.session.segments);
    NoFileIsStale(m.want);
    IndexesMeans(A, View(d.session), m.kv.State(), m.disk, m.model, map[], m.want);
    WantedNow(m, A);
    FirstIsFresh(m.want, m.disk.files, d.session.store, d.session.segments);
    RoomLeft(held, m.kv.InMemory(), m.disk.files);
  }

  /** Create, add, index, add, index: nothing fails, and the file that counts as saved is stale. */
  method StaleFile(model: ModelKey) returns (m: SessionManager)
    ensures m.Inv() && A in m.sessions && Stale(View(m.sessions[A].session), m.disk.files, Key(A, 0))
  {
    hide *;
    NamesAreValid();
    WorkingWorks();
    m := IndexA(model);
    var d := m.sessions[A];
    PartsOf(d.session);
    SecondExtends(PlannedOf(d.session), B);
    ObjectsMean(m, A);
    NotItself(m, A);
    var e3, e4 := GrowThenIndex(m, WORKING, A, MemoryInput(false, [], B), NO_FAULTS, NO_INDEX_FAULTS);
  }

  // ----- Two sessions that share their keys -----

  /** The directory of a session "a" that was just created. */
  ghost predicate JustCreated(files: SessionDir) {
    files.metadata == Some(EncodeMetadata(FreshStore(A, false))) && files.memories == None
  }

  lemma {:induction false} CreatedLoads(files: SessionDir)
    requires JustCreated(files)
    ensures Load(files, A) == Some(FreshStore(A, false))
  {
    hide EncodeMetadataAs, Load, IsValidSessionId;
    NamesAreValid();
    EmptySessionLoadsBack(FreshStore(A, false), files);
  }

  lemma {:induction false} SameDirectory(model: ModelKey)
    ensures SessionLayout(model, A).session == A && SessionLayout(model, UNDERSCORE_A).session == A
  {
    SanitizedIsClean(A);
    CollapsedIsClean(UNDERSCORE_A);
    assert TrimFront(UNDERSCORE_A) == TrimFront(UNDERSCORE_A[1..]) == A;
    assert TrimBack(A) == A;
    assert Sanitized(UNDERSCORE_A) == A == Sanitized(A);
  }

  /** No cached state can be right for two contents. */
  lemma OneStateOneContent(s: SegmentKVState, c: Content, d: Content)
    ensures Holds(s, c) && Holds(s, d) ==> c == d
  {
  }

  lemma {:induction false} TwinsClash(model: ModelKey, content: SessionDir)
    requires JustCreated(content)
    ensures Clashes(Restore(UNDERSCORE_A, Some(content)), model, map[A := A])
  {
    hide Load, SessionLayout, IsValidSessionId, JustCreated;
    NamesAreValid();
    SameDirectory(model);
    CreatedLoads(content);
    assert A[0] != UNDERSCORE_A[0];
  }

  /** Restoring "a" and then "_a" succeeds, and gives two sessions whose segments have the same keys.
      As soon as a different memory is added to each, no cached state can be right for both. */
  method Twins(model: ModelKey, content: SessionDir) returns (m: SessionManager, one: DurableSession, other: DurableSession)
    requires JustCreated(content)
    ensures Clashes(Restore(UNDERSCORE_A, Some(content)), model, map[A := A])
    ensures !m.Inv() && A in m.sessions && UNDERSCORE_A in m.sessions && one == m.sessions[A] && other == m.sessions[UNDERSCORE_A]
    ensures one.session.store.sessionId == other.session.store.sessionId
    ensures |one.session.segments| == |other.session.segments| == 1
    ensures forall s: SegmentKVState ::
              !(Holds(s, ContentAt(one.session.store, one.session.segments[0])) && Holds(s, ContentAt(other.session.store, other.session.segments[0])))
  {
    hide *;
    NamesAreValid();
    SameDirectory(model);
    CreatedLoads(content);
    TwinsClash(model, content);
    FreshParts(A, false);
    m := new SessionManager(SMALL_CORE, model, 0);
    var first := new SessionDirectory(A, content);
    var e1 := m.RestoreSession(A, true, first);
    one := m.sessions[A];
    InvOpened(m);
    SessionOpened(one, A, m.want);
    var second := new SessionDirectory(A, content);
    var e2 := m.RestoreSession(UNDERSCORE_A, true, second);
    other := m.sessions[UNDERSCORE_A];
    GrowTwins(one, other);
    Misnamed(m);
    forall s: SegmentKVState
      ensures !(Holds(s, ContentAt(one.session.store, one.session.segments[0])) && Holds(s, ContentAt(other.session.store, other.session.segments[0])))
    {
      OneStateOneContent(s, ContentAt(one.session.store, one.session.segments[0]), ContentAt(other.session.store, other.session.segments[0]));
    }
  }

  lemma {:induction false} Misnamed(m: SessionManager)
    requires UNDERSCORE_A in m.sessions && m.sessions[UNDERSCORE_A].session.store.sessionId == A
    ensures !m.Inv()
  {
    hide SessionManager.Inv;
    NamesAreValid();
    if m.Inv() {
      InvNamesSessions(m, UNDERSCORE_A);
    }
  }

  /** The same name, no memories yet, and then one memory each. */
  method GrowTwins(one: DurableSession, other: DurableSession)
    requires one.Inv() && other.Inv() && one != other && one.session != other.session
    requires one.session.store == FreshStore(A, false) == other.session.store && one.session.segments == [] == other.session.segments
    modifies one`storable, one`saved, one.session, other`storable, other`saved, other.session
    ensures one.session.store.sessionId == A == other.session.store.sessionId
    ensures |one.session.segments| == |other.session.segments| == 1
    ensures ContentAt(one.session.store, one.session.segments[0]) != ContentAt(other.session.store, other.session.segments[0])
  {
    hide *;
    FirstContent(MemoryInput(false, [], A));
    FirstContent(MemoryInput(false, [], B));
    DifferentContents();
    PartsOf(one.session);
    PartsOf(other.session);
    var first := one.AppendMemory(SMALL_CORE, MemoryInput(false, [], A));
    var second := other.AppendMemory(SMALL_CORE, MemoryInput(false, [], B));
    PartsOf(one.session);
    PartsOf(other.session);
  }

  lemma DifferentContents()
    ensures Content([], [A]) != Content([], [B])
  {
    assert [A][0][0] != [B][0][0];
  }

  lemma {:induction false} FirstContent(input: MemoryInput)
    ensures var p := Planned(FreshStore(A, false), []).Appended(SMALL_CORE, input);
            && p.store.sessionId == A && |p.segments| == 1 && ContentAt(p.store, p.segments[0]) == Content([], [input.text])
  {
    hide Planned.Appended, Planned.Decide;
    FirstOpens(FreshStore(A, false), input);
    var p := Planned(FreshStore(A, false), []).Appended(SMALL_CORE, input);
    assert Init(p.segments[0].indices) == [] && Last(p.segments[0].indices) == 0;
    assert SegmentTexts(p.store.memories, []) == [];
    assert FindMemory(p.store.memories, 0) == Some(p.store.memories[0]) && p.store.memories[0].text == input.text;
    assert TextOf(p.store.memories, 0) == [input.text];
  }
}
