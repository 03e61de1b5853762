/** The KV cache protocol (segment_kv_manager.cpp), for the runtime without the native engine:
    which segments are resident, which prefixes are staged and which context is live. */
module KVManager {
  import opened Basics
  import opened SegmentKV
  import opened ResidentStore
  import opened Coherence
  import opened Persistent
  import opened SessionState

  /** The content that segment `id` of a session has now. */
  function ContentOf(store: SessionStore, segments: seq<Segment>, id: int): Option<Content> {
    match FindSegment(segments, id)
    case Some(segment) => Some(Content(store.system, SegmentTexts(store.memories, segment.indices)))
    case None => None
  }

  /** The metadata entry of segment `id`, made on demand, set to a state. */
  function Marked(metadata: map<int, CacheEntry>, id: int, state: CacheState, tokens: int): map<int, CacheEntry> {
    var entry := if id in metadata then metadata[id] else CacheEntry([], false, Missing, 0, 0);
    metadata[id := entry.(state := state, tokenCount := tokens)]
  }

  predicate FileUsable(metadata: map<int, CacheEntry>, id: int, files: map<Key, Snapshot>, k: Key, allowBuild: bool) {
    && id in metadata && metadata[id].hasPath && k in files
    && (allowBuild || metadata[id].state != Missing)
  }

  /** The context was made by appending what `whole` has beyond `prefix`. */
  ghost predicate ExtendedFrom(engine: Engine, prefix: Content, whole: Content, s: SegmentKVState) {
    && s.active.Live? && |prefix.memories| <= |whole.memories|
    && exists context: ActiveKV ::
         && context.Live? && context.metadata.content == prefix
         && engine.extend(context, whole.memories[|prefix.memories|..]) == Some(s.active.metadata.baseTokens)
  }

  /** A context of that length has room for so many tokens, or was hydrated for them from the state's
      snapshot. */
  ghost predicate RoomToGrow(engine: Engine, prefix: KVMetadata, tokens: nat, length: nat) {
    || length >= engine.requiredContext(tokens)
    || exists snapshot: Snapshot :: snapshot.metadata == prefix && engine.hydrate(snapshot, tokens) == Some(length)
  }

  /** What `whole` has beyond the prefix was appended, in a context with room for all of it. */
  ghost predicate WasExtended(engine: Engine, prefix: SegmentKVState, whole: Content, s: SegmentKVState) {
    && prefix.Metadata().Some? && ExtendedFrom(engine, prefix.Metadata().value.content, whole, s)
    && engine.countTokens(whole).Some?
    && RoomToGrow(engine, prefix.Metadata().value, engine.countTokens(whole).value, s.active.length)
  }

  ghost predicate WasBuilt(engine: Engine, content: Content, s: SegmentKVState) {
    s.active.Live? && engine.build(content) == Some((s.active.metadata.baseTokens, s.active.length))
  }

  /** The segment's file may be used and loads for the content. */
  ghost predicate Loadable(engine: Engine, files: map<Key, Snapshot>, metadata: map<int, CacheEntry>, id: int, k: Key, content: Content,
                           allowBuild: bool) {
    FileUsable(metadata, id, files, k, allowBuild) && Loads(engine, files[k], content)
  }

  /** A file that loads is taken; only when there is none, and building is allowed, is it built. */
  ghost predicate CameFrom(engine: Engine, files: map<Key, Snapshot>, metadata: map<int, CacheEntry>, id: int, k: Key, content: Content,
                           allowBuild: bool, s: SegmentKVState) {
    if Loadable(engine, files, metadata, id, k, content, allowBuild) then s == SegmentKVState(Some(files[k]), Dead)
    else allowBuild && WasBuilt(engine, content, s)
  }

  ghost predicate CameFromPrefix(engine: Engine, before: KVState, k: Key, content: Content, s: SegmentKVState) {
    HasPrefix(before, k) && WasExtended(engine, before.cells[before.prefixes[k]], content, s)
  }

  /** Another entry fits without the byte counter wrapping. */
  ghost predicate Fits(store: ResidentKVStore, files: map<Key, Snapshot>, k: Key, limit: nat)
    reads store
  {
    store.HasRoom(limit) && (k in files ==> files[k].blobBytes <= limit)
  }

  /** How a segment got into memory: it was there, was extended, loaded or built. */
  ghost predicate PreparedFrom(engine: Engine, files: map<Key, Snapshot>, metadata: map<int, CacheEntry>, id: int, before: KVState, k: Key,
                               content: Content, allowBuild: bool, after: KVState, h: Handle) {
    if k in before.resident then h == before.resident[k]
    else
      && h < |after.cells|
      && (CameFrom(engine, files, metadata, id, k, content, allowBuild, after.cells[h])
          || CameFromPrefix(engine, before, k, content, after.cells[h]))
  }

  ghost predicate CanPrepare(engine: Engine, files: map<Key, Snapshot>, metadata: map<int, CacheEntry>, id: int, before: KVState, k: Key,
                             content: Content, allowBuild: bool) {
    k in before.resident || HasPrefix(before, k) || allowBuild || Loadable(engine, files, metadata, id, k, content, allowBuild)
  }

  /** The segment is resident with a serialised state of no bytes, which cannot be hydrated. */
  ghost predicate EmptyBlob(kv: KVState, k: Key) {
    k in kv.resident && kv.resident[k] < |kv.cells| && kv.cells[kv.resident[k]].BlobBytes() == 0
  }

  /** The active context is long enough already, or was hydrated for that many tokens. */
  ghost predicate RoomForQuery(engine: Engine, s: SegmentKVState, tokens: nat, length: nat) {
    || length >= engine.requiredContext(tokens)
    || (s.snapshot.Some? && engine.hydrate(s.snapshot.value, tokens) == Some(length))
  }

  /** How many tokens the cached state of a resident segment stands for. */
  function TokensIn(kv: KVState, k: Key): nat {
    if k in kv.resident && kv.resident[k] < |kv.cells| && kv.cells[kv.resident[k]].Metadata().Some?
    then kv.cells[kv.resident[k]].Metadata().value.baseTokens else 0
  }

  /** The active context is that of segment `k`, and has room for all of the segment and so many tokens
      more: it is long enough, or was hydrated for that many. */
  ghost predicate RoomToSearch(engine: Engine, kv: KVState, k: Key, tokens: nat) {
    && kv.active.Some? && kv.active.value.key == k && LiveAt(kv, kv.active.value.handle)
    && k in kv.resident && kv.resident[k] < |kv.cells|
    && RoomForQuery(engine, kv.cells[kv.resident[k]], TokensIn(kv, k) + tokens, kv.cells[kv.active.value.handle].active.length)
  }

  /** A prefix is staged for the segment, and it is one of at least one memory. */
  ghost predicate HasPrefix(kv: KVState, k: Key) {
    && k in kv.prefixes && kv.prefixes[k] < |kv.cells|
    && kv.cells[kv.prefixes[k]].Metadata().Some? && kv.cells[kv.prefixes[k]].Metadata().value.content.memories != []
  }

  /** Somebody other than segment `keep` may lose the context behind this handle. */
  ghost predicate HeldByOthers(kv: KVState, keep: Key, h: Handle) {
    || (exists k | k in kv.resident :: k.session == keep.session && k != keep && kv.resident[k] == h)
    || (exists k | k in kv.prefixes :: k != keep && kv.prefixes[k] == h)
    || (kv.active.Some? && kv.active.value.key != keep && kv.active.value.handle == h)
  }

  // ----- Sizes -----

  /** Everything that is serialised in memory, with the sizes the store has recorded. */
  datatype Held = Held(cells: seq<SegmentKVState>, entries: map<Key, Entry>)

  predicate SizeFits(bytes: Size, limit: nat) {
    0 < bytes <= limit
  }

  ghost predicate SizedCells(cells: seq<SegmentKVState>, limit: nat) {
    forall h | 0 <= h < |cells| && cells[h].snapshot.Some? :: SizeFits(cells[h].snapshot.value.blobBytes, limit)
  }

  /** No serialised state is empty or larger than `limit`, and the store has recorded no more. */
  ghost predicate Sized(held: Held, limit: nat) {
    SizedCells(held.cells, limit) && forall k | k in held.entries :: held.entries[k].bytes <= limit
  }

  /** With a working engine, and from files of such sizes, what is held stays sized. */
  ghost predicate StaysSized(engine: Engine, files: set<Snapshot>, before: Held, after: Held) {
    forall limit: nat | Works(engine, limit) && Sized(before, limit) && (forall f | f in files :: SizeFits(f.blobBytes, limit)) :: Sized(after, limit)
  }

  lemma {:induction false} StaysSizedTwice(engine: Engine, files: set<Snapshot>, a: Held, b: Held, c: Held)
    requires StaysSized(engine, files, a, b) && StaysSized(engine, files, b, c)
    ensures StaysSized(engine, files, a, c)
  {
    hide Works, Sized, SizeFits;
  }

  lemma {:induction false} StaysSizedMore(engine: Engine, fewer: set<Snapshot>, more: set<Snapshot>, a: Held, b: Held)
    requires StaysSized(engine, fewer, a, b) && fewer <= more
    ensures StaysSized(engine, more, a, b)
  {
    hide Works, Sized, SizeFits;
  }

  lemma {:induction false} SameStaysSized(engine: Engine, files: set<Snapshot>, a: Held, b: Held)
    requires a.cells == b.cells && (forall k | k in b.entries :: k in a.entries && b.entries[k].bytes == a.entries[k].bytes)
    ensures StaysSized(engine, files, a, b)
  {
    hide Works;
  }

  lemma {:induction false} ReleasingSizes(engine: Engine, limit: nat, before: seq<SegmentKVState>, after: seq<SegmentKVState>)
    requires Works(engine, limit) && PartlyReleased(engine, before, after) && SizedCells(before, limit)
    ensures SizedCells(after, limit)
  {
    forall h | 0 <= h < |after| && after[h].snapshot.Some? ensures SizeFits(after[h].snapshot.value.blobBytes, limit) {
      if after[h] == before[h] {
        assert before[h].snapshot.Some?;
      } else {
        ReleasedSize(engine, limit, before[h]);
      }
    }
  }

  lemma {:induction false} ReleasedSize(engine: Engine, limit: nat, s: SegmentKVState)
    requires Works(engine, limit) && (s.snapshot.Some? ==> SizeFits(s.snapshot.value.blobBytes, limit))
    ensures Exported(engine, s).Some? && Exported(engine, s).value.snapshot.Some? ==> SizeFits(Exported(engine, s).value.snapshot.value.blobBytes, limit)
    ensures ReleasedToSnapshot(engine, s).Some? && ReleasedToSnapshot(engine, s).value.snapshot.Some? ==>
              SizeFits(ReleasedToSnapshot(engine, s).value.snapshot.value.blobBytes, limit)
  {
  }

  lemma {:induction false} SetCellStaysSized(engine: Engine, a: Held, b: Held, h: Handle)
    requires b.entries == a.entries && h < |a.cells| == |b.cells| && b.cells == a.cells[h := b.cells[h]]
    requires b.cells[h].snapshot == a.cells[h].snapshot
    ensures StaysSized(engine, {}, a, b)
  {
    hide Works;
  }

  lemma {:induction false} ExportStaysSized(engine: Engine, a: Held, b: Held, h: Handle)
    requires b.entries == a.entries && h < |a.cells|
    requires b.cells == if Exported(engine, a.cells[h]).Some? then a.cells[h := Exported(engine, a.cells[h]).value] else a.cells
    ensures StaysSized(engine, {}, a, b)
  {
    hide Works, Exported, SizeFits;
    forall limit: nat | Works(engine, limit) && Sized(a, limit) ensures Sized(b, limit) {
      ReleasedSize(engine, limit, a.cells[h]);
      ExportedHasSnapshot(engine, a.cells[h]);
    }
  }

  lemma ExportedHasSnapshot(engine: Engine, s: SegmentKVState)
    ensures Exported(engine, s).Some? ==> Exported(engine, s).value.snapshot.Some?
  {
  }

  lemma {:induction false} AddCellStaysSized(engine: Engine, files: set<Snapshot>, a: Held, b: Held, s: SegmentKVState)
    requires b.entries == a.entries && b.cells == a.cells + [s]
    requires s.snapshot.Some? ==> s.snapshot.value in files || exists h :: 0 <= h < |a.cells| && a.cells[h].snapshot == s.snapshot
    ensures StaysSized(engine, files, a, b)
  {
    hide Works, SizeFits;
  }

  /** An entry was added with the size of its snapshot, and others may have been evicted. */
  lemma {:induction false} StoringStaysSized(engine: Engine, a: Held, b: Held, h: Handle)
    requires b.cells == a.cells && h < |a.cells| && a.cells[h].snapshot.Some?
    requires forall k | k in b.entries :: (k in a.entries && b.entries[k].bytes == a.entries[k].bytes) || b.entries[k].bytes == a.cells[h].BlobBytes()
    ensures StaysSized(engine, {}, a, b)
  {
    hide Works;
  }

  lemma {:induction false} ResetStaysSized(engine: Engine, kv: KVState, entries: map<Key, Entry>)
    ensures StaysSized(engine, {}, Held(kv.cells, entries), Held(Reset(kv).cells, entries))
  {
    var a, b := Held(kv.cells, entries), Held(Reset(kv).cells, entries);
    if b.cells == a.cells {
      SameStaysSized(engine, {}, a, b);
    } else {
      SetCellStaysSized(engine, a, b, kv.active.value.handle);
    }
  }

  /** The file of a segment, if there is one. */
  function FileOf(files: map<Key, Snapshot>, k: Key): set<Snapshot> {
    if k in files then {files[k]} else {}
  }

  /** Contexts were exported and released, sizes refreshed and entries evicted. */
  lemma {:induction false} KeepingStaysSized(engine: Engine, a: Held, b: Held, keys: set<Key>, budget: nat, session: Bytes, segment: int)
    requires PartlyReleased(engine, a.cells, b.cells) && forall k | k in a.entries :: a.entries[k].handle < |a.cells|
    requires Exports(engine) ==> Evicted(Resized(a.entries, keys, b.cells), b.entries, budget, session, segment) || b.entries == a.entries
    ensures StaysSized(engine, {}, a, b)
  {
    hide Works, Exports, PartlyReleased;
    forall limit: nat | Works(engine, limit) && Sized(a, limit) ensures Sized(b, limit) {
      WorkingCounts(engine, Content([], []));
      ReleasingSizes(engine, limit, a.cells, b.cells);
    }
  }

  // ----- What is not evicted -----

  /** The budget has room for so many segments. */
  predicate Ample(budget: nat, keys: set<Key>, limit: nat) {
    budget == 0 || |keys| * limit <= budget
  }

  /** At most `keys` came; and where the budget has room for all that was there and for them, nothing went. */
  ghost predicate NoneEvicted(engine: Engine, files: set<Snapshot>, keys: set<Key>, budget: nat, a: Held, now: set<Key>) {
    && now <= a.entries.Keys + keys
    && forall limit: nat | Works(engine, limit) && Sized(a, limit) && (forall f | f in files :: SizeFits(f.blobBytes, limit))
                           && Ample(budget, a.entries.Keys + keys, limit) ::
         a.entries.Keys <= now
  }

  lemma {:induction false} FewerAmple(budget: nat, fewer: set<Key>, more: set<Key>, limit: nat)
    requires fewer <= more && Ample(budget, more, limit)
    ensures Ample(budget, fewer, limit)
  {
    CardinalityOf(fewer, more);
    Monotone(|fewer|, |more|, limit);
  }

  lemma {:induction false} NoneEvictedTwice(engine: Engine, files: set<Snapshot>, keys: set<Key>, budget: nat, a: Held, b: Held, now: set<Key>)
    requires NoneEvicted(engine, files, keys, budget, a, b.entries.Keys) && NoneEvicted(engine, files, keys, budget, b, now)
    requires StaysSized(engine, files, a, b)
    ensures NoneEvicted(engine, files, keys, budget, a, now)
  {
    hide Works, Sized, SizeFits, Ample;
    forall limit: nat | Works(engine, limit) && Sized(a, limit) && (forall f | f in files :: SizeFits(f.blobBytes, limit))
                        && Ample(budget, a.entries.Keys + keys, limit)
      ensures a.entries.Keys <= now
    {
      FewerAmple(budget, b.entries.Keys + keys, a.entries.Keys + keys, limit);
    }
  }

  lemma {:induction false} NoneEvictedMore(engine: Engine, fewer: set<Snapshot>, more: set<Snapshot>, keys: set<Key>, keys': set<Key>,
                                           budget: nat, a: Held, now: set<Key>)
    requires NoneEvicted(engine, fewer, keys, budget, a, now) && fewer <= more && keys <= keys'
    ensures NoneEvicted(engine, more, keys', budget, a, now)
  {
    hide Works, Sized, SizeFits, Ample;
    forall limit: nat | Works(engine, limit) && Sized(a, limit) && (forall f | f in more :: SizeFits(f.blobBytes, limit))
                        && Ample(budget, a.entries.Keys + keys', limit)
      ensures a.entries.Keys <= now
    {
      FewerAmple(budget, a.entries.Keys + keys, a.entries.Keys + keys', limit);
    }
  }

  lemma SameNoneEvicted(engine: Engine, files: set<Snapshot>, keys: set<Key>, budget: nat, a: Held)
    ensures NoneEvicted(engine, files, keys, budget, a, a.entries.Keys)
  {
    hide Works, Sized, SizeFits, Ample;
  }

  lemma {:induction false} KeepingEvictsNone(engine: Engine, a: Held, b: Held, keys: set<Key>, budget: nat, session: Bytes, segment: int)
    requires PartlyReleased(engine, a.cells, b.cells) && forall k | k in a.entries :: a.entries[k].handle < |a.cells|
    requires Exports(engine) ==> Evicted(Resized(a.entries, keys, b.cells), b.entries, budget, session, segment) || b.entries == a.entries
    requires b.entries.Keys <= a.entries.Keys
    ensures NoneEvicted(engine, {}, {}, budget, a, b.entries.Keys)
  {
    hide Works, Exports, PartlyReleased, Evicted, Resized;
    forall limit: nat | Works(engine, limit) && Sized(a, limit) && Ample(budget, a.entries.Keys + {}, limit) ensures a.entries.Keys <= b.entries.Keys {
      WorkingCounts(engine, Content([], []));
      if b.entries != a.entries {
        ReleasingSizes(engine, limit, a.cells, b.cells);
        ResizedSizes(a.entries, keys, b.cells, limit);
        assert a.entries.Keys + {} == a.entries.Keys;
        assert |a.entries.Keys| == |a.entries| && |Resized(a.entries, keys, b.cells).Keys| == |Resized(a.entries, keys, b.cells)|;
        NothingToEvict(Resized(a.entries, keys, b.cells), b.entries, budget, session, segment, limit);
      }
    }
  }

  lemma {:induction false} ResizedSizes(entries: map<Key, Entry>, keys: set<Key>, cells: seq<SegmentKVState>, limit: nat)
    requires SizedCells(cells, limit) && forall k | k in entries :: entries[k].bytes <= limit
    ensures var resized := Resized(entries, keys, cells);
            resized.Keys == entries.Keys && forall k | k in resized :: resized[k].bytes <= limit
  {
  }

  /** A state was stored, and others may have been evicted for it. */
  lemma {:induction false} StoringEvictsNone(engine: Engine, a: Held, b: Held, k: Key, e: Entry, budget: nat)
    requires e.handle < |a.cells| && e.bytes == a.cells[e.handle].BlobBytes() && a.cells[e.handle].snapshot.Some?
    requires Evicted(a.entries[k := e], b.entries, budget, k.session, k.segment) || b.entries == a.entries
    ensures NoneEvicted(engine, {}, {k}, budget, a, b.entries.Keys)
  {
    hide Works, NoMoreThanNeeded, Used;
    forall limit: nat | Works(engine, limit) && Sized(a, limit) && Ample(budget, a.entries.Keys + {k}, limit) ensures a.entries.Keys <= b.entries.Keys {
      var stored := a.entries[k := e];
      assert stored.Keys == a.entries.Keys + {k} && |stored.Keys| == |stored|;
      if b.entries != a.entries {
        NothingToEvict(stored, b.entries, budget, k.session, k.segment, limit);
      }
    }
  }

  /** One question to the engine: the state of the cache when it was asked, and the answer. */
  datatype Ranking = Ranking(kv: KVState, ranked: Option<seq<int>>)

  /** Everything the engine was asked to rank, in order. */
  class RankLog {
    ghost var rankings: seq<Ranking>

    constructor ()
      ensures rankings == []
    {
      rankings := [];
    }
  }

  class SegmentKVManager {
    const table: HandleTable
    const resident: ResidentKVStore
    const log: RankLog
    var prefixes: map<Key, Handle>
    var active: Option<ActiveSegment>

    ghost predicate Valid()
      reads this, table, resident
    {
      && resident.table == table && resident.Valid()
      && (forall k | k in prefixes :: prefixes[k] < |table.cells|)
      && (active.Some? ==> active.value.handle < |table.cells|)
    }

    ghost function State(): KVState
      reads this, table, resident
    {
      KVState(table.cells, HandleMap(resident.entries), prefixes, active)
    }

    ghost function InMemory(): Held
      reads table`cells, resident`entries
    {
      Held(table.cells, resident.entries)
    }

    constructor ()
      ensures Valid() && fresh(table) && fresh(resident) && fresh(log)
      ensures State() == KVState([], map[], map[], None) && InMemory() == Held([], map[])
    {
      var t := new HandleTable();
      var r := new ResidentKVStore(t);
      var l := new RankLog();
      table, resident, log, prefixes, active := t, r, l, map[], None;
    }

    /** Ranks on the active context. */
    method RankActive(rank: ActiveKV -> Option<seq<int>>) returns (ranked: Option<seq<int>>)
      requires Valid() && active.Some?
      modifies log
      ensures ranked == rank(table.cells[active.value.handle].active)
      ensures log.rankings == old(log.rankings) + [Ranking(State(), ranked)]
    {
      hide Stamped;
      ranked := rank(table.cells[active.value.handle].active);
      log.rankings := log.rankings + [Ranking(State(), ranked)];
    }

    // ----- Letting go -----

    method ResetActive()
      requires Valid()
      modifies this`active, table
      ensures Valid()
      ensures State() == Reset(old(State()))
    {
      hide Stamped;
      if active.Some? {
        table.ReleaseContext(active.value.handle);
      }
      active := None;
    }

    method EvictActiveForCommand(creates: bool, session: Bytes)
      requires Valid()
      modifies this`active, table
      ensures Valid()
      ensures var a := old(active);
              State() == if creates || a == None || a.value.key.session == [] || a.value.key.session == session
                         then old(State()) else Reset(old(State()))
    {
      hide Stamped;
      if creates || active == None || active.value.key.session == [] || active.value.key.session == session {
        return;
      }
      ResetActive();
    }

    method EvictSession(session: Bytes)
      requires Valid()
      modifies this`active, table
      ensures Valid()
      ensures State() == Deactivated(old(State()), session)
    {
      hide Stamped;
      if active.Some? && active.value.key.session == session {
        ResetActive();
      }
    }

    method ClearResidentSession(session: Bytes)
      requires Valid()
      modifies this`prefixes, resident
      ensures Valid() && resident.budget == old(resident.budget)
      ensures State() == Uncached(old(State()), session)
    {
      hide Stamped;
      resident.ClearSession(session);
      prefixes := map k | k in prefixes && k.session != session :: prefixes[k];
    }

    method RemoveResidentSegment(k: Key)
      requires Valid()
      modifies this`prefixes, resident
      ensures Valid() && resident.budget == old(resident.budget)
      ensures State() == old(State()).(resident := old(State()).resident - {k}, prefixes := old(prefixes) - {k})
      ensures resident.entries == old(resident.entries) - {k}
    {
      hide Stamped;
      resident.Remove(k);
      prefixes := prefixes - {k};
    }

    /** The segment got another memory: its KV state becomes a prefix to extend later. */
    method StageIncrementalPrefix(k: Key)
      requires Valid()
      modifies this`prefixes, this`active, resident, table
      ensures Valid() && resident.budget == old(resident.budget)
      ensures State() == Staged(old(State()), k) && resident.entries == old(resident.entries) - {k}
    {
      hide Stamped;
      var h := resident.Find(k);
      if h == None {
        assert resident.entries == old(resident.entries);
        return;
      }
      prefixes := prefixes[k := h.value];
      resident.Remove(k);
      assert HandleMap(resident.entries) == HandleMap(old(resident.entries)) - {k};
      if active.Some? && active.value.key == k {
        ResetActive();
      }
    }

    /** Nothing survives the end of the process. */
    method Restart()
      requires Valid()
      modifies this`prefixes, this`active, resident, table
      ensures Valid() && State() == KVState([], map[], map[], None) && resident.budget == old(resident.budget)
    {
      table.cells, prefixes, active := [], map[], None;
      resident.entries, resident.residentBytes := map[], 0;
    }

    // ----- Keeping only some contexts live -----

    /** Exports and releases the live contexts of staged prefixes, all but that of `keep`. */
    method ReleasePrefixContexts(engine: Engine, keep: Option<Key>) returns (ok: bool)
      requires Valid()
      modifies table
      ensures Valid()
      ensures PartlyReleased(engine, old(table.cells), table.cells)
      ensures ok ==> HandlesReleased(engine, old(table.cells), table.cells, PrefixHandles(prefixes, keep))
      ensures Exports(engine) ==> ok
    {
      hide Stamped, Exports, Used;
      var todo := set k | k in prefixes && Some(k) != keep;
      ghost var all := todo;
      while todo != {}
        invariant Valid() && todo <= all
        invariant HandlesReleased(engine, old(table.cells), table.cells, set k | k in all && k !in todo :: prefixes[k])
        decreases |todo|
      {
        var k :| k in todo;
        ghost var before := table.cells;
        ok := table.ReleaseToSnapshot(engine, prefixes[k]);
        if Exports(engine) {
          ReleasingWorks(engine, before[prefixes[k]]);
        }
        ReleaseOneMore(engine, old(table.cells), before, prefixes[k], set j | j in all && j !in todo :: prefixes[j]);
        if !ok {
          return;
        }
        assert (set j | j in all && j !in todo - {k} :: prefixes[j]) == (set j | j in all && j !in todo :: prefixes[j]) + {prefixes[k]};
        todo := todo - {k};
      }
      assert (set k | k in all && k !in todo :: prefixes[k]) == PrefixHandles(prefixes, keep);
      ok := true;
    }

    /** Entering a command of `session`: other sessions' resident segments give up their contexts. */
    method KeepOnlySessionLive(engine: Engine, session: Bytes) returns (ok: bool)
      requires Valid()
      modifies resident, table
      ensures Valid() && resident.budget == old(resident.budget)
      ensures Shrinks(old(State()), State()) && prefixes == old(prefixes) && active == old(active)
      ensures ok ==> OthersAsleep(State(), session)
      ensures forall k | k in old(State()).resident && k.session == session :: k in State().resident
      ensures Exports(engine) ==> ok
      ensures StaysSized(engine, {}, old(InMemory()), InMemory())
      ensures NoneEvicted(engine, {}, {}, resident.budget, old(InMemory()), resident.entries.Keys)
    {
      hide Stamped, StaysSized, Sized, NoneEvicted;
      hide Exports, PartlyReleased, CellsFaithful, Evicted, Used, Resized;
      ghost var h0 := InMemory();
      ok := resident.KeepOnlySessionLive(engine, session);
      KeepingStaysSized(engine, h0, InMemory(), KeysOfOthers(h0.entries, session), resident.budget, session, -1);
      KeepingEvictsNone(engine, h0, InMemory(), KeysOfOthers(h0.entries, session), resident.budget, session, -1);
      PartlyReleasedIsFaithful(engine, old(table.cells), table.cells);
      if ok {
        ReleasedAreDead(engine, old(table.cells), table.cells,
                        HandlesOf(old(resident.entries), KeysOfOthers(old(resident.entries), session)));
      }
    }

    /** The first step: the other resident segments of the session. */
    method PutBesideToSleep(engine: Engine, keep: Key) returns (ok: bool, ghost others: set<Handle>)
      requires Valid()
      modifies resident, table
      ensures Valid() && resident.budget == old(resident.budget)
      ensures Shrinks(old(State()), State()) && Within(State().resident, old(State()).resident)
      ensures forall h: Handle :: h in others <==>
                exists k | k in old(State()).resident :: k.session == keep.session && k != keep && old(State()).resident[k] == h
      ensures ok ==> HandlesReleased(engine, old(table.cells), table.cells, others)
      ensures keep in old(State()).resident ==> keep in State().resident
      ensures Exports(engine) ==> ok
      ensures StaysSized(engine, {}, old(InMemory()), InMemory())
      ensures NoneEvicted(engine, {}, {}, resident.budget, old(InMemory()), resident.entries.Keys)
      ensures SameHandlesLeft(old(resident.entries), resident.entries) && resident.wrapped == old(resident.wrapped)
    {
      hide Stamped, StaysSized, Sized, NoneEvicted;
      hide Exports, Used, Faithful, HandlesReleased, PartlyReleased, Shrinks, Evicted, Resized;
      ghost var s0 := State();
      ghost var h0 := InMemory();
      others := HandlesOf(resident.entries, KeysBeside(resident.entries, keep));
      ok := resident.KeepOnlySegmentLive(engine, keep);
      KeepingStaysSized(engine, h0, InMemory(), KeysBeside(h0.entries, keep), resident.budget, keep.session, keep.segment);
      KeepingEvictsNone(engine, h0, InMemory(), KeysBeside(h0.entries, keep), resident.budget, keep.session, keep.segment);
      ReleasingShrinks(engine, s0, State());
    }

    method KeepOnlySegmentLive(engine: Engine, keep: Key) returns (ok: bool)
      requires Valid()
      modifies this`active, resident, table
      ensures Valid() && resident.budget == old(resident.budget)
      ensures Shrinks(old(State()), State()) && prefixes == old(prefixes)
      ensures ok ==> OnlySegmentAwake(State(), keep)
      ensures ok ==> UntouchedExceptOthers(old(State()), State(), keep)
      ensures keep in old(State()).resident ==> keep in State().resident
      ensures Exports(engine) ==> ok
      ensures StaysSized(engine, {}, old(InMemory()), InMemory())
      ensures NoneEvicted(engine, {}, {}, resident.budget, old(InMemory()), resident.entries.Keys)
      ensures SameHandlesLeft(old(resident.entries), resident.entries) && resident.wrapped == old(resident.wrapped)
    {
      hide SameHandlesLeft;
      hide ResidentKVStore.Valid, StaysSized, Sized, NoneEvicted;
      hide Exports, Faithful, OnlySegmentAwake, UntouchedExceptOthers, HandlesReleased, PartlyReleased, Shrinks;
      ghost var s0 := State();
      ghost var h0 := InMemory();
      ValidHandles(resident);
      ghost var others;
      ok, others := PutBesideToSleep(engine, keep);
      ghost var s1 := State();
      ghost var h1 := InMemory();
      if !ok {
        return;
      }
      ValidHandles(resident);
      ok := ReleasePrefixContexts(engine, Some(keep));
      ghost var s2 := State();
      ghost var h2 := InMemory();
      KeepingStaysSized(engine, h1, h2, {}, 0, [], 0);
      StaysSizedTwice(engine, {}, h0, h1, h2);
      ReleasingShrinks(engine, s1, s2);
      ShrinkingTwice(s0, s1, s2);
      if !ok {
        return;
      }
      if active.Some? && active.value.key != keep {
        ResetActive();
      }
      ResetShrinks(s2);
      ResetStaysSized(engine, s2, h2.entries);
      SameStaysSized(engine, {}, h2, h2);
      StaysSizedTwice(engine, {}, h0, h2, InMemory());
      ShrinkingTwice(s0, s2, State());
      KeepLeavesOneAwake(engine, s0, s1, s2, State(), keep, others);
      ok := true;
    }

    /** Before and after a oneshot search: nothing stays live. */
    method ReleaseAllLiveContexts(engine: Engine) returns (ok: bool)
      requires Valid()
      modifies this`active, resident, table
      ensures Valid() && resident.budget == old(resident.budget)
      ensures Shrinks(old(State()), State()) && prefixes == old(prefixes) && active == None
      ensures State().resident == old(State()).resident
      ensures ok ==> forall h: Handle | Reachable(State(), h) :: !LiveAt(State(), h)
      ensures Exports(engine) ==> ok
    {
      hide Stamped, Exports, CellsFaithful, Reachable, Used;
      ghost var s0 := State();
      ok := ReleaseActiveAndPrefixes(engine);
      ghost var s2 := State();
      if !ok {
        return;
      }
      ok := resident.ReleaseAllLiveContexts(engine);
      ReleasingShrinks(engine, s2, State());
      ShrinkingTwice(s0, s2, State());
      if ok {
        ReleasedAreDead(engine, s2.cells, table.cells, HandlesOf(old(resident.entries), old(resident.entries).Keys));
        AllReleased(s2, State());
      }
    }

    method ReleaseActiveAndPrefixes(engine: Engine) returns (ok: bool)
      requires Valid()
      modifies this`active, table
      ensures Valid() && active == None
      ensures Shrinks(old(State()), State())
      ensures ok ==> forall k | k in prefixes :: table.cells[prefixes[k]].active.Dead?
      ensures Exports(engine) ==> ok
    {
      hide Stamped, Exports, CellsFaithful;
      ghost var s0 := State();
      ResetActive();
      ghost var s1 := State();
      ResetShrinks(s0);
      ok := ReleasePrefixContexts(engine, None);
      ReleasingShrinks(engine, s1, State());
      ShrinkingTwice(s0, s1, State());
      if ok {
        ReleasedAreDead(engine, s1.cells, table.cells, PrefixHandles(prefixes, None));
        assert forall k | k in prefixes :: prefixes[k] in PrefixHandles(prefixes, None);
      }
    }

    // ----- Getting a segment into memory -----

    /** Puts a finished KV state into the store; others may be evicted for it. */
    method StoreResident(k: Key, h: Handle, ghost want: map<Key, Content>) returns (ok: bool)
      requires Valid() && Coherent(State(), want)
      requires k in want && h < |table.cells| && Holds(table.cells[h], want[k]) && OnlyFor(State(), k, h)
      modifies resident
      ensures Valid() && Coherent(State(), want) && resident.budget == old(resident.budget)
      ensures prefixes == old(prefixes) && active == old(active) && table.cells == old(table.cells)
      ensures ok ==> IsResident(State(), k, h) && Within(State().resident, old(State()).resident[k := h])
      ensures forall j | j in resident.entries ::
                || (j in old(resident.entries) && resident.entries[j].bytes == old(resident.entries)[j].bytes)
                || resident.entries[j].bytes == table.cells[h].BlobBytes()
      ensures !ok ==> State() == old(State()) && !resident.HasRoom(table.cells[h].BlobBytes())
      ensures forall engine: Engine :: NoneEvicted(engine, {}, {k}, resident.budget, old(InMemory()), resident.entries.Keys)
      ensures ok ==> UsedLast(resident.entries, k, resident.wrapped)
    {
      hide UsedLast;
      hide Stamped, Used, Total, Coherent, Holds, OnlyFor, NoMoreThanNeeded, NoneEvicted;
      ghost var h0 := InMemory();
      HoldsSnapshot(table.cells[h], want[k]);
      ghost var s0 := State();
      ok := resident.Store(k, h);
      forall engine: Engine ensures NoneEvicted(engine, {}, {k}, resident.budget, h0, resident.entries.Keys) {
        StoringEvictsNone(engine, h0, InMemory(), k, Entry(h, table.cells[h].BlobBytes(), old(resident.clock) + 1), resident.budget);
      }
      if !ok {
        RefusedHasNoRoom(resident.entries, k, Entry(h, table.cells[h].BlobBytes(), old(resident.clock) + 1));
      } else {
        assert Within(State().resident, s0.resident[k := h]);
        StoringKeepsCoherence(s0, State(), want, k, h);
      }
    }

    /** Makes a finished KV state resident and its segment the only live one. */
    method InstallResident(engine: Engine, k: Key, h: Handle, ghost want: map<Key, Content>) returns (ok: bool)
      requires Valid() && Coherent(State(), want)
      requires k in want && h < |table.cells| && Holds(table.cells[h], want[k]) && OnlyFor(State(), k, h)
      modifies this`active, resident, table
      ensures Valid() && Coherent(State(), want) && resident.budget == old(resident.budget)
      ensures prefixes == old(prefixes) && OthersOnlyShrink(old(State()), State(), k)
      ensures ok ==> IsResident(State(), k, h) && table.cells[h] == old(table.cells)[h] && OnlySegmentAwake(State(), k)
      ensures !ok ==> !Exports(engine) || !resident.HasRoom(old(table.cells)[h].BlobBytes())
      ensures StaysSized(engine, {}, old(InMemory()), InMemory())
      ensures NoneEvicted(engine, {}, {k}, resident.budget, old(InMemory()), resident.entries.Keys)
      ensures ok ==> UsedLast(resident.entries, k, resident.wrapped)
    {
      hide UsedLast;
      hide Stamped, StaysSized, Sized, NoneEvicted;
      hide Coherent, Holds, OnlyFor, OnlySegmentAwake, Faithful, Exports, ResidentKVStore.HasRoom;
      ghost var s0 := State();
      ghost var h0 := InMemory();
      SameStaysSized(engine, {}, h0, h0);
      ok := StoreResident(k, h, want);
      ghost var s1 := State();
      ghost var h1 := InMemory();
      HoldsSnapshot(table.cells[h], want[k]);
      StoringStaysSized(engine, h0, h1, h);
      if !ok {
        NothingChanges(s0, k);
        return;
      }
      InstalledIsUntouched(s1, want, k, h);
      ghost var entries := resident.entries;
      ok := KeepOnlySegmentLive(engine, k);
      StaysLast(entries, resident.entries, k, resident.wrapped);
      StaysSizedTwice(engine, {}, h0, h1, InMemory());
      NoneEvictedMore(engine, {}, {}, {}, {k}, resident.budget, h1, resident.entries.Keys);
      NoneEvictedTwice(engine, {}, {k}, resident.budget, h0, h1, resident.entries.Keys);
      ShrinkingKeepsCoherence(s1, State(), want);
      ShrinkingOthers(s0, s1, State(), k);
    }

    method TakeIncrementalPrefix(k: Key) returns (h: Option<Handle>)
      requires Valid()
      modifies this`prefixes
      ensures Valid() && State() == old(State()).(prefixes := old(prefixes) - {k})
      ensures h == if k in old(prefixes) then Some(old(prefixes)[k]) else None
    {
      hide Stamped;
      h := if k in prefixes then Some(prefixes[k]) else None;
      prefixes := prefixes - {k};
    }

    /** Turns a taken prefix into the KV state of all of `content`: in place when its context has
        room, otherwise in a new handle hydrated from the prefix's snapshot. */
    method ExtendPrefix(engine: Engine, p: Handle, content: Content, tokens: nat, ghost want: map<Key, Content>)
      returns (h: Option<Handle>)
      requires Valid() && Coherent(State(), want)
      requires p < |table.cells| && !Reachable(State(), p) && HoldsPrefix(table.cells[p], content)
      requires engine.countTokens(content) == Some(tokens)
      modifies table
      ensures Valid() && Coherent(State(), want)
      ensures UnheldChanged(old(State()), State())
      ensures h.Some? ==> h.value < |table.cells| && !Reachable(State(), h.value) && LiveAt(State(), h.value)
                          && Holds(table.cells[h.value], content)
                          && WasExtended(engine, old(table.cells)[p], content, table.cells[h.value])
      ensures forall limit :: Works(engine, limit) ==> h.Some? && table.cells[h.value].BlobBytes() <= limit
      ensures StaysSized(engine, {}, old(InMemory()), InMemory())
    {
      hide Stamped, StaysSized, Sized;
      hide Coherent, Reachable, Works, WasExtended;
      ghost var s0 := State();
      h := GrowPrefix(engine, p, content, tokens);
      UnheldChangeKeepsCoherence(s0, State(), want, p);
    }

    method GrowPrefix(engine: Engine, p: Handle, content: Content, tokens: nat) returns (h: Option<Handle>)
      requires Valid() && p < |table.cells| && HoldsPrefix(table.cells[p], content) && engine.countTokens(content) == Some(tokens)
      modifies table
      ensures Valid()
      ensures |old(table.cells)| <= |table.cells|
      ensures forall j | 0 <= j < |old(table.cells)| && j != p :: table.cells[j] == old(table.cells)[j]
      ensures h.Some? ==> (h.value == p || |old(table.cells)| <= h.value) && h.value < |table.cells|
                          && table.cells[h.value].active.Live? && Holds(table.cells[h.value], content)
                          && WasExtended(engine, old(table.cells)[p], content, table.cells[h.value])
      ensures forall limit :: Works(engine, limit) ==> h.Some? && table.cells[h.value].BlobBytes() <= limit
      ensures StaysSized(engine, {}, old(InMemory()), InMemory())
    {
      hide Stamped, StaysSized, Sized, RoomToGrow;
      hide Works;
      ghost var h0 := InMemory();
      h := ContextWithRoom(engine, p, content, tokens);
      if h.Some? {
        ghost var h1 := InMemory();
        var grown := GrowContext(engine, h.value, content);
        StaysSizedTwice(engine, {}, h0, h1, InMemory());
        if !grown {
          h := None;
        }
      }
    }

    /** The prefix's own context when it is long enough, else a new one from its snapshot. */
    method ContextWithRoom(engine: Engine, p: Handle, ghost content: Content, tokens: nat) returns (h: Option<Handle>)
      requires Valid() && p < |table.cells| && HoldsPrefix(table.cells[p], content)
      modifies table
      ensures Valid()
      ensures |old(table.cells)| <= |table.cells|
      ensures forall j | 0 <= j < |old(table.cells)| && j != p :: table.cells[j] == old(table.cells)[j]
      ensures h.Some? ==> (h.value == p || |old(table.cells)| == h.value) && h.value < |table.cells|
                          && table.cells[h.value].active.Live? && HoldsPrefix(table.cells[h.value], content)
                          && Some(table.cells[h.value].active.metadata) == old(table.cells)[p].Metadata()
                          && RoomToGrow(engine, table.cells[h.value].active.metadata, tokens, table.cells[h.value].active.length)
      ensures old(table.cells)[p].active.Live? && old(table.cells)[p].active.length >= engine.requiredContext(tokens) ==>
                h == Some(p) && table.cells == old(table.cells)
      ensures forall limit :: Works(engine, limit) ==> h.Some?
      ensures StaysSized(engine, {}, old(InMemory()), InMemory())
    {
      hide Stamped, StaysSized, Sized;
      ghost var h0 := InMemory();
      SameStaysSized(engine, {}, h0, h0);
      if table.cells[p].active.Live? && table.cells[p].active.length >= engine.requiredContext(tokens) {
        return Some(p);
      }
      var exported := table.EnsureSnapshot(engine, p);
      ghost var h1 := InMemory();
      ExportStaysSized(engine, h0, h1, p);
      if !exported {
        return None;
      }
      table.ReleaseContext(p);
      ghost var h2 := InMemory();
      SetCellStaysSized(engine, h1, h2, p);
      StaysSizedTwice(engine, {}, h0, h1, h2);
      h := HydrateCopy(engine, table.cells[p].snapshot.value, tokens);
      StaysSizedTwice(engine, {}, h0, h2, InMemory());
    }

    /** A new state hydrated from a snapshot for so many tokens. */
    method HydrateCopy(engine: Engine, snapshot: Snapshot, tokens: nat) returns (h: Option<Handle>)
      requires Valid() && exists j :: 0 <= j < |table.cells| && table.cells[j].snapshot == Some(snapshot)
      modifies table
      ensures Valid() && old(table.cells) <= table.cells
      ensures h.Some? ==>
                && h.value == |old(table.cells)| && h.value < |table.cells|
                && engine.hydrate(snapshot, tokens).Some?
                && table.cells[h.value] == SegmentKVState(Some(snapshot), Live(snapshot.metadata, engine.hydrate(snapshot, tokens).value))
      ensures h == None ==> engine.hydrate(snapshot, tokens) == None
      ensures StaysSized(engine, {}, old(InMemory()), InMemory())
    {
      hide Stamped, StaysSized, Sized;
      ghost var h0 := InMemory();
      var extended := table.MakeHandle(SegmentKVState(Some(snapshot), Dead));
      ghost var h1 := InMemory();
      AddCellStaysSized(engine, {}, h0, h1, SegmentKVState(Some(snapshot), Dead));
      var length := engine.hydrate(snapshot, tokens);
      if length == None {
        return None;
      }
      table.SetActive(extended, Live(snapshot.metadata, length.value));
      SetCellStaysSized(engine, h1, InMemory(), extended);
      StaysSizedTwice(engine, {}, h0, h1, InMemory());
      h := Some(extended);
    }

    /** Appends the memories that the context does not have yet, and exports the result. */
    method GrowContext(engine: Engine, h: Handle, content: Content) returns (ok: bool)
      requires Valid() && h < |table.cells| && table.cells[h].active.Live? && HoldsPrefix(table.cells[h], content)
      modifies table
      ensures Valid() && |table.cells| == |old(table.cells)|
      ensures forall j | 0 <= j < |table.cells| && j != h :: table.cells[j] == old(table.cells)[j]
      ensures ok ==> table.cells[h].active.Live? && Holds(table.cells[h], content)
                     && table.cells[h].active.length == old(table.cells)[h].active.length
                     && ExtendedFrom(engine, old(table.cells)[h].active.metadata.content, content, table.cells[h])
      ensures forall limit :: Works(engine, limit) ==> ok && table.cells[h].BlobBytes() <= limit
      ensures StaysSized(engine, {}, old(InMemory()), InMemory())
    {
      hide Stamped, StaysSized, Sized;
      ghost var h0 := InMemory();
      var context := table.cells[h].active;
      var prefix := context.metadata.content;
      var appended := content.memories[|prefix.memories|..];
      assert prefix.memories + appended == content.memories;
      var grown := engine.extend(context, appended);
      if grown == None {
        table.ReleaseContext(h);
        SetCellStaysSized(engine, h0, InMemory(), h);
        return false;
      }
      table.SetActive(h, Live(KVMetadata(Content(prefix.system, prefix.memories + appended), grown.value), context.length));
      ghost var h1 := InMemory();
      SetCellStaysSized(engine, h0, h1, h);
      ok := table.EnsureSnapshot(engine, h);
      ghost var h2 := InMemory();
      ExportStaysSized(engine, h1, h2, h);
      StaysSizedTwice(engine, {}, h0, h1, h2);
      if !ok {
        table.ReleaseContext(h);
        SetCellStaysSized(engine, h2, InMemory(), h);
        StaysSizedTwice(engine, {}, h0, h2, InMemory());
      }
    }

    /** Extends a staged prefix of segment `k`, if there is one, to all of `content`. */
    method TryPrepareIncremental(engine: Engine, k: Key, content: Content, ghost want: map<Key, Content>)
      returns (h: Option<Handle>)
      requires Valid() && Coherent(State(), want)
      requires k in want && want[k] == content && k !in State().resident
      modifies this, resident, table
      ensures Valid() && Coherent(State(), want) && resident.budget == old(resident.budget)
      ensures prefixes == old(prefixes) - {k} && OthersOnlyShrink(old(State()), State(), k)
      ensures h.Some? ==> Prepared(State(), k, h.value) && active == Some(ActiveSegment(k, h.value)) && LiveAt(State(), h.value)
                          && HasPrefix(old(State()), k) && h.value < |table.cells|
                          && WasExtended(engine, old(State()).cells[old(prefixes)[k]], content, table.cells[h.value])
      ensures forall limit :: Works(engine, limit) && resident.HasRoom(limit) && HasPrefix(old(State()), k) ==> h.Some?
      ensures StaysSized(engine, {}, old(InMemory()), InMemory())
      ensures NoneEvicted(engine, {}, {k}, resident.budget, old(InMemory()), resident.entries.Keys)
      ensures h.Some? ==> UsedLast(resident.entries, k, resident.wrapped)
    {
      hide UsedLast;
      hide Stamped, StaysSized, Sized, NoneEvicted;
      hide Coherent, HoldsPrefix, Holds, OnlySegmentAwake, Reachable, Works, WasExtended, ResidentKVStore.HasRoom;
      ghost var s0 := State();
      ghost var h0 := InMemory();
      SameStaysSized(engine, {}, h0, h0);
      NothingChanges(s0, k);
      SameNoneEvicted(engine, {}, {k}, resident.budget, h0);
      h := None;
      var prefix := TakeIncrementalPrefix(k);
      TakingShrinks(s0, State(), want, k);
      ShrinkingKeepsCoherence(s0, State(), want);
      if prefix == None {
        return;
      }
      PrefixIsUsable(table.cells[prefix.value], content);
      WorkingCounts(engine, content);
      ghost var s1 := State();
      var metadata := table.cells[prefix.value].Metadata();
      if metadata == None || metadata.value.content.system != content.system || metadata.value.content.memories == [] ||
         !(metadata.value.content.memories < content.memories) {
        return;
      }
      var tokens := engine.countTokens(content);
      if tokens == None {
        return;
      }
      var kept := KeepOnlySegmentLive(engine, k);
      ghost var s2 := State();
      ghost var h2 := InMemory();
      ShrinkingKeepsCoherence(s1, s2, want);
      ShrinkingOthers(s0, s1, s2, k);
      NoneEvictedMore(engine, {}, {}, {}, {k}, resident.budget, h0, resident.entries.Keys);
      if !kept {
        return;
      }
      LoosePrefix(s1, s2, prefix.value, content, k);
      var extended := ExtendPrefix(engine, prefix.value, content, tokens.value, want);
      ghost var s3 := State();
      ghost var h3 := InMemory();
      StaysSizedTwice(engine, {}, h0, h2, h3);
      UnheldChangeIsOthers(s2, s3, k);
      OthersShrinkTwice(s0, s2, s3, k);
      if extended == None {
        return;
      }
      var installed := InstallPrepared(engine, k, extended.value, want);
      StaysSizedTwice(engine, {}, h0, h3, InMemory());
      NoneEvictedTwice(engine, {}, {k}, resident.budget, h0, h3, resident.entries.Keys);
      OthersShrinkTwice(s0, s3, State(), k);
      if installed {
        h := extended;
      } else {
        RoomForLess(resident, s3.cells[extended.value].BlobBytes());
      }
    }

    /** The last steps of preparing a segment from a state that nothing holds yet. */
    method InstallPrepared(engine: Engine, k: Key, h: Handle, ghost want: map<Key, Content>) returns (ok: bool)
      requires Valid() && Coherent(State(), want) && k !in prefixes
      requires k in want && h < |table.cells| && Holds(table.cells[h], want[k]) && !Reachable(State(), h)
      modifies this`active, resident, table
      ensures Valid() && Coherent(State(), want) && resident.budget == old(resident.budget)
      ensures prefixes == old(prefixes) && OthersOnlyShrink(old(State()), State(), k)
      ensures ok ==> Prepared(State(), k, h) && table.cells[h] == old(table.cells)[h]
      ensures ok && LiveAt(State(), h) ==> active == Some(ActiveSegment(k, h))
      ensures !ok ==> !Exports(engine) || !resident.HasRoom(old(table.cells)[h].BlobBytes())
      ensures StaysSized(engine, {}, old(InMemory()), InMemory())
      ensures NoneEvicted(engine, {}, {k}, resident.budget, old(InMemory()), resident.entries.Keys)
      ensures ok ==> UsedLast(resident.entries, k, resident.wrapped)
    {
      hide UsedLast;
      hide Stamped, StaysSized, Sized, NoneEvicted;
      hide Coherent, Holds, Faithful, Exports, ResidentKVStore.HasRoom;
      ok := InstallResident(engine, k, h, want);
      if ok && table.cells[h].active.Live? {
        ActivateResident(k, h, want);
      }
    }

    /** The active slot comes to share the handle of a resident segment. */
    method ActivateResident(k: Key, h: Handle, ghost want: map<Key, Content>)
      requires Valid() && Coherent(State(), want) && IsResident(State(), k, h)
      modifies this`active
      ensures Valid() && Coherent(State(), want)
      ensures State() == old(State()).(active := Some(ActiveSegment(k, h)))
      ensures OnlySegmentAwake(old(State()), k) ==> OnlySegmentAwake(State(), k)
    {
      hide Stamped;
      active := Some(ActiveSegment(k, h));
    }

    /** A segment that is resident already only has to become the only live one. */
    method PrepareFound(engine: Engine, k: Key, h: Handle, ghost want: map<Key, Content>) returns (ok: bool)
      requires Valid() && Coherent(State(), want) && IsResident(State(), k, h)
      modifies this`active, resident, table
      ensures Valid() && Coherent(State(), want) && resident.budget == old(resident.budget)
      ensures prefixes == old(prefixes) && OthersOnlyShrink(old(State()), State(), k)
      ensures ok ==> Prepared(State(), k, h)
      ensures ok && LiveAt(State(), h) ==> active == Some(ActiveSegment(k, h))
      ensures Exports(engine) ==> ok
      ensures BaseTokens(h) == TokensIn(old(State()), k)
      ensures StaysSized(engine, {}, old(InMemory()), InMemory())
      ensures NoneEvicted(engine, {}, {}, resident.budget, old(InMemory()), resident.entries.Keys)
      ensures ok && old(UsedLast(resident.entries, k, resident.wrapped)) ==> UsedLast(resident.entries, k, resident.wrapped)
    {
      hide UsedLast;
      hide Stamped, StaysSized, Sized, NoneEvicted;
      hide Coherent, OnlySegmentAwake, Faithful, Exports;
      ghost var s0 := State();
      ok := KeepOnlySegmentLive(engine, k);
      if old(UsedLast(resident.entries, k, resident.wrapped)) {
        StaysLast(old(resident.entries), resident.entries, k, resident.wrapped);
      }
      ShrinkingKeepsTokens(s0, State(), want);
      ShrinkingKeepsCoherence(s0, State(), want);
      ShrinkingOthers(s0, s0, State(), k);
      if ok && table.cells[h].active.Live? {
        ActivateResident(k, h, want);
      }
    }

    /** Makes a segment resident from a KV file that loads for its content. */
    method LoadResident(engine: Engine, k: Key, file: Snapshot, ghost want: map<Key, Content>) returns (h: Option<Handle>)
      requires Valid() && Coherent(State(), want) && k in want && k !in prefixes
      requires file.metadata.content == want[k]
      modifies this`active, resident, table
      ensures Valid() && Coherent(State(), want) && resident.budget == old(resident.budget)
      ensures prefixes == old(prefixes) && OthersOnlyShrink(old(State()), State(), k)
      ensures h.Some? ==> Prepared(State(), k, h.value) && !LiveAt(State(), h.value)
                          && h.value < |table.cells| && table.cells[h.value] == SegmentKVState(Some(file), Dead)
      ensures h == None ==> !Exports(engine) || !resident.HasRoom(file.blobBytes)
      ensures StaysSized(engine, {file}, old(InMemory()), InMemory())
      ensures NoneEvicted(engine, {file}, {k}, resident.budget, old(InMemory()), resident.entries.Keys)
      ensures h.Some? ==> UsedLast(resident.entries, k, resident.wrapped)
    {
      hide UsedLast;
      hide Stamped, StaysSized, Sized, NoneEvicted;
      hide Coherent, Faithful, OnlySegmentAwake, Exports, ResidentKVStore.HasRoom;
      ghost var s0 := State();
      ghost var h0 := InMemory();
      var loaded := table.MakeHandle(SegmentKVState(Some(file), Dead));
      ghost var s1 := State();
      ghost var h1 := InMemory();
      AddCellStaysSized(engine, {file}, h0, h1, SegmentKVState(Some(file), Dead));
      NewHandleIsLoose(s0, s1, want, k);
      var ok := InstallPrepared(engine, k, loaded, want);
      StaysSizedMore(engine, {}, {file}, h1, InMemory());
      StaysSizedTwice(engine, {file}, h0, h1, InMemory());
      SameNoneEvicted(engine, {file}, {k}, resident.budget, h0);
      NoneEvictedMore(engine, {}, {file}, {k}, {k}, resident.budget, h1, resident.entries.Keys);
      NoneEvictedTwice(engine, {file}, {k}, resident.budget, h0, h1, resident.entries.Keys);
      OthersShrinkTwice(s0, s1, State(), k);
      h := if ok then Some(loaded) else None;
    }

    /** Builds a segment's KV state from its texts. */
    method BuildResident(engine: Engine, k: Key, content: Content, ghost want: map<Key, Content>) returns (h: Option<Handle>)
      requires Valid() && Coherent(State(), want) && k in want && want[k] == content && k !in prefixes
      modifies this`active, resident, table
      ensures Valid() && Coherent(State(), want) && resident.budget == old(resident.budget)
      ensures prefixes == old(prefixes) && OthersOnlyShrink(old(State()), State(), k)
      ensures h.Some? ==> Prepared(State(), k, h.value) && active == Some(ActiveSegment(k, h.value)) && LiveAt(State(), h.value)
                          && h.value < |table.cells| && WasBuilt(engine, content, table.cells[h.value])
      ensures forall limit :: Works(engine, limit) && resident.HasRoom(limit) ==> h.Some?
      ensures StaysSized(engine, {}, old(InMemory()), InMemory())
      ensures NoneEvicted(engine, {}, {k}, resident.budget, old(InMemory()), resident.entries.Keys)
      ensures h.Some? ==> UsedLast(resident.entries, k, resident.wrapped)
    {
      hide UsedLast;
      hide Stamped, StaysSized, Sized, NoneEvicted;
      hide Coherent, Faithful, OnlySegmentAwake, Exports, Works, ResidentKVStore.HasRoom;
      ghost var s0 := State();
      ghost var h0 := InMemory();
      h := None;
      WorkingCounts(engine, content);
      var kept := KeepOnlySegmentLive(engine, k);
      ghost var s1 := State();
      ghost var h1 := InMemory();
      ShrinkingKeepsCoherence(s0, s1, want);
      ShrinkingOthers(s0, s0, s1, k);
      NoneEvictedMore(engine, {}, {}, {}, {k}, resident.budget, h0, resident.entries.Keys);
      if !kept {
        return;
      }
      var built := engine.build(content);
      if built == None {
        return;
      }
      var rebuilt, exported := ExportBuilt(engine, content, built.value.0, built.value.1);
      ghost var s2 := State();
      ghost var h3 := InMemory();
      StaysSizedTwice(engine, {}, h0, h1, h3);
      NewHandleIsLoose(s1, s2, want, k);
      OthersShrinkTwice(s0, s1, s2, k);
      if !exported {
        return;
      }
      var ok := InstallPrepared(engine, k, rebuilt, want);
      StaysSizedTwice(engine, {}, h0, h3, InMemory());
      NoneEvictedTwice(engine, {}, {k}, resident.budget, h0, h3, resident.entries.Keys);
      OthersShrinkTwice(s0, s2, State(), k);
      if ok {
        h := Some(rebuilt);
      } else {
        RoomForLess(resident, s2.cells[rebuilt].BlobBytes());
      }
    }

    /** A new handle for a context that was just built, exported when possible. */
    method ExportBuilt(engine: Engine, content: Content, tokens: nat, length: nat) returns (h: Handle, ok: bool)
      requires Valid()
      modifies table
      ensures Valid() && h == |old(table.cells)| && |table.cells| == h + 1 && old(table.cells) == table.cells[..h]
      ensures table.cells[h].active == Live(KVMetadata(content, tokens), length)
      ensures ok ==> Holds(table.cells[h], content)
      ensures forall limit :: Works(engine, limit) ==> ok && table.cells[h].BlobBytes() <= limit
      ensures StaysSized(engine, {}, old(InMemory()), InMemory())
    {
      hide Stamped, StaysSized, Sized;
      ghost var h0 := InMemory();
      h := table.MakeHandle(SegmentKVState(None, Live(KVMetadata(content, tokens), length)));
      ghost var h1 := InMemory();
      AddCellStaysSized(engine, {}, h0, h1, table.cells[h]);
      ok := table.EnsureSnapshot(engine, h);
      ExportStaysSized(engine, h1, InMemory(), h);
      StaysSizedTwice(engine, {}, h0, h1, InMemory());
    }

    /** Brings a segment into memory: found, extended from a staged prefix, loaded from its file,
        or, when that is allowed, built. */
    method PrepareResidentSegment(engine: Engine, disk: CacheDisk, session: Session, id: int, allowBuild: bool,
                                  ghost want: map<Key, Content>)
      returns (h: Option<Handle>)
      requires Valid() && Coherent(State(), want)
      requires Wants(want, session.store, session.segments, id)
      modifies this, resident, table, session`metadata
      ensures Valid() && Coherent(State(), want) && resident.budget == old(resident.budget)
      ensures OthersOnlyShrink(old(State()), State(), Key(session.store.sessionId, id))
      ensures Within(prefixes, old(prefixes))
      ensures h.Some? ==> Prepared(State(), Key(session.store.sessionId, id), h.value)
                          && (LiveAt(State(), h.value) ==> active == Some(ActiveSegment(Key(session.store.sessionId, id), h.value)))
      ensures PrepareMarks(engine, disk.files, session.store, session.segments, id, allowBuild,
                           Key(session.store.sessionId, id) in old(State()).resident, h.Some?,
                           old(session.metadata), session.metadata)
      ensures h.Some? ==>
                && ContentOf(session.store, session.segments, id).Some?
                && PreparedFrom(engine, disk.files, old(session.metadata), id, old(State()), Key(session.store.sessionId, id),
                                ContentOf(session.store, session.segments, id).value, allowBuild, State(), h.value)
      ensures forall limit :: Works(engine, limit) && Fits(resident, disk.files, Key(session.store.sessionId, id), limit)
                && ContentOf(session.store, session.segments, id).Some?
                && CanPrepare(engine, disk.files, old(session.metadata), id, old(State()), Key(session.store.sessionId, id),
                              ContentOf(session.store, session.segments, id).value, allowBuild)
                ==> h.Some?
      ensures h.Some? && Key(session.store.sessionId, id) !in old(State()).resident ==>
                id in session.metadata && session.metadata[id].tokenCount == BaseTokens(h.value)
      ensures h.Some? && Key(session.store.sessionId, id) in old(State()).resident ==>
                BaseTokens(h.value) == TokensIn(old(State()), Key(session.store.sessionId, id))
      ensures StaysSized(engine, FileOf(disk.files, Key(session.store.sessionId, id)), old(InMemory()), InMemory())
      ensures NoneEvicted(engine, FileOf(disk.files, Key(session.store.sessionId, id)), {Key(session.store.sessionId, id)}, resident.budget, old(InMemory()),
                          resident.entries.Keys)
      ensures h.Some? ==> UsedLast(resident.entries, Key(session.store.sessionId, id), resident.wrapped)
    {
      hide UsedLast;
      hide Stamped, StaysSized, Sized, NoneEvicted;
      hide Coherent, OthersOnlyShrink, Prepared, PrepareMarks, Works, Exports, ResidentKVStore.HasRoom, CameFrom, CameFromPrefix, HasPrefix, Loadable;
      WorkingCounts(engine, Content([], []));
      var k := Key(session.store.sessionId, id);
      ghost var s0 := State();
      ghost var h0 := InMemory();
      SameStaysSized(engine, FileOf(disk.files, k), h0, h0);
      SameNoneEvicted(engine, FileOf(disk.files, k), {k}, resident.budget, h0);
      NothingChanges(s0, k);
      var segment := FindSegment(session.segments, id);
      if segment == None {
        MarksNothing(engine, disk.files, session.store, session.segments, id, allowBuild, k in s0.resident, session.metadata);
        return None;
      }
      h := resident.Find(k);
      FindingKeepsState(s0, State());
      ghost var h1 := InMemory();
      SameStaysSized(engine, FileOf(disk.files, k), h0, h1);
      assert h1.entries.Keys == h0.entries.Keys;
      if h.Some? {
        var kept := PrepareFound(engine, k, h.value, want);
        StaysSizedMore(engine, {}, FileOf(disk.files, k), h1, InMemory());
        StaysSizedTwice(engine, FileOf(disk.files, k), h0, h1, InMemory());
        NoneEvictedMore(engine, {}, FileOf(disk.files, k), {}, {k}, resident.budget, h1, resident.entries.Keys);
        NoneEvictedTwice(engine, FileOf(disk.files, k), {k}, resident.budget, h0, h1, resident.entries.Keys);
        MarksNothing(engine, disk.files, session.store, session.segments, id, allowBuild, true, session.metadata);
        if !kept {
          h := None;
        }
        return;
      }
      var texts := CollectSegmentMemoryTexts(session.store, segment.value);
      h := PrepareAbsent(engine, disk, session, id, Content(session.store.system, texts), allowBuild, want);
      StaysSizedTwice(engine, FileOf(disk.files, k), h0, h1, InMemory());
      NoneEvictedTwice(engine, FileOf(disk.files, k), {k}, resident.budget, h0, h1, resident.entries.Keys);
    }

    /** The segment is not resident. */
    method PrepareAbsent(engine: Engine, disk: CacheDisk, session: Session, id: int, content: Content, allowBuild: bool,
                         ghost want: map<Key, Content>)
      returns (h: Option<Handle>)
      requires Valid() && Coherent(State(), want) && Key(session.store.sessionId, id) !in State().resident
      requires ContentOf(session.store, session.segments, id) == Some(content)
      requires Wants(want, session.store, session.segments, id)
      modifies this, resident, table, session`metadata
      ensures Valid() && Coherent(State(), want) && resident.budget == old(resident.budget)
      ensures OthersOnlyShrink(old(State()), State(), Key(session.store.sessionId, id))
      ensures Within(prefixes, old(prefixes))
      ensures h.Some? ==> Prepared(State(), Key(session.store.sessionId, id), h.value)
                          && (LiveAt(State(), h.value) ==> active == Some(ActiveSegment(Key(session.store.sessionId, id), h.value)))
      ensures PrepareMarks(engine, disk.files, session.store, session.segments, id, allowBuild, false, h.Some?,
                           old(session.metadata), session.metadata)
      ensures h.Some? ==>
                && h.value < |table.cells|
                && (CameFrom(engine, disk.files, old(session.metadata), id, Key(session.store.sessionId, id), content, allowBuild, table.cells[h.value])
                    || CameFromPrefix(engine, old(State()), Key(session.store.sessionId, id), content, table.cells[h.value]))
      ensures forall limit :: Works(engine, limit) && Fits(resident, disk.files, Key(session.store.sessionId, id), limit)
                && (HasPrefix(old(State()), Key(session.store.sessionId, id)) || allowBuild
                    || Loadable(engine, disk.files, old(session.metadata), id, Key(session.store.sessionId, id), content, allowBuild))
                ==> h.Some?
      ensures h.Some? ==> id in session.metadata && session.metadata[id].tokenCount == BaseTokens(h.value)
      ensures StaysSized(engine, FileOf(disk.files, Key(session.store.sessionId, id)), old(InMemory()), InMemory())
      ensures NoneEvicted(engine, FileOf(disk.files, Key(session.store.sessionId, id)), {Key(session.store.sessionId, id)}, resident.budget, old(InMemory()),
                          resident.entries.Keys)
      ensures h.Some? ==> UsedLast(resident.entries, Key(session.store.sessionId, id), resident.wrapped)
    {
      hide UsedLast;
      hide Stamped, StaysSized, Sized, NoneEvicted;
      hide Coherent, OthersOnlyShrink, Prepared, LiveAt, PrepareMarks, Works, Exports, ResidentKVStore.HasRoom, CameFrom, HasPrefix, WasExtended, Loadable;
      var k := Key(session.store.sessionId, id);
      ghost var s0 := State();
      ghost var h0 := InMemory();
      h := TryPrepareIncremental(engine, k, content, want);
      ghost var h1 := InMemory();
      StaysSizedMore(engine, {}, FileOf(disk.files, k), h0, h1);
      NoneEvictedMore(engine, {}, FileOf(disk.files, k), {k}, {k}, resident.budget, h0, resident.entries.Keys);
      if h.Some? {
        MarksResident(engine, disk.files, session.store, session.segments, id, allowBuild, session.metadata, BaseTokens(h.value));
        session.metadata := Marked(session.metadata, id, Resident, BaseTokens(h.value));
        return;
      }
      ghost var s1 := State();
      ghost var entries := resident.entries;
      h := LoadOrBuild(engine, disk, session, id, content, allowBuild, want);
      StaysSizedTwice(engine, FileOf(disk.files, k), h0, h1, InMemory());
      NoneEvictedTwice(engine, FileOf(disk.files, k), {k}, resident.budget, h0, h1, resident.entries.Keys);
      OthersShrinkTwice(s0, s1, State(), k);
    }

    /** No staged prefix helped: the segment comes from its file, or is built. */
    method LoadOrBuild(engine: Engine, disk: CacheDisk, session: Session, id: int, content: Content, allowBuild: bool,
                       ghost want: map<Key, Content>)
      returns (h: Option<Handle>)
      requires Valid() && Coherent(State(), want) && Key(session.store.sessionId, id) !in prefixes
      requires ContentOf(session.store, session.segments, id) == Some(content)
      requires Wants(want, session.store, session.segments, id)
      modifies this`active, resident, table, session`metadata
      ensures Valid() && Coherent(State(), want) && resident.budget == old(resident.budget)
      ensures OthersOnlyShrink(old(State()), State(), Key(session.store.sessionId, id)) && prefixes == old(prefixes)
      ensures h.Some? ==> Prepared(State(), Key(session.store.sessionId, id), h.value)
                          && (LiveAt(State(), h.value) ==> active == Some(ActiveSegment(Key(session.store.sessionId, id), h.value)))
      ensures PrepareMarks(engine, disk.files, session.store, session.segments, id, allowBuild, false, h.Some?,
                           old(session.metadata), session.metadata)
      ensures h.Some? ==>
                && h.value < |table.cells|
                && CameFrom(engine, disk.files, old(session.metadata), id, Key(session.store.sessionId, id), content, allowBuild,
                            table.cells[h.value])
      ensures forall limit :: Works(engine, limit) && Fits(resident, disk.files, Key(session.store.sessionId, id), limit)
                && (allowBuild || Loadable(engine, disk.files, old(session.metadata), id, Key(session.store.sessionId, id), content, allowBuild))
                ==> h.Some?
      ensures !allowBuild && !Loadable(engine, disk.files, old(session.metadata), id, Key(session.store.sessionId, id), content, allowBuild) ==>
                h == None && resident.entries == old(resident.entries)
      ensures h.Some? ==> id in session.metadata && session.metadata[id].tokenCount == BaseTokens(h.value)
      ensures h.Some? && !allowBuild ==>
                && Key(session.store.sessionId, id) in disk.files
                && id in old(session.metadata) && old(session.metadata)[id].hasPath && old(session.metadata)[id].state != Missing
      ensures StaysSized(engine, FileOf(disk.files, Key(session.store.sessionId, id)), old(InMemory()), InMemory())
      ensures NoneEvicted(engine, FileOf(disk.files, Key(session.store.sessionId, id)), {Key(session.store.sessionId, id)}, resident.budget, old(InMemory()),
                          resident.entries.Keys)
      ensures h.Some? ==> UsedLast(resident.entries, Key(session.store.sessionId, id), resident.wrapped)
    {
      hide UsedLast;
      hide Stamped, StaysSized, Sized, NoneEvicted;
      hide Coherent, OthersOnlyShrink, Prepared, LiveAt, PrepareMarks, Works, Exports, ResidentKVStore.HasRoom;
      hide SegmentTexts, FindSegment, Marked, SegmentKVManager.Valid, WasBuilt;
      WorkingCounts(engine, content);
      var k := Key(session.store.sessionId, id);
      NothingChanges(State(), k);
      MarksNothing(engine, disk.files, session.store, session.segments, id, allowBuild, false, session.metadata);
      h := None;
      ghost var h0 := InMemory();
      SameStaysSized(engine, FileOf(disk.files, k), h0, h0);
      SameNoneEvicted(engine, FileOf(disk.files, k), {k}, resident.budget, h0);
      var usable := FileUsable(session.metadata, id, disk.files, k, allowBuild);
      if usable && Loads(engine, disk.files[k], content) {
        h := LoadResident(engine, k, disk.files[k], want);
        RoomForLess(resident, disk.files[k].blobBytes);
      } else {
        if usable {
          MarksMissing(engine, disk.files, session.store, session.segments, id, allowBuild, session.metadata);
          session.metadata := session.metadata[id := session.metadata[id].(state := Missing)];
        }
        if allowBuild {
          h := BuildResident(engine, k, content, want);
          StaysSizedMore(engine, {}, FileOf(disk.files, k), h0, InMemory());
          NoneEvictedMore(engine, {}, FileOf(disk.files, k), {k}, {k}, resident.budget, h0, resident.entries.Keys);
        }
      }
      if h.Some? {
        MarksResident(engine, disk.files, session.store, session.segments, id, allowBuild, old(session.metadata), BaseTokens(h.value));
        session.metadata := Marked(session.metadata, id, Resident, BaseTokens(h.value));
      }
    }

    /** The serialised state of a resident segment, exported first when its context is live. */
    method ExportSnapshot(engine: Engine, k: Key, h: Handle, ghost want: map<Key, Content>) returns (snapshot: Option<Snapshot>)
      requires Valid() && Coherent(State(), want) && IsResident(State(), k, h)
      modifies table
      ensures Valid() && Coherent(State(), want) && State() == old(State()).(cells := State().cells)
      ensures snapshot.Some? ==> k in want && snapshot.value.metadata.content == want[k]
      ensures snapshot.Some? ==> h < |table.cells| && table.cells[h].snapshot == snapshot
      ensures Exports(engine) ==> snapshot.Some?
      ensures BaseTokens(h) == old(BaseTokens(h)) && (snapshot.Some? ==> snapshot.value.metadata.baseTokens == BaseTokens(h))
      ensures Shrinks(old(State()), State())
      ensures StaysSized(engine, {}, old(InMemory()), InMemory())
    {
      hide Stamped, StaysSized, Sized;
      hide Coherent, Holds;
      ghost var s0 := State();
      ghost var h0 := InMemory();
      var ok := table.EnsureSnapshot(engine, h);
      ExportStaysSized(engine, h0, InMemory(), h);
      ExportingShrinks(engine, s0, State(), h);
      ShrinkingKeepsCoherence(s0, State(), want);
      PreparedIsWanted(State(), want, k, h);
      SnapshotOf(State().cells[h], want[k]);
      snapshot := if ok then table.cells[h].snapshot else None;
    }

    function BaseTokens(h: Handle): nat
      reads this, table
    {
      if h < |table.cells| && table.cells[h].Metadata().Some? then table.cells[h].Metadata().value.baseTokens else 0
    }

    // ----- Searching -----

    /** Makes a segment's KV state active with room for the query. Inside a command of the session,
        the active context is then the only live one that anything can reach. */
    method ActivateForSearch(engine: Engine, disk: CacheDisk, session: Session, id: int, queryTokens: nat,
                             ghost want: map<Key, Content>)
      returns (ok: bool)
      requires Valid() && Coherent(State(), want)
      requires Wants(want, session.store, session.segments, id)
      modifies this, resident, table, session`metadata
      ensures Valid() && Coherent(State(), want) && resident.budget == old(resident.budget)
      ensures OthersOnlyShrink(old(State()), State(), Key(session.store.sessionId, id)) && Within(prefixes, old(prefixes))
      ensures ok ==> active.Some? && active.value.key == Key(session.store.sessionId, id)
      ensures ok ==> LiveAt(State(), active.value.handle)
                     && table.cells[active.value.handle].active.metadata.content == want[active.value.key]
      ensures ok && OthersAsleep(old(State()), session.store.sessionId) ==> OnlyActiveLive(State())
      ensures ok ==> RoomToSearch(engine, State(), Key(session.store.sessionId, id), queryTokens)
      ensures exists prepared: bool :: (ok ==> prepared) &&
                PrepareMarks(engine, disk.files, session.store, session.segments, id, false,
                             Key(session.store.sessionId, id) in old(State()).resident, prepared,
                             old(session.metadata), session.metadata)
      ensures forall limit :: Works(engine, limit) && Fits(resident, disk.files, Key(session.store.sessionId, id), limit)
                && ContentOf(session.store, session.segments, id).Some?
                && CanPrepare(engine, disk.files, old(session.metadata), id, old(State()), Key(session.store.sessionId, id),
                              ContentOf(session.store, session.segments, id).value, false)
                && !EmptyBlob(State(), Key(session.store.sessionId, id))
                ==> ok
      ensures StaysSized(engine, FileOf(disk.files, Key(session.store.sessionId, id)), old(InMemory()), InMemory())
      ensures NoneEvicted(engine, FileOf(disk.files, Key(session.store.sessionId, id)), {Key(session.store.sessionId, id)}, resident.budget, old(InMemory()),
                          resident.entries.Keys)
      ensures ok ==> UsedLast(resident.entries, Key(session.store.sessionId, id), resident.wrapped)
    {
      hide UsedLast;
      hide Stamped, StaysSized, Sized, NoneEvicted;
      hide Works, ResidentKVStore.HasRoom, CanPrepare, PreparedFrom, EmptyBlob, RoomForQuery;
      hide Coherent, OthersOnlyShrink, OnlySegmentAwake, PrepareMarks, LiveAt, OnlyActiveLive, OthersAsleep;
      var k := Key(session.store.sessionId, id);
      ghost var s0 := State();
      ghost var h0 := InMemory();
      var prepared := PrepareResidentSegment(engine, disk, session, id, false, want);
      if prepared == None {
        return false;
      }
      ghost var s1 := State();
      ghost var h1 := InMemory();
      PreparedIsWanted(s1, want, k, prepared.value);
      AsleepStaysAsleep(s0, s1, k);
      var metadata := table.cells[prepared.value].Metadata();
      if metadata == None {
        return false;
      }
      ok := ActivatePrepared(engine, k, prepared.value, metadata.value.baseTokens + queryTokens, want);
      if ok {
        RoomIsThere(this, engine, k, prepared.value, s1.cells[prepared.value], metadata.value.baseTokens, queryTokens);
      }
      StaysSizedMore(engine, {}, FileOf(disk.files, k), h1, InMemory());
      StaysSizedTwice(engine, FileOf(disk.files, k), h0, h1, InMemory());
      OthersShrinkTwice(s0, s1, State(), k);
    }

    /** Reuses a live context that is long enough, or hydrates a new one from the snapshot. A live
        resident context has become the active one while the segment was prepared. */
    method ActivatePrepared(engine: Engine, k: Key, h: Handle, tokens: nat, ghost want: map<Key, Content>) returns (ok: bool)
      requires Valid() && Coherent(State(), want) && k in want && Prepared(State(), k, h)
      requires LiveAt(State(), h) ==> active == Some(ActiveSegment(k, h))
      modifies this`active, table
      ensures Valid() && Coherent(State(), want)
      ensures OthersOnlyShrink(old(State()), State(), k)
      ensures ok ==> active.Some? && active.value.key == k && LiveAt(State(), active.value.handle)
                     && table.cells[active.value.handle].active.metadata.content == want[k]
      ensures ok && OthersAsleep(old(State()), k.session) ==> OnlyActiveLive(State())
      ensures ok ==> RoomForQuery(engine, old(table.cells)[h], tokens, ContextLength(active.value.handle))
      ensures ok ==> IsResident(State(), k, h) && SameFaces(old(table.cells)[h], table.cells[h])
      ensures !ok ==> forall limit :: Works(engine, limit) ==> EmptyBlob(State(), k)
      ensures StaysSized(engine, {}, old(InMemory()), InMemory())
    {
      hide Stamped, StaysSized, Sized;
      hide Coherent, OthersOnlyShrink, OnlyActiveLive, OthersAsleep, OnlySegmentAwake, Holds, AllAsleep, Works;
      ghost var s0 := State();
      ghost var h0 := InMemory();
      SameStaysSized(engine, {}, h0, h0);
      NothingChanges(s0, k);
      PreparedIsWanted(s0, want, k, h);
      if active.Some? && active.value.key == k && ContextLength(active.value.handle) >= engine.requiredContext(tokens) {
        ActiveIsTheOne(s0, want, k, h);
        return true;
      }
      ResetActive();
      ghost var s1 := State();
      ghost var h1 := InMemory();
      ResetStaysSized(engine, s0, h0.entries);
      ResetShrinks(s0);
      ShrinkingKeepsCoherence(s0, s1, want);
      ShrinkingOthers(s0, s0, s1, k);
      ResetPutsToSleep(s0, s1, k, h);
      ResetKeepsFaces(s0, want, k, h);
      WorkingHydrates(engine, table.cells[h], tokens);
      ok := HydrateActive(engine, k, h, tokens, want);
      StaysSizedTwice(engine, {}, h0, h1, InMemory());
      OthersShrinkTwice(s0, s1, State(), k);
    }

    method HydrateActive(engine: Engine, k: Key, h: Handle, tokens: nat, ghost want: map<Key, Content>) returns (ok: bool)
      requires Valid() && Coherent(State(), want) && IsResident(State(), k, h)
      modifies this`active, table
      ensures Valid() && Coherent(State(), want)
      ensures OthersOnlyShrink(old(State()), State(), k)
      ensures ok ==> active.Some? && active.value.key == k && LiveAt(State(), active.value.handle)
                     && k in want && table.cells[active.value.handle].active.metadata.content == want[k]
      ensures ok && AllAsleep(old(State())) ==> OnlyActiveLive(State())
      ensures ok <==> old(table.cells)[h].BlobBytes() > 0 && engine.hydrate(old(table.cells)[h].snapshot.value, tokens).Some?
      ensures ok ==> engine.hydrate(old(table.cells)[h].snapshot.value, tokens) == Some(ContextLength(active.value.handle))
      ensures !ok ==> State() == old(State())
      ensures IsResident(State(), k, h) && table.cells[h] == old(table.cells)[h]
      ensures StaysSized(engine, {}, old(InMemory()), InMemory())
    {
      hide Stamped, StaysSized, Sized;
      hide Coherent, OthersOnlyShrink, OnlyActiveLive, AllAsleep;
      ghost var s1 := State();
      ghost var h0 := InMemory();
      SameStaysSized(engine, {}, h0, h0);
      NothingChanges(s1, k);
      PreparedIsWanted(s1, want, k, h);
      if table.cells[h].BlobBytes() == 0 {
        return false;
      }
      var snapshot := table.cells[h].snapshot.value;
      var length := engine.hydrate(snapshot, tokens);
      if length == None {
        return false;
      }
      var hydrated := table.MakeHandle(SegmentKVState(None, Live(snapshot.metadata, length.value)));
      ghost var s2 := State();
      AddCellStaysSized(engine, {}, h0, InMemory(), table.cells[hydrated]);
      NewHandleIsLoose(s1, s2, want, k);
      active := Some(ActiveSegment(k, hydrated));
      ActivatingLoose(s1, s2, State(), want, k, hydrated);
      OthersShrinkSameCells(s1, s2, State(), k);
      ok := true;
    }

    function ContextLength(h: Handle): nat
      reads this, table
    {
      if h < |table.cells| && table.cells[h].active.Live? then table.cells[h].active.length else 0
    }
  }

  /** The snapshot is the same, and so is what the state was computed from. */
  ghost predicate SameFaces(s: SegmentKVState, t: SegmentKVState) {
    t.snapshot == s.snapshot && t.Metadata() == s.Metadata()
  }

  lemma {:induction false} ResetKeepsFaces(kv: KVState, want: map<Key, Content>, k: Key, h: Handle)
    requires Coherent(kv, want) && IsResident(kv, k, h)
    ensures h < |Reset(kv).cells| && SameFaces(kv.cells[h], Reset(kv).cells[h])
    ensures SameFaces(kv.cells[h], kv.cells[h])
  {
  }

  lemma RoomIsThere(m: SegmentKVManager, engine: Engine, k: Key, h: Handle, s: SegmentKVState, base: nat, tokens: nat)
    requires IsResident(m.State(), k, h) && SameFaces(s, m.table.cells[h]) && s.Metadata().Some? && s.Metadata().value.baseTokens == base
    requires m.active.Some? && m.active.value.key == k && LiveAt(m.State(), m.active.value.handle)
    requires RoomForQuery(engine, s, base + tokens, m.ContextLength(m.active.value.handle))
    ensures RoomToSearch(engine, m.State(), k, tokens)
  {
  }

  lemma HeldParts(m: SegmentKVManager)
    ensures m.InMemory() == Held(m.State().cells, m.resident.entries)
  {
  }

  lemma StateParts(m: SegmentKVManager)
    ensures m.State().cells == m.table.cells && m.State().prefixes == m.prefixes && m.State().active == m.active
  {
  }

  lemma {:induction false} ExportingShrinks(engine: Engine, before: KVState, after: KVState, h: Handle)
    requires h < |before.cells| && after == before.(cells := after.cells)
    requires after.cells == if Exported(engine, before.cells[h]).Some?
                            then before.cells[h := Exported(engine, before.cells[h]).value] else before.cells
    ensures Shrinks(before, after)
  {
    forall j | 0 <= j < |before.cells| ensures Faithful(before.cells[j], after.cells[j]) {
      ReleaseIsFaithful(engine, before.cells[j]);
    }
  }

  lemma HoldsSnapshot(s: SegmentKVState, c: Content)
    requires Holds(s, c)
    ensures s.snapshot.Some?
  {
  }

  lemma {:induction false} SnapshotOf(s: SegmentKVState, c: Content)
    requires Holds(s, c)
    ensures s.snapshot.Some? && s.snapshot.value.metadata.content == c
  {
  }

  /** The active context is the only one that is live. */
  ghost predicate OnlyActiveLive(kv: KVState) {
    kv.active.Some? && forall h: Handle | Reachable(kv, h) && LiveAt(kv, h) :: h == kv.active.value.handle
  }

  /** All of segment `k`'s session's residents, all of others', and all staged prefixes are asleep. */
  ghost predicate AllAsleep(kv: KVState) {
    && (forall k | k in kv.resident :: !LiveAt(kv, kv.resident[k]))
    && (forall k | k in kv.prefixes :: !LiveAt(kv, kv.prefixes[k]))
  }

  lemma {:induction false} PreparedIsWanted(kv: KVState, want: map<Key, Content>, k: Key, h: Handle)
    requires Coherent(kv, want) && IsResident(kv, k, h)
    ensures k in want && Holds(kv.cells[h], want[k]) && k !in kv.prefixes
    ensures kv.active.Some? && kv.active.value.key == k && LiveAt(kv, kv.active.value.handle) ==>
              kv.cells[kv.active.value.handle].active.metadata.content == want[k]
  {
  }

  lemma {:induction false} AsleepStaysAsleep(before: KVState, after: KVState, k: Key)
    requires OthersOnlyShrink(before, after, k)
    requires forall j | j in before.resident :: before.resident[j] < |before.cells|
    ensures OthersAsleep(before, k.session) ==> OthersAsleep(after, k.session)
  {
    if OthersAsleep(before, k.session) {
      forall j | j in after.resident && j.session != k.session ensures !LiveAt(after, after.resident[j]) {
        assert Faithful(before.cells[before.resident[j]], after.cells[before.resident[j]]);
      }
    }
  }

  lemma {:induction false} ActiveIsTheOne(kv: KVState, want: map<Key, Content>, k: Key, h: Handle)
    requires Coherent(kv, want) && Prepared(kv, k, h) && (LiveAt(kv, h) ==> kv.active == Some(ActiveSegment(k, h)))
    requires kv.active.Some? && kv.active.value.key == k
    ensures OthersAsleep(kv, k.session) ==> OnlyActiveLive(kv)
  {
    hide Holds, HoldsPrefix, ResidentOk, PrefixesOk, ActiveOk;
  }

  lemma {:induction false} ResetPutsToSleep(before: KVState, after: KVState, k: Key, h: Handle)
    requires Prepared(before, k, h) && (LiveAt(before, h) ==> before.active == Some(ActiveSegment(k, h)))
    requires before.active.Some? ==> before.active.value.handle < |before.cells|
    requires k !in before.prefixes
    requires after == Reset(before)
    ensures IsResident(after, k, h)
    ensures OthersAsleep(before, k.session) ==> AllAsleep(after)
  {
  }

  lemma {:induction false} ActivatingLoose(s1: KVState, s2: KVState, s3: KVState, want: map<Key, Content>, k: Key, h: Handle)
    requires Coherent(s1, want) && Coherent(s2, want) && k in want && h == |s1.cells|
    requires s2 == s1.(cells := s2.cells) && |s2.cells| == h + 1 && s2.cells[..h] == s1.cells
    requires s2.cells[h].Carries(want[k]) && !Reachable(s2, h)
    requires s3 == s2.(active := Some(ActiveSegment(k, h)))
    ensures Coherent(s3, want)
    ensures AllAsleep(s1) ==> OnlyActiveLive(s3)
  {
    hide Holds, HoldsPrefix, NotShared;
    LooseBecomesActive(s2, s3, want, k, h);
    assert forall j | 0 <= j < h :: s1.cells[j] == s2.cells[..h][j] == s2.cells[j];
  }

  lemma {:induction false} LooseBecomesActive(before: KVState, after: KVState, want: map<Key, Content>, k: Key, h: Handle)
    requires Coherent(before, want) && k in want && h < |before.cells| && before.cells[h].Carries(want[k]) && !Reachable(before, h)
    requires after == before.(active := Some(ActiveSegment(k, h)))
    ensures Coherent(after, want)
  {
    hide Holds, HoldsPrefix;
  }

  /** Staging after a memory was appended: what was the whole segment is now a prefix of it. */
  lemma {:induction false} StagingKeepsCoherence(kv: KVState, want: map<Key, Content>, grown: map<Key, Content>, k: Key)
    requires Coherent(kv, want) && k in want && k in grown && ProperPrefix(want[k], grown[k])
    requires forall j | j in want && j != k :: j in grown && grown[j] == want[j]
    requires kv.active.Some? ==> kv.active.value.key != k
    ensures Coherent(Staged(kv, k), grown)
  {
    hide Holds, HoldsPrefix, ProperPrefix, NotShared, Reset;
    StagingKeepsSharing(kv, k);
    var staged := Staged(kv, k);
    if k in kv.resident {
      WholeBecomesPrefix(kv.cells[kv.resident[k]], want[k], grown[k]);
    } else if k in kv.prefixes {
      PrefixStaysPrefix(kv.cells[kv.prefixes[k]], want[k], grown[k]);
    }
    assert staged.cells == kv.cells && staged.active == kv.active;
    assert ResidentOk(staged, grown);
    assert PrefixesOk(staged, grown);
    assert ActiveOk(staged, grown);
  }

  lemma {:induction false} StagingKeepsSharing(kv: KVState, k: Key)
    requires NotShared(kv) && (kv.active.Some? ==> kv.active.value.key != k)
    ensures NotShared(Staged(kv, k))
  {
  }

  lemma {:induction false} WholeBecomesPrefix(s: SegmentKVState, whole: Content, grown: Content)
    requires Holds(s, whole) && ProperPrefix(whole, grown)
    ensures HoldsPrefix(s, grown)
  {
  }

  lemma {:induction false} PrefixStaysPrefix(s: SegmentKVState, c: Content, grown: Content)
    requires HoldsPrefix(s, c) && ProperPrefix(c, grown)
    ensures HoldsPrefix(s, grown)
  {
  }

  /** A segment that nothing was cached for may be planned at any time. */
  lemma {:induction false} NewSegmentKeepsCoherence(kv: KVState, want: map<Key, Content>, grown: map<Key, Content>)
    requires Coherent(kv, want) && forall j | j in want :: j in grown && grown[j] == want[j]
    ensures Coherent(kv, grown)
  {
    hide NotShared, Holds, HoldsPrefix;
  }

  lemma {:induction false} OthersShrinkSameCells(a: KVState, b: KVState, c: KVState, k: Key)
    requires OthersOnlyShrink(a, b, k) && c.cells == b.cells && c.resident == b.resident
    ensures OthersOnlyShrink(a, c, k)
  {
  }

  /** `want` speaks of this segment, if it is planned, and has its content right. */
  ghost predicate Wants(want: map<Key, Content>, store: SessionStore, segments: seq<Segment>, id: int) {
    var content := ContentOf(store, segments, id);
    content.Some? ==> Key(store.sessionId, id) in want && want[Key(store.sessionId, id)] == content.value
  }

  /** What preparing a segment may do to the metadata of its session. A segment that gets into
      memory is marked resident; one whose file would not load is marked missing. */
  ghost predicate PrepareMarks(engine: Engine, files: map<Key, Snapshot>, store: SessionStore, segments: seq<Segment>, id: int,
                               allowBuild: bool, found: bool, ok: bool,
                               before: map<int, CacheEntry>, after: map<int, CacheEntry>) {
    var k, content := Key(store.sessionId, id), ContentOf(store, segments, id);
    var fails := content.Some? && FileUsable(before, id, files, k, allowBuild) && !Loads(engine, files[k], content.value);
    || (after == before && (ok ==> found))
    || (!found && ok && exists tokens: nat :: after == Marked(before, id, Resident, tokens))
    || (!found && !ok && fails && after == before[id := before[id].(state := Missing)])
  }

  lemma {:induction false} MarksNothing(engine: Engine, files: map<Key, Snapshot>, store: SessionStore, segments: seq<Segment>, id: int,
                                        allowBuild: bool, found: bool, metadata: map<int, CacheEntry>)
    ensures PrepareMarks(engine, files, store, segments, id, allowBuild, found, false, metadata, metadata)
    ensures found ==> PrepareMarks(engine, files, store, segments, id, allowBuild, found, true, metadata, metadata)
  {
  }

  lemma {:induction false} MarksResident(engine: Engine, files: map<Key, Snapshot>, store: SessionStore, segments: seq<Segment>, id: int,
                                         allowBuild: bool, metadata: map<int, CacheEntry>, tokens: nat)
    ensures PrepareMarks(engine, files, store, segments, id, allowBuild, false, true, metadata, Marked(metadata, id, Resident, tokens))
    ensures id in metadata ==> Marked(metadata[id := metadata[id].(state := Missing)], id, Resident, tokens) == Marked(metadata, id, Resident, tokens)
    ensures id in Marked(metadata, id, Resident, tokens) && Marked(metadata, id, Resident, tokens)[id].tokenCount == tokens
  {
  }

  lemma {:induction false} MarksMissing(engine: Engine, files: map<Key, Snapshot>, store: SessionStore, segments: seq<Segment>, id: int,
                                        allowBuild: bool, metadata: map<int, CacheEntry>)
    requires var k, content := Key(store.sessionId, id), ContentOf(store, segments, id);
             content.Some? && FileUsable(metadata, id, files, k, allowBuild) && !Loads(engine, files[k], content.value)
    ensures PrepareMarks(engine, files, store, segments, id, allowBuild, false, false, metadata, metadata[id := metadata[id].(state := Missing)])
  {
  }

  lemma {:induction false} FindingKeepsState(before: KVState, after: KVState)
    requires after == before.(resident := after.resident) && after.resident.Keys == before.resident.Keys
    requires forall k | k in after.resident :: after.resident[k] == before.resident[k]
    ensures after == before
  {
  }

  lemma {:induction false} NewHandleIsLoose(before: KVState, after: KVState, want: map<Key, Content>, k: Key)
    requires Coherent(before, want)
    requires after == before.(cells := after.cells) && |after.cells| == |before.cells| + 1
    requires forall h | 0 <= h < |before.cells| :: after.cells[h] == before.cells[h]
    ensures Coherent(after, want) && OthersOnlyShrink(before, after, k)
    ensures !Reachable(after, |before.cells|)
  {
    hide Holds, HoldsPrefix, Faithful;
    NothingChanges(before, k);
  }

  /** Segment `k` is resident behind `h`, and nothing else of its session or staged is live. */
  ghost predicate Prepared(kv: KVState, k: Key, h: Handle) {
    IsResident(kv, k, h) && OnlySegmentAwake(kv, k)
  }

  lemma {:induction false} PrefixIsUsable(s: SegmentKVState, c: Content)
    requires HoldsPrefix(s, c)
    ensures s.Metadata().Some? && s.Metadata().value.content.system == c.system && s.Metadata().value.content.memories < c.memories
  {
  }

  lemma WorkingCounts(engine: Engine, c: Content)
    ensures forall limit :: Works(engine, limit) ==> Exports(engine) && engine.countTokens(c).Some? && engine.build(c).Some?
  {
  }

  lemma WorkingHydrates(engine: Engine, s: SegmentKVState, tokens: nat)
    ensures forall limit :: Works(engine, limit) ==> s.snapshot.Some? ==> engine.hydrate(s.snapshot.value, tokens).Some?
  {
  }

  lemma RoomForLess(store: ResidentKVStore, bytes: nat)
    ensures forall limit :: bytes <= limit && store.HasRoom(limit) ==> store.HasRoom(bytes)
  {
  }

  lemma {:induction false} TakingShrinks(before: KVState, after: KVState, want: map<Key, Content>, k: Key)
    requires Coherent(before, want) && after == before.(prefixes := before.prefixes - {k})
    ensures Shrinks(before, after)
    ensures OthersOnlyShrink(before, after, k)
    ensures k in before.prefixes && k !in before.resident ==>
              && before.prefixes[k] < |before.cells| && !Reachable(after, before.prefixes[k])
              && k in want && HoldsPrefix(before.cells[before.prefixes[k]], want[k])
  {
    NothingChanges(before, k);
    hide Holds, HoldsPrefix, Faithful;
  }

  lemma {:induction false} LoosePrefix(before: KVState, after: KVState, p: Handle, c: Content, k: Key)
    requires Shrinks(before, after) && UntouchedExceptOthers(before, after, k)
    requires p < |before.cells| && !Reachable(before, p) && HoldsPrefix(before.cells[p], c)
    ensures p < |after.cells| && !Reachable(after, p) && HoldsPrefix(after.cells[p], c) && after.cells[p] == before.cells[p]
  {
    hide HoldsPrefix, Faithful;
  }

  lemma {:induction false} UnheldChangeIsOthers(before: KVState, after: KVState, k: Key)
    requires UnheldChanged(before, after)
    ensures OthersOnlyShrink(before, after, k)
  {
    NothingChanges(before, k);
    forall j | j in after.resident && j != k && before.resident[j] < |before.cells|
      ensures Faithful(before.cells[before.resident[j]], after.cells[before.resident[j]])
    {
      assert Reachable(before, before.resident[j]);
    }
    hide Faithful;
  }

  /** Only states that nothing holds were changed or added. */
  ghost predicate UnheldChanged(before: KVState, after: KVState) {
    && after == before.(cells := after.cells)
    && |before.cells| <= |after.cells|
    && forall h: Handle | h < |before.cells| && Reachable(before, h) :: after.cells[h] == before.cells[h]
  }

  lemma {:induction false} UnheldChangeKeepsCoherence(before: KVState, after: KVState, want: map<Key, Content>, p: Handle)
    requires Coherent(before, want) && !Reachable(before, p)
    requires after == before.(cells := after.cells) && |before.cells| <= |after.cells|
    requires forall h | 0 <= h < |before.cells| && h != p :: after.cells[h] == before.cells[h]
    ensures Coherent(after, want) && UnheldChanged(before, after)
    ensures forall h: Handle | h == p || |before.cells| <= h :: !Reachable(after, h)
  {
    hide Holds, HoldsPrefix;
  }

  /** Nobody but segment `k` holds this handle. */
  ghost predicate OnlyFor(kv: KVState, k: Key, h: Handle) {
    && k !in kv.prefixes
    && (forall j | j in kv.resident && kv.resident[j] == h :: j == k)
    && (forall j | j in kv.prefixes :: kv.prefixes[j] != h)
    && (kv.active.Some? && kv.active.value.handle == h ==> kv.active.value.key == k)
  }

  /** The session has no active context any more. */
  ghost function Deactivated(kv: KVState, session: Bytes): KVState {
    if kv.active.Some? && kv.active.value.key.session == session then Reset(kv) else kv
  }

  /** The session has nothing resident or staged any more. */
  ghost function Uncached(kv: KVState, session: Bytes): KVState {
    kv.(resident := map k | k in kv.resident && k.session != session :: kv.resident[k],
        prefixes := map k | k in kv.prefixes && k.session != session :: kv.prefixes[k])
  }

  ghost predicate IsResident(kv: KVState, k: Key, h: Handle) {
    k in kv.resident && kv.resident[k] == h && h < |kv.cells|
  }

  /** Resident segments other than `k` may go; those that stay keep faithful states. */
  ghost predicate OthersOnlyShrink(before: KVState, after: KVState, k: Key) {
    && |before.cells| <= |after.cells|
    && forall j | j in after.resident && j != k ::
         && j in before.resident && after.resident[j] == before.resident[j]
         && (before.resident[j] < |before.cells| ==>
               Faithful(before.cells[before.resident[j]], after.cells[before.resident[j]]))
  }

  /** Of the segments that stay in memory the states are of as many tokens as before, but for segment `k`. */
  ghost predicate KeepsTokens(before: KVState, after: KVState, k: Key) {
    forall j | j in after.resident && j != k :: j in before.resident && TokensIn(after, j) == TokensIn(before, j)
  }

  lemma KeepsTokensAlso(a: KVState, b: KVState, c: KVState, k: Key)
    requires KeepsTokens(a, b, k)
    ensures SameTokens(b, c) ==> KeepsTokens(a, c, k)
  {
  }

  ghost predicate SameTokens(before: KVState, after: KVState) {
    forall j | j in after.resident :: j in before.resident && TokensIn(after, j) == TokensIn(before, j)
  }

  lemma {:induction false} OthersKeepTokens(before: KVState, after: KVState, want: map<Key, Content>, k: Key)
    requires Coherent(before, want) && OthersOnlyShrink(before, after, k)
    ensures KeepsTokens(before, after, k)
  {
    hide Faithful;
    forall j | j in after.resident && j != k ensures TokensIn(after, j) == TokensIn(before, j) {
      FaithfulHolds(before.cells[before.resident[j]], after.cells[after.resident[j]], want[j]);
    }
  }

  lemma {:induction false} ShrinkingKeepsTokens(before: KVState, after: KVState, want: map<Key, Content>)
    requires Coherent(before, want) && Shrinks(before, after)
    ensures SameTokens(before, after)
  {
    hide Faithful;
    forall j | j in after.resident ensures TokensIn(after, j) == TokensIn(before, j) {
      FaithfulHolds(before.cells[before.resident[j]], after.cells[after.resident[j]], want[j]);
    }
  }

  lemma {:induction false} NothingChanges(kv: KVState, k: Key)
    ensures OthersOnlyShrink(kv, kv, k) && Shrinks(kv, kv)
  {
    forall h | 0 <= h < |kv.cells| ensures Faithful(kv.cells[h], kv.cells[h]) {
    }
  }

  lemma {:induction false} OthersShrinkTwice(a: KVState, b: KVState, c: KVState, k: Key)
    requires OthersOnlyShrink(a, b, k) && OthersOnlyShrink(b, c, k)
    ensures OthersOnlyShrink(a, c, k)
  {
    forall j | j in c.resident && j != k && a.resident[j] < |a.cells|
      ensures Faithful(a.cells[a.resident[j]], c.cells[a.resident[j]])
    {
      var h := a.resident[j];
      assert Faithful(a.cells[h], b.cells[h]) && Faithful(b.cells[h], c.cells[h]);
    }
  }

  lemma {:induction false} ShrinkingOthers(s0: KVState, s1: KVState, s2: KVState, k: Key)
    requires s1.cells == s0.cells && Shrinks(s1, s2)
    requires forall j | j in s1.resident && j != k :: j in s0.resident && s1.resident[j] == s0.resident[j]
    ensures OthersOnlyShrink(s0, s2, k)
  {
    forall j | j in s2.resident && j != k && s0.resident[j] < |s0.cells|
      ensures Faithful(s0.cells[s0.resident[j]], s2.cells[s0.resident[j]])
    {
      assert s1.cells[s0.resident[j]] == s0.cells[s0.resident[j]];
    }
  }

  lemma {:induction false} StoringKeepsCoherence(s0: KVState, s1: KVState, want: map<Key, Content>, k: Key, h: Handle)
    requires Coherent(s0, want) && OnlyFor(s0, k, h)
    requires k in want && h < |s0.cells| && Holds(s0.cells[h], want[k])
    requires s1 == s0.(resident := s1.resident) && Within(s1.resident, s0.resident[k := h])
    ensures Coherent(s1, want)
  {
    StoringKeepsSharing(s0, s1, k, h);
    hide Holds, HoldsPrefix, OnlyFor, NotShared;
  }

  lemma {:induction false} StoringKeepsSharing(s0: KVState, s1: KVState, k: Key, h: Handle)
    requires NotShared(s0) && OnlyFor(s0, k, h)
    requires s1 == s0.(resident := s1.resident) && Within(s1.resident, s0.resident[k := h])
    ensures NotShared(s1)
  {
    assert forall j | j in s1.resident && j != k :: j in s0.resident && s1.resident[j] == s0.resident[j] != h;
    assert k in s1.resident ==> s1.resident[k] == h;
  }

  lemma {:induction false} InstalledIsUntouched(kv: KVState, want: map<Key, Content>, k: Key, h: Handle)
    requires Coherent(kv, want) && IsResident(kv, k, h)
    ensures !HeldByOthers(kv, k, h)
  {
  }

  lemma {:induction false} ReleasedAreDead(engine: Engine, before: seq<SegmentKVState>, after: seq<SegmentKVState>, handles: set<Handle>)
    requires HandlesReleased(engine, before, after, handles)
    ensures |after| == |before|
    ensures forall h | 0 <= h < |after| && h in handles :: after[h].active.Dead?
  {
  }

  /** After releasing, an old handle is as it was or dead. */
  lemma {:induction false} ReleasingShrinks(engine: Engine, before: KVState, after: KVState)
    requires PartlyReleased(engine, before.cells, after.cells)
    requires Within(after.resident, before.resident) && after.prefixes == before.prefixes && after.active == before.active
    ensures Shrinks(before, after)
  {
    PartlyReleasedIsFaithful(engine, before.cells, after.cells);
  }

  /** States behind handles that no other segment holds did not change. */
  ghost predicate UntouchedExceptOthers(before: KVState, after: KVState, keep: Key) {
    && |after.cells| == |before.cells|
    && forall h | 0 <= h < |before.cells| && !HeldByOthers(before, keep, h) :: after.cells[h] == before.cells[h]
  }

  lemma {:induction false} KeepLeavesOneAwake(engine: Engine, s0: KVState, s1: KVState, s2: KVState, s3: KVState, keep: Key, others: set<Handle>)
    requires HandlesReleased(engine, s0.cells, s1.cells, others)
    requires forall h: Handle :: h in others <==> exists k | k in s0.resident :: k.session == keep.session && k != keep && s0.resident[k] == h
    requires HandlesReleased(engine, s1.cells, s2.cells, PrefixHandles(s0.prefixes, Some(keep)))
    requires s1.active == s2.active == s0.active && s1.prefixes == s2.prefixes == s0.prefixes
    requires Within(s1.resident, s0.resident) && s2.resident == s1.resident
    requires s3 == if s2.active.Some? && s2.active.value.key != keep then Reset(s2) else s2
    requires forall k | k in s0.resident :: s0.resident[k] < |s0.cells|
    requires forall k | k in s0.prefixes :: s0.prefixes[k] < |s0.cells|
    ensures OnlySegmentAwake(s3, keep)
    ensures UntouchedExceptOthers(s0, s3, keep)
  {
    ReleasedAreDead(engine, s0.cells, s1.cells, others);
    ReleasedAreDead(engine, s1.cells, s2.cells, PrefixHandles(s0.prefixes, Some(keep)));
    DeadStaysDead(engine, s1, s2, s3, PrefixHandles(s0.prefixes, Some(keep)));
    forall k | k in s3.resident && k.session == keep.session && k != keep ensures !LiveAt(s3, s3.resident[k]) {
      assert s0.resident[k] in others;
    }
    forall k | k in s3.prefixes && k != keep ensures !LiveAt(s3, s3.prefixes[k]) {
      assert s0.prefixes[k] in PrefixHandles(s0.prefixes, Some(keep));
    }
    forall h | 0 <= h < |s0.cells| && !HeldByOthers(s0, keep, h) ensures s3.cells[h] == s0.cells[h] {
      assert h !in others && h !in PrefixHandles(s0.prefixes, Some(keep));
    }
  }

  lemma {:induction false} DeadStaysDead(engine: Engine, s1: KVState, s2: KVState, s3: KVState, handles: set<Handle>)
    requires HandlesReleased(engine, s1.cells, s2.cells, handles)
    requires s3 == s2 || s3 == Reset(s2)
    ensures |s3.cells| == |s1.cells|
    ensures forall h | 0 <= h < |s1.cells| && s1.cells[h].active.Dead? :: s3.cells[h].active.Dead?
    ensures forall h | 0 <= h < |s1.cells| && s2.cells[h].active.Dead? :: s3.cells[h].active.Dead?
  {
  }

  lemma {:induction false} AllReleased(before: KVState, after: KVState)
    requires after.active == None && after.prefixes == before.prefixes
    requires CellsFaithful(before.cells, after.cells)
    requires forall k | k in before.prefixes :: before.prefixes[k] < |before.cells| && before.cells[before.prefixes[k]].active.Dead?
    requires forall k | k in after.resident :: after.resident[k] < |after.cells| && after.cells[after.resident[k]].active.Dead?
    ensures forall h: Handle | Reachable(after, h) :: !LiveAt(after, h)
  {
    forall h: Handle | Reachable(after, h) ensures !LiveAt(after, h) {
      if k :| k in after.prefixes && after.prefixes[k] == h {
        assert Faithful(before.cells[h], after.cells[h]);
      }
    }
  }

  ghost function PrefixHandles(prefixes: map<Key, Handle>, keep: Option<Key>): set<Handle> {
    set k | k in prefixes && Some(k) != keep :: prefixes[k]
  }

  ghost function Reset(kv: KVState): KVState {
    if kv.active == None || kv.active.value.handle >= |kv.cells| then kv.(active := None)
    else kv.(active := None, cells := kv.cells[kv.active.value.handle := Released(kv.cells[kv.active.value.handle])])
  }

  ghost function Staged(kv: KVState, k: Key): KVState {
    if k !in kv.resident then kv
    else
      var moved := kv.(resident := kv.resident - {k}, prefixes := kv.prefixes[k := kv.resident[k]]);
      if kv.active.Some? && kv.active.value.key == k then Reset(moved) else moved
  }

  lemma {:induction false} DeactivatedShrinks(kv: KVState, session: Bytes)
    ensures Shrinks(kv, Deactivated(kv, session))
    ensures Deactivated(kv, session).resident == kv.resident && Deactivated(kv, session).prefixes == kv.prefixes
    ensures Deactivated(kv, session).active.Some? ==> Deactivated(kv, session).active.value.key.session != session
  {
    ResetShrinks(kv);
  }

  lemma {:induction false} ResetShrinks(kv: KVState)
    ensures Shrinks(kv, Reset(kv)) && Shrinks(kv, kv)
  {
    forall h | 0 <= h < |kv.cells| ensures Faithful(kv.cells[h], Reset(kv).cells[h]) && Faithful(kv.cells[h], kv.cells[h]) {
    }
  }
}
