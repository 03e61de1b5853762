/** KV states of segments, the shared handles that refer to them, and the unseen engine that
    builds, exports and loads them (resident_kv_store.h, the handle functions of
    resident_kv_store.cpp). */
module SegmentKV {
  import opened Basics
  import opened CacheManifest

  datatype Key = Key(session: Bytes, segment: int)

  /** What a KV state was computed from. */
  datatype Content = Content(system: Bytes, memories: seq<Bytes>)

  datatype KVMetadata = KVMetadata(content: Content, baseTokens: nat)

  /** A serialised KV state; `blobBytes` is the size of the serialised bytes. */
  datatype Snapshot = Snapshot(metadata: KVMetadata, blobBytes: Size)

  /** A context in the engine, with room for `length` tokens. */
  datatype ActiveKV = Dead | Live(metadata: KVMetadata, length: nat)

  datatype SegmentKVState = SegmentKVState(snapshot: Option<Snapshot>, active: ActiveKV) {

    /** The metadata a reader of this state sees: that of the live context first. */
    function Metadata(): Option<KVMetadata> {
      if active.Live? then Some(active.metadata)
      else if snapshot.Some? then Some(snapshot.value.metadata)
      else None
    }

    function BlobBytes(): Size {
      if snapshot.Some? then snapshot.value.blobBytes else 0
    }

    /** Both faces, where present, were computed from `content`. */
    ghost predicate Carries(content: Content) {
      && (snapshot.Some? ==> snapshot.value.metadata.content == content)
      && (active.Live? ==> active.metadata.content == content)
    }
  }

  type ContextRoom = n: nat | n > 0 witness 1

  /** The unseen engine. Every operation may fail; one that succeeds does what its name says. */
  datatype Engine = Engine(
    exportBlob: ActiveKV -> Option<Size>,                       // size of the exported snapshot
    build: Content -> Option<(nat, nat)>,                       // tokens and context length
    extend: (ActiveKV, seq<Bytes>) -> Option<nat>,              // tokens after extending in place
    hydrate: (Snapshot, nat) -> Option<nat>,                    // context length, at least as asked
    load: (Snapshot, Content) -> bool,                          // may a file of this content be loaded
    countTokens: Content -> Option<nat>,
    requiredContext: nat -> ContextRoom)                        // context length for that many tokens

  /** Exporting a live context never fails. */
  ghost predicate Exports(engine: Engine) {
    forall a: ActiveKV :: a.Live? ==> engine.exportBlob(a).Some?
  }

  /** No operation fails, and no exported snapshot is empty or larger than `limit`. */
  ghost predicate Works(engine: Engine, limit: nat) {
    && Exports(engine)
    && (forall a: ActiveKV :: a.Live? ==> 0 < engine.exportBlob(a).value <= limit)
    && (forall c: Content :: engine.build(c).Some?)
    && (forall c: Content :: engine.countTokens(c).Some?)
    && (forall a: ActiveKV, texts: seq<Bytes> :: engine.extend(a, texts).Some?)
    && (forall s: Snapshot, tokens: nat :: engine.hydrate(s, tokens).Some?)
  }

  // ----- Handle operations as functions of one state -----

  function Exported(engine: Engine, s: SegmentKVState): Option<SegmentKVState> {
    match s.active
    case Dead => if s.snapshot.Some? then Some(s) else None
    case Live(metadata, _) =>
      match engine.exportBlob(s.active)
      case None => None
      case Some(bytes) => Some(s.(snapshot := Some(Snapshot(metadata, bytes))))
  }

  function Released(s: SegmentKVState): SegmentKVState {
    s.(active := Dead)
  }

  /** A live context is exported before it is released; without one there is nothing to do. */
  function ReleasedToSnapshot(engine: Engine, s: SegmentKVState): Option<SegmentKVState> {
    if s.active.Dead? then Some(s)
    else
      match Exported(engine, s)
      case None => None
      case Some(e) => Some(Released(e))
  }

  type Handle = nat

  /** The table behind the shared handles: holders of the same handle see the same state. */
  class HandleTable {
    var cells: seq<SegmentKVState>

    constructor ()
      ensures cells == []
    {
      cells := [];
    }

    method MakeHandle(s: SegmentKVState) returns (h: Handle)
      modifies this
      ensures h == |old(cells)| && cells == old(cells) + [s]
    {
      h := |cells|;
      cells := cells + [s];
    }

    method EnsureSnapshot(engine: Engine, h: Handle) returns (ok: bool)
      requires h < |cells|
      modifies this
      ensures ok == Exported(engine, old(cells)[h]).Some?
      ensures cells == if ok then old(cells)[h := Exported(engine, old(cells)[h]).value] else old(cells)
    {
      if cells[h].active.Dead? {
        return cells[h].snapshot.Some?;
      }
      var bytes := engine.exportBlob(cells[h].active);
      if bytes == None {
        return false;
      }
      cells := cells[h := cells[h].(snapshot := Some(Snapshot(cells[h].active.metadata, bytes.value)))];
      return true;
    }

    method ReleaseContext(h: Handle)
      requires h < |cells|
      modifies this
      ensures cells == old(cells)[h := Released(old(cells)[h])]
    {
      cells := cells[h := cells[h].(active := Dead)];
    }

    /** The engine fills in, or changes, the live context of a state. */
    method SetActive(h: Handle, a: ActiveKV)
      requires h < |cells|
      modifies this
      ensures cells == old(cells)[h := old(cells)[h].(active := a)]
    {
      cells := cells[h := cells[h].(active := a)];
    }

    method ReleaseToSnapshot(engine: Engine, h: Handle) returns (ok: bool)
      requires h < |cells|
      modifies this
      ensures ok == ReleasedToSnapshot(engine, old(cells)[h]).Some?
      ensures cells == if ok then old(cells)[h := ReleasedToSnapshot(engine, old(cells)[h]).value] else old(cells)
    {
      if cells[h].active.Dead? {
        return true;
      }
      ok := EnsureSnapshot(engine, h);
      if ok {
        ReleaseContext(h);
      }
    }
  }

  // ----- Releasing many handles -----

  /** The contexts behind `handles` were exported where live and released; nothing else changed. */
  ghost predicate HandlesReleased(engine: Engine, before: seq<SegmentKVState>, after: seq<SegmentKVState>, handles: set<Handle>) {
    && |after| == |before|
    && (forall h | 0 <= h < |before| && h in handles :: ReleasedToSnapshot(engine, before[h]) == Some(after[h]))
    && (forall h | 0 <= h < |before| && h !in handles :: after[h] == before[h])
  }

  /** Each state is as before, or was exported and released. */
  ghost predicate PartlyReleased(engine: Engine, before: seq<SegmentKVState>, after: seq<SegmentKVState>) {
    && |after| == |before|
    && forall h | 0 <= h < |before| :: after[h] == before[h] || ReleasedToSnapshot(engine, before[h]) == Some(after[h])
  }

  lemma ReleasingWorks(engine: Engine, s: SegmentKVState)
    requires Exports(engine)
    ensures ReleasedToSnapshot(engine, s).Some?
  {
  }

  lemma {:induction false} ReleaseTwice(engine: Engine, s: SegmentKVState)
    requires ReleasedToSnapshot(engine, s).Some?
    ensures ReleasedToSnapshot(engine, ReleasedToSnapshot(engine, s).value) == ReleasedToSnapshot(engine, s)
  {
  }

  // ----- The KV files on disk -----

  /** A file is loaded for some content only when it was written for that content. */
  predicate Loads(engine: Engine, file: Snapshot, content: Content) {
    file.metadata.content == content && engine.load(file, content)
  }

  /** The cache directories of all sessions: a KV file per segment, and a manifest per session. */
  class CacheDisk {
    var files: map<Key, Snapshot>
    var manifests: map<Bytes, Manifest>

    constructor ()
      ensures files == map[] && manifests == map[]
    {
      files, manifests := map[], map[];
    }
  }
}
