/** The state a session keeps in memory (session_state.h): its facts, its segment plan and,
    per segment, what is known about the segment's cached KV state. */
module SessionState {
  import opened Basics
  import opened Persistent

  /** A contiguous run of memories that is put into one model context. */
  datatype Segment = Segment(
    id: int,
    indices: seq<int>,
    estimated: int,
    exact: int,
    manualStart: bool,
    autoStart: bool)

  datatype CacheState = Missing | Resident | DiskOnly

  /** What is recorded about the KV state of one segment. An entry that was never initialised
      has no file path. */
  datatype CacheEntry = CacheEntry(hash: Bytes, hasPath: bool, state: CacheState, tokenCount: int, bytes: int)

  // ----- The unseen core library -----

  /** A count of tokens is a non-negative 32-bit integer. */
  type TokenCount = x: int | 0 <= x <= INT32_MAX

  /** A context length for which `length * 85` does not overflow 32 bits. */
  type ContextLength = x: int | x * 85 <= INT32_MAX

  /** The tokeniser of the unseen core: deterministic, otherwise arbitrary, and allowed to fail. */
  datatype Core = Core(
    kvTokens: (Bytes, seq<Bytes>) -> Option<TokenCount>,
    textTokens: Bytes -> Option<TokenCount>,
    contextLength: ContextLength)

  class Session {
    var store: SessionStore
    var planReady: bool
    var segments: seq<Segment>
    var metadata: map<int, CacheEntry>
    var factsDirty: bool

    constructor (facts: SessionStore)
      ensures store == facts && !planReady && segments == [] && metadata == map[] && !factsDirty
    {
      store, planReady, segments, metadata, factsDirty := facts, false, [], map[], false;
    }
  }

  // ----- Texts of a segment -----

  function TextOf(memories: seq<MemoryRecord>, idx: int): seq<Bytes> {
    match FindMemory(memories, idx)
    case Some(m) => [m.text]
    case None => []
  }

  function SegmentTexts(memories: seq<MemoryRecord>, indices: seq<int>): seq<Bytes> {
    if indices == [] then []
    else SegmentTexts(memories, Init(indices)) + TextOf(memories, Last(indices))
  }

  method CollectSegmentMemoryTexts(store: SessionStore, segment: Segment) returns (texts: seq<Bytes>)
    ensures texts == SegmentTexts(store.memories, segment.indices)
  {
    texts := [];
    for i := 0 to |segment.indices|
      invariant texts == SegmentTexts(store.memories, segment.indices[..i])
    {
      var memory := FindMemory(store.memories, segment.indices[i]);
      assert Init(segment.indices[..i + 1]) == segment.indices[..i];
      if memory.Some? {
        texts := texts + [memory.value.text];
      }
    }
    assert segment.indices[..|segment.indices|] == segment.indices;
  }

  /** The first segment of the plan with this id. */
  function FindSegment(segments: seq<Segment>, id: int): Option<Segment> {
    if segments == [] then None
    else if segments[0].id == id then Some(segments[0])
    else FindSegment(segments[1..], id)
  }

  /** Segments are numbered by their position in the plan. */
  predicate NumberedInOrder(segments: seq<Segment>) {
    forall k :: 0 <= k < |segments| ==> segments[k].id == k
  }

  lemma {:induction false} FindSegmentFirst(segments: seq<Segment>, id: int, k: nat)
    requires k < |segments| && segments[k].id == id
    requires forall j :: 0 <= j < k ==> segments[j].id != id
    ensures FindSegment(segments, id) == Some(segments[k])
  {
    if k > 0 {
      FindSegmentFirst(segments[1..], id, k - 1);
    }
  }

  lemma {:induction false} FindSegmentAbsent(segments: seq<Segment>, id: int)
    requires forall j :: 0 <= j < |segments| ==> segments[j].id != id
    ensures FindSegment(segments, id) == None
  {
    if segments != [] {
      FindSegmentAbsent(segments[1..], id);
    }
  }

  lemma FindSegmentByNumber(segments: seq<Segment>, id: int)
    requires NumberedInOrder(segments)
    ensures 0 <= id < |segments| ==> FindSegment(segments, id) == Some(segments[id])
    ensures !(0 <= id < |segments|) ==> FindSegment(segments, id) == None
  {
    if 0 <= id < |segments| {
      FindSegmentFirst(segments, id, id);
    } else {
      FindSegmentAbsent(segments, id);
    }
  }

  // ----- Reading texts from a store that grows -----

  lemma FindMemoryInPrefix(a: seq<MemoryRecord>, b: seq<MemoryRecord>, idx: int)
    requires DistinctIndices(a) && DistinctIndices(b)
    requires |a| <= |b| && SameMemories(a, b[..|a|])
    requires FindMemory(a, idx).Some?
    ensures TextOf(a, idx) == TextOf(b, idx)
  {
    FindMemoryIsTheRecord(a, idx);
    FindMemoryIsTheRecord(b, idx);
    var i :| 0 <= i < |a| && a[i].idx == idx;
    assert SameMemory(a[i], b[..|a|][i]);
  }

  lemma {:induction false} SegmentTextsInPrefix(a: seq<MemoryRecord>, b: seq<MemoryRecord>, indices: seq<int>)
    requires DistinctIndices(a) && DistinctIndices(b)
    requires |a| <= |b| && SameMemories(a, b[..|a|])
    requires forall i :: 0 <= i < |indices| ==> FindMemory(a, indices[i]).Some?
    ensures SegmentTexts(a, indices) == SegmentTexts(b, indices)
  {
    if indices != [] {
      SegmentTextsInPrefix(a, b, Init(indices));
      FindMemoryInPrefix(a, b, Last(indices));
    }
  }
}
