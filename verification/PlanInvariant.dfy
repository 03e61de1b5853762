/** What every segment plan keeps, however it came about, and how the content of its segments
    changes when a memory is added. */
module PlanInvariant {
  import opened Basics
  import opened Persistent
  import opened SessionState
  import opened SegmentPlanner
  import opened IncrementalPlan
  import opened ContentHash
  import opened CacheManifest
  import opened PlanShape
  import opened PlanRefinement
  import opened PlanRestore
  import opened SegmentKV
  import opened KVManager
  import opened Durability

  ghost predicate Disjoint(segments: seq<Segment>) {
    forall j, k, i :: 0 <= j < k < |segments| && i in segments[j].indices ==> i !in segments[k].indices
  }

  ghost predicate MembersPresent(store: SessionStore, segments: seq<Segment>) {
    forall k :: 0 <= k < |segments| ==> segments[k].indices != [] && AllPresent(store.memories, segments[k].indices)
  }

  /** Segments are numbered in order, are not empty, share no memory and hold stored memories. */
  ghost predicate PlanOk(store: SessionStore, segments: seq<Segment>) {
    NumberedInOrder(segments) && MembersPresent(store, segments) && Disjoint(segments)
  }

  /** An entry that was initialised carries the hash of its segment's present content. */
  ghost predicate HashesOk(store: SessionStore, segments: seq<Segment>, metadata: map<int, CacheEntry>) {
    forall k :: 0 <= k < |segments| && k in metadata && metadata[k].hasPath ==>
      metadata[k].hash == SegmentHash(store, segments[k].indices)
  }

  /** Every planned segment has an initialised entry. */
  ghost predicate Described(segments: seq<Segment>, metadata: map<int, CacheEntry>) {
    forall k :: 0 <= k < |segments| ==> k in metadata && metadata[k].hasPath
  }

  /** The present content of a segment. */
  function ContentAt(store: SessionStore, segment: Segment): Content {
    Content(store.system, SegmentTexts(store.memories, segment.indices))
  }

  lemma {:induction false} PlannedContent(store: SessionStore, segments: seq<Segment>, id: int)
    requires NumberedInOrder(segments)
    ensures ContentOf(store, segments, id) == if 0 <= id < |segments| then Some(ContentAt(store, segments[id])) else None
    ensures FindSegment(segments, id) == if 0 <= id < |segments| then Some(segments[id]) else None
  {
    hide FindSegment, NumberedInOrder;
    FindSegmentByNumber(segments, id);
  }

  // ----- Plans that were rebuilt -----

  lemma {:induction false} RunsAreDisjoint(store: SessionStore, segments: seq<Segment>, j: nat, k: nat, i: int)
    requires Partition(store, segments) && DistinctIndices(store.memories) && j < k < |segments|
    ensures i in segments[j].indices ==> i !in segments[k].indices
  {
    hide Partition, Starts;
    var starts, n := Starts(segments), |store.memories|;
    PlanRun(store, segments, j);
    PlanRun(store, segments, k);
    RunsInOrder(store, segments, j, k);
    IndexInOneRun(store.memories, starts[j], End(starts, n, j), starts[k], End(starts, n, k), i);
  }

  lemma {:induction false} IndexInOneRun(memories: seq<MemoryRecord>, a: nat, b: nat, c: nat, d: nat, i: int)
    requires DistinctIndices(memories) && a <= b <= c <= d <= |memories|
    ensures i in Indices(memories)[a..b] ==> i !in Indices(memories)[c..d]
  {
    var left, right := Indices(memories)[a..b], Indices(memories)[c..d];
    forall x, y | 0 <= x < b - a && 0 <= y < d - c ensures left[x] != right[y] {
      assert left[x] == memories[a + x].idx && right[y] == memories[c + y].idx;
    }
  }

  lemma {:induction false} RunIsOk(store: SessionStore, segments: seq<Segment>, k: nat)
    requires Partition(store, segments) && DistinctIndices(store.memories) && k < |segments|
    ensures segments[k].id == k && segments[k].indices != [] && AllPresent(store.memories, segments[k].indices)
  {
    hide Partition, Starts, FindMemory, DistinctIndices;
    PlanRun(store, segments, k);
    RunMembersPresent(store.memories, Starts(segments)[k], End(Starts(segments), |store.memories|, k));
  }

  /** A store cut into runs: numbered, disjoint, and made of stored memories. */
  lemma {:induction false} PartitionIsOk(store: SessionStore, segments: seq<Segment>)
    requires Partition(store, segments) && DistinctIndices(store.memories)
    ensures PlanOk(store, segments)
  {
    hide Partition, DistinctIndices, AllPresent;
    forall k | 0 <= k < |segments|
      ensures segments[k].id == k && segments[k].indices != [] && AllPresent(store.memories, segments[k].indices)
    {
      RunIsOk(store, segments, k);
    }
    forall j, k, i | 0 <= j < k < |segments| && i in segments[j].indices ensures i !in segments[k].indices {
      RunsAreDisjoint(store, segments, j, k, i);
    }
  }

  lemma {:induction false} ShapedPlanOk(r: Rebuild, segments: seq<Segment>, n: nat)
    requires Shape(r, segments, n) && DistinctIndices(r.store.memories)
    ensures PlanOk(r.store, segments)
  {
    hide AllPresent, Partition, FindMemory, Starts, SegmentOk;
    RebuildIsPartition(r, segments, n);
    PartitionIsOk(Reached(r, n), segments);
    forall k | 0 <= k < |segments| ensures AllPresent(r.store.memories, segments[k].indices) {
      PresentInLonger(r.store.memories, n, segments[k].indices);
    }
  }

  lemma {:induction false} PresentInLonger(memories: seq<MemoryRecord>, n: nat, indices: seq<int>)
    requires n <= |memories| && DistinctIndices(memories) && AllPresent(memories[..n], indices)
    ensures AllPresent(memories, indices)
  {
    hide FindMemory;
    forall k | 0 <= k < |indices| ensures FindMemory(memories, indices[k]).Some? {
      FindMemoryIsTheRecord(memories[..n], indices[k]);
      FindMemoryIsTheRecord(memories, indices[k]);
    }
  }

  /** Even a rebuild that stops early leaves a sound plan of the memories it reached. */
  lemma {:induction false} RebuiltPlanOk(r: Rebuild)
    requires r.Valid() && DistinctIndices(r.store.memories)
    ensures PlanOk(r.store, r.Plan().segments)
  {
    var empty := r.core.kvTokens(r.store.system, []);
    if empty.Some? {
      StepsHaveShape(r, empty.value, |r.store.memories|);
      var plan := r.Steps(empty.value, |r.store.memories|);
      ShapedPlanOk(r, plan.segments, Placed(plan.segments));
    }
    EmptyPlanOk(r.store);
    hide PlanOk, WellPlanned, Rebuild.Steps, DistinctIndices;
  }

  lemma {:induction false} EmptyPlanOk(store: SessionStore)
    ensures PlanOk(store, [])
  {
  }

  lemma {:induction false} PresentUpToEstimates(a: SessionStore, b: SessionStore, idx: int)
    requires SameFacts(a, b)
    ensures FindMemory(a.memories, idx).Some? <==> FindMemory(b.memories, idx).Some?
    ensures TextOf(a.memories, idx) == TextOf(b.memories, idx)
  {
    FirstWithIdxIgnoresEstimates(a.memories, b.memories, idx);
    if 0 <= idx < |a.memories| {
      assert SameMemory(a.memories[idx], b.memories[idx]);
    }
  }

  lemma {:induction false} SameTextsCollectAlike(a: seq<MemoryRecord>, b: seq<MemoryRecord>, indices: seq<int>)
    requires forall idx :: TextOf(a, idx) == TextOf(b, idx)
    ensures SegmentTexts(a, indices) == SegmentTexts(b, indices)
  {
    hide TextOf;
    if indices != [] {
      SameTextsCollectAlike(a, b, Init(indices));
    }
  }

  lemma {:induction false} ContentUpToEstimates(a: SessionStore, b: SessionStore, segment: Segment)
    requires SameFacts(a, b)
    ensures ContentAt(a, segment) == ContentAt(b, segment)
  {
    hide SegmentTexts, TextOf;
    forall idx ensures TextOf(a.memories, idx) == TextOf(b.memories, idx) {
      PresentUpToEstimates(a, b, idx);
    }
    SameTextsCollectAlike(a.memories, b.memories, segment.indices);
    var x, y := a.(memories := []), b.(memories := []);
    assert a.system == x.system && b.system == y.system;
  }

  /** Nor does where a new memory goes. */
  lemma {:induction false} DecideUpToEstimates(core: Core, a: SessionStore, b: SessionStore, segments: seq<Segment>, input: MemoryInput)
    requires SameFacts(a, b)
    ensures Planned(a, segments).Decide(core, input.text) == Planned(b, segments).Decide(core, input.text)
    ensures Planned(a, segments).Appended(core, input).segments == Planned(b, segments).Appended(core, input).segments
    ensures Planned(a, segments).CanSealSegment() == Planned(b, segments).CanSealSegment()
  {
    hide SegmentTexts, TextOf;
    var x, y := a.(memories := []), b.(memories := []);
    assert a.system == x.system && b.system == y.system;
    assert a.nextIdx == x.nextIdx && b.nextIdx == y.nextIdx;
    assert a.boundaries == x.boundaries && b.boundaries == y.boundaries;
    if segments != [] {
      forall idx ensures TextOf(a.memories, idx) == TextOf(b.memories, idx) {
        PresentUpToEstimates(a, b, idx);
      }
      SameTextsCollectAlike(a.memories, b.memories, Last(segments).indices);
    }
  }

  /** Nothing a plan is about depends on the cached estimates. */
  lemma {:induction false} PlanOkUpToEstimates(a: SessionStore, b: SessionStore, segments: seq<Segment>)
    requires SameFacts(a, b) && PlanOk(a, segments)
    ensures PlanOk(b, segments)
  {
    forall k, i | 0 <= k < |segments| && 0 <= i < |segments[k].indices|
      ensures FindMemory(b.memories, segments[k].indices[i]).Some?
    {
      PresentUpToEstimates(a, b, segments[k].indices[i]);
    }
  }

  // ----- Plans that were restored -----

  /** The records are numbered by position, as those of every manifest that the program writes. */
  ghost predicate NumberedRecords(manifest: Manifest) {
    forall k :: 0 <= k < |manifest.segments| ==> manifest.segments[k].id == k
  }

  lemma {:induction false} RestoredSegmentPresent(core: Core, store: SessionStore, r: SegmentRecord, first: bool)
    requires RecordFits(core, store, r)
    ensures SegmentFrom(store, r, first).indices != [] && AllPresent(store.memories, SegmentFrom(store, r, first).indices)
  {
    hide SegmentHash, FindMemory;
    var indices := Range(r.first, r.last);
    forall i | 0 <= i < |indices| ensures FindMemory(store.memories, indices[i]).Some? {
      assert indices[i] in Range(r.first, r.last);
    }
  }

  lemma {:induction false} RestoredPlanOk(core: Core, store: SessionStore, model: ModelKey, manifest: Manifest, segments: seq<Segment>)
    requires Accepts(core, store, model, manifest) && PlanFrom(store, SortedById(manifest.segments), segments)
    requires NumberedRecords(manifest)
    ensures PlanOk(store, segments)
  {
    hide RecordFits, CoversStore, SortedById, SegmentHash, AllPresent;
    var records := manifest.segments;
    SortingSorted(records);
    forall k | 0 <= k < |segments| ensures segments[k].indices != [] && AllPresent(store.memories, segments[k].indices) {
      RestoredSegmentPresent(core, store, records[k], k == 0);
    }
    forall j, k, i | 0 <= j < k < |segments| && i in segments[j].indices ensures i !in segments[k].indices {
      assert Apart(records[j], records[k]);
    }
  }

  // ----- Plans that grew by one memory -----

  ghost predicate Longer(shorter: seq<MemoryRecord>, longer: seq<MemoryRecord>) {
    && DistinctIndices(shorter) && DistinctIndices(longer)
    && |shorter| <= |longer| && SameMemories(shorter, longer[..|shorter|])
  }

  lemma {:induction false} PresentStays(a: seq<MemoryRecord>, b: seq<MemoryRecord>, indices: seq<int>)
    requires Longer(a, b) && AllPresent(a, indices)
    ensures AllPresent(b, indices) && SegmentTexts(a, indices) == SegmentTexts(b, indices)
    ensures HashedItems(a, indices) == HashedItems(b, indices)
  {
    forall i | 0 <= i < |indices| ensures FindMemory(b, indices[i]).Some? {
      FindMemoryInPrefix(a, b, indices[i]);
    }
    SegmentTextsInPrefix(a, b, indices);
    SameContentSameItems(a, b, indices);
  }

  lemma {:induction false} AppendedIsLonger(store: SessionStore, m: MemoryRecord)
    requires ValidStore(store) && m.idx == store.nextIdx
    ensures Longer(store.memories, store.memories + [m])
    ensures FindMemory(store.memories + [m], m.idx) == Some(m)
    ensures FindMemory(store.memories, m.idx) == None
  {
    hide IsValidSessionId, FindMemory;
    var longer := store.memories + [m];
    assert longer[..|store.memories|] == store.memories;
    FindMemoryIsTheRecord(store.memories, m.idx);
    assert DistinctIndices(longer);
    FindMemoryIsTheRecord(longer, m.idx);
    assert longer[|store.memories|] == m;
  }

  /** The plan after a memory was accepted: one segment, the last, is new or longer by it. */
  ghost predicate GrownPlan(store: SessionStore, before: seq<Segment>, after: seq<Segment>, opens: bool) {
    && after != [] && |after| == |before| + (if opens then 1 else 0)
    && (forall k :: 0 <= k < |after| - 1 ==> after[k] == before[k])
    && Last(after).id == |after| - 1
    && Last(after).indices == (if opens || before == [] then [] else Last(before).indices) + [store.nextIdx]
  }

  lemma {:induction false} AppendGrowsPlan(core: Core, p: Planned, input: MemoryInput)
    requires PlanOk(p.store, p.segments) && !p.Decide(core, input.text).Refused?
    ensures GrownPlan(p.store, p.segments, p.Appended(core, input).segments, p.Decide(core, input.text).Opens?)
  {
    hide SoftLimit, AppendTokenEstimate, MembersPresent, Disjoint;
    var decision := p.Decide(core, input.text);
    AcceptedAppends(core, p, input);
    hide Planned.Decide;
    if decision.Extends? {
      assert p.segments[|p.segments| - 1].id == |p.segments| - 1;
    }
  }

  lemma {:induction false} GrownPlanOk(store: SessionStore, m: MemoryRecord, before: seq<Segment>, after: seq<Segment>, opens: bool)
    requires ValidStore(store) && m.idx == store.nextIdx
    requires PlanOk(store, before) && GrownPlan(store, before, after, opens)
    requires !opens ==> before != []
    ensures PlanOk(store.(memories := store.memories + [m], nextIdx := store.nextIdx + 1, systemLocked := true), after)
  {
    hide ValidStore, FindMemory, Longer, SegmentTexts, HashedItems;
    var longer, last := store.memories + [m], |after| - 1;
    AppendedIsLonger(store, m);
    forall k | 0 <= k < |after| ensures after[k].indices != [] && AllPresent(longer, after[k].indices) {
      if k < |before| {
        PresentStays(store.memories, longer, before[k].indices);
      }
    }
    forall j, k, i | 0 <= j < k < |after| && i in after[j].indices ensures i !in after[k].indices {
      StoredIsNotNew(store, before, j, i);
    }
  }

  lemma {:induction false} StoredIsNotNew(store: SessionStore, segments: seq<Segment>, j: nat, i: int)
    requires MembersPresent(store, segments) && j < |segments| && i in segments[j].indices
    requires FindMemory(store.memories, store.nextIdx) == None
    ensures i != store.nextIdx
  {
    var x :| 0 <= x < |segments[j].indices| && segments[j].indices[x] == i;
  }

  /** What the other segments hold stays the same; the segment that grew holds what it held, then
      the new text. */
  lemma {:induction false} GrownContents(store: SessionStore, m: MemoryRecord, before: seq<Segment>, after: seq<Segment>, opens: bool)
    requires ValidStore(store) && m.idx == store.nextIdx
    requires PlanOk(store, before) && GrownPlan(store, before, after, opens)
    requires !opens ==> before != []
    ensures var store' := store.(memories := store.memories + [m], nextIdx := store.nextIdx + 1, systemLocked := true);
            && (forall k :: 0 <= k < |after| - 1 ==>
                  && ContentAt(store', after[k]) == ContentAt(store, before[k])
                  && SegmentHash(store', after[k].indices) == SegmentHash(store, before[k].indices))
            && ContentAt(store', Last(after)) ==
                 Content(store.system, (if opens then [] else ContentAt(store, Last(before)).memories) + [m.text])
  {
    hide ValidStore, FindMemory, Longer, HashedItems, Fnv, Hex;
    var longer := store.memories + [m];
    AppendedIsLonger(store, m);
    forall k | 0 <= k < |before|
      ensures SegmentTexts(longer, before[k].indices) == SegmentTexts(store.memories, before[k].indices)
      ensures HashedItems(longer, before[k].indices) == HashedItems(store.memories, before[k].indices)
    {
      PresentStays(store.memories, longer, before[k].indices);
    }
    var front := if opens || before == [] then [] else Last(before).indices;
    assert Init(front + [m.idx]) == front;
    assert SegmentTexts(longer, Last(after).indices) == SegmentTexts(longer, front) + [m.text];
  }

  /** The new entry and the old ones carry the right hashes. */
  lemma {:induction false} GrownHashesOk(store: SessionStore, m: MemoryRecord, before: seq<Segment>, after: seq<Segment>, opens: bool,
                                         metadata: map<int, CacheEntry>)
    requires ValidStore(store) && m.idx == store.nextIdx
    requires PlanOk(store, before) && GrownPlan(store, before, after, opens)
    requires !opens ==> before != []
    requires HashesOk(store, before, metadata)
    ensures var store' := store.(memories := store.memories + [m], nextIdx := store.nextIdx + 1, systemLocked := true);
            var metadata' := metadata[Last(after).id := MissingEntry(store', Last(after))];
            && HashesOk(store', after, metadata')
            && (Described(before, metadata) ==> Described(after, metadata'))
  {
    hide ValidStore, PlanOk, SegmentHash, SegmentTexts;
    GrownContents(store, m, before, after, opens);
  }
}
