/** Restoring a segment plan from a cache manifest instead of planning again
    (segment_planner.cpp). */
module PlanRestore {
  import opened Basics
  import opened Persistent
  import opened SessionState
  import opened SegmentPlanner
  import opened ContentHash
  import opened CacheManifest
  import opened PlanShape

  // ----- Sorting by segment number -----

  function Insert(sorted: seq<SegmentRecord>, r: SegmentRecord): seq<SegmentRecord> {
    if sorted == [] || Last(sorted).id <= r.id then sorted + [r]
    else Insert(Init(sorted), r) + [Last(sorted)]
  }

  function SortedById(records: seq<SegmentRecord>): seq<SegmentRecord> {
    if records == [] then [] else Insert(SortedById(Init(records)), Last(records))
  }

  ghost predicate AscendingRecords(records: seq<SegmentRecord>) {
    forall i, j :: 0 <= i < j < |records| ==> records[i].id <= records[j].id
  }

  lemma {:induction false} InsertKeepsRecords(sorted: seq<SegmentRecord>, x: SegmentRecord)
    ensures multiset(Insert(sorted, x)) == multiset(sorted) + multiset{x}
  {
    if sorted != [] && Last(sorted).id > x.id {
      InsertKeepsRecords(Init(sorted), x);
      assert sorted == Init(sorted) + [Last(sorted)];
    }
  }

  lemma {:induction false} InsertSortsRecords(sorted: seq<SegmentRecord>, x: SegmentRecord)
    requires AscendingRecords(sorted)
    ensures AscendingRecords(Insert(sorted, x))
  {
    if sorted != [] && Last(sorted).id > x.id {
      var front := Init(sorted);
      InsertSortsRecords(front, x);
      InsertKeepsRecords(front, x);
      hide Insert;
      var inserted := Insert(front, x);
      forall j | 0 <= j < |inserted| ensures inserted[j].id <= Last(sorted).id {
        assert inserted[j] in multiset(inserted);
        assert inserted[j] in front || inserted[j] == x;
      }
    }
  }

  /** The records of a manifest are walked in the order of their numbers, none lost and none twice. */
  lemma {:induction false} SortsRecords(records: seq<SegmentRecord>)
    ensures AscendingRecords(SortedById(records)) && multiset(SortedById(records)) == multiset(records)
  {
    hide Insert;
    if records != [] {
      SortsRecords(Init(records));
      InsertSortsRecords(SortedById(Init(records)), Last(records));
      InsertKeepsRecords(SortedById(Init(records)), Last(records));
      assert Init(records) + [Last(records)] == records;
    }
  }

  lemma {:induction false} SortingSorted(records: seq<SegmentRecord>)
    requires forall k :: 0 <= k < |records| ==> records[k].id == k
    ensures SortedById(records) == records
  {
    if records != [] {
      SortingSorted(Init(records));
      assert Init(records) + [Last(records)] == records;
    }
  }

  // ----- What is accepted -----

  /** The integers from `a` up to but not including `b`. */
  function Range(a: int, b: int): (s: seq<int>)
    ensures |s| == Max(b - a, 0) && forall k :: 0 <= k < |s| ==> s[k] == a + k
    ensures forall i {:trigger i in s} :: i in s <==> a <= i < b
    decreases b - a
  {
    if b <= a then [] else Range(a, b - 1) + [b - 1]
  }

  /** The record is sound and its hash is that of the memories it names. */
  ghost predicate RecordFits(core: Core, store: SessionStore, r: SegmentRecord) {
    && 0 <= r.id && 0 <= r.first < r.last && r.tokens <= core.contextLength
    && (forall i | i in Range(r.first, r.last) :: FindMemory(store.memories, i).Some?)
    && SegmentHash(store, Range(r.first, r.last)) == r.hash
  }

  ghost predicate Apart(a: SegmentRecord, b: SegmentRecord) {
    a.last <= b.first || b.last <= a.first
  }

  ghost function CoveredBy(records: seq<SegmentRecord>): set<int> {
    set k, i | 0 <= k < |records| && i in Range(records[k].first, records[k].last) :: i
  }

  ghost predicate RecordsFit(core: Core, store: SessionStore, records: seq<SegmentRecord>) {
    && (forall k :: 0 <= k < |records| ==> RecordFits(core, store, records[k]))
    && (forall j, k :: 0 <= j < k < |records| ==> Apart(records[j], records[k]))
  }

  ghost predicate CoversStore(store: SessionStore, records: seq<SegmentRecord>) {
    && |CoveredBy(records)| == |store.memories|
    && (forall m | m in store.memories :: m.idx in CoveredBy(records))
  }

  ghost predicate Accepts(core: Core, store: SessionStore, model: ModelKey, manifest: Manifest) {
    && manifest.model == model && manifest.session == store.sessionId && manifest.segments != []
    && core.contextLength > 0
    && RecordsFit(core, store, SortedById(manifest.segments))
    && CoversStore(store, SortedById(manifest.segments))
  }

  function SegmentFrom(store: SessionStore, r: SegmentRecord, first: bool): Segment {
    var manual := r.first in store.boundaries;
    Segment(r.id, Range(r.first, r.last), r.tokens, r.tokens, manual, !first && !manual)
  }

  ghost predicate PlanFrom(store: SessionStore, records: seq<SegmentRecord>, segments: seq<Segment>) {
    && |segments| == |records|
    && forall k :: 0 <= k < |records| ==> segments[k] == SegmentFrom(store, records[k], k == 0)
  }

  // ----- The loops -----

  method RestoreSegmentPlan(core: Core, store: SessionStore, model: ModelKey, manifest: Option<Manifest>)
    returns (plan: Option<seq<Segment>>)
    ensures store.memories == [] ==> plan == Some([])
    ensures store.memories != [] ==> (plan.Some? <==> manifest.Some? && Accepts(core, store, model, manifest.value))
    ensures store.memories != [] && plan.Some? ==> PlanFrom(store, SortedById(manifest.value.segments), plan.value)
  {
    hide RecordFits, SortedById;
    if store.memories == [] {
      return Some([]);
    }
    if manifest == None || manifest.value.model != model || manifest.value.session != store.sessionId ||
       manifest.value.segments == [] || core.contextLength <= 0 {
      return None;
    }
    var records := SortedById(manifest.value.segments);
    var candidate: seq<Segment> := [];
    var covered: set<int> := {};
    for k := 0 to |records|
      invariant RecordsFit(core, store, records[..k])
      invariant covered == CoveredBy(records[..k])
      invariant PlanFrom(store, records[..k], candidate)
    {
      var segment;
      segment, covered := RestoreSegment(core, store, records, k, covered);
      if segment == None {
        assert records[..|records|] == records;
        return None;
      }
      candidate := candidate + [segment.value];
    }
    assert records[..|records|] == records;
    if |covered| != |store.memories| {
      return None;
    }
    for i := 0 to |store.memories|
      invariant forall j :: 0 <= j < i ==> store.memories[j].idx in covered
    {
      if store.memories[i].idx !in covered {
        return None;
      }
    }
    plan := Some(candidate);
  }

  /** One record: checks it and walks over the memories it names. */
  method RestoreSegment(core: Core, store: SessionStore, records: seq<SegmentRecord>, k: nat, covered: set<int>)
    returns (segment: Option<Segment>, covered': set<int>)
    requires k < |records| && RecordsFit(core, store, records[..k]) && covered == CoveredBy(records[..k])
    ensures segment.Some? ==> RecordsFit(core, store, records[..k + 1]) && covered' == CoveredBy(records[..k + 1])
    ensures segment.Some? ==> segment.value == SegmentFrom(store, records[k], k == 0)
    ensures segment == None ==> !RecordsFit(core, store, records)
  {
    hide FindMemory, SegmentHash, CoveredBy, Apart;
    var r := records[k];
    covered' := covered;
    if r.id < 0 || r.first < 0 || r.last <= r.first || r.tokens > core.contextLength {
      return None, covered';
    }
    var manual := r.first in store.boundaries;
    var indices := [];
    for i := r.first to r.last
      invariant indices == Range(r.first, i)
      invariant covered' == covered + set j | j in indices
      invariant forall j | j in indices :: FindMemory(store.memories, j).Some? && j !in covered
    {
      var memory := FindMemory(store.memories, i);
      if memory == None || i in covered' {
        if i in covered {
          CoveredTwice(core, store, records, k, i);
        }
        return None, covered';
      }
      indices, covered' := indices + [i], covered' + {i};
    }
    var s := Segment(r.id, indices, r.tokens, r.tokens, manual, k > 0 && !manual);
    var hash := SegmentKvContentHash(store, s);
    if hash != r.hash {
      return None, covered';
    }
    OneMoreRecord(core, store, records, k);
    segment := Some(s);
  }

  lemma {:induction false} CoveredTwice(core: Core, store: SessionStore, records: seq<SegmentRecord>, k: nat, i: int)
    requires k < |records| && i in CoveredBy(records[..k]) && records[k].first <= i < records[k].last
    ensures !RecordsFit(core, store, records)
  {
    var j :| 0 <= j < k && records[..k][j].first <= i < records[..k][j].last;
    assert !Apart(records[j], records[k]);
  }

  lemma {:induction false} CoverGrows(records: seq<SegmentRecord>, k: nat)
    requires k < |records|
    ensures CoveredBy(records[..k + 1]) == CoveredBy(records[..k]) + set i | i in Range(records[k].first, records[k].last)
  {
    var before, after := records[..k], records[..k + 1];
    assert forall j :: 0 <= j < k ==> after[j] == before[j];
    forall i | i in CoveredBy(before) ensures i in CoveredBy(after) {
      var j :| 0 <= j < k && i in Range(before[j].first, before[j].last);
      assert i in Range(after[j].first, after[j].last);
    }
    forall i | i in Range(records[k].first, records[k].last) ensures i in CoveredBy(after) {
      assert i in Range(after[k].first, after[k].last);
    }
    forall i | i in CoveredBy(after) && i !in Range(records[k].first, records[k].last) ensures i in CoveredBy(before) {
      var j :| 0 <= j <= k && i in Range(after[j].first, after[j].last);
      assert i in Range(before[j].first, before[j].last);
    }
  }

  lemma {:induction false} OneMoreRecord(core: Core, store: SessionStore, records: seq<SegmentRecord>, k: nat)
    requires k < |records| && RecordsFit(core, store, records[..k]) && RecordFits(core, store, records[k])
    requires forall i | i in Range(records[k].first, records[k].last) :: i !in CoveredBy(records[..k])
    ensures RecordsFit(core, store, records[..k + 1])
    ensures CoveredBy(records[..k + 1]) == CoveredBy(records[..k]) + set i | i in Range(records[k].first, records[k].last)
  {
    hide RecordFits;
    CoverGrows(records, k);
    var before, after := records[..k], records[..k + 1];
    assert forall j :: 0 <= j < k ==> after[j] == before[j];
    forall j | 0 <= j < k ensures Apart(after[j], after[k]) {
      assert RecordFits(core, store, before[j]);
      RecordIsNotEmpty(core, store, before[j]);
      RecordIsNotEmpty(core, store, records[k]);
      var i := Max(before[j].first, records[k].first);
      assert i in Range(before[j].first, before[j].last) ==> i in CoveredBy(before);
      assert i !in Range(before[j].first, before[j].last) || i !in Range(records[k].first, records[k].last);
    }
  }

  lemma {:induction false} RecordIsNotEmpty(core: Core, store: SessionStore, r: SegmentRecord)
    requires RecordFits(core, store, r)
    ensures r.first < r.last
  {
  }

  // ----- What an accepted manifest gives -----

  lemma {:induction false} DistinctCount(memories: seq<MemoryRecord>)
    requires DistinctIndices(memories)
    ensures |set m | m in memories :: m.idx| == |memories|
  {
    if memories == [] {
      assert (set m | m in memories :: m.idx) == {};
    } else {
      var front, last := Init(memories), Last(memories);
      DistinctCount(front);
      assert memories == front + [last];
      assert (set m | m in memories :: m.idx) == (set m | m in front :: m.idx) + {last.idx};
      assert last.idx !in set m | m in front :: m.idx;
    }
  }

  /** Segment `k`, and no other, holds memory number `idx`. */
  ghost predicate HeldOnlyBy(segments: seq<Segment>, k: nat, idx: int) {
    && k < |segments| && idx in segments[k].indices
    && forall j :: 0 <= j < |segments| && j != k ==> idx !in segments[j].indices
  }

  /** Every memory of the store lies in exactly one segment. */
  ghost predicate EachInOne(store: SessionStore, segments: seq<Segment>) {
    forall m | m in store.memories :: exists k :: HeldOnlyBy(segments, k, m.idx)
  }

  ghost predicate ContiguousRun(indices: seq<int>) {
    indices != [] && indices == Range(indices[0], Last(indices) + 1)
  }

  /** A restored segment: a contiguous run of stored memories within the context length, whose
      content still has the recorded hash. */
  ghost predicate SoundlyRestored(core: Core, store: SessionStore, s: Segment, hash: Bytes) {
    && ContiguousRun(s.indices)
    && s.exact == s.estimated <= core.contextLength
    && (forall i | i in s.indices :: FindMemory(store.memories, i).Some?)
    && SegmentHash(store, s.indices) == hash
  }

  lemma {:induction false} CoveredIsHeldOnce(core: Core, store: SessionStore, records: seq<SegmentRecord>, segments: seq<Segment>, idx: int)
    returns (k: nat)
    requires RecordsFit(core, store, records) && idx in CoveredBy(records) && PlanFrom(store, records, segments)
    ensures HeldOnlyBy(segments, k, idx)
  {
    hide RecordFits;
    k :| 0 <= k < |records| && idx in Range(records[k].first, records[k].last);
    forall j | 0 <= j < |segments| && j != k ensures idx !in segments[j].indices {
      assert Apart(records[Min(j, k)], records[Max(j, k)]);
    }
  }

  lemma {:induction false} RestoredCoversOnce(core: Core, store: SessionStore, records: seq<SegmentRecord>, segments: seq<Segment>)
    requires RecordsFit(core, store, records) && CoversStore(store, records) && PlanFrom(store, records, segments)
    ensures EachInOne(store, segments)
  {
    hide RecordsFit, HeldOnlyBy, PlanFrom;
    forall m | m in store.memories ensures exists k :: HeldOnlyBy(segments, k, m.idx) {
      var k := CoveredIsHeldOnce(core, store, records, segments, m.idx);
    }
  }

  /** Any accepted manifest cuts the store into disjoint contiguous runs that hold every stored
      memory exactly once and nothing else. */
  lemma {:induction false} RestoredPlanIsAPartition(core: Core, store: SessionStore, model: ModelKey, manifest: Manifest, segments: seq<Segment>)
    requires Accepts(core, store, model, manifest) && PlanFrom(store, SortedById(manifest.segments), segments)
    ensures EachInOne(store, segments)
    ensures forall k :: 0 <= k < |segments| ==>
              SoundlyRestored(core, store, segments[k], SortedById(manifest.segments)[k].hash)
  {
    hide SortedById, RecordFits, SoundlyRestored, CoversStore, SegmentFrom, EachInOne;
    var records := SortedById(manifest.segments);
    forall k | 0 <= k < |segments| ensures SoundlyRestored(core, store, segments[k], records[k].hash) {
      FittingIsSound(core, store, records[k], k == 0);
    }
    RestoredCoversOnce(core, store, records, segments);
  }

  lemma {:induction false} FittingIsSound(core: Core, store: SessionStore, r: SegmentRecord, first: bool)
    requires RecordFits(core, store, r)
    ensures SoundlyRestored(core, store, SegmentFrom(store, r, first), r.hash)
  {
    hide SegmentHash;
  }

  // ----- The manifest of a finished index restores the plan -----

  /** Entry `k` describes segment `k` of the plan as the index command writes it. */
  ghost predicate Describes(store: SessionStore, s: Segment, r: SegmentRecord) {
    && s.indices != [] && r.id == s.id && r.first == s.indices[0] && r.last == Last(s.indices) + 1
    && r.hash == SegmentHash(store, s.indices)
  }

  ghost predicate WrittenFor(store: SessionStore, segments: seq<Segment>, records: seq<SegmentRecord>) {
    |records| == |segments| && forall k :: 0 <= k < |segments| ==> Describes(store, segments[k], records[k])
  }

  /** Memories are stored in the order of their numbers, as they are appended. */
  ghost predicate Ascending(memories: seq<MemoryRecord>) {
    && (forall i :: 0 <= i < |memories| ==> 0 <= memories[i].idx)
    && (forall i, j :: 0 <= i < j < |memories| ==> memories[i].idx < memories[j].idx)
  }

  predicate StepsUp(run: seq<int>, k: nat)
    requires k + 1 < |run|
  {
    run[k + 1] == run[k] + 1
  }

  lemma {:induction false} StepsByOne(run: seq<int>, n: nat)
    requires n < |run| && forall k :: 0 <= k < |run| - 1 ==> StepsUp(run, k)
    ensures forall k :: 0 <= k <= n ==> run[k] == run[0] + k
  {
    if n > 0 {
      StepsByOne(run, n - 1);
      assert StepsUp(run, n - 1);
    }
  }

  lemma {:induction false} SteppingRunIsContiguous(run: seq<int>)
    requires run != [] && forall k :: 0 <= k < |run| - 1 ==> StepsUp(run, k)
    ensures ContiguousRun(run)
  {
    StepsByOne(run, |run| - 1);
    assert run == Range(run[0], Last(run) + 1);
  }

  /** A run of an ascending store that is not contiguous names an index that is not stored. */
  lemma {:induction false} GapIsNotStored(memories: seq<MemoryRecord>, a: nat, b: nat) returns (g: int)
    requires Ascending(memories) && a < b <= |memories|
    requires !ContiguousRun(Indices(memories)[a..b])
    ensures memories[a].idx <= g <= memories[b - 1].idx && FindMemory(memories, g) == None
  {
    var run := Indices(memories)[a..b];
    assert forall k :: 0 <= k < b - a ==> run[k] == memories[a + k].idx;
    if forall k :: 0 <= k < b - a - 1 ==> StepsUp(run, k) {
      SteppingRunIsContiguous(run);
      assert false;
    } else {
      var k :| 0 <= k < b - a - 1 && !StepsUp(run, k);
      g := run[k] + 1;
      assert memories[a + k].idx < g < memories[a + k + 1].idx;
      NotBetween(memories, a + k, g);
    }
  }

  lemma {:induction false} NotBetween(memories: seq<MemoryRecord>, i: nat, g: int)
    requires Ascending(memories) && i + 1 < |memories| && memories[i].idx < g < memories[i + 1].idx
    ensures FindMemory(memories, g) == None
  {
    FindMemoryIsTheRecord(memories, g);
  }

  // ----- Facts about the runs of a plan -----

  /** Segment `k` holds the memories `a..b`, and its flags say whether a boundary starts it. */
  ghost predicate IsRun(store: SessionStore, k: nat, segment: Segment, a: nat, b: nat) {
    && a < b <= |store.memories|
    && segment.id == k && segment.indices == Indices(store.memories)[a..b]
    && segment.manualStart == (store.memories[a].idx in store.boundaries)
    && segment.autoStart == (k > 0 && !segment.manualStart)
  }

  /** The segments cut the whole store, in its order, into consecutive runs. */
  ghost predicate Partition(store: SessionStore, segments: seq<Segment>) {
    var starts, n := Starts(segments), |store.memories|;
    Placed(segments) == n && forall k {:trigger segments[k]} :: 0 <= k < |segments| ==> IsRun(store, k, segments[k], starts[k], End(starts, |store.memories|, k))
  }

  /** What a rebuild has planned when it stops: the first memories, with the boundaries it honours. */
  ghost function Reached(r: Rebuild, n: nat): SessionStore
    requires n <= |r.store.memories|
  {
    r.store.(memories := r.store.memories[..n], boundaries := if r.honorManual then r.store.boundaries else [])
  }

  lemma {:induction false} ReachedRun(r: Rebuild, n: nat, a: nat, b: nat)
    requires a < b <= n <= |r.store.memories|
    ensures Indices(Reached(r, n).memories)[a..b] == Indices(r.store.memories)[a..b]
    ensures (Reached(r, n).memories[a].idx in Reached(r, n).boundaries) == BoundaryAt(r, a)
  {
  }

  /** A rebuild cuts what it reaches into runs; when it completes, the whole store. */
  lemma {:induction false} RebuildIsPartition(r: Rebuild, segments: seq<Segment>, n: nat)
    requires Shape(r, segments, n)
    ensures Partition(Reached(r, n), segments)
    ensures r.honorManual && n == |r.store.memories| ==> Partition(r.store, segments)
  {
    hide Starts, Placed, Count, WithinLimits, BoundaryAt, Reached;
    var starts := Starts(segments);
    assert |Reached(r, n).memories| == n by {
      ReachedMeans(r, n);
    }
    forall k | 0 <= k < |segments| ensures IsRun(Reached(r, n), k, segments[k], starts[k], End(starts, n, k)) {
      assert SegmentOk(r, k, segments[k], StartBefore(starts, k), starts[k], End(starts, n, k));
      EndsWithin(r, segments, n, k);
      ReachedRun(r, n, starts[k], End(starts, n, k));
    }
    ReachedMeans(r, n);
  }

  lemma ReachedMeans(r: Rebuild, n: nat)
    requires n <= |r.store.memories|
    ensures |Reached(r, n).memories| == n
    ensures r.honorManual && n == |r.store.memories| ==> Reached(r, n) == r.store
  {
  }

  lemma {:induction false} EndsWithin(r: Rebuild, segments: seq<Segment>, n: nat, k: nat)
    requires Shape(r, segments, n) && k < |segments|
    ensures End(Starts(segments), n, k) <= n
    decreases |segments| - k
  {
    hide Starts, Placed, HoldsRun, WithinLimits, StartsForAReason;
    var starts := Starts(segments);
    if k + 1 < |segments| {
      EndsWithin(r, segments, n, k + 1);
      assert SegmentOk(r, k + 1, segments[k + 1], StartBefore(starts, k + 1), starts[k + 1], End(starts, n, k + 1));
    }
  }

  lemma {:induction false} PlanRun(store: SessionStore, segments: seq<Segment>, k: nat)
    requires Partition(store, segments) && k < |segments|
    ensures IsRun(store, k, segments[k], Starts(segments)[k], End(Starts(segments), |store.memories|, k))
  {
    hide Starts, Placed, IsRun;
  }

  lemma {:induction false} RunsInOrder(store: SessionStore, segments: seq<Segment>, j: nat, k: nat)
    requires Partition(store, segments) && j <= k < |segments|
    ensures Starts(segments)[j] <= Starts(segments)[k]
    ensures j < k ==> End(Starts(segments), |store.memories|, j) <= Starts(segments)[k]
    decreases k
  {
    hide Starts, Placed, Partition;
    if j < k {
      RunsInOrder(store, segments, j, k - 1);
      PlanRun(store, segments, k - 1);
    }
  }

  lemma {:induction false} DescribedRecord(store: SessionStore, s: Segment, rec: SegmentRecord, a: nat, b: nat)
    requires a < b <= |store.memories| && s.indices == Indices(store.memories)[a..b] && Describes(store, s, rec)
    ensures rec.first == store.memories[a].idx && rec.last == store.memories[b - 1].idx + 1
  {
    hide SegmentHash;
    RunEnds(Indices(store.memories), a, b);
  }

  lemma {:induction false} RunEnds<T>(s: seq<T>, a: nat, b: nat)
    requires a < b <= |s|
    ensures s[a..b][0] == s[a] && Last(s[a..b]) == s[b - 1]
  {
  }

  /** A described segment is accepted exactly when it has no gap and fits the context. */
  lemma {:induction false} DescribedRecordFits(core: Core, store: SessionStore, segments: seq<Segment>, k: nat, rec: SegmentRecord)
    requires Partition(store, segments) && k < |segments| && Ascending(store.memories) && Describes(store, segments[k], rec)
    ensures RecordFits(core, store, rec) <==> ContiguousRun(segments[k].indices) && rec.tokens <= core.contextLength
  {
    hide Partition, Starts, SegmentHash;
    PlanRun(store, segments, k);
    var a, b := Starts(segments)[k], End(Starts(segments), |store.memories|, k);
    DescribedRecord(store, segments[k], rec, a, b);
    if ContiguousRun(segments[k].indices) {
      RunIsStored(store.memories, a, b);
    } else {
      var g := GapIsNotStored(store.memories, a, b);
      assert g in Range(rec.first, rec.last);
    }
  }

  lemma {:induction false} RunIsStored(memories: seq<MemoryRecord>, a: nat, b: nat)
    requires Ascending(memories) && a <= b <= |memories|
    ensures forall i | i in Indices(memories)[a..b] :: FindMemory(memories, i).Some?
  {
    forall i | i in Indices(memories)[a..b] ensures FindMemory(memories, i).Some? {
      var j :| a <= j < b && memories[j].idx == i;
      FindMemoryIsTheRecord(memories, i);
    }
  }

  lemma {:induction false} DescribedRecordsApart(store: SessionStore, segments: seq<Segment>, records: seq<SegmentRecord>, j: nat, k: nat)
    requires Partition(store, segments) && j < k < |segments| && Ascending(store.memories) && WrittenFor(store, segments, records)
    ensures Apart(records[j], records[k])
  {
    hide Partition, Starts;
    PlanRun(store, segments, j);
    PlanRun(store, segments, k);
    RunsInOrder(store, segments, j, k);
    var starts := Starts(segments);
    DescribedRecord(store, segments[j], records[j], starts[j], End(starts, |store.memories|, j));
    DescribedRecord(store, segments[k], records[k], starts[k], End(starts, |store.memories|, k));
  }

  lemma {:induction false} FirstStart(segments: seq<Segment>)
    ensures segments != [] ==> Starts(segments)[0] == 0
  {
    if |segments| > 1 {
      FirstStart(Init(segments));
    }
  }

  /** Position `i` of the store lies in the run of some segment. */
  lemma {:induction false} RunHolding(store: SessionStore, segments: seq<Segment>, i: nat, k: nat) returns (j: nat)
    requires Partition(store, segments) && k < |segments| && i < End(Starts(segments), |store.memories|, k)
    ensures j < |segments| && Starts(segments)[j] <= i < End(Starts(segments), |store.memories|, j)
    decreases k
  {
    hide Partition, Starts;
    FirstStart(segments);
    if Starts(segments)[k] <= i {
      j := k;
    } else {
      j := RunHolding(store, segments, i, k - 1);
    }
  }

  lemma NumberAt(memories: seq<MemoryRecord>, a: nat, b: nat, i: nat)
    requires a <= i < b <= |memories|
    ensures Indices(memories)[a..b][i - a] == memories[i].idx
  {
  }

  lemma {:induction false} StoredIsCovered(store: SessionStore, segments: seq<Segment>, records: seq<SegmentRecord>, i: nat)
    requires Partition(store, segments) && segments != [] && i < |store.memories|
    requires WrittenFor(store, segments, records)
    requires forall k :: 0 <= k < |segments| ==> ContiguousRun(segments[k].indices)
    ensures store.memories[i].idx in CoveredBy(records)
  {
    hide Partition, Starts, SegmentHash, WrittenFor;
    var n, starts := |store.memories|, Starts(segments);
    PlanRun(store, segments, |segments| - 1);
    var k := RunHolding(store, segments, i, |segments| - 1);
    PlanRun(store, segments, k);
    NumberAt(store.memories, starts[k], End(starts, n, k), i);
    assert segments[k].indices[i - starts[k]] == store.memories[i].idx;
    DescribedRange(store, segments, records, k);
    assert store.memories[i].idx in Range(records[k].first, records[k].last);
  }

  lemma {:induction false} DescribedRange(store: SessionStore, segments: seq<Segment>, records: seq<SegmentRecord>, k: nat)
    requires k < |segments| && WrittenFor(store, segments, records) && ContiguousRun(segments[k].indices)
    ensures |records| == |segments| && Range(records[k].first, records[k].last) == segments[k].indices
  {
    assert Describes(store, segments[k], records[k]);
  }

  lemma {:induction false} CoveredIsStored(store: SessionStore, segments: seq<Segment>, records: seq<SegmentRecord>, i: int)
    requires Partition(store, segments) && WrittenFor(store, segments, records) && i in CoveredBy(records)
    requires forall k :: 0 <= k < |segments| ==> ContiguousRun(segments[k].indices)
    ensures exists m | m in store.memories :: m.idx == i
  {
    hide Partition, Starts, SegmentHash, Describes;
    var k :| 0 <= k < |records| && i in Range(records[k].first, records[k].last);
    DescribedRange(store, segments, records, k);
    PlanRun(store, segments, k);
    NumberInRun(store.memories, Starts(segments)[k], End(Starts(segments), |store.memories|, k), i);
  }

  lemma {:induction false} NumberInRun(memories: seq<MemoryRecord>, a: nat, b: nat, idx: int)
    requires a <= b <= |memories| && idx in Indices(memories)[a..b]
    ensures exists m | m in memories :: m.idx == idx
  {
    var j :| 0 <= j < b - a && Indices(memories)[a..b][j] == idx;
    assert memories[a + j] in memories && memories[a + j].idx == idx;
  }

  lemma {:induction false} DescribedRecordsCover(store: SessionStore, segments: seq<Segment>, records: seq<SegmentRecord>)
    requires Partition(store, segments) && segments != [] && Ascending(store.memories)
    requires WrittenFor(store, segments, records)
    requires forall k :: 0 <= k < |segments| ==> ContiguousRun(segments[k].indices)
    ensures CoversStore(store, records)
  {
    hide Partition, WrittenFor, CoveredBy;
    var stored := set m | m in store.memories :: m.idx;
    forall m | m in store.memories ensures m.idx in CoveredBy(records) {
      var i :| 0 <= i < |store.memories| && store.memories[i] == m;
      StoredIsCovered(store, segments, records, i);
    }
    forall i | i in CoveredBy(records) ensures i in stored {
      CoveredIsStored(store, segments, records, i);
    }
    assert CoveredBy(records) == stored;
    DistinctCount(store.memories);
  }

  /** The manifest that a finished index or save writes for the plan of a non-empty store. */
  ghost predicate OwnManifest(store: SessionStore, segments: seq<Segment>, model: ModelKey, manifest: Manifest) {
    && Partition(store, segments) && segments != [] && Ascending(store.memories)
    && manifest.model == model && manifest.session == store.sessionId
    && WrittenFor(store, segments, manifest.segments)
  }

  lemma {:induction false} OwnManifestIsSorted(store: SessionStore, segments: seq<Segment>, model: ModelKey, manifest: Manifest)
    requires OwnManifest(store, segments, model, manifest)
    ensures SortedById(manifest.segments) == manifest.segments
  {
    hide Partition, Starts, SegmentHash, Ascending;
    forall k | 0 <= k < |segments| ensures manifest.segments[k].id == k {
      PlanRun(store, segments, k);
      assert Describes(store, segments[k], manifest.segments[k]);
    }
    SortingSorted(manifest.segments);
  }

  /** It is accepted exactly when no segment has a gap in its memory numbers and every recorded
      count is within the context length. */
  lemma {:induction false} OwnManifestIsAccepted(core: Core, store: SessionStore, segments: seq<Segment>, model: ModelKey, manifest: Manifest)
    requires OwnManifest(store, segments, model, manifest) && core.contextLength > 0
    ensures Accepts(core, store, model, manifest) <==>
            forall k :: 0 <= k < |segments| ==>
              ContiguousRun(segments[k].indices) && manifest.segments[k].tokens <= core.contextLength
  {
    hide Partition, RecordFits, CoversStore, Ascending, Describes, ContiguousRun;
    var records := manifest.segments;
    OwnManifestIsSorted(store, segments, model, manifest);
    forall k | 0 <= k < |segments| {
      DescribedRecordFits(core, store, segments, k, records[k]);
    }
    forall j, k | 0 <= j < k < |records| {
      DescribedRecordsApart(store, segments, records, j, k);
    }
    if forall k :: 0 <= k < |segments| ==> ContiguousRun(segments[k].indices) {
      DescribedRecordsCover(store, segments, records);
    }
  }

  /** When it is accepted it restores the very plan it was written for: the same numbers, memories
      and start flags, with the recorded token counts. */
  lemma {:induction false} OwnManifestRestoresThePlan(core: Core, store: SessionStore, segments: seq<Segment>, model: ModelKey, manifest: Manifest,
                                                      restored: seq<Segment>)
    requires OwnManifest(store, segments, model, manifest)
    requires Accepts(core, store, model, manifest) && PlanFrom(store, SortedById(manifest.segments), restored)
    ensures |restored| == |segments|
    ensures forall k :: 0 <= k < |segments| ==>
              restored[k] == segments[k].(estimated := manifest.segments[k].tokens, exact := manifest.segments[k].tokens)
  {
    hide Partition, RecordFits, CoversStore, Ascending, Describes, ContiguousRun, SegmentFrom;
    OwnManifestIsSorted(store, segments, model, manifest);
    forall k | 0 <= k < |segments|
      ensures restored[k] == segments[k].(estimated := manifest.segments[k].tokens, exact := manifest.segments[k].tokens)
    {
      RestoredSegmentIsTheOne(store, segments, k, manifest.segments[k], core);
    }
  }

  lemma {:induction false} RestoredSegmentIsTheOne(store: SessionStore, segments: seq<Segment>, k: nat, rec: SegmentRecord, core: Core)
    requires Partition(store, segments) && k < |segments| && Ascending(store.memories)
    requires Describes(store, segments[k], rec) && RecordFits(core, store, rec)
    ensures SegmentFrom(store, rec, k == 0) == segments[k].(estimated := rec.tokens, exact := rec.tokens)
  {
    hide Partition, Starts, SegmentHash, RecordFits, Ascending;
    DescribedRecordFits(core, store, segments, k, rec);
    PlanRun(store, segments, k);
    var a, b := Starts(segments)[k], End(Starts(segments), |store.memories|, k);
    DescribedRecord(store, segments[k], rec, a, b);
  }
}
