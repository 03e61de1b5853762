/** Putting the ranked hits of the segments together and limiting them
    (search_results.cpp, search_service.cpp, the loop of search_runner.cpp). */
module SearchResults {
  import opened Basics
  import opened Persistent
  import opened SessionState

  /** A found memory: its number and the segment it was found in. */
  datatype MemoryRef = MemoryRef(index: int, segment: int)

  // ----- Merging -----

  /** The memory that a position in a segment refers to, when there is one that fits 32 bits and
      is stored. */
  function Hit(store: SessionStore, segment: Segment, local: int): Option<MemoryRef> {
    if local < 0 || local >= |segment.indices| then None
    else
      var index := segment.indices[local];
      if index < 0 || index > INT32_MAX || FindMemory(store.memories, index) == None then None
      else Some(MemoryRef(index, segment.id))
  }

  ghost predicate Mentions(refs: seq<MemoryRef>, index: int) {
    exists k :: 0 <= k < |refs| && refs[k].index == index
  }

  method MemoryRefExists(refs: seq<MemoryRef>, index: int) returns (found: bool)
    ensures found <==> Mentions(refs, index)
  {
    for k := 0 to |refs|
      invariant forall j :: 0 <= j < k ==> refs[j].index != index
    {
      if refs[k].index == index {
        return true;
      }
    }
    return false;
  }

  ghost function Merged(store: SessionStore, segment: Segment, ranked: seq<int>, ordered: seq<MemoryRef>): seq<MemoryRef> {
    if ranked == [] then ordered
    else
      var before := Merged(store, segment, Init(ranked), ordered);
      var hit := Hit(store, segment, Last(ranked));
      if hit == None || Mentions(before, hit.value.index) then before else before + [hit.value]
  }

  /** Appends the hits of one segment to the results. */
  method MergeSegmentRankedResults(store: SessionStore, segment: Segment, ranked: seq<int>, ordered: seq<MemoryRef>)
    returns (merged: seq<MemoryRef>)
    ensures merged == Merged(store, segment, ranked, ordered)
  {
    merged := ordered;
    for i := 0 to |ranked|
      invariant merged == Merged(store, segment, ranked[..i], ordered)
    {
      assert Init(ranked[..i + 1]) == ranked[..i];
      var hit := Hit(store, segment, ranked[i]);
      if hit == None {
        continue;
      }
      var found := MemoryRefExists(merged, hit.value.index);
      if !found {
        merged := merged + [hit.value];
      }
    }
    assert ranked[..|ranked|] == ranked;
  }

  /** The results after the segments, each with its ranking, were searched one after the other. */
  ghost function MergedAll(store: SessionStore, segments: seq<Segment>, rankings: seq<seq<int>>): seq<MemoryRef>
    requires |segments| == |rankings|
  {
    if segments == [] then []
    else Merged(store, Last(segments), Last(rankings), MergedAll(store, Init(segments), Init(rankings)))
  }

  // ----- Limiting -----

  function CountOf(refs: seq<MemoryRef>, segment: int): nat {
    if refs == [] then 0 else CountOf(Init(refs), segment) + if Last(refs).segment == segment then 1 else 0
  }

  /** The refs of which fewer than `topK` of the same segment came before; all when that is zero. */
  function Limited(refs: seq<MemoryRef>, topK: int): seq<MemoryRef> {
    if refs == [] then []
    else if topK <= 0 || CountOf(Init(refs), Last(refs).segment) < topK then Limited(Init(refs), topK) + [Last(refs)]
    else Limited(Init(refs), topK)
  }

  method ApplySearchResultLimits(ordered: seq<MemoryRef>, topK: int) returns (limited: seq<MemoryRef>)
    ensures limited == Limited(ordered, topK)
  {
    limited := [];
    var counts: map<int, int> := map[];
    for i := 0 to |ordered|
      invariant limited == Limited(ordered[..i], topK)
      invariant topK > 0 ==> forall s :: (if s in counts then counts[s] else 0) == Min(CountOf(ordered[..i], s), topK)
    {
      assert Init(ordered[..i + 1]) == ordered[..i];
      var memory := ordered[i];
      if topK > 0 {
        var count := if memory.segment in counts then counts[memory.segment] else 0;
        if count >= topK {
          continue;
        }
        counts := counts[memory.segment := count + 1];
      }
      limited := limited + [memory];
    }
    assert ordered[..|ordered|] == ordered;
  }

  // ----- What a search returns, said without the loops -----

  /** The distinct hits of one segment, each where the ranking first names it. */
  function DistinctHits(store: SessionStore, segment: Segment, ranked: seq<int>): seq<MemoryRef> {
    if ranked == [] then []
    else
      var hit := Hit(store, segment, Last(ranked));
      var first := forall j | 0 <= j < |ranked| - 1 :: Hit(store, segment, ranked[j]) != hit;
      DistinctHits(store, segment, Init(ranked)) + if hit.Some? && first then [hit.value] else []
  }

  function FirstHits(hits: seq<MemoryRef>, topK: int): seq<MemoryRef> {
    if topK <= 0 || |hits| <= topK then hits else hits[..topK]
  }

  /** Segment after segment, the first `topK` distinct hits of each. */
  function Contributions(store: SessionStore, segments: seq<Segment>, rankings: seq<seq<int>>, topK: int): seq<MemoryRef>
    requires |segments| == |rankings|
  {
    if segments == [] then []
    else Contributions(store, Init(segments), Init(rankings), topK)
         + FirstHits(DistinctHits(store, Last(segments), Last(rankings)), topK)
  }

  /** The plan is a partition in order: no memory is in two segments, and ids increase. */
  ghost predicate Partitioned(segments: seq<Segment>) {
    && (forall j, k :: 0 <= j < k < |segments| ==> segments[j].id < segments[k].id)
    && (forall j, k, i :: 0 <= j < k < |segments| && i in segments[j].indices ==> i !in segments[k].indices)
  }

  ghost predicate NoRepeats(refs: seq<MemoryRef>) {
    forall j, k :: 0 <= j < k < |refs| ==> refs[j].index != refs[k].index
  }

  /** The reference names a stored memory of the segment. */
  ghost predicate LiesIn(store: SessionStore, segment: Segment, ref: MemoryRef) {
    ref.segment == segment.id && ref.index in segment.indices && FindMemory(store.memories, ref.index).Some?
  }

  lemma {:induction false} DistinctHitsAre(store: SessionStore, segment: Segment, ranked: seq<int>)
    ensures NoRepeats(DistinctHits(store, segment, ranked))
    ensures forall r | r in DistinctHits(store, segment, ranked) :: LiesIn(store, segment, r)
    ensures forall r :: r in DistinctHits(store, segment, ranked) <==>
                        exists j :: 0 <= j < |ranked| && Hit(store, segment, ranked[j]) == Some(r)
  {
    if ranked != [] {
      var hits, last := DistinctHits(store, segment, Init(ranked)), Hit(store, segment, Last(ranked));
      DistinctHitsAre(store, segment, Init(ranked));
      assert forall j :: 0 <= j < |ranked| - 1 ==> Init(ranked)[j] == ranked[j];
      assert ranked[|ranked| - 1] == Last(ranked);
      if last.Some? {
        HitLiesIn(store, segment, Last(ranked));
        assert last.value in hits ==> exists j :: 0 <= j < |ranked| - 1 && Hit(store, segment, ranked[j]) == last;
        assert forall r | r in hits :: r.index == last.value.index ==> r == last.value;
      }
      hide Hit, LiesIn;
    }
  }

  /** A ranking may name any number: one that is no position of the segment gives nothing, and no other
      does if its memory is not stored or its number does not fit 32 bits. */
  ghost predicate NamedBy(store: SessionStore, segment: Segment, local: int, r: MemoryRef) {
    && 0 <= local < |segment.indices| && r == MemoryRef(segment.indices[local], segment.id)
    && 0 <= r.index <= INT32_MAX && FindMemory(store.memories, r.index).Some?
  }

  lemma {:induction false} DistinctHitsAreNamed(store: SessionStore, segment: Segment, ranked: seq<int>)
    ensures forall r :: r in DistinctHits(store, segment, ranked) <==> exists j :: 0 <= j < |ranked| && NamedBy(store, segment, ranked[j], r)
  {
    DistinctHitsAre(store, segment, ranked);
    hide DistinctHits;
    forall j, r | 0 <= j < |ranked| ensures Hit(store, segment, ranked[j]) == Some(r) <==> NamedBy(store, segment, ranked[j], r) {
    }
  }

  /** The segment's members are distinct stored memories whose numbers fit 32 bits. */
  ghost predicate ProperMembers(store: SessionStore, segment: Segment) {
    && (forall i :: 0 <= i < |segment.indices| ==>
          0 <= segment.indices[i] <= INT32_MAX && FindMemory(store.memories, segment.indices[i]).Some?)
    && (forall i, j :: 0 <= i < j < |segment.indices| ==> segment.indices[i] != segment.indices[j])
  }

  /** The ranking names positions of the segment, none twice. */
  ghost predicate ProperRanking(segment: Segment, ranked: seq<int>) {
    && (forall k :: 0 <= k < |ranked| ==> 0 <= ranked[k] < |segment.indices|)
    && (forall j, k :: 0 <= j < k < |ranked| ==> ranked[j] != ranked[k])
  }

  /** Of such a segment, such a ranking gives exactly the memories at the positions it names, in its order. */
  lemma {:induction false} RankedAreHits(store: SessionStore, segment: Segment, ranked: seq<int>)
    requires ProperMembers(store, segment) && ProperRanking(segment, ranked)
    ensures |DistinctHits(store, segment, ranked)| == |ranked|
    ensures forall k :: 0 <= k < |ranked| ==>
              DistinctHits(store, segment, ranked)[k] == MemoryRef(segment.indices[ranked[k]], segment.id)
  {
    if ranked != [] {
      RankedAreHits(store, segment, Init(ranked));
      hide DistinctHits;
      forall j | 0 <= j < |ranked| - 1 ensures Hit(store, segment, ranked[j]) != Hit(store, segment, Last(ranked)) {
        assert ranked[j] != ranked[|ranked| - 1];
      }
      OneMoreDistinct(store, segment, ranked);
    }
  }

  lemma OneMoreDistinct(store: SessionStore, segment: Segment, ranked: seq<int>)
    requires ranked != [] && Hit(store, segment, Last(ranked)).Some?
    requires forall j | 0 <= j < |ranked| - 1 :: Hit(store, segment, ranked[j]) != Hit(store, segment, Last(ranked))
    ensures DistinctHits(store, segment, ranked) ==
            DistinctHits(store, segment, Init(ranked)) + [Hit(store, segment, Last(ranked)).value]
  {
    hide Hit;
  }

  lemma {:induction false} HitLiesIn(store: SessionStore, segment: Segment, local: int)
    ensures Hit(store, segment, local).Some? ==> LiesIn(store, segment, Hit(store, segment, local).value)
  {
  }

  /** No memory of the segment is among the results yet. */
  ghost predicate Untouched(segment: Segment, ordered: seq<MemoryRef>) {
    forall r | r in ordered :: r.index !in segment.indices
  }

  lemma {:induction false} MentionsAfter(a: seq<MemoryRef>, b: seq<MemoryRef>, index: int)
    ensures Mentions(a + b, index) <==> Mentions(a, index) || Mentions(b, index)
  {
    if k :| 0 <= k < |a| && a[k].index == index {
      assert (a + b)[k].index == index;
    }
    if k :| 0 <= k < |b| && b[k].index == index {
      assert (a + b)[|a| + k].index == index;
    }
  }

  lemma {:induction false} MentionedHit(store: SessionStore, segment: Segment, ranked: seq<int>, hit: MemoryRef)
    requires LiesIn(store, segment, hit)
    ensures Mentions(DistinctHits(store, segment, ranked), hit.index) <==>
            exists j :: 0 <= j < |ranked| && Hit(store, segment, ranked[j]) == Some(hit)
  {
    DistinctHitsAre(store, segment, ranked);
    hide DistinctHits;
    var hits := DistinctHits(store, segment, ranked);
    if k :| 0 <= k < |hits| && hits[k].index == hit.index {
      assert hits[k] in hits && LiesIn(store, segment, hits[k]);
    }
    if hit in hits {
      var k :| 0 <= k < |hits| && hits[k] == hit;
    }
  }

  /** Merging a segment that the results know nothing of adds its distinct hits. */
  lemma {:induction false} MergingAddsDistinctHits(store: SessionStore, segment: Segment, ranked: seq<int>, ordered: seq<MemoryRef>)
    requires Untouched(segment, ordered)
    ensures Merged(store, segment, ranked, ordered) == ordered + DistinctHits(store, segment, ranked)
  {
    hide Hit, LiesIn, Mentions;
    if ranked != [] {
      var hits, last := DistinctHits(store, segment, Init(ranked)), Hit(store, segment, Last(ranked));
      MergingAddsDistinctHits(store, segment, Init(ranked), ordered);
      HitLiesIn(store, segment, Last(ranked));
      if last.Some? {
        MentionsAfter(ordered, hits, last.value.index);
        NotMentioned(store, segment, ordered, last.value);
        MentionedHit(store, segment, Init(ranked), last.value);
        assert forall j :: 0 <= j < |ranked| - 1 ==> Init(ranked)[j] == ranked[j];
      }
    }
  }

  lemma {:induction false} NotMentioned(store: SessionStore, segment: Segment, ordered: seq<MemoryRef>, ref: MemoryRef)
    requires Untouched(segment, ordered) && LiesIn(store, segment, ref)
    ensures !Mentions(ordered, ref.index)
  {
  }

  // ----- Limits act on each contribution -----

  lemma {:induction false} CountAfter(a: seq<MemoryRef>, b: seq<MemoryRef>, segment: int)
    ensures CountOf(a + b, segment) == CountOf(a, segment) + CountOf(b, segment)
    ensures CountOf(b, segment) <= |b|
    ensures (forall r | r in b :: r.segment == segment) ==> CountOf(b, segment) == |b|
    ensures (forall r | r in b :: r.segment != segment) ==> CountOf(b, segment) == 0
    decreases |b|
  {
    if b == [] {
      assert a + b == a;
    } else {
      CountAfter(a, Init(b), segment);
      assert Init(a + b) == a + Init(b) && Last(a + b) == Last(b);
      assert b == Init(b) + [Last(b)];
    }
  }

  lemma {:induction false} FirstHitsStep(hits: seq<MemoryRef>, topK: int)
    requires hits != []
    ensures FirstHits(hits, topK) ==
            if topK <= 0 || |hits| <= topK then FirstHits(Init(hits), topK) + [Last(hits)] else FirstHits(Init(hits), topK)
  {
  }

  lemma RefsAssociate(a: seq<MemoryRef>, b: seq<MemoryRef>, c: seq<MemoryRef>)
    ensures (a + b) + c == a + (b + c)
  {
  }

  /** Limiting results that end with the hits of one new segment. */
  lemma {:induction false} LimitingOneMore(a: seq<MemoryRef>, hits: seq<MemoryRef>, segment: int, topK: int)
    requires forall r | r in a :: r.segment != segment
    requires forall r | r in hits :: r.segment == segment
    ensures Limited(a + hits, topK) == Limited(a, topK) + FirstHits(hits, topK)
    decreases |hits|
  {
    hide FirstHits, CountOf;
    if hits == [] {
      assert a + hits == a;
      NoHits(topK);
    } else {
      var front := Init(hits);
      assert hits == front + [Last(hits)];
      LimitingOneMore(a, front, segment, topK);
      assert Init(a + hits) == a + front && Last(a + hits) == Last(hits);
      CountAfter(a, front, segment);
      CountAfter([], a, segment);
      assert [] + a == a;
      NothingCounted(segment);
      FirstHitsStep(hits, topK);
      RefsAssociate(Limited(a, topK), FirstHits(front, topK), [Last(hits)]);
    }
  }

  lemma NoHits(topK: int)
    ensures FirstHits([], topK) == []
  {
  }

  lemma NothingCounted(segment: int)
    ensures CountOf([], segment) == 0
  {
  }

  // ----- The result of a search -----

  ghost predicate Known(segments: seq<Segment>, refs: seq<MemoryRef>) {
    forall r | r in refs :: exists k :: 0 <= k < |segments| && r.segment == segments[k].id && r.index in segments[k].indices
  }

  lemma {:induction false} KnownGrows(store: SessionStore, segments: seq<Segment>, a: seq<MemoryRef>, hits: seq<MemoryRef>)
    requires segments != [] && Known(Init(segments), a)
    requires forall r | r in hits :: LiesIn(store, Last(segments), r)
    ensures Known(segments, a + hits)
  {
    forall r | r in a + hits
      ensures exists k :: 0 <= k < |segments| && r.segment == segments[k].id && r.index in segments[k].indices
    {
      if r in a {
        var k :| 0 <= k < |segments| - 1 && r.segment == Init(segments)[k].id && r.index in Init(segments)[k].indices;
        assert segments[k] == Init(segments)[k];
      } else {
        assert segments[|segments| - 1] == Last(segments);
      }
    }
  }

  lemma {:induction false} NewSegmentIsUntouched(segments: seq<Segment>, refs: seq<MemoryRef>)
    requires segments != [] && Partitioned(segments) && Known(Init(segments), refs)
    ensures Untouched(Last(segments), refs)
    ensures forall r | r in refs :: r.segment != Last(segments).id
  {
    forall r | r in refs ensures r.index !in Last(segments).indices && r.segment != Last(segments).id {
      var k :| 0 <= k < |segments| - 1 && r.segment == Init(segments)[k].id && r.index in Init(segments)[k].indices;
      assert segments[k] == Init(segments)[k] && Last(segments) == segments[|segments| - 1];
    }
  }

  /** For arbitrary rankings over a partitioned plan: segments contribute in order of their ids,
      and each contributes exactly its first `topK` distinct hits in rank order. */
  lemma {:induction false} SearchReturnsContributions(store: SessionStore, segments: seq<Segment>, rankings: seq<seq<int>>, topK: int)
    requires Partitioned(segments) && |segments| == |rankings|
    ensures Known(segments, MergedAll(store, segments, rankings))
    ensures Limited(MergedAll(store, segments, rankings), topK) == Contributions(store, segments, rankings, topK)
  {
    hide Known, LiesIn, Merged, DistinctHits, FirstHits, Untouched;
    if segments == [] {
      NothingKnown(segments);
    } else {
      PartitionedBefore(segments);
      SearchReturnsContributions(store, Init(segments), Init(rankings), topK);
      var before, hits := MergedAll(store, Init(segments), Init(rankings)), DistinctHits(store, Last(segments), Last(rankings));
      NewSegmentIsUntouched(segments, before);
      MergingAddsDistinctHits(store, Last(segments), Last(rankings), before);
      DistinctHitsAre(store, Last(segments), Last(rankings));
      KnownGrows(store, segments, before, hits);
      HitsCarryTheId(store, Last(segments), hits);
      LimitingOneMore(before, hits, Last(segments).id, topK);
    }
  }

  lemma {:induction false} NothingKnown(segments: seq<Segment>)
    ensures Known(segments, [])
  {
  }

  lemma {:induction false} HitsCarryTheId(store: SessionStore, segment: Segment, hits: seq<MemoryRef>)
    requires forall r | r in hits :: LiesIn(store, segment, r)
    ensures forall r | r in hits :: r.segment == segment.id
  {
  }

  lemma {:induction false} PartitionedBefore(segments: seq<Segment>)
    requires segments != [] && Partitioned(segments)
    ensures Partitioned(Init(segments))
  {
    assert forall k :: 0 <= k < |segments| - 1 ==> Init(segments)[k] == segments[k];
  }

  ghost predicate SoundRef(store: SessionStore, segments: seq<Segment>, r: MemoryRef) {
    exists k :: 0 <= k < |segments| && LiesIn(store, segments[k], r)
  }

  lemma {:induction false} SoundGrows(store: SessionStore, segments: seq<Segment>, r: MemoryRef)
    requires segments != [] && (SoundRef(store, Init(segments), r) || LiesIn(store, Last(segments), r))
    ensures SoundRef(store, segments, r)
  {
    hide LiesIn;
    if SoundRef(store, Init(segments), r) {
      var k :| 0 <= k < |segments| - 1 && LiesIn(store, Init(segments)[k], r);
      assert segments[k] == Init(segments)[k];
    } else {
      assert segments[|segments| - 1] == Last(segments);
    }
  }

  /** No memory is returned twice, every reference lies in its segment and in the store, and
      segments appear in the order of their ids. */
  lemma {:induction false} SearchResultIsSound(store: SessionStore, segments: seq<Segment>, rankings: seq<seq<int>>, topK: int)
    requires Partitioned(segments) && |segments| == |rankings|
    ensures var result := Limited(MergedAll(store, segments, rankings), topK);
            && NoRepeats(result)
            && (forall r | r in result :: SoundRef(store, segments, r))
            && (forall j, k :: 0 <= j < k < |result| ==> result[j].segment <= result[k].segment)
  {
    hide Limited, MergedAll, LiesIn, DistinctHits, FirstHits, SoundRef;
    SearchReturnsContributions(store, segments, rankings, topK);
    if segments != [] {
      PartitionedBefore(segments);
      SearchReturnsContributions(store, Init(segments), Init(rankings), topK);
      SearchResultIsSound(store, Init(segments), Init(rankings), topK);
      var before := Contributions(store, Init(segments), Init(rankings), topK);
      var hits := DistinctHits(store, Last(segments), Last(rankings));
      DistinctHitsAre(store, Last(segments), Last(rankings));
      FirstHitsArePrefix(hits, topK);
      SoundIsEarlier(store, segments, before);
      HitsCarryTheId(store, Last(segments), hits);
      HitsAreInside(store, Last(segments), hits);
      forall r | r in before + FirstHits(hits, topK) ensures SoundRef(store, segments, r) {
        SoundGrows(store, segments, r);
      }
    }
  }

  lemma {:induction false} HitsAreInside(store: SessionStore, segment: Segment, hits: seq<MemoryRef>)
    requires forall r | r in hits :: LiesIn(store, segment, r)
    ensures forall r | r in hits :: r.index in segment.indices
  {
  }

  lemma {:induction false} SoundIsEarlier(store: SessionStore, segments: seq<Segment>, refs: seq<MemoryRef>)
    requires segments != [] && Partitioned(segments)
    requires forall r | r in refs :: SoundRef(store, Init(segments), r)
    ensures forall r | r in refs :: r.segment < Last(segments).id && r.index !in Last(segments).indices
  {
    forall r | r in refs ensures r.segment < Last(segments).id && r.index !in Last(segments).indices {
      var k :| 0 <= k < |segments| - 1 && LiesIn(store, Init(segments)[k], r);
      assert segments[k] == Init(segments)[k] && Last(segments) == segments[|segments| - 1];
    }
  }

  lemma {:induction false} FirstHitsArePrefix(hits: seq<MemoryRef>, topK: int)
    ensures FirstHits(hits, topK) <= hits
    ensures NoRepeats(hits) ==> NoRepeats(FirstHits(hits, topK))
  {
  }

  // ----- The order in which segments are searched -----

  function InsertById(sorted: seq<Segment>, s: Segment): seq<Segment> {
    if sorted == [] || Last(sorted).id <= s.id then sorted + [s] else InsertById(Init(sorted), s) + [Last(sorted)]
  }

  /** A stable sort by id. */
  function SegmentsById(segments: seq<Segment>): seq<Segment> {
    if segments == [] then [] else InsertById(SegmentsById(Init(segments)), Last(segments))
  }

  ghost predicate AscendingSegments(segments: seq<Segment>) {
    forall i, j :: 0 <= i < j < |segments| ==> segments[i].id <= segments[j].id
  }

  lemma {:induction false} InsertKeepsSegments(sorted: seq<Segment>, x: Segment)
    ensures multiset(InsertById(sorted, x)) == multiset(sorted) + multiset{x}
  {
    if sorted != [] && Last(sorted).id > x.id {
      InsertKeepsSegments(Init(sorted), x);
      assert sorted == Init(sorted) + [Last(sorted)];
    }
  }

  lemma {:induction false} InsertSortsSegments(sorted: seq<Segment>, x: Segment)
    requires AscendingSegments(sorted)
    ensures AscendingSegments(InsertById(sorted, x))
  {
    if sorted != [] && Last(sorted).id > x.id {
      var front := Init(sorted);
      InsertSortsSegments(front, x);
      InsertKeepsSegments(front, x);
      hide InsertById;
      var inserted := InsertById(front, x);
      forall j | 0 <= j < |inserted| ensures inserted[j].id <= Last(sorted).id {
        assert inserted[j] in multiset(inserted);
        assert inserted[j] in front || inserted[j] == x;
      }
    }
  }

  /** Segments are searched in the order of their numbers, none left out and none twice. */
  lemma {:induction false} SortsSegments(segments: seq<Segment>)
    ensures AscendingSegments(SegmentsById(segments)) && multiset(SegmentsById(segments)) == multiset(segments)
  {
    hide InsertById;
    if segments != [] {
      SortsSegments(Init(segments));
      InsertSortsSegments(SegmentsById(Init(segments)), Last(segments));
      InsertKeepsSegments(SegmentsById(Init(segments)), Last(segments));
      assert Init(segments) + [Last(segments)] == segments;
    }
  }

  lemma {:induction false} NumberedIsSorted(segments: seq<Segment>)
    requires NumberedInOrder(segments)
    ensures SegmentsById(segments) == segments
  {
    if segments != [] {
      NumberedIsSorted(Init(segments));
      assert Init(segments) + [Last(segments)] == segments;
    }
  }
}
