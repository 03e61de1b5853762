/** What every plan computed by `rebuild_segment_plan_fast` looks like, and how good it is. */
module PlanShape {
  import opened Basics
  import opened Persistent
  import opened SessionState
  import opened SegmentPlanner

  // ----- Vocabulary: runs of memories, and where segments start -----

  ghost function Indices(memories: seq<MemoryRecord>): seq<int> {
    seq(|memories|, i requires 0 <= i < |memories| => memories[i].idx)
  }

  ghost function Texts(memories: seq<MemoryRecord>): seq<Bytes> {
    seq(|memories|, i requires 0 <= i < |memories| => memories[i].text)
  }

  /** The exact token count of the run of memories `a..b`. */
  ghost function Count(r: Rebuild, a: nat, b: nat): Option<TokenCount>
    requires a <= b <= |r.store.memories|
  {
    r.core.kvTokens(r.store.system, Texts(r.store.memories)[a..b])
  }

  ghost predicate Within(count: Option<TokenCount>, limit: int) {
    count.Some? && count.value <= limit
  }

  ghost predicate Exceeds(count: Option<TokenCount>, limit: int) {
    count.Some? && count.value > limit
  }

  ghost predicate BoundaryAt(r: Rebuild, i: nat)
    requires i < |r.store.memories|
  {
    r.IsBoundary(r.store.memories[i].idx)
  }

  /** How many memories the plan holds. */
  ghost function Placed(segments: seq<Segment>): nat {
    if segments == [] then 0 else Placed(Init(segments)) + |Last(segments).indices|
  }

  /** The position of each segment's first memory. */
  ghost function Starts(segments: seq<Segment>): (starts: seq<nat>)
    ensures |starts| == |segments|
  {
    if segments == [] then [] else Starts(Init(segments)) + [Placed(Init(segments))]
  }

  ghost function End(starts: seq<nat>, n: nat, k: nat): nat
    requires k < |starts|
  {
    if k + 1 < |starts| then starts[k + 1] else n
  }

  lemma {:induction false} RunGrows<T>(s: seq<T>, a: nat, b: nat)
    requires a < b <= |s|
    ensures s[a..b] == s[a..b - 1] + [s[b - 1]]
    ensures Init(s[a..b]) == s[a..b - 1] && Last(s[a..b]) == s[b - 1]
  {
  }

  // ----- The shape of a plan -----

  /** Segment `k` holds exactly the memories `a..b`, in store order. */
  ghost predicate HoldsRun(r: Rebuild, k: nat, segment: Segment, a: nat, b: nat)
    requires b <= |r.store.memories|
  {
    && a < b
    && segment.id == k
    && segment.indices == Indices(r.store.memories)[a..b]
  }

  /** The segment is within the limits, and what it records as exact is the exact count. */
  ghost predicate WithinLimits(r: Rebuild, segment: Segment, a: nat, b: nat)
    requires a < b <= |r.store.memories|
  {
    && (b == a + 1 ==> segment.estimated <= r.freshLimit && Count(r, a, b) == Some(segment.estimated))
    && (b > a + 1 ==> segment.estimated <= SoftLimit(r.core))
    && (segment.exact != 0 ==> Count(r, a, b) == Some(segment.exact))
  }

  /** The segment starts where it does for a reason, and no boundary is skipped inside it. */
  ghost predicate StartsForAReason(r: Rebuild, segment: Segment, previous: Option<nat>, a: nat, b: nat)
    requires a < b <= |r.store.memories| && (previous.Some? ==> previous.value <= a)
  {
    && segment.manualStart == BoundaryAt(r, a)
    && segment.autoStart == (previous.Some? && !BoundaryAt(r, a))
    && (segment.autoStart ==> Exceeds(Count(r, previous.value, a + 1), SoftLimit(r.core)))
    && (forall i :: a < i < b ==> !BoundaryAt(r, i))
  }

  ghost predicate SegmentOk(r: Rebuild, k: nat, segment: Segment, previous: Option<nat>, a: nat, b: nat) {
    && a < b <= |r.store.memories|
    && (previous.Some? ==> previous.value <= a)
    && HoldsRun(r, k, segment, a, b)
    && WithinLimits(r, segment, a, b)
    && StartsForAReason(r, segment, previous, a, b)
  }

  ghost function StartBefore(starts: seq<nat>, k: nat): Option<nat>
    requires k < |starts|
  {
    if k == 0 then None else Some(starts[k - 1])
  }

  /** `segments` is a well-shaped plan of the first `n` memories. */
  ghost predicate Shape(r: Rebuild, segments: seq<Segment>, n: nat) {
    var starts := Starts(segments);
    && n <= |r.store.memories|
    && Placed(segments) == n
    && |segments| <= MAX_SEGMENTS
    && (segments != [] ==> starts[0] == 0)
    && forall k {:trigger segments[k]} :: 0 <= k < |segments| ==>
         SegmentOk(r, k, segments[k], StartBefore(starts, k), starts[k], End(starts, n, k))
  }

  lemma {:induction false} RunTexts(memories: seq<MemoryRecord>, a: nat, b: nat)
    requires a <= b <= |memories| && DistinctIndices(memories)
    ensures SegmentTexts(memories, Indices(memories)[a..b]) == Texts(memories)[a..b]
    decreases b
  {
    if a < b {
      RunTexts(memories, a, b - 1);
      RunGrows(Indices(memories), a, b);
      RunGrows(Texts(memories), a, b);
      FindMemoryIsTheRecord(memories, memories[b - 1].idx);
    }
  }

  lemma {:induction false} StartsOfOpened(segments: seq<Segment>, segment: Segment)
    ensures Starts(segments + [segment]) == Starts(segments) + [Placed(segments)]
    ensures Placed(segments + [segment]) == Placed(segments) + |segment.indices|
  {
    assert Init(segments + [segment]) == segments;
  }

  lemma {:induction false} StartsOfExtended(segments: seq<Segment>, idx: int, estimated: int, exact: int)
    requires segments != []
    ensures Starts(ExtendLast(segments, idx, estimated, exact)) == Starts(segments)
    ensures Placed(ExtendLast(segments, idx, estimated, exact)) == Placed(segments) + 1
  {
    StartsOfOpened(Init(segments), Last(ExtendLast(segments, idx, estimated, exact)));
  }

  lemma {:induction false} SingleCount(r: Rebuild, n: nat)
    requires n < |r.store.memories|
    ensures Count(r, n, n + 1) == r.core.kvTokens(r.store.system, [r.store.memories[n].text])
  {
    RunGrows(Texts(r.store.memories), n, n + 1);
    assert Texts(r.store.memories)[n..n] + [r.store.memories[n].text] == [r.store.memories[n].text];
  }

  // ----- One step keeps the shape -----

  lemma {:induction false} OpenedSegmentOk(r: Rebuild, n: nat, k: nat, previous: Option<nat>, tokens: int, manual: bool, auto: bool)
    requires n < |r.store.memories| && (previous.Some? ==> previous.value <= n)
    requires Count(r, n, n + 1) == Some(tokens) && tokens <= r.freshLimit
    requires manual == BoundaryAt(r, n) && auto == (previous.Some? && !manual)
    requires auto ==> Exceeds(Count(r, previous.value, n + 1), SoftLimit(r.core))
    ensures SegmentOk(r, k, Segment(k, [r.store.memories[n].idx], tokens, tokens, manual, auto), previous, n, n + 1)
  {
    assert Indices(r.store.memories)[n..n + 1] == [r.store.memories[n].idx];
  }

  lemma {:induction false} OpenKeepsShape(r: Rebuild, segments: seq<Segment>, n: nat, tokens: int, manual: bool, auto: bool)
    requires Shape(r, segments, n) && n < |r.store.memories| && |segments| < MAX_SEGMENTS
    requires Count(r, n, n + 1) == Some(tokens) && tokens <= r.freshLimit
    requires manual == BoundaryAt(r, n) && auto == (segments != [] && !manual)
    requires segments != [] ==> Last(Starts(segments)) <= n
    requires auto ==> Exceeds(Count(r, Last(Starts(segments)), n + 1), SoftLimit(r.core))
    ensures Shape(r, segments + [Segment(|segments|, [r.store.memories[n].idx], tokens, tokens, manual, auto)], n + 1)
  {
    var added := Segment(|segments|, [r.store.memories[n].idx], tokens, tokens, manual, auto);
    var segments', starts, k0 := segments + [added], Starts(segments), |segments|;
    StartsOfOpened(segments, added);
    var starts' := Starts(segments');
    OpenedSegmentOk(r, n, k0, StartBefore(starts', k0), tokens, manual, auto);
    forall k | 0 <= k < |segments'|
      ensures SegmentOk(r, k, segments'[k], StartBefore(starts', k), starts'[k], End(starts', n + 1, k))
    {
      if k < |segments| {
        assert SegmentOk(r, k, segments[k], StartBefore(starts, k), starts[k], End(starts, n, k));
      }
    }
  }

  lemma {:induction false} ExtendKeepsShape(r: Rebuild, segments: seq<Segment>, n: nat, estimated: int, exact: int)
    requires Shape(r, segments, n) && n < |r.store.memories| && segments != []
    requires !BoundaryAt(r, n) && estimated <= SoftLimit(r.core)
    requires exact != 0 ==> Count(r, Last(Starts(segments)), n + 1) == Some(exact)
    ensures Shape(r, ExtendLast(segments, r.store.memories[n].idx, estimated, exact), n + 1)
  {
    hide Starts, Placed, Count, BoundaryAt;
    var segments' := ExtendLast(segments, r.store.memories[n].idx, estimated, exact);
    StartsOfExtended(segments, r.store.memories[n].idx, estimated, exact);
    var starts, last := Starts(segments), |segments| - 1;
    assert SegmentOk(r, last, segments[last], StartBefore(starts, last), starts[last], n);
    ExtendedSegmentOk(r, last, segments[last], StartBefore(starts, last), starts[last], n, estimated, exact);
    hide SegmentOk;
    forall k | 0 <= k < |segments'|
      ensures SegmentOk(r, k, segments'[k], StartBefore(starts, k), starts[k], End(starts, n + 1, k))
    {
      assert SegmentOk(r, k, segments[k], StartBefore(starts, k), starts[k], End(starts, n, k));
    }
  }

  lemma {:induction false} ExtendedSegmentOk(r: Rebuild, k: nat, segment: Segment, previous: Option<nat>, a: nat, n: nat, estimated: int, exact: int)
    requires SegmentOk(r, k, segment, previous, a, n) && n < |r.store.memories|
    requires !BoundaryAt(r, n) && estimated <= SoftLimit(r.core)
    requires exact != 0 ==> Count(r, a, n + 1) == Some(exact)
    ensures SegmentOk(r, k, segment.(indices := segment.indices + [r.store.memories[n].idx], estimated := estimated, exact := exact),
                      previous, a, n + 1)
  {
    hide Count;
    RunGrows(Indices(r.store.memories), a, n + 1);
  }

  /** The last segment with memory `n` added is the run from its start through `n`. */
  lemma {:induction false} LastRunCount(r: Rebuild, segments: seq<Segment>, n: nat)
    requires Shape(r, segments, n) && n < |r.store.memories| && segments != [] && DistinctIndices(r.store.memories)
    ensures Last(Starts(segments)) < n
    ensures SegmentTexts(r.store.memories, Last(segments).indices) == Texts(r.store.memories)[Last(Starts(segments))..n]
    ensures r.core.kvTokens(r.store.system, SegmentTexts(r.store.memories, Last(segments).indices) + [r.store.memories[n].text])
            == Count(r, Last(Starts(segments)), n + 1)
  {
    var starts, last := Starts(segments), |segments| - 1;
    var a := starts[last];
    assert a < n && Last(segments).indices == Indices(r.store.memories)[a..n] by {
      assert SegmentOk(r, last, segments[last], StartBefore(starts, last), a, n);
    }
    hide Shape, SegmentOk, Starts, Placed;
    RunTexts(r.store.memories, a, n);
    RunGrows(Texts(r.store.memories), a, n + 1);
  }

  /** Why planning stopped at memory `n`. */
  ghost predicate NoRoomFor(r: Rebuild, segments: seq<Segment>, n: nat) {
    && n < |r.store.memories|
    && |segments| == MAX_SEGMENTS
    && Last(Starts(segments)) < n
    && (BoundaryAt(r, n) || Exceeds(Count(r, Last(Starts(segments)), n + 1), SoftLimit(r.core)))
  }

  /** What placing memory `n` may lead to: a well-shaped longer plan, or a stop that changes nothing. */
  ghost predicate GoodOutcome(r: Rebuild, segments: seq<Segment>, n: nat, placed: Outcome) {
    && (placed.error == None ==> Shape(r, placed.segments, n + 1))
    && (placed.error.Some? ==> placed.segments == segments)
    && (placed.error == Some(SegmentLimitExceeded) ==> NoRoomFor(r, segments, n))
  }

  lemma {:induction false} OpenIsGood(r: Rebuild, segments: seq<Segment>, n: nat, tokens: int, manual: bool, auto: bool)
    requires Shape(r, segments, n) && n < |r.store.memories|
    requires Count(r, n, n + 1) == Some(tokens) && tokens <= r.freshLimit
    requires manual == BoundaryAt(r, n) && auto == (segments != [] && !manual)
    requires segments != [] ==> Last(Starts(segments)) < n
    requires auto ==> Exceeds(Count(r, Last(Starts(segments)), n + 1), SoftLimit(r.core))
    ensures GoodOutcome(r, segments, n, OpenSegment(segments, r.store.memories[n].idx, tokens, manual, auto))
  {
    if |segments| < MAX_SEGMENTS {
      OpenKeepsShape(r, segments, n, tokens, manual, auto);
    }
  }

  lemma {:induction false} ExtendIsGood(r: Rebuild, segments: seq<Segment>, n: nat, estimated: int, exact: int)
    requires Shape(r, segments, n) && n < |r.store.memories| && segments != []
    requires Last(Starts(segments)) < n && !BoundaryAt(r, n) && estimated <= SoftLimit(r.core)
    requires exact != 0 ==> Count(r, Last(Starts(segments)), n + 1) == Some(exact)
    ensures GoodOutcome(r, segments, n, Outcome(None, ExtendLast(segments, r.store.memories[n].idx, estimated, exact)))
  {
    ExtendKeepsShape(r, segments, n, estimated, exact);
  }

  lemma {:induction false} PlaceKeepsShape(r: Rebuild, empty: TokenCount, segments: seq<Segment>, n: nat)
    requires r.Valid() && DistinctIndices(r.store.memories)
    requires Shape(r, segments, n) && n < |r.store.memories|
    ensures GoodOutcome(r, segments, n, r.Place(empty, segments, r.store.memories[n]))
  {
    var m := r.store.memories[n];
    SingleCount(r, n);
    var single := r.core.kvTokens(r.store.system, [m.text]);
    if segments != [] {
      LastRunCount(r, segments, n);
    }
    hide Shape, Count, NoRoomFor, OpenSegment, ExtendLast, AppendTokenEstimate, Starts, SegmentTexts, GoodOutcome;
    if single == None || single.value > r.freshLimit {
      StopIsGood(r, segments, n, r.Place(empty, segments, m).error);
    } else if segments == [] || BoundaryAt(r, n) {
      OpenIsGood(r, segments, n, single.value, BoundaryAt(r, n), false);
    } else {
      var cheap := AppendTokenEstimate(Last(segments).estimated, empty, single.value);
      var exact := Count(r, Last(Starts(segments)), n + 1);
      if cheap <= SoftLimit(r.core) {
        ExtendIsGood(r, segments, n, cheap, 0);
      } else if exact == None {
        StopIsGood(r, segments, n, Some(EstimateFailed));
      } else if exact.value <= SoftLimit(r.core) {
        ExtendIsGood(r, segments, n, exact.value, exact.value);
      } else {
        OpenIsGood(r, segments, n, single.value, false, true);
      }
    }
  }

  lemma {:induction false} StopIsGood(r: Rebuild, segments: seq<Segment>, n: nat, error: Option<PlanError>)
    requires error.Some? && error != Some(SegmentLimitExceeded)
    ensures GoodOutcome(r, segments, n, Outcome(error, segments))
  {
  }

  lemma {:induction false} ShapePlaces(r: Rebuild, segments: seq<Segment>, n: nat)
    requires Shape(r, segments, n)
    ensures Placed(segments) == n
  {
  }

  /** A plan of the first `n` memories, or of fewer when planning stopped early. */
  ghost predicate WellPlanned(r: Rebuild, plan: Outcome, n: nat) {
    && Shape(r, plan.segments, Placed(plan.segments))
    && (plan.error == None ==> Placed(plan.segments) == n)
    && (plan.error.Some? ==> Placed(plan.segments) < n)
    && (plan.error == Some(SegmentLimitExceeded) ==> NoRoomFor(r, plan.segments, Placed(plan.segments)))
  }

  lemma {:induction false} StepIsWellPlanned(r: Rebuild, empty: TokenCount, segments: seq<Segment>, n: nat)
    requires r.Valid() && DistinctIndices(r.store.memories)
    requires Shape(r, segments, n) && n < |r.store.memories|
    ensures WellPlanned(r, r.Step(empty, segments, r.store.memories[n]), n + 1)
  {
    ShapePlaces(r, segments, n);
    PlaceKeepsShape(r, empty, segments, n);
    var placed := r.Step(empty, segments, r.store.memories[n]);
    if placed.error == None {
      ShapePlaces(r, placed.segments, n + 1);
    }
    hide Shape, NoRoomFor, Rebuild.Place, Placed;
  }

  lemma {:induction false} StepsHaveShape(r: Rebuild, empty: TokenCount, n: nat)
    requires r.Valid() && DistinctIndices(r.store.memories) && n <= |r.store.memories|
    ensures WellPlanned(r, r.Steps(empty, n), n)
  {
    hide Shape, NoRoomFor, Rebuild.Step, Placed;
    if n == 0 {
      NothingIsWellPlanned(r);
    } else {
      StepsHaveShape(r, empty, n - 1);
      var before := r.Steps(empty, n - 1);
      if before.error == None {
        StepIsWellPlanned(r, empty, before.segments, n - 1);
      }
    }
  }

  lemma {:induction false} NothingIsWellPlanned(r: Rebuild)
    ensures WellPlanned(r, Outcome(None, []), 0)
  {
  }

  /** Every plan that a rebuild completes covers the whole store, in order, with at most 100
      numbered segments that respect the limits and start only where they must. */
  lemma {:induction false} CompletedPlanHasShape(r: Rebuild)
    requires r.Valid() && DistinctIndices(r.store.memories)
    ensures r.Plan().error == None ==> Shape(r, r.Plan().segments, |r.store.memories|)
  {
    var empty := r.core.kvTokens(r.store.system, []);
    if empty.Some? {
      StepsHaveShape(r, empty.value, |r.store.memories|);
    }
    hide Shape, NoRoomFor, Rebuild.Steps, Placed;
    if r.store.memories == [] {
      EmptyPlanHasShape(r);
    }
  }

  lemma {:induction false} EmptyPlanHasShape(r: Rebuild)
    ensures Shape(r, [], 0)
  {
  }
}
