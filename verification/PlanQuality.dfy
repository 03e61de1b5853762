/** How good the greedy plan is: it never uses more segments than any other legal split, and
    the cheap over-estimate never changes where it cuts. */
module PlanQuality {
  import opened Basics
  import opened Persistent
  import opened SessionState
  import opened SegmentPlanner
  import opened PlanShape

  // ----- What may be assumed of a tokeniser -----

  /** A longer run of this session's memories never has fewer tokens. */
  ghost predicate Monotone(r: Rebuild) {
    forall a: nat, b: nat, c: nat, d: nat {:trigger Count(r, b, c), Count(r, a, d)} ::
      a <= b <= c <= d <= |r.store.memories| && Count(r, b, c).Some? && Count(r, a, d).Some?
      ==> Count(r, b, c).value <= Count(r, a, d).value
  }

  /** No count of a run of this session's memories fails, and the empty context can be counted. */
  ghost predicate Counts(r: Rebuild) {
    && r.core.kvTokens(r.store.system, []).Some?
    && forall a: nat, b: nat {:trigger Count(r, a, b)} :: a <= b <= |r.store.memories| ==> Count(r, a, b).Some?
  }

  /** Appending memory `b` to the run `a..b` costs at most what the memory costs alone, never
      less than one token, plus the margin. */
  ghost predicate CheapToAppend(r: Rebuild, a: nat, b: nat)
    requires Counts(r) && a < b < |r.store.memories|
  {
    Count(r, a, b + 1).value - Count(r, a, b).value <=
      Max(1, Count(r, b, b + 1).value - r.core.kvTokens(r.store.system, []).value) + SAFETY_MARGIN
  }

  ghost predicate WithinMargin(r: Rebuild)
    requires Counts(r)
  {
    forall a: nat, b: nat :: a < b < |r.store.memories| ==> CheapToAppend(r, a, b)
  }

  // ----- Splits -----

  /** Run `k` of the split is not empty and fits. */
  ghost predicate LegalRun(r: Rebuild, split: seq<nat>, k: nat)
    requires k < |split|
  {
    var a, b := split[k], End(split, |r.store.memories|, k);
    && a < b <= |r.store.memories|
    && Within(Count(r, a, b), if b == a + 1 then r.freshLimit else SoftLimit(r.core))
  }

  /** A way to cut the whole store into runs that fit, given by where the runs start. */
  ghost predicate LegalSplit(r: Rebuild, split: seq<nat>) {
    && split != [] && split[0] == 0
    && (forall k :: 0 <= k < |split| ==> LegalRun(r, split, k))
    && (forall i :: 0 < i < |r.store.memories| && BoundaryAt(r, i) ==> i in split)
  }

  ghost predicate ForcedStart(r: Rebuild, starts: seq<nat>, k: nat)
    requires 1 <= k < |starts|
  {
    && starts[k - 1] < starts[k] < |r.store.memories|
    && (BoundaryAt(r, starts[k]) || Exceeds(Count(r, starts[k - 1], starts[k] + 1), SoftLimit(r.core)))
  }

  /** Every start but the first is forced: by a boundary, or because the run from the start
      before it does not fit. */
  ghost predicate ForcedStarts(r: Rebuild, starts: seq<nat>) {
    && starts != [] && starts[0] == 0 < |r.store.memories|
    && forall k :: 1 <= k < |starts| ==> ForcedStart(r, starts, k)
  }

  lemma {:induction false} SplitIncreases(r: Rebuild, split: seq<nat>, j: nat, k: nat)
    requires LegalSplit(r, split) && j < k < |split|
    ensures End(split, |r.store.memories|, j) <= split[k]
    decreases k
  {
    if j + 1 < k {
      SplitIncreases(r, split, j, k - 1);
      assert LegalRun(r, split, k - 1);
    }
  }

  /** A run that contains a forced start would be too long or would skip a boundary. */
  lemma {:induction false} NoRunPassesAForcedStart(r: Rebuild, starts: seq<nat>, split: seq<nat>, k: nat)
    requires Monotone(r) && ForcedStarts(r, starts) && LegalSplit(r, split) && 1 <= k < |starts|
    requires k - 1 < |split| && split[k - 1] <= starts[k - 1]
    ensures End(split, |r.store.memories|, k - 1) <= starts[k]
  {
    var g := starts[k];
    assert ForcedStart(r, starts, k) && LegalRun(r, split, k - 1);
    if BoundaryAt(r, g) {
      var j :| 0 <= j < |split| && split[j] == g;
      if j < k - 1 {
        assert LegalRun(r, split, j);
        SplitIncreases(r, split, j, k - 1);
      } else if k - 1 < j {
        SplitIncreases(r, split, k - 1, j);
      }
    }
  }

  /** Forced starts stay ahead: the k-th run of any legal split starts no later. */
  lemma {:induction false} ForcedStartsStayAhead(r: Rebuild, starts: seq<nat>, split: seq<nat>, k: nat)
    requires Monotone(r) && ForcedStarts(r, starts) && LegalSplit(r, split) && k < |starts|
    ensures k < |split| && split[k] <= starts[k]
  {
    if k > 0 {
      ForcedStartsStayAhead(r, starts, split, k - 1);
      NoRunPassesAForcedStart(r, starts, split, k);
      assert ForcedStart(r, starts, k);
    }
  }

  lemma {:induction false} NoSplitHasFewerRuns(r: Rebuild, starts: seq<nat>, split: seq<nat>)
    requires Monotone(r) && ForcedStarts(r, starts) && LegalSplit(r, split)
    ensures |starts| <= |split|
  {
    ForcedStartsStayAhead(r, starts, split, |starts| - 1);
  }

  lemma {:induction false} PlanStartIsForced(r: Rebuild, segments: seq<Segment>, n: nat, k: nat)
    requires Shape(r, segments, n) && 1 <= k < |segments|
    ensures ForcedStart(r, Starts(segments), k)
  {
    var starts := Starts(segments);
    hide Starts, WithinLimits, HoldsRun, BoundaryAt, Count;
    assert SegmentOk(r, k - 1, segments[k - 1], StartBefore(starts, k - 1), starts[k - 1], End(starts, n, k - 1));
    assert SegmentOk(r, k, segments[k], StartBefore(starts, k), starts[k], End(starts, n, k));
  }

  lemma {:induction false} PlanStartsAreForced(r: Rebuild, segments: seq<Segment>, n: nat)
    requires Shape(r, segments, n) && segments != []
    ensures ForcedStarts(r, Starts(segments))
  {
    var starts := Starts(segments);
    forall k | 1 <= k < |starts| ensures ForcedStart(r, starts, k) {
      PlanStartIsForced(r, segments, n, k);
    }
    assert SegmentOk(r, 0, segments[0], StartBefore(starts, 0), starts[0], End(starts, n, 0));
  }

  lemma {:induction false} OneMoreForcedStart(r: Rebuild, starts: seq<nat>, n: nat)
    requires ForcedStarts(r, starts) && Last(starts) < n < |r.store.memories|
    requires BoundaryAt(r, n) || Exceeds(Count(r, Last(starts), n + 1), SoftLimit(r.core))
    ensures ForcedStarts(r, starts + [n])
  {
    forall k | 1 <= k < |starts + [n]| ensures ForcedStart(r, starts + [n], k) {
      assert k < |starts| ==> ForcedStart(r, starts, k);
    }
  }

  lemma {:induction false} NoSplitBeatsThePlan(r: Rebuild, plan: Outcome, n: nat, split: seq<nat>)
    requires WellPlanned(r, plan, n) && Monotone(r) && LegalSplit(r, split)
    ensures |plan.segments| <= |split|
    ensures plan.error == Some(SegmentLimitExceeded) ==> |split| > MAX_SEGMENTS
  {
    var placed := Placed(plan.segments);
    hide Shape, Starts, Placed, ForcedStarts, LegalSplit, Monotone, BoundaryAt, Count;
    if plan.segments != [] {
      var starts := Starts(plan.segments);
      PlanStartsAreForced(r, plan.segments, placed);
      NoSplitHasFewerRuns(r, starts, split);
      if plan.error == Some(SegmentLimitExceeded) {
        OneMoreForcedStart(r, starts, placed);
        NoSplitHasFewerRuns(r, starts + [placed], split);
      }
    }
  }

  /** A completed plan has as few segments as any legal split of the store; and when planning
      gives up because 100 segments are not enough, no legal split manages with 100 either. */
  lemma {:induction false} GreedyIsMinimal(r: Rebuild, split: seq<nat>)
    requires r.Valid() && DistinctIndices(r.store.memories) && Monotone(r) && LegalSplit(r, split)
    ensures r.Plan().error == None ==> |r.Plan().segments| <= |split|
    ensures r.Plan().error == Some(SegmentLimitExceeded) ==> |split| > MAX_SEGMENTS
  {
    var empty := r.core.kvTokens(r.store.system, []);
    if empty.Some? {
      StepsHaveShape(r, empty.value, |r.store.memories|);
      NoSplitBeatsThePlan(r, r.Steps(empty.value, |r.store.memories|), |r.store.memories|, split);
      hide WellPlanned, Monotone, LegalSplit, DistinctIndices, Rebuild.Steps;
    }
  }

  // ----- The cheap estimate never changes a cut -----

  /** The planner that recounts exactly at every memory. */
  function ExactPlace(r: Rebuild, segments: seq<Segment>, m: MemoryRecord): Outcome
    requires r.Valid()
  {
    match r.core.kvTokens(r.store.system, [m.text])
    case None => Outcome(Some(EstimateFailed), segments)
    case Some(single) =>
      if single > r.freshLimit then Outcome(Some(MemoryTooLarge), segments)
      else if segments == [] || r.IsBoundary(m.idx) then
        OpenSegment(segments, m.idx, single, r.IsBoundary(m.idx), false)
      else
        match r.core.kvTokens(r.store.system, SegmentTexts(r.store.memories, Last(segments).indices) + [m.text])
        case None => Outcome(Some(EstimateFailed), segments)
        case Some(exact) =>
          if exact <= SoftLimit(r.core) then Outcome(None, ExtendLast(segments, m.idx, exact, exact))
          else OpenSegment(segments, m.idx, single, false, true)
  }

  function ExactStep(r: Rebuild, segments: seq<Segment>, m: MemoryRecord): Outcome
    requires r.Valid()
  {
    if r.NeedsTextEstimate(m) && r.core.textTokens(m.text) == None then Outcome(Some(EstimateFailed), segments)
    else ExactPlace(r, segments, m)
  }

  function ExactSteps(r: Rebuild, n: nat): Outcome
    requires r.Valid() && n <= |r.store.memories|
  {
    if n == 0 then Outcome(None, [])
    else
      var before := ExactSteps(r, n - 1);
      if before.error.Some? then before else ExactStep(r, before.segments, r.store.memories[n - 1])
  }

  predicate SameCut(a: Segment, b: Segment) {
    a.(estimated := 0, exact := 0) == b.(estimated := 0, exact := 0)
  }

  /** The same segments with the same members and flags; only token fields may differ. */
  ghost predicate SameCuts(a: seq<Segment>, b: seq<Segment>) {
    |a| == |b| && forall k :: 0 <= k < |a| ==> SameCut(a[k], b[k])
  }

  /** The exact count of every segment is at most its estimate. */
  ghost predicate EstimatesCover(r: Rebuild, segments: seq<Segment>) {
    forall k :: 0 <= k < |segments| ==> Covers(r, segments[k])
  }

  ghost predicate Covers(r: Rebuild, segment: Segment) {
    Within(r.core.kvTokens(r.store.system, SegmentTexts(r.store.memories, segment.indices)), segment.estimated)
  }

  lemma {:induction false} AppendedTexts(memories: seq<MemoryRecord>, indices: seq<int>, n: nat)
    requires DistinctIndices(memories) && n < |memories|
    ensures SegmentTexts(memories, indices + [memories[n].idx]) == SegmentTexts(memories, indices) + [memories[n].text]
  {
    FindMemoryIsTheRecord(memories, memories[n].idx);
    assert Init(indices + [memories[n].idx]) == indices;
  }

  /** The two planners agree so far, and the fast one's estimates can be trusted. */
  ghost predicate Agree(r: Rebuild, fast: Outcome, exact: Outcome) {
    fast.error == exact.error && SameCuts(fast.segments, exact.segments) && EstimatesCover(r, fast.segments)
  }

  lemma {:induction false} OpenAgrees(r: Rebuild, fast: seq<Segment>, exact: seq<Segment>, n: nat, tokens: TokenCount, manual: bool, auto: bool)
    requires n < |r.store.memories| && DistinctIndices(r.store.memories)
    requires SameCuts(fast, exact) && EstimatesCover(r, fast)
    requires r.core.kvTokens(r.store.system, [r.store.memories[n].text]) == Some(tokens)
    ensures Agree(r, OpenSegment(fast, r.store.memories[n].idx, tokens, manual, auto),
                     OpenSegment(exact, r.store.memories[n].idx, tokens, manual, auto))
  {
    AppendedTexts(r.store.memories, [], n);
    assert [] + [r.store.memories[n].idx] == [r.store.memories[n].idx];
    assert SegmentTexts(r.store.memories, []) + [r.store.memories[n].text] == [r.store.memories[n].text];
  }

  lemma {:induction false} ExtendAgrees(r: Rebuild, fast: seq<Segment>, exact: seq<Segment>, n: nat,
                                        count: TokenCount, estimated: int, recorded: int)
    requires n < |r.store.memories| && DistinctIndices(r.store.memories)
    requires SameCuts(fast, exact) && EstimatesCover(r, fast) && fast != []
    requires r.core.kvTokens(r.store.system, SegmentTexts(r.store.memories, Last(fast).indices) + [r.store.memories[n].text])
             == Some(count)
    requires count <= estimated
    ensures Agree(r, Outcome(None, ExtendLast(fast, r.store.memories[n].idx, estimated, recorded)),
                     Outcome(None, ExtendLast(exact, r.store.memories[n].idx, count, count)))
  {
    AppendedTexts(r.store.memories, Last(fast).indices, n);
    assert SameCut(Last(fast), Last(exact));
  }

  /** The cheap estimate of the grown last segment is no lower than its exact count. */
  lemma {:induction false} CheapIsEnough(r: Rebuild, segments: seq<Segment>, n: nat)
    requires r.Valid() && DistinctIndices(r.store.memories) && Counts(r) && WithinMargin(r)
    requires Shape(r, segments, n) && n < |r.store.memories| && segments != [] && Covers(r, Last(segments))
    requires Count(r, n, n + 1).value <= r.freshLimit
    ensures Count(r, Last(Starts(segments)), n + 1).value <=
            AppendTokenEstimate(Last(segments).estimated, r.core.kvTokens(r.store.system, []).value, Count(r, n, n + 1).value)
  {
    LastRunCount(r, segments, n);
    hide Shape, Starts, SegmentTexts;
    var a := Last(Starts(segments));
    assert CheapToAppend(r, a, n);
  }

  lemma {:induction false} PlaceAgrees(r: Rebuild, fast: seq<Segment>, exact: seq<Segment>, n: nat)
    requires r.Valid() && DistinctIndices(r.store.memories) && Counts(r) && WithinMargin(r)
    requires Shape(r, fast, n) && n < |r.store.memories|
    requires SameCuts(fast, exact) && EstimatesCover(r, fast)
    ensures Agree(r, r.Place(r.core.kvTokens(r.store.system, []).value, fast, r.store.memories[n]),
                     ExactPlace(r, exact, r.store.memories[n]))
  {
    var m := r.store.memories[n];
    var single, empty := r.core.kvTokens(r.store.system, [m.text]), r.core.kvTokens(r.store.system, []).value;
    SingleCount(r, n);
    assert Count(r, n, n + 1).Some?;
    if fast != [] {
      LastRunCount(r, fast, n);
      assert SameCut(Last(fast), Last(exact)) && Covers(r, Last(fast));
      assert Count(r, Last(Starts(fast)), n + 1).Some?;
    }
    hide Shape, Starts, SegmentTexts, EstimatesCover, Covers, Agree, OpenSegment, ExtendLast;
    hide SameCut, SameCuts, WithinMargin, Counts, AppendTokenEstimate, DistinctIndices, Count, Texts;
    if single.value > r.freshLimit {
      assert Agree(r, Outcome(Some(MemoryTooLarge), fast), Outcome(Some(MemoryTooLarge), exact)) by {
        StopAgrees(r, fast, exact, MemoryTooLarge);
      }
    } else if fast == [] || BoundaryAt(r, n) {
      OpenAgrees(r, fast, exact, n, single.value, BoundaryAt(r, n), false);
    } else {
      CheapIsEnough(r, fast, n);
      var cheap := AppendTokenEstimate(Last(fast).estimated, empty, single.value);
      var count := Count(r, Last(Starts(fast)), n + 1).value;
      if cheap <= SoftLimit(r.core) {
        ExtendAgrees(r, fast, exact, n, count, cheap, 0);
      } else if count <= SoftLimit(r.core) {
        ExtendAgrees(r, fast, exact, n, count, count, count);
      } else {
        OpenAgrees(r, fast, exact, n, single.value, false, true);
      }
    }
  }

  lemma {:induction false} StopAgrees(r: Rebuild, fast: seq<Segment>, exact: seq<Segment>, error: PlanError)
    requires SameCuts(fast, exact) && EstimatesCover(r, fast)
    ensures Agree(r, Outcome(Some(error), fast), Outcome(Some(error), exact))
  {
  }

  lemma {:induction false} StepAgrees(r: Rebuild, fast: Outcome, exact: Outcome, n: nat)
    requires r.Valid() && DistinctIndices(r.store.memories) && Counts(r) && WithinMargin(r)
    requires WellPlanned(r, fast, n) && n < |r.store.memories| && fast.error == None
    requires Agree(r, fast, exact)
    ensures Agree(r, r.Step(r.core.kvTokens(r.store.system, []).value, fast.segments, r.store.memories[n]),
                     ExactStep(r, exact.segments, r.store.memories[n]))
  {
    hide Shape, Placed, Rebuild.Place, ExactPlace, SameCuts, EstimatesCover, Counts, WithinMargin, DistinctIndices;
    PlaceAgrees(r, fast.segments, exact.segments, n);
    StopAgrees(r, fast.segments, exact.segments, EstimateFailed);
  }

  /** On a tokeniser that stays within the margin, planning with cheap estimates makes the same
      cuts, sets the same flags and stops with the same error as recounting at every memory;
      and every segment's exact count is at most its estimate. */
  lemma {:induction false} FastPlannerIsExact(r: Rebuild, n: nat)
    requires r.Valid() && DistinctIndices(r.store.memories) && Counts(r) && WithinMargin(r)
    requires n <= |r.store.memories|
    ensures Agree(r, r.Steps(r.core.kvTokens(r.store.system, []).value, n), ExactSteps(r, n))
  {
    hide Rebuild.Step, ExactStep, WellPlanned, SameCuts, EstimatesCover, Counts, WithinMargin, DistinctIndices;
    CountsEmpty(r);
    var empty := r.core.kvTokens(r.store.system, []).value;
    if n == 0 {
      NothingAgrees(r);
    } else {
      var before, exact := r.Steps(empty, n - 1), ExactSteps(r, n - 1);
      FastPlannerIsExact(r, n - 1);
      StepsHaveShape(r, empty, n - 1);
      if before.error == None {
        StepAgrees(r, before, exact, n - 1);
      }
    }
  }

  lemma {:induction false} CountsEmpty(r: Rebuild)
    requires Counts(r)
    ensures r.core.kvTokens(r.store.system, []).Some?
  {
  }

  lemma {:induction false} NothingAgrees(r: Rebuild)
    ensures Agree(r, Outcome(None, []), Outcome(None, []))
  {
  }

  // ----- Together: the completed plan is a shortest legal split -----

  lemma {:induction false} PlanRunIsLegal(r: Rebuild, segments: seq<Segment>, k: nat)
    requires Shape(r, segments, |r.store.memories|) && EstimatesCover(r, segments) && k < |segments|
    requires DistinctIndices(r.store.memories)
    ensures LegalRun(r, Starts(segments), k)
    ensures forall i :: Starts(segments)[k] < i < End(Starts(segments), |r.store.memories|, k) ==> !BoundaryAt(r, i)
  {
    var starts := Starts(segments);
    var a, b := starts[k], End(starts, |r.store.memories|, k);
    assert SegmentOk(r, k, segments[k], StartBefore(starts, k), a, b);
    assert Covers(r, segments[k]);
    hide Shape, Starts, SegmentTexts, EstimatesCover, BoundaryAt;
    RunTexts(r.store.memories, a, b);
  }

  /** Position `i` lies in the run that starts at or before it. */
  lemma {:induction false} RunOf(starts: seq<nat>, n: nat, i: nat, k: nat) returns (j: nat)
    requires k < |starts| && starts[0] == 0 && i < End(starts, n, k)
    ensures j <= k && starts[j] <= i < End(starts, n, j)
  {
    if starts[k] <= i {
      j := k;
    } else {
      j := RunOf(starts, n, i, k - 1);
    }
  }

  lemma {:induction false} PlanIsLegal(r: Rebuild, segments: seq<Segment>)
    requires Shape(r, segments, |r.store.memories|) && EstimatesCover(r, segments) && segments != []
    requires DistinctIndices(r.store.memories)
    ensures LegalSplit(r, Starts(segments))
  {
    var starts := Starts(segments);
    forall k | 0 <= k < |starts| ensures LegalRun(r, starts, k) {
      PlanRunIsLegal(r, segments, k);
    }
    assert starts[0] == 0;
    hide Shape, Starts, BoundaryAt, EstimatesCover;
    forall i | 0 < i < |r.store.memories| && BoundaryAt(r, i) ensures i in starts {
      var k := RunOf(starts, |r.store.memories|, i, |starts| - 1);
      PlanRunIsLegal(r, segments, k);
    }
  }

  /** On a monotone tokeniser within the margin, the plan of a non-empty store is a legal split
      and no legal split is shorter. */
  lemma {:induction false} GreedyIsAShortestSplit(r: Rebuild, split: seq<nat>)
    requires r.Valid() && DistinctIndices(r.store.memories) && Counts(r) && WithinMargin(r) && Monotone(r)
    requires r.store.memories != [] && r.Plan().error == None
    ensures LegalSplit(r, Starts(r.Plan().segments))
    ensures LegalSplit(r, split) ==> |Starts(r.Plan().segments)| <= |split|
  {
    FastPlannerIsExact(r, |r.store.memories|);
    CompletedPlanHasShape(r);
    var segments := r.Plan().segments;
    assert EstimatesCover(r, segments) && segments != [];
    hide Shape, EstimatesCover, Monotone, DistinctIndices, Counts, WithinMargin, LegalSplit, Rebuild.Plan;
    PlanIsLegal(r, segments);
    if LegalSplit(r, split) {
      GreedyIsMinimal(r, split);
    }
  }
}
