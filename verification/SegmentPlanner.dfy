/** Cutting a session's memories into segments, in the two forms the program has
    (segment_planner.cpp, session_manager.cpp): over the whole store at once, and one
    memory at a time as memories arrive. */
module SegmentPlanner {
  import opened Basics
  import opened Persistent
  import opened SessionState

  const MAX_SEGMENTS := 100
  const SOFT_LIMIT_PERCENT := 85
  const SAFETY_MARGIN := 4

  datatype PlanError = NoContextLength | EstimateFailed | MemoryTooLarge | SegmentLimitExceeded

  /** A plan and, when planning stopped early, why. The segments made so far stay in place. */
  datatype Outcome = Outcome(error: Option<PlanError>, segments: seq<Segment>)

  function SoftLimit(core: Core): int {
    if core.contextLength <= 0 then 0 else Max(core.contextLength * SOFT_LIMIT_PERCENT / 100, 1)
  }

  /** The soft limit is the largest count of tokens within 85 percent of the context, and at least one. */
  lemma SoftLimitIsTheLargest(core: Core, tokens: int)
    requires core.contextLength > 0
    ensures tokens <= SoftLimit(core) <==> tokens <= 1 || 100 * tokens <= 85 * core.contextLength
  {
  }

  /** What appending one memory may cost at most, saturating at the largest 32-bit integer. */
  function AppendTokenEstimate(current: int, empty: TokenCount, single: TokenCount): int
    requires single - empty <= INT32_MAX - SAFETY_MARGIN  // the sum below is taken in 32 bits
  {
    Min(current + (Max(1, single - empty) + SAFETY_MARGIN), INT32_MAX)
  }

  function OpenSegment(segments: seq<Segment>, idx: int, tokens: int, manual: bool, auto: bool): Outcome {
    if |segments| >= MAX_SEGMENTS then Outcome(Some(SegmentLimitExceeded), segments)
    else Outcome(None, segments + [Segment(|segments|, [idx], tokens, tokens, manual, auto)])
  }

  function ExtendLast(segments: seq<Segment>, idx: int, estimated: int, exact: int): seq<Segment>
    requires segments != []
  {
    Init(segments) + [Last(segments).(indices := Last(segments).indices + [idx], estimated := estimated, exact := exact)]
  }

  // ----- Batch planning: what rebuild_segment_plan_fast computes -----

  /** The fixed inputs of one rebuild. */
  datatype Rebuild = Rebuild(core: Core, store: SessionStore, honorManual: bool, refresh: bool, freshLimit: int) {

    ghost predicate Valid() {
      // the two limits the program passes: the soft limit, or the context length for oneshot
      freshLimit == SoftLimit(core) || freshLimit == core.contextLength
    }

    predicate IsBoundary(idx: int) {
      honorManual && idx in store.boundaries
    }

    predicate NeedsTextEstimate(m: MemoryRecord) {
      refresh || m.estimated <= 0
    }

    /** Places memory `m` after the memories already planned. */
    function Place(empty: TokenCount, segments: seq<Segment>, m: MemoryRecord): Outcome
      requires Valid()
    {
      match core.kvTokens(store.system, [m.text])
      case None => Outcome(Some(EstimateFailed), segments)
      case Some(single) =>
        if single > freshLimit then Outcome(Some(MemoryTooLarge), segments)
        else if segments == [] || IsBoundary(m.idx) then
          OpenSegment(segments, m.idx, single, IsBoundary(m.idx), false)
        else
          var cheap := AppendTokenEstimate(Last(segments).estimated, empty, single);
          if cheap <= SoftLimit(core) then Outcome(None, ExtendLast(segments, m.idx, cheap, 0))
          else
            match core.kvTokens(store.system, SegmentTexts(store.memories, Last(segments).indices) + [m.text])
            case None => Outcome(Some(EstimateFailed), segments)
            case Some(exact) =>
              if exact <= SoftLimit(core) then Outcome(None, ExtendLast(segments, m.idx, exact, exact))
              else OpenSegment(segments, m.idx, single, false, true)
    }

    function Step(empty: TokenCount, segments: seq<Segment>, m: MemoryRecord): Outcome
      requires Valid()
    {
      if NeedsTextEstimate(m) && core.textTokens(m.text) == None then Outcome(Some(EstimateFailed), segments)
      else Place(empty, segments, m)
    }

    /** The plan after the first `n` memories. */
    function Steps(empty: TokenCount, n: nat): Outcome
      requires Valid() && n <= |store.memories|
    {
      if n == 0 then Outcome(None, [])
      else
        var before := Steps(empty, n - 1);
        if before.error.Some? then before else Step(empty, before.segments, store.memories[n - 1])
    }

    function Plan(): Outcome
      requires Valid()
    {
      if store.memories == [] then Outcome(None, [])
      else if SoftLimit(core) <= 0 || freshLimit <= 0 then Outcome(Some(NoContextLength), [])
      else
        match core.kvTokens(store.system, [])
        case None => Outcome(Some(EstimateFailed), [])
        case Some(empty) => Steps(empty, |store.memories|)
    }

    function Refreshed(m: MemoryRecord): MemoryRecord {
      if NeedsTextEstimate(m) && core.textTokens(m.text).Some? then m.(estimated := core.textTokens(m.text).value) else m
    }

    /** The store once the missing estimates of the first `n` memories are filled in. */
    ghost function RefreshedStore(n: nat): SessionStore {
      store.(memories := seq(|store.memories|, i requires 0 <= i < |store.memories| =>
        if i < n then Refreshed(store.memories[i]) else store.memories[i]))
    }
  }

  lemma {:induction false} ErrorsStop(r: Rebuild, empty: TokenCount, m: nat, n: nat)
    requires r.Valid() && m <= n <= |r.store.memories|
    requires r.Steps(empty, m).error.Some?
    ensures r.Steps(empty, n) == r.Steps(empty, m)
  {
    if m < n {
      ErrorsStop(r, empty, m, n - 1);
    }
  }

  lemma {:induction false} SegmentTextsIgnoreEstimates(a: seq<MemoryRecord>, b: seq<MemoryRecord>, indices: seq<int>)
    requires SameMemories(a, b)
    ensures SegmentTexts(a, indices) == SegmentTexts(b, indices)
  {
    if indices != [] {
      SegmentTextsIgnoreEstimates(a, b, Init(indices));
      FindMemoryIgnoresEstimates(a, b, Last(indices));
    }
  }

  lemma FindMemoryIgnoresEstimates(a: seq<MemoryRecord>, b: seq<MemoryRecord>, idx: int)
    requires SameMemories(a, b)
    ensures FindMemory(a, idx).Some? == FindMemory(b, idx).Some?
    ensures FindMemory(a, idx).Some? ==> SameMemory(FindMemory(a, idx).value, FindMemory(b, idx).value)
  {
    FirstWithIdxIgnoresEstimates(a, b, idx);
    if 0 <= idx < |a| {
      assert SameMemory(a[idx], b[idx]);
    }
  }

  lemma {:induction false} FirstWithIdxIgnoresEstimates(a: seq<MemoryRecord>, b: seq<MemoryRecord>, idx: int)
    requires SameMemories(a, b)
    ensures FirstWithIdx(a, idx).Some? == FirstWithIdx(b, idx).Some?
    ensures FirstWithIdx(a, idx).Some? ==> SameMemory(FirstWithIdx(a, idx).value, FirstWithIdx(b, idx).value)
  {
    if a != [] {
      assert SameMemory(a[0], b[0]);
      assert forall i :: 0 <= i < |a[1..]| ==> SameMemory(a[1..][i], b[1..][i]) by {
        forall i | 0 <= i < |a[1..]| ensures SameMemory(a[1..][i], b[1..][i]) {
          assert SameMemory(a[i + 1], b[i + 1]);
        }
      }
      FirstWithIdxIgnoresEstimates(a[1..], b[1..], idx);
    }
  }

  lemma PlaceIgnoresEstimates(r: Rebuild, n: nat, empty: TokenCount, segments: seq<Segment>, m: MemoryRecord, m': MemoryRecord)
    requires r.Valid() && SameMemory(m, m')
    ensures EstimatesFilled(r.store, r.RefreshedStore(n))
    ensures r.(store := r.RefreshedStore(n)).Place(empty, segments, m') == r.Place(empty, segments, m)
  {
    if segments != [] {
      SegmentTextsIgnoreEstimates(r.RefreshedStore(n).memories, r.store.memories, Last(segments).indices);
    }
  }

  /** Rebuilds the plan of a session in place. On failure the partial plan stays, and the
      estimates refreshed so far stay too. */
  method RebuildSegmentPlanFast(core: Core, session: Session, honorManual: bool, refresh: bool, freshLimit: int)
    returns (error: Option<PlanError>)
    requires Rebuild(core, session.store, honorManual, refresh, freshLimit).Valid()
    modifies session`store, session`planReady, session`segments
    ensures session.planReady
    ensures Outcome(error, session.segments) == Rebuild(core, old(session.store), honorManual, refresh, freshLimit).Plan()
    ensures EstimatesFilled(old(session.store), session.store)
    ensures error == None ==>
              session.store == Rebuild(core, old(session.store), honorManual, refresh, freshLimit)
                               .RefreshedStore(|session.store.memories|)
  {
    ghost var r := Rebuild(core, session.store, honorManual, refresh, freshLimit);
    session.planReady, session.segments := true, [];
    assert session.store == r.RefreshedStore(0);
    if session.store.memories == [] {
      return None;
    }
    if SoftLimit(core) <= 0 || freshLimit <= 0 {
      return Some(NoContextLength);
    }
    var empty := core.kvTokens(session.store.system, []);
    if empty == None {
      return Some(EstimateFailed);
    }
    var n := 0;
    while n < |session.store.memories|
      invariant n <= |r.store.memories|
      invariant session.planReady
      invariant session.store == r.RefreshedStore(n)
      invariant Outcome(None, session.segments) == r.Steps(empty.value, n)
    {
      error := PlanMemory(core, session, honorManual, refresh, freshLimit, r, empty.value, n);
      if error.Some? {
        ErrorsStop(r, empty.value, n + 1, |r.store.memories|);
        return;
      }
      n := n + 1;
    }
    PlaceIgnoresEstimates(r, n, empty.value, [], r.store.memories[0], r.store.memories[0]);
    error := None;
  }

  lemma {:induction false} OneMoreRefreshed(r: Rebuild, n: nat)
    requires n < |r.store.memories|
    ensures var store, m := r.RefreshedStore(n), r.store.memories[n];
            && |store.memories| == |r.store.memories| && store.memories[n] == m && SameMemory(m, r.Refreshed(m))
            && r.RefreshedStore(n + 1) == store.(memories := store.memories[n := r.Refreshed(m)])
  {
  }

  /** One turn of the rebuild loop; `r` remembers the inputs of the whole rebuild. */
  method PlanMemory(core: Core, session: Session, honorManual: bool, refresh: bool, freshLimit: int,
                    ghost r: Rebuild, empty: TokenCount, n: nat)
    returns (error: Option<PlanError>)
    requires r == Rebuild(core, r.store, honorManual, refresh, freshLimit) && r.Valid()
    requires n < |r.store.memories| && session.store == r.RefreshedStore(n)
    modifies session`store, session`segments
    ensures Outcome(error, session.segments) == r.Step(empty, old(session.segments), r.store.memories[n])
    ensures EstimatesFilled(r.store, session.store)
    ensures error == None ==> session.store == r.RefreshedStore(n + 1)
  {
    hide EstimatesFilled, SameMemory, Rebuild.RefreshedStore, Rebuild.Place;
    PlaceIgnoresEstimates(r, n, empty, session.segments, r.store.memories[n], r.store.memories[n]);
    OneMoreRefreshed(r, n);
    error := RefreshTextEstimate(core, session, refresh, n);
    if error == None {
      PlaceIgnoresEstimates(r, n + 1, empty, session.segments, r.store.memories[n], session.store.memories[n]);
      error := PlaceMemory(Rebuild(core, session.store, honorManual, refresh, freshLimit), session, empty, session.store.memories[n]);
    }
  }

  /** Fills in the cached estimate of memory `n` when it is missing or has to be refreshed. */
  method RefreshTextEstimate(core: Core, session: Session, refresh: bool, n: nat) returns (error: Option<PlanError>)
    requires n < |session.store.memories|
    modifies session`store
    ensures var m := old(session.store).memories[n];
            var needed := refresh || m.estimated <= 0;
            && error == (if needed && core.textTokens(m.text) == None then Some(EstimateFailed) else None)
            && session.store == (if needed && error == None
                                 then old(session.store).(memories := old(session.store).memories[n :=
                                        m.(estimated := core.textTokens(m.text).value)])
                                 else old(session.store))
  {
    error := None;
    var m := session.store.memories[n];
    if refresh || m.estimated <= 0 {
      var tokens := core.textTokens(m.text);
      if tokens == None {
        return Some(EstimateFailed);
      }
      session.store := session.store.(memories := session.store.memories[n := m.(estimated := tokens.value)]);
    }
  }

  /** One turn of the rebuild loop: puts `m` into the last segment or opens a new one. */
  method PlaceMemory(r: Rebuild, session: Session, empty: TokenCount, m: MemoryRecord) returns (error: Option<PlanError>)
    requires r.Valid() && r.store == session.store
    modifies session`segments
    ensures Outcome(error, session.segments) == r.Place(empty, old(session.segments), m)
  {
    var manualStart := r.honorManual && m.idx in session.store.boundaries;
    var needNewSegment := session.segments == [] || manualStart;
    var autoStart, candidate, candidateIsExact := false, -1, false;
    var single := r.core.kvTokens(session.store.system, [m.text]);
    if single == None {
      return Some(EstimateFailed);
    }
    if single.value > r.freshLimit {
      return Some(MemoryTooLarge);
    }
    if !needNewSegment {
      candidate := AppendTokenEstimate(Last(session.segments).estimated, empty, single.value);
      if candidate > SoftLimit(r.core) {
        var texts := CollectSegmentMemoryTexts(session.store, Last(session.segments));
        var exact := r.core.kvTokens(session.store.system, texts + [m.text]);
        if exact == None {
          return Some(EstimateFailed);
        }
        candidate, candidateIsExact := exact.value, true;
        if candidate > SoftLimit(r.core) {
          needNewSegment, autoStart := true, true;
        }
      }
    }
    if needNewSegment {
      if |session.segments| >= MAX_SEGMENTS {
        return Some(SegmentLimitExceeded);
      }
      session.segments := session.segments +
        [Segment(|session.segments|, [m.idx], single.value, single.value, manualStart, autoStart)];
    } else {
      session.segments := ExtendLast(session.segments, m.idx, candidate, if candidateIsExact then candidate else 0);
    }
    return None;
  }
}
