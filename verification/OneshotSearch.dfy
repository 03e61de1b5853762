/** Searching memories that belong to no session (search_service.cpp, search_runner.cpp). */
module OneshotSearch {
  import opened Basics
  import opened Persistent
  import opened SessionState
  import opened SegmentPlanner
  import opened IncrementalPlan
  import opened PlanShape
  import opened SegmentKV
  import opened Coherence
  import opened KVManager
  import opened SessionSaving
  import opened Durability
  import opened PlanInvariant
  import opened SessionPlans
  import opened SessionCommands
  import opened SearchResults
  import opened SearchCommands

  datatype OneshotHit = OneshotHit(hasId: bool, id: Bytes, text: Bytes, segment: int)

  const ONESHOT: Bytes := ['_' as int, '_' as int, 'o' as int, 'n' as int, 'e' as int, 's' as int, 'h' as int, 'o' as int, 't' as int,
                           '_' as int, '_' as int]

  /** The store of a session that only this search knows. */
  function OneshotStore(system: Bytes, inputs: seq<MemoryInput>): SessionStore {
    FreshStore(ONESHOT, false).(system := system, systemLocked := true, nextIdx := |inputs|, memories :=
      seq(|inputs|, i requires 0 <= i < |inputs| => MemoryRecord(i, false, [], inputs[i].text, 0)))
  }

  /** Planned without regard to boundaries, up to the whole context for a single memory. */
  function OneshotPlan(core: Core, system: Bytes, inputs: seq<MemoryInput>): Rebuild {
    Rebuild(core, OneshotStore(system, inputs), false, true, core.contextLength)
  }

  ghost predicate NoneLive(kv: KVState) {
    forall h: Handle | Reachable(kv, h) :: !LiveAt(kv, h)
  }

  method ReleaseAllLiveContexts(m: SessionManager, engine: Engine) returns (ok: bool)
    requires m.Inv()
    modifies m.kv, m.kv.table, m.kv.resident
    ensures m.Inv() && (ok ==> NoneLive(m.kv.State())) && (Exports(engine) ==> ok)
  {
    hide SessionManager.Inv, Coherent, Reachable, SessionOk, SessionManager.Separate, SessionManager.DiskInv;
    InvOpened(m);
    ghost var s0 := m.kv.State();
    ok := m.kv.ReleaseAllLiveContexts(engine);
    ShrinkingKeepsCoherence(s0, m.kv.State(), m.want);
    InvClosed(m);
  }

  /** The context that the engine builds for a segment, for this search only. */
  ghost predicate BuiltFor(engine: Engine, store: SessionStore, segment: Segment, context: ActiveKV) {
    var built := engine.build(ContentAt(store, segment));
    built.Some? && context == Live(KVMetadata(ContentAt(store, segment), built.value.0), built.value.1)
  }

  ghost predicate EachRankedFor(engine: Engine, store: SessionStore, segments: seq<Segment>, query: Query, rankings: seq<seq<int>>) {
    |rankings| == |segments| && forall k :: 0 <= k < |segments| ==> RankedFor(engine, store, segments[k], query, rankings[k])
  }

  ghost predicate RankedFor(engine: Engine, store: SessionStore, segment: Segment, query: Query, ranking: seq<int>) {
    exists context :: BuiltFor(engine, store, segment, context) && query.rank(context) == Some(ranking)
  }

  /** The segment can be built, and the query ranked on it. */
  ghost predicate Rankable(engine: Engine, store: SessionStore, segment: Segment, query: Query) {
    var built := engine.build(ContentAt(store, segment));
    built.Some? && query.rank(Live(KVMetadata(ContentAt(store, segment), built.value.0), built.value.1)).Some?
  }

  ghost predicate AllRankable(engine: Engine, store: SessionStore, segments: seq<Segment>, query: Query) {
    forall k :: 0 <= k < |segments| ==> Rankable(engine, store, segments[k], query)
  }

  /** run_ephemeral: it fails just when a segment cannot be built or ranked. */
  method RunEphemeral(engine: Engine, store: SessionStore, segments: seq<Segment>, query: Query)
    returns (ok: bool, ordered: seq<MemoryRef>, ghost rankings: seq<seq<int>>)
    requires NumberedInOrder(segments)
    ensures ok <==> AllRankable(engine, store, segments, query)
    ensures ok ==> EachRankedFor(engine, store, segments, query, rankings) && ordered == MergedAll(store, segments, rankings)
  {
    hide MergedAll, Merged, SegmentsById;
    ordered, rankings := [], [];
    NumberedIsSorted(segments);
    NothingSearched(engine, [], query, map[]);
    var sorted := SegmentsById(segments);
    for k := 0 to |sorted|
      invariant EachRankedFor(engine, store, sorted[..k], query, rankings)
      invariant ordered == MergedAll(store, sorted[..k], rankings)
      invariant AllRankable(engine, store, sorted[..k], query)
    {
      var texts := CollectSegmentMemoryTexts(store, sorted[k]);
      var content := Content(store.system, texts);
      var built := engine.build(content);
      assert Rankable(engine, store, sorted[k], query) ==> built.Some?;
      if built == None {
        ok := false;
        return;
      }
      var context := Live(KVMetadata(content, built.value.0), built.value.1);
      var inference := query.rank(context);
      if inference == None {
        ok := false;
        return;
      }
      assert BuiltFor(engine, store, sorted[k], context);
      ordered := MergeSegmentRankedResults(store, sorted[k], inference.value, ordered);
      OneMoreMerged(store, sorted, rankings, inference.value, k);
      rankings := rankings + [inference.value];
    }
    assert sorted[..|sorted|] == sorted;
    ok := true;
  }

  /** What is said about each returned reference. */
  function HitFor(inputs: seq<MemoryInput>, r: MemoryRef): OneshotHit
    requires 0 <= r.index < |inputs|
  {
    OneshotHit(inputs[r.index].hasId, inputs[r.index].id, inputs[r.index].text, r.segment)
  }

  ghost predicate HitsFor(inputs: seq<MemoryInput>, refs: seq<MemoryRef>, hits: seq<OneshotHit>) {
    && |hits| == |refs|
    && forall j :: 0 <= j < |refs| ==> 0 <= refs[j].index < |inputs| && hits[j] == HitFor(inputs, refs[j])
  }

  lemma {:induction false} RefIsInput(system: Bytes, inputs: seq<MemoryInput>, store: SessionStore, segments: seq<Segment>, r: MemoryRef)
    requires SameFacts(store, OneshotStore(system, inputs)) && SoundRef(store, segments, r)
    ensures 0 <= r.index < |inputs|
    ensures FindMemory(store.memories, r.index).Some? && FindMemory(store.memories, r.index).value.text == inputs[r.index].text
  {
    var k :| 0 <= k < |segments| && LiesIn(store, segments[k], r);
    OneshotIsDistinct(system, inputs);
    SameFactsDistinct(store, OneshotStore(system, inputs));
    FindMemoryIsTheRecord(store.memories, r.index);
    forall i | 0 <= i < |store.memories| ensures store.memories[i].idx == i && store.memories[i].text == inputs[i].text {
      assert SameMemory(store.memories[i], OneshotStore(system, inputs).memories[i]);
    }
  }

  /** The given texts with these numbers. */
  function GivenTexts(inputs: seq<MemoryInput>, indices: seq<int>): seq<Bytes> {
    if indices == [] then []
    else GivenTexts(inputs, Init(indices)) + if 0 <= Last(indices) < |inputs| then [inputs[Last(indices)].text] else []
  }

  lemma {:induction false} CollectsGivenTexts(system: Bytes, inputs: seq<MemoryInput>, indices: seq<int>)
    ensures SegmentTexts(OneshotStore(system, inputs).memories, indices) == GivenTexts(inputs, indices)
  {
    if indices != [] {
      CollectsGivenTexts(system, inputs, Init(indices));
      OneshotIsDistinct(system, inputs);
      var memories := OneshotStore(system, inputs).memories;
      FindMemoryIsTheRecord(memories, Last(indices));
      assert forall i :: 0 <= i < |memories| ==> memories[i].idx == i && memories[i].text == inputs[i].text;
    }
  }

  /** What is searched is the given system text with the given memories. */
  lemma {:induction false} OneshotContent(system: Bytes, inputs: seq<MemoryInput>, store: SessionStore, segment: Segment)
    requires SameFacts(store, OneshotStore(system, inputs))
    ensures ContentAt(store, segment) == Content(system, GivenTexts(inputs, segment.indices))
  {
    hide SameFacts, SegmentTexts, GivenTexts;
    ContentUpToEstimates(store, OneshotStore(system, inputs), segment);
    CollectsGivenTexts(system, inputs, segment.indices);
  }

  lemma OneshotIsDistinct(system: Bytes, inputs: seq<MemoryInput>)
    ensures DistinctIndices(OneshotStore(system, inputs).memories)
  {
  }

  lemma {:induction false} SameFactsDistinct(a: SessionStore, b: SessionStore)
    requires SameFacts(a, b) && DistinctIndices(b.memories)
    ensures DistinctIndices(a.memories)
  {
    forall i | 0 <= i < |a.memories| ensures a.memories[i].idx == b.memories[i].idx {
      assert SameMemory(a.memories[i], b.memories[i]);
    }
  }

  method CollectHits(ghost system: Bytes, inputs: seq<MemoryInput>, store: SessionStore, ghost segments: seq<Segment>, refs: seq<MemoryRef>)
    returns (hits: seq<OneshotHit>)
    requires SameFacts(store, OneshotStore(system, inputs)) && forall r | r in refs :: SoundRef(store, segments, r)
    ensures HitsFor(inputs, refs, hits)
  {
    hide SameFacts, OneshotStore, SoundRef, FindMemory;
    hits := [];
    for j := 0 to |refs|
      invariant HitsFor(inputs, refs[..j], hits)
    {
      RefIsInput(system, inputs, store, segments, refs[j]);
      var record := FindMemory(store.memories, refs[j].index);
      if record == None || refs[j].index < 0 || refs[j].index >= |inputs| {
        continue;
      }
      var input := inputs[refs[j].index];
      hits := hits + [OneshotHit(input.hasId, input.id, record.value.text, refs[j].segment)];
    }
    assert refs[..|refs|] == refs;
  }

  /** The memories can be planned, the query can be built, and ranked on every segment of the plan. */
  ghost predicate Answerable(core: Core, engine: Engine, system: Bytes, inputs: seq<MemoryInput>, query: Query) {
    var plan := OneshotPlan(core, system, inputs).Plan();
    plan.error == None && query.tokens.Some? && AllRankable(engine, OneshotStore(system, inputs), plan.segments, query)
  }

  lemma {:induction false} SameFactsRankAlike(engine: Engine, a: SessionStore, b: SessionStore, segments: seq<Segment>, query: Query)
    requires SameFacts(a, b)
    ensures AllRankable(engine, a, segments, query) <==> AllRankable(engine, b, segments, query)
  {
    hide SameFacts, ContentAt;
    forall k | 0 <= k < |segments| ensures Rankable(engine, a, segments[k], query) <==> Rankable(engine, b, segments[k], query) {
      ContentUpToEstimates(a, b, segments[k]);
    }
  }

  /** The plan of a oneshot search and what it finds; the sessions are not touched. */
  method PlanAndRun(m: SessionManager, engine: Engine, system: Bytes, inputs: seq<MemoryInput>, query: Query)
    returns (error: Option<ErrorCode>, ran: bool, session: Session, ordered: seq<MemoryRef>, ghost rankings: seq<seq<int>>)
    ensures fresh(session) && (error == None ==> ran)
    ensures error == if Answerable(m.core, engine, system, inputs, query) then None else Some(InternalError)
    ensures ran ==> PlanOk(session.store, session.segments) && SameFacts(session.store, OneshotStore(system, inputs))
                    && OneshotPlan(m.core, system, inputs).Plan() == Outcome(None, session.segments)
    ensures error == None ==> EachRankedFor(engine, session.store, session.segments, query, rankings)
                              && ordered == MergedAll(session.store, session.segments, rankings)
  {
    hide SameFacts, PlanOk, Rebuild.Plan, OneshotStore, EachRankedFor, MergedAll, AllRankable;
    session := new Session(OneshotStore(system, inputs));
    ran, ordered, rankings := false, [], [];
    OneshotIsDistinct(system, inputs);
    var failed := RebuildSegmentPlanFast(m.core, session, false, true, m.core.contextLength);
    if failed.Some? {
      error := Some(InternalError);
      return;
    }
    if query.tokens == None {
      error := Some(InternalError);
      return;
    }
    RebuiltPlanOk(OneshotPlan(m.core, system, inputs));
    SameFactsBack(session.store, OneshotStore(system, inputs));
    PlanOkUpToEstimates(OneshotStore(system, inputs), session.store, session.segments);
    PlanIsNumbered(session.store, session.segments);
    ran := true;
    var ok;
    ok, ordered, rankings := RunEphemeral(engine, session.store, session.segments, query);
    SameFactsRankAlike(engine, session.store, OneshotStore(system, inputs), session.segments, query);
    error := if ok then None else Some(InternalError);
  }

  /** A oneshot search leaves nothing live behind, wherever it ends after it released the contexts at its
      start, which an engine that exports lets it do; and it returns for every segment of its own plan the
      first `topK` distinct hits, each with the identifier and the text it was given. */
  method Oneshot(m: SessionManager, engine: Engine, system: Bytes, inputs: seq<MemoryInput>, query: Query, topK: int)
    returns (error: Option<ErrorCode>, hits: seq<OneshotHit>, ghost store: SessionStore, ghost segments: seq<Segment>, ghost rankings: seq<seq<int>>)
    requires m.Inv()
    modifies m.kv, m.kv.table, m.kv.resident
    ensures m.Inv()
    ensures error == None || (inputs != [] && Exports(engine)) ==> NoneLive(m.kv.State())
    ensures error == Some(InvalidRequest) <==> inputs == []
    ensures error == None ==> Answerable(m.core, engine, system, inputs, query)
    ensures inputs != [] && Exports(engine) && Answerable(m.core, engine, system, inputs, query) ==> error == None
    ensures error == None ==>
              && SameFacts(store, OneshotStore(system, inputs))
              && OneshotPlan(m.core, system, inputs).Plan() == Outcome(None, segments)
              && EachRankedFor(engine, store, segments, query, rankings)
              && (forall k :: 0 <= k < |segments| ==> ContentAt(store, segments[k]) == Content(system, GivenTexts(inputs, segments[k].indices)))
              && HitsFor(inputs, Contributions(store, segments, rankings, topK), hits)
  {
    hide SessionManager.Inv, NoneLive, SameFacts, PlanOk, Rebuild.Plan, OneshotStore, Answerable, Exports, MergedAll, Contributions, Limited, HitsFor, SoundRef;
    hits, rankings, segments, store := [], [], [], FreshStore([], false);
    if inputs == [] {
      error := Some(InvalidRequest);
      return;
    }
    var released := ReleaseAllLiveContexts(m, engine);
    if !released {
      error := Some(InternalError);
      return;
    }
    var ran, session, ordered;
    error, ran, session, ordered, rankings := PlanAndRun(m, engine, system, inputs, query);
    if !ran {
      return;
    }
    released := ReleaseAllLiveContexts(m, engine);
    if error.Some? {
      return;
    }
    if !released {
      error := Some(InternalError);
      return;
    }
    store, segments := session.store, session.segments;
    PlanIsPartitioned(session.store, session.segments);
    SearchReturnsContributions(session.store, session.segments, rankings, topK);
    SearchResultIsSound(session.store, session.segments, rankings, topK);
    var limited := ApplySearchResultLimits(ordered, topK);
    forall k | 0 <= k < |segments| ensures ContentAt(store, segments[k]) == Content(system, GivenTexts(inputs, segments[k].indices)) {
      OneshotContent(system, inputs, store, segments[k]);
    }
    hits := CollectHits(system, inputs, session.store, session.segments, limited);
  }
}
