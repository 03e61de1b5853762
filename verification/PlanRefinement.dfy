/** Planning as memories arrive gives the plan that a rebuild of the final store gives. */
module PlanRefinement {
  import opened Basics
  import opened Persistent
  import opened SessionState
  import opened SegmentPlanner
  import opened PlanShape
  import opened IncrementalPlan

  datatype Command = AddSystem(system: Bytes) | AddMemory(input: MemoryInput) | NextSegment

  function Apply(core: Core, p: Planned, command: Command): Planned {
    match command
    case AddSystem(system) => p.WithSystem(system)
    case AddMemory(input) => p.Appended(core, input)
    case NextSegment => p.Sealed()
  }

  function Run(core: Core, p: Planned, commands: seq<Command>): Planned {
    if commands == [] then p else Apply(core, Run(core, p, Init(commands)), Last(commands))
  }

  function FreshSession(sessionId: Bytes, kvPersist: bool): Planned {
    Planned(FreshStore(sessionId, kvPersist), [])
  }

  /** The rebuild that initialize_session_plan asks for. */
  function FullRebuild(core: Core, store: SessionStore): Rebuild {
    Rebuild(core, store, true, false, SoftLimit(core))
  }

  // ----- A rebuild looks only at the memories it has reached -----

  /** The two rebuilds cannot be told apart on their first `n` memories. */
  ghost predicate AgreeUpTo(a: Rebuild, b: Rebuild, n: nat) {
    && a.(store := b.store) == b && a.store.system == b.store.system
    && n <= |a.store.memories| && n <= |b.store.memories|
    && a.store.memories[..n] == b.store.memories[..n]
    && DistinctIndices(a.store.memories) && DistinctIndices(b.store.memories)
    && forall i :: 0 <= i < n ==> (BoundaryAt(a, i) <==> BoundaryAt(b, i))
  }

  lemma {:induction false} RunMembersPresent(memories: seq<MemoryRecord>, a: nat, b: nat)
    requires a <= b <= |memories| && DistinctIndices(memories)
    ensures forall i :: 0 <= i < b - a ==> FindMemory(memories, Indices(memories)[a..b][i]).Some?
  {
    forall i | 0 <= i < b - a ensures FindMemory(memories, Indices(memories)[a..b][i]).Some? {
      assert Indices(memories)[a..b][i] == memories[a + i].idx;
      FindMemoryIsTheRecord(memories, memories[a + i].idx);
    }
  }

  lemma {:induction false} SameRunTexts(a: seq<MemoryRecord>, b: seq<MemoryRecord>, indices: seq<int>, from: nat, n: nat)
    requires DistinctIndices(a) && DistinctIndices(b) && n <= |a| && n <= |b| && a[..n] == b[..n]
    requires from <= n && indices == Indices(a)[from..n]
    ensures SegmentTexts(a, indices) == SegmentTexts(b, indices)
  {
    assert Indices(a)[from..n] == Indices(b)[from..n] by {
      assert forall i :: 0 <= i < n ==> a[i] == a[..n][i] && b[i] == b[..n][i];
    }
    assert Texts(a)[from..n] == Texts(b)[from..n] by {
      assert forall i :: 0 <= i < n ==> a[i] == a[..n][i] && b[i] == b[..n][i];
    }
    RunTexts(a, from, n);
    RunTexts(b, from, n);
  }

  /** The last segment's texts are the same in both stores. */
  lemma {:induction false} SameLastTexts(a: Rebuild, b: Rebuild, segments: seq<Segment>, n: nat)
    requires AgreeUpTo(a, b, n) && Shape(a, segments, n) && segments != []
    ensures SegmentTexts(a.store.memories, Last(segments).indices) == SegmentTexts(b.store.memories, Last(segments).indices)
  {
    var starts, last := Starts(segments), |segments| - 1;
    assert SegmentOk(a, last, segments[last], StartBefore(starts, last), starts[last], n);
    hide Shape, Starts, SegmentTexts, BoundaryAt;
    SameRunTexts(a.store.memories, b.store.memories, Last(segments).indices, starts[last], n);
  }

  lemma {:induction false} StepsLookBack(a: Rebuild, b: Rebuild, empty: TokenCount, n: nat)
    requires a.Valid() && AgreeUpTo(a, b, n)
    ensures a.Steps(empty, n) == b.Steps(empty, n)
  {
    if n > 0 {
      assert AgreeUpTo(a, b, n - 1) by {
        assert a.store.memories[..n - 1] == a.store.memories[..n][..n - 1];
        assert b.store.memories[..n - 1] == b.store.memories[..n][..n - 1];
      }
      StepsLookBack(a, b, empty, n - 1);
      StepsHaveShape(a, empty, n - 1);
      var before := a.Steps(empty, n - 1);
      if before.error == None {
        StepLooksBack(a, b, empty, before.segments, n - 1);
      }
      hide Shape, Rebuild.Step, AgreeUpTo, Starts, Placed;
    }
  }

  lemma {:induction false} StepLooksBack(a: Rebuild, b: Rebuild, empty: TokenCount, segments: seq<Segment>, n: nat)
    requires a.Valid() && AgreeUpTo(a, b, n + 1) && AgreeUpTo(a, b, n) && Shape(a, segments, n)
    ensures a.store.memories[n] == b.store.memories[n]
    ensures a.Step(empty, segments, a.store.memories[n]) == b.Step(empty, segments, b.store.memories[n])
  {
    if segments != [] {
      SameLastTexts(a, b, segments, n);
    }
    assert a.store.memories[n] == a.store.memories[..n + 1][n] == b.store.memories[n];
    assert BoundaryAt(a, n) <==> BoundaryAt(b, n);
    hide Shape, SegmentTexts, Starts, OpenSegment, ExtendLast;
  }

  // ----- The invariant of a run of commands -----

  ghost predicate TextsCounted(core: Core, memories: seq<MemoryRecord>) {
    forall i :: 0 <= i < |memories| ==> core.textTokens(memories[i].text).Some?
  }

  /** Memories are numbered from zero and boundaries never lie ahead of the next memory. */
  ghost predicate Gapless(store: SessionStore) {
    && store.nextIdx == |store.memories|
    && (forall i :: 0 <= i < |store.memories| ==> store.memories[i].idx == i)
    && (forall b | b in store.boundaries :: 0 <= b <= |store.memories|)
  }

  /** The plan is what a rebuild would make, whenever a rebuild can count at all. */
  ghost predicate PlanIsRebuilt(core: Core, p: Planned) {
    var empty := core.kvTokens(p.store.system, []);
    empty.Some? && TextsCounted(core, p.store.memories) ==>
      FullRebuild(core, p.store).Steps(empty.value, |p.store.memories|) == Outcome(None, p.segments)
  }

  ghost predicate RunInvariant(core: Core, p: Planned) {
    && Gapless(p.store)
    && (p.store.memories == [] <==> p.segments == [])
    && (p.store.memories == [] ==> p.store.boundaries == [])
    && (p.store.memories != [] ==> SoftLimit(core) > 0)
    && (forall i :: 0 <= i < |p.store.memories| ==>
          p.store.memories[i].estimated == core.textTokens(p.store.memories[i].text).GetOr(0))
    && PlanIsRebuilt(core, p)
  }

  lemma {:induction false} GaplessIsDistinct(store: SessionStore)
    requires Gapless(store)
    ensures DistinctIndices(store.memories)
  {
  }

  /** Placing the new memory in a rebuild of the longer store does what add-memory decides. */
  lemma {:induction false} AppendMatchesPlace(core: Core, p: Planned, input: MemoryInput, empty: TokenCount)
    requires Gapless(p.store) && core.kvTokens(p.store.system, []) == Some(empty)
    requires Shape(FullRebuild(core, p.store), p.segments, |p.store.memories|)
    requires AgreeUpTo(FullRebuild(core, p.store), FullRebuild(core, p.Appended(core, input).store), |p.store.memories|)
    requires !p.Decide(core, input.text).Refused?
    ensures FullRebuild(core, p.Appended(core, input).store).Place(empty, p.segments, p.NewRecord(core, input))
            == Outcome(None, p.Appended(core, input).segments)
  {
    var r, r' := FullRebuild(core, p.store), FullRebuild(core, p.Appended(core, input).store);
    if p.segments != [] {
      SameLastTexts(r, r', p.segments, |p.store.memories|);
    }
    hide Shape, AgreeUpTo, SegmentTexts, Gapless, AppendTokenEstimate;
    assert r'.IsBoundary(p.store.nextIdx) == (p.store.nextIdx in p.store.boundaries);
  }

  lemma {:induction false} AppendedAgrees(core: Core, p: Planned, input: MemoryInput)
    requires Gapless(p.store) && !p.Decide(core, input.text).Refused? && p.Appended(core, input) != p
    ensures var p' := p.Appended(core, input);
            && Gapless(p'.store)
            && p'.store.memories == p.store.memories + [p.NewRecord(core, input)]
            && AgreeUpTo(FullRebuild(core, p.store), FullRebuild(core, p'.store), |p.store.memories|)
  {
    var p' := p.Appended(core, input);
    hide Planned.Decide, ExtendLast, SoftLimit;
    assert Gapless(p'.store);
  }

  lemma {:induction false} AppendKeepsPlanRebuilt(core: Core, p: Planned, input: MemoryInput)
    requires Gapless(p.store) && PlanIsRebuilt(core, p)
    requires !p.Decide(core, input.text).Refused? && p.Appended(core, input) != p
    ensures PlanIsRebuilt(core, p.Appended(core, input))
  {
    var p', n, empty := p.Appended(core, input), |p.store.memories|, core.kvTokens(p.store.system, []);
    AppendedAgrees(core, p, input);
    if empty.Some? && TextsCounted(core, p'.store.memories) {
      assert TextsCounted(core, p.store.memories) by {
        assert forall i :: 0 <= i < n ==> p'.store.memories[i] == p.store.memories[i];
      }
      assert p'.store.memories[n] == p.NewRecord(core, input);
      var r, r' := FullRebuild(core, p.store), FullRebuild(core, p'.store);
      GaplessIsDistinct(p.store);
      StepsHaveShape(r, empty.value, n);
      hide Shape, Placed, NoRoomFor, AgreeUpTo, Gapless, Planned.Decide, Rebuild.Place, DistinctIndices;
      StepsLookBack(r, r', empty.value, n);
      AppendMatchesPlace(core, p, input, empty.value);
      assert r'.Steps(empty.value, n + 1) == r'.Step(empty.value, p.segments, p'.store.memories[n]);
    }
  }

  lemma {:induction false} AppendKeepsInvariant(core: Core, p: Planned, input: MemoryInput)
    requires RunInvariant(core, p)
    ensures RunInvariant(core, p.Appended(core, input))
  {
    var p', decision := p.Appended(core, input), p.Decide(core, input.text);
    if !decision.Refused? && p' != p {
      AppendedAgrees(core, p, input);
      AppendKeepsPlanRebuilt(core, p, input);
      assert SoftLimit(core) > 0;
      hide PlanIsRebuilt, AgreeUpTo, Planned.Decide;
    }
  }

  lemma {:induction false} SealKeepsInvariant(core: Core, p: Planned)
    requires RunInvariant(core, p)
    ensures RunInvariant(core, p.Sealed())
  {
    var p', n, empty := p.Sealed(), |p.store.memories|, core.kvTokens(p.store.system, []);
    if p.CanSealSegment() && empty.Some? && TextsCounted(core, p.store.memories) {
      var r, r' := FullRebuild(core, p.store), FullRebuild(core, p'.store);
      GaplessIsDistinct(p.store);
      assert AgreeUpTo(r, r', n);
      StepsLookBack(r, r', empty.value, n);
      hide Rebuild.Steps, AgreeUpTo;
    }
  }

  lemma {:induction false} RunKeepsInvariant(core: Core, sessionId: Bytes, kvPersist: bool, commands: seq<Command>)
    ensures RunInvariant(core, Run(core, FreshSession(sessionId, kvPersist), commands))
  {
    if commands != [] {
      RunKeepsInvariant(core, sessionId, kvPersist, Init(commands));
      var before := Run(core, FreshSession(sessionId, kvPersist), Init(commands));
      match Last(commands)
      case AddSystem(system) =>
      case AddMemory(input) => AppendKeepsInvariant(core, before, input);
      case NextSegment => SealKeepsInvariant(core, before);
    }
  }

  // ----- Refinement -----

  /** A rebuild of a non-empty store fails as soon as one of its texts cannot be counted. */
  lemma {:induction false} UncountedTextFails(r: Rebuild, empty: TokenCount, n: nat)
    requires r.Valid() && n <= |r.store.memories| && r.Steps(empty, n).error == None
    ensures forall i :: 0 <= i < n && r.NeedsTextEstimate(r.store.memories[i]) ==>
              r.core.textTokens(r.store.memories[i].text).Some?
  {
    if n > 0 {
      UncountedTextFails(r, empty, n - 1);
    }
  }

  /** After any run of commands on a fresh session, accepted or refused, a rebuild of the final
      store succeeds exactly when the empty context and every text can be counted, and then it
      gives the very plan that was grown one memory at a time. */
  lemma {:induction false} IncrementalRefinesBatch(core: Core, sessionId: Bytes, kvPersist: bool, commands: seq<Command>)
    ensures var p := Run(core, FreshSession(sessionId, kvPersist), commands);
            var batch := FullRebuild(core, p.store).Plan();
            && (batch.error == None <==>
                p.store.memories == [] || (core.kvTokens(p.store.system, []).Some? && TextsCounted(core, p.store.memories)))
            && (batch.error == None ==> batch.segments == p.segments)
  {
    var p := Run(core, FreshSession(sessionId, kvPersist), commands);
    RunKeepsInvariant(core, sessionId, kvPersist, commands);
    var r, empty := FullRebuild(core, p.store), core.kvTokens(p.store.system, []);
    if p.store.memories != [] && empty.Some? && r.Plan().error == None {
      UncountedTextFails(r, empty.value, |p.store.memories|);
      assert forall i :: 0 <= i < |p.store.memories| ==> core.textTokens(p.store.memories[i].text).Some?;
    }
    hide Rebuild.Steps, Run, Gapless;
  }

  /** When the empty context cannot be counted, a session of one memory was planned all the same
      but its rebuild fails. */
  lemma RebuildCanFailWhereAppendSucceeds(input: MemoryInput)
    ensures exists core: Core ::
              var p := Run(core, FreshSession([], false), [AddMemory(input)]);
              |p.segments| == 1 && FullRebuild(core, p.store).Plan().error == Some(EstimateFailed)
  {
    var core := Core((_, texts) => if texts == [] then None else Some(1), _ => Some(1), 100);
    var p := Run(core, FreshSession([], false), [AddMemory(input)]);
    var commands := [AddMemory(input)];
    assert Init(commands) == [] && Last(commands) == AddMemory(input);
    assert Run(core, FreshSession([], false), Init(commands)) == FreshSession([], false);
    assert p == FreshSession([], false).Appended(core, input);
    assert SoftLimit(core) == 85;
    assert FreshSession([], false).Decide(core, input.text) == Opens(1, false, false);
  }
}
