/** Plans that cut the whole store in order stay so, whatever grows, seals, counts or restores them.
    These are the plans whose manifest is sure to restore them. */
module PlanOrder {
  import opened Basics
  import opened Persistent
  import opened SessionState
  import opened SegmentPlanner
  import opened IncrementalPlan
  import opened CacheManifest
  import opened PlanShape
  import opened PlanRefinement
  import opened PlanRestore
  import opened Durability
  import opened PlanInvariant
  import opened SessionPlans
  import opened IndexCommands

  /** The memories are stored in the order of their numbers, and the plan cuts them into runs. */
  ghost predicate InOrder(store: SessionStore, segments: seq<Segment>) {
    Ascending(store.memories) && Partition(store, segments)
  }

  /** A new session has nothing to plan. */
  lemma EmptyIsInOrder(store: SessionStore)
    requires store.memories == []
    ensures InOrder(store, [])
  {
  }

  /** A run of the store is one of the longer store, too. */
  lemma {:induction false} RunInLonger(store: SessionStore, longer: SessionStore, k: nat, segment: Segment, a: nat, b: nat)
    requires IsRun(store, k, segment, a, b) && longer.boundaries == store.boundaries
    requires |store.memories| <= |longer.memories| && longer.memories[..|store.memories|] == store.memories
    ensures IsRun(longer, k, segment, a, b)
  {
    assert longer.memories[a] == store.memories[a];
    assert Indices(longer.memories)[a..b] == Indices(store.memories)[a..b] by {
      forall i | a <= i < b ensures Indices(longer.memories)[i] == Indices(store.memories)[i] {
        assert longer.memories[i] == longer.memories[..|store.memories|][i];
      }
    }
  }

  ghost predicate LongerBy(store: SessionStore, longer: SessionStore) {
    && |longer.memories| == |store.memories| + 1 && longer.memories[..|store.memories|] == store.memories
    && longer.boundaries == store.boundaries
  }

  lemma {:induction false} OpenedIsPartition(store: SessionStore, longer: SessionStore, segments: seq<Segment>, segment: Segment)
    requires Partition(store, segments) && LongerBy(store, longer)
    requires IsRun(longer, |segments|, segment, |store.memories|, |longer.memories|)
    ensures Partition(longer, segments + [segment])
  {
    hide Starts, Placed, IsRun;
    StartsOfOpened(segments, segment);
    var grown, starts, n := segments + [segment], Starts(segments + [segment]), |longer.memories|;
    RunLength(longer, |segments|, segment, |store.memories|, n);
    forall k | 0 <= k < |grown| ensures IsRun(longer, k, grown[k], starts[k], End(starts, n, k)) {
      if k < |segments| {
        RunInLonger(store, longer, k, segments[k], Starts(segments)[k], End(Starts(segments), |store.memories|, k));
      }
    }
  }

  lemma RunLength(store: SessionStore, k: nat, segment: Segment, a: nat, b: nat)
    requires IsRun(store, k, segment, a, b)
    ensures |segment.indices| == b - a
  {
  }

  lemma {:induction false} ExtendedIsPartition(store: SessionStore, longer: SessionStore, segments: seq<Segment>, idx: int, estimated: int, exact: int)
    requires Partition(store, segments) && LongerBy(store, longer) && segments != []
    requires longer.memories[|store.memories|].idx == idx
    ensures Partition(longer, ExtendLast(segments, idx, estimated, exact))
  {
    hide Starts, Placed, IsRun;
    StartsOfExtended(segments, idx, estimated, exact);
    var grown, starts, n := ExtendLast(segments, idx, estimated, exact), Starts(segments), |longer.memories|;
    forall k | 0 <= k < |grown| ensures IsRun(longer, k, grown[k], starts[k], End(starts, n, k)) {
      RunInLonger(store, longer, k, segments[k], starts[k], End(starts, |store.memories|, k));
      if k == |segments| - 1 {
        RunOneLonger(longer, k, segments[k], starts[k], |store.memories|, grown[k]);
      }
    }
  }

  lemma {:induction false} RunOneLonger(store: SessionStore, k: nat, segment: Segment, a: nat, b: nat, longer: Segment)
    requires IsRun(store, k, segment, a, b) && b < |store.memories|
    requires longer == segment.(indices := segment.indices + [store.memories[b].idx], estimated := longer.estimated, exact := longer.exact)
    ensures IsRun(store, k, longer, a, b + 1)
  {
    RunGrows(Indices(store.memories), a, b + 1);
    assert longer.indices == segment.indices + [store.memories[b].idx];
    assert longer.id == segment.id && longer.manualStart == segment.manualStart && longer.autoStart == segment.autoStart;
  }

  lemma {:induction false} StillAscending(store: SessionStore, longer: SessionStore)
    requires ValidStore(store) && Ascending(store.memories) && LongerBy(store, longer) && longer.memories[|store.memories|].idx == store.nextIdx
    ensures Ascending(longer.memories)
  {
    hide IsValidSessionId;
    assert forall i :: 0 <= i < |store.memories| ==> longer.memories[i] == longer.memories[..|store.memories|][i];
    assert forall i :: 0 <= i < |store.memories| ==> store.memories[i] in store.memories;
  }

  /** add-memory: accepted or refused. */
  lemma {:induction false} GrownInOrder(core: Core, p: Planned, input: MemoryInput)
    requires ValidStore(p.store) && InOrder(p.store, p.segments)
    ensures InOrder(p.Appended(core, input).store, p.Appended(core, input).segments)
  {
    hide ValidStore, Ascending, Partition, IsRun, Planned.Decide;
    var p' := p.Appended(core, input);
    if p.Decide(core, input.text).Refused? {
      RefusedChangesNothing(core, p, input);
    } else {
      AcceptedAppends(core, p, input);
      var n := |p.store.memories|;
      assert LongerBy(p.store, p'.store) && p'.store.memories[n].idx == p.store.nextIdx;
      StillAscending(p.store, p'.store);
      match p.Decide(core, input.text)
      case Opens(tokens, manual, auto) =>
        var added := Segment(|p.segments|, [p.store.nextIdx], tokens, tokens, manual, auto);
        OpenedFlags(core, p, input.text);
        OpenedRun(p'.store, |p.segments|, added, n);
        OpenedIsPartition(p.store, p'.store, p.segments, added);
      case Extends(estimated, exact) =>
        ExtendedIsPartition(p.store, p'.store, p.segments, p.store.nextIdx, estimated, exact);
      case Refused(_) => assert false;
    }
  }

  lemma OpenedFlags(core: Core, p: Planned, text: Bytes)
    ensures var d := p.Decide(core, text);
            d.Opens? ==> d.manual == (p.store.nextIdx in p.store.boundaries) && d.auto == (p.segments != [] && !d.manual)
  {
  }

  lemma {:induction false} OpenedRun(store: SessionStore, k: nat, segment: Segment, n: nat)
    requires |store.memories| == n + 1 && segment.id == k && segment.indices == [store.memories[n].idx]
    requires segment.manualStart == (store.memories[n].idx in store.boundaries) && segment.autoStart == (k > 0 && !segment.manualStart)
    ensures IsRun(store, k, segment, n, n + 1)
  {
    assert Indices(store.memories)[n..n + 1] == [store.memories[n].idx];
  }

  /** next-segment records a boundary ahead of all memories. */
  lemma {:induction false} SealedInOrder(store: SessionStore, segments: seq<Segment>)
    requires ValidStore(store) && InOrder(store, segments)
    ensures InOrder(store.(boundaries := store.boundaries + [store.nextIdx]), segments)
  {
    hide Starts, Placed, IsValidSessionId;
    var sealed := store.(boundaries := store.boundaries + [store.nextIdx]);
    forall i | 0 <= i < |store.memories| ensures (store.memories[i].idx in sealed.boundaries) == (store.memories[i].idx in store.boundaries) {
      assert store.memories[i].idx < store.nextIdx;
    }
  }

  /** index and save, which may change token counts and the flag. */
  lemma {:induction false} CountedInOrder(a: SessionStore, b: SessionStore, before: seq<Segment>, after: seq<Segment>)
    requires InOrder(a, before) && SameRuns(before, after) && b.memories == a.memories && b.boundaries == a.boundaries
    ensures InOrder(b, after)
  {
    hide SameRuns;
    SameIndices(before, after);
    SameStarts(before, after);
    SameFlags(before, after);
  }

  lemma {:induction false} SameStarts(a: seq<Segment>, b: seq<Segment>)
    requires |a| == |b| && forall k :: 0 <= k < |a| ==> a[k].indices == b[k].indices
    ensures Placed(a) == Placed(b) && Starts(a) == Starts(b)
  {
    if a != [] {
      SameStarts(Init(a), Init(b));
    }
  }

  lemma {:induction false} SameFlags(a: seq<Segment>, b: seq<Segment>)
    requires SameRuns(a, b)
    ensures |a| == |b| && forall k :: 0 <= k < |a| ==> a[k].manualStart == b[k].manualStart && a[k].autoStart == b[k].autoStart
  {
    forall k | 0 <= k < |a| ensures a[k].manualStart == b[k].manualStart && a[k].autoStart == b[k].autoStart {
      var x, y := WithTokens(a[k], 0), WithTokens(b[k], 0);
      assert x.manualStart == y.manualStart && x.autoStart == y.autoStart;
    }
  }

  /** A plan that its own manifest restores. */
  lemma {:induction false} RestoredInOrder(core: Core, store: SessionStore, segments: seq<Segment>, model: ModelKey, manifest: Manifest,
                                           restored: seq<Segment>)
    requires OwnManifest(store, segments, model, manifest)
    requires Accepts(core, store, model, manifest) && PlanFrom(store, SortedById(manifest.segments), restored)
    ensures InOrder(store, restored)
  {
    hide Accepts, PlanFrom, Partition, Ascending, SortedById, SameRuns;
    OwnManifestRestoresThePlan(core, store, segments, model, manifest, restored);
    RunsWithTokens(restored, segments, manifest.segments);
    SameRunsBack(restored, segments);
    CountedInOrder(store, store, segments, restored);
  }

  // ----- Sessions that are planned anew -----

  /** A manifest that is accepted is the one that an index or save of this very session wrote. */
  ghost predicate OwnOrRefused(core: Core, model: ModelKey, manifest: Option<Manifest>, store: SessionStore) {
    manifest.Some? && Accepts(core, store, model, manifest.value) ==>
      exists own :: OwnManifest(store, own, model, manifest.value)
  }

  /** Planning a store whose memories are in the order of their numbers cuts it in order, be it by a
      rebuild that completes or from the session's own manifest. */
  lemma {:induction false} PlannedAnewInOrder(core: Core, model: ModelKey, manifest: Option<Manifest>, store: SessionStore, segments: seq<Segment>)
    requires PlannedAnew(core, model, manifest, store, true, segments)
    requires Ascending(store.memories) && OwnOrRefused(core, model, manifest, store)
    ensures InOrder(store, segments)
  {
    hide Accepts, PlanFrom, Rebuild.Plan, Shape, Partition, Ascending, OwnManifest, InOrder, SortedById;
    if store.memories == [] {
      EmptyIsInOrder(store);
    } else if manifest.Some? && Accepts(core, store, model, manifest.value) {
      var own :| OwnManifest(store, own, model, manifest.value);
      RestoredInOrder(core, store, own, model, manifest.value, segments);
    } else {
      RebuiltInOrder(core, store);
    }
  }

  lemma {:induction false} RebuiltInOrder(core: Core, store: SessionStore)
    requires Ascending(store.memories) && FullRebuild(core, store).Plan().error == None
    ensures InOrder(store, FullRebuild(core, store).Plan().segments)
  {
    var r := FullRebuild(core, store);
    assert DistinctIndices(store.memories);
    hide Rebuild.Plan, Shape, Partition, Ascending, DistinctIndices;
    CompletedPlanHasShape(r);
    RebuildIsPartition(r, r.Plan().segments, |store.memories|);
  }

  /** Token estimates that planning fills in do not matter. */
  lemma {:induction false} EstimatesInOrder(a: SessionStore, b: SessionStore, segments: seq<Segment>)
    requires InOrder(a, segments) && SameFacts(b, a)
    ensures InOrder(b, segments)
  {
    var x, y := a.(memories := []), b.(memories := []);
    assert a.boundaries == x.boundaries && b.boundaries == y.boundaries;
    forall i | 0 <= i < |a.memories| ensures b.memories[i].idx == a.memories[i].idx {
      var m, n := a.memories[i].(estimated := 0), b.memories[i].(estimated := 0);
      assert a.memories[i].idx == m.idx && b.memories[i].idx == n.idx;
    }
    assert Indices(a.memories) == Indices(b.memories);
    hide Starts, Placed, SameFacts;
  }

  /** The plan that index or save makes for a session without one, up to token counts. */
  lemma {:induction false} PlansToInOrder(core: Core, model: ModelKey, manifest: Option<Manifest>, before: SessionStore, store: SessionStore,
                                          segments: seq<Segment>)
    requires PlansTo(core, model, manifest, before, segments) && SameFacts(store, before)
    requires Ascending(before.memories) && OwnOrRefused(core, model, manifest, before)
    ensures InOrder(store, segments)
  {
    hide PlannedAnew, SameRuns, Ascending, OwnOrRefused, InOrder, SameFacts;
    var planned :| PlannedAnew(core, model, manifest, before, true, planned) && SameRuns(planned, segments);
    PlannedAnewInOrder(core, model, manifest, before, planned);
    CountedInOrder(before, before, planned, segments);
    EstimatesInOrder(before, store, segments);
  }
}
