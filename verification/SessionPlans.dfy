/** Planning a session before its first planned command: from its cache manifest when that is
    accepted, otherwise anew (segment_planner.cpp, segment_kv_metadata.cpp). */
module SessionPlans {
  import opened Basics
  import opened Persistent
  import opened SessionState
  import opened SegmentPlanner
  import opened ContentHash
  import opened CacheManifest
  import opened PlanRefinement
  import opened PlanRestore
  import opened SegmentKV
  import opened SessionSaving
  import opened Durability
  import opened PlanInvariant

  // ----- What the manifest says about a segment -----

  /** The last record with this number. */
  function RecordOf(records: seq<SegmentRecord>, id: int): Option<SegmentRecord> {
    if records == [] then None
    else if Last(records).id == id then Some(Last(records))
    else RecordOf(Init(records), id)
  }

  /** The manifest counts only for the model and the session it was written for. */
  function RecordFor(manifest: Option<Manifest>, model: ModelKey, session: Bytes, id: int): Option<SegmentRecord> {
    if manifest.Some? && manifest.value.model == model && manifest.value.session == session
    then RecordOf(manifest.value.segments, id) else None
  }

  const NEW_ENTRY := CacheEntry([], false, Missing, 0, 0)

  /** An entry after a refresh: its file counts when the manifest has it under the present hash. */
  function RefreshedEntry(hash: Bytes, entry: CacheEntry, record: Option<SegmentRecord>, fileExists: bool): CacheEntry {
    var e := entry.(hash := hash, hasPath := true);
    if record == None || record.value.hash != hash || !fileExists
    then if e.state == Resident then e else e.(state := Missing)
    else e.(tokenCount := record.value.tokens, bytes := record.value.bytes, state := if e.state == Resident then Resident else DiskOnly)
  }

  function RefreshedAt(store: SessionStore, segment: Segment, metadata: map<int, CacheEntry>, manifest: Option<Manifest>,
                       model: ModelKey, files: map<Key, Snapshot>): CacheEntry {
    RefreshedEntry(SegmentHash(store, segment.indices), if segment.id in metadata then metadata[segment.id] else NEW_ENTRY,
                   RecordFor(manifest, model, store.sessionId, segment.id), Key(store.sessionId, segment.id) in files)
  }

  method IndexRecords(manifest: Option<Manifest>, model: ModelKey, session: Bytes) returns (byId: map<int, SegmentRecord>)
    ensures forall id :: (if id in byId then Some(byId[id]) else None) == RecordFor(manifest, model, session, id)
  {
    byId := map[];
    if manifest == None || manifest.value.model != model || manifest.value.session != session {
      return;
    }
    var records := manifest.value.segments;
    for i := 0 to |records|
      invariant forall id :: (if id in byId then Some(byId[id]) else None) == RecordOf(records[..i], id)
    {
      assert Init(records[..i + 1]) == records[..i];
      byId := byId[records[i].id := records[i]];
    }
    assert records[..|records|] == records;
  }

  method RefreshSessionKvMetadata(model: ModelKey, manifest: Option<Manifest>, files: map<Key, Snapshot>, session: Session)
    requires NumberedInOrder(session.segments)
    modifies session`metadata
    ensures forall k :: 0 <= k < |session.segments| ==>
              k in session.metadata &&
              session.metadata[k] == RefreshedAt(session.store, session.segments[k], old(session.metadata), manifest, model, files)
    ensures forall id | id in session.metadata && !(0 <= id < |session.segments|) ::
              id in old(session.metadata) && session.metadata[id] == old(session.metadata)[id]
  {
    hide SegmentHash, RecordFor;
    var byId := IndexRecords(manifest, model, session.store.sessionId);
    for k := 0 to |session.segments|
      invariant forall j :: 0 <= j < k ==>
                  j in session.metadata &&
                  session.metadata[j] == RefreshedAt(session.store, session.segments[j], old(session.metadata), manifest, model, files)
      invariant forall id :: !(0 <= id < k) ==> (id in session.metadata <==> id in old(session.metadata))
      invariant forall id | id in session.metadata && !(0 <= id < k) :: session.metadata[id] == old(session.metadata)[id]
    {
      var id := session.segments[k].id;
      assert id == k;
      var hash := SegmentKvContentHash(session.store, session.segments[k]);
      var entry := (if id in session.metadata then session.metadata[id] else NEW_ENTRY).(hash := hash, hasPath := true);
      if id !in byId || byId[id].hash != hash || Key(session.store.sessionId, id) !in files {
        if entry.state != Resident {
          entry := entry.(state := Missing);
        }
      } else {
        entry := entry.(tokenCount := byId[id].tokens, bytes := byId[id].bytes);
        if entry.state != Resident {
          entry := entry.(state := DiskOnly);
        }
      }
      session.metadata := session.metadata[id := entry];
    }
  }

  // ----- Planning -----

  /** How a session without a plan is planned, and when that fails. */
  ghost predicate PlannedAnew(core: Core, model: ModelKey, manifest: Option<Manifest>, store: SessionStore,
                              ok: bool, segments: seq<Segment>) {
    if store.memories == [] then ok && segments == []
    else if manifest.Some? && Accepts(core, store, model, manifest.value)
    then ok && PlanFrom(store, SortedById(manifest.value.segments), segments)
    else segments == FullRebuild(core, store).Plan().segments && (ok <==> FullRebuild(core, store).Plan().error == None)
  }

  /** The same as a function: the plan that a session gets, and why it may be incomplete. */
  ghost function NewPlan(core: Core, model: ModelKey, manifest: Option<Manifest>, store: SessionStore): Outcome {
    if store.memories == [] then Outcome(None, [])
    else if manifest.Some? && Accepts(core, store, model, manifest.value)
    then Outcome(None, PlanOf(store, SortedById(manifest.value.segments)))
    else FullRebuild(core, store).Plan()
  }

  ghost function PlanOf(store: SessionStore, records: seq<SegmentRecord>): (segments: seq<Segment>)
    ensures PlanFrom(store, records, segments)
  {
    seq(|records|, k requires 0 <= k < |records| => SegmentFrom(store, records[k], k == 0))
  }

  /** The plan that a command on the session works with: the one it has, or the one it gets. */
  ghost function PlanFor(core: Core, model: ModelKey, manifest: Option<Manifest>, session: Session): Outcome
    reads session
  {
    if session.planReady then Outcome(None, session.segments) else NewPlan(core, model, manifest, session.store)
  }

  lemma PlanForMeans(core: Core, model: ModelKey, manifest: Option<Manifest>, session: Session)
    ensures PlanFor(core, model, manifest, session) ==
              if session.planReady then Outcome(None, session.segments) else NewPlan(core, model, manifest, session.store)
  {
  }

  /** There is only one way to plan a session anew. */
  lemma {:induction false} PlannedAnewIsNewPlan(core: Core, model: ModelKey, manifest: Option<Manifest>, store: SessionStore,
                                                ok: bool, segments: seq<Segment>)
    ensures PlannedAnew(core, model, manifest, store, ok, segments) <==>
              segments == NewPlan(core, model, manifest, store).segments && (ok <==> NewPlan(core, model, manifest, store).error == None)
  {
    hide Accepts, Rebuild.Plan, SortedById, FullRebuild;
    if store.memories != [] && manifest.Some? && Accepts(core, store, model, manifest.value) {
      var records := SortedById(manifest.value.segments);
      if PlanFrom(store, records, segments) {
        assert segments == PlanOf(store, records);
      }
    }
  }

  /** A manifest on disk, if there is one, is numbered. */
  ghost predicate SoundManifest(manifest: Option<Manifest>) {
    manifest.Some? ==> NumberedRecords(manifest.value)
  }

  lemma {:induction false} PlannedAnewOk(core: Core, model: ModelKey, manifest: Option<Manifest>, store: SessionStore,
                                         ok: bool, segments: seq<Segment>)
    requires PlannedAnew(core, model, manifest, store, ok, segments)
    requires SoundManifest(manifest) && DistinctIndices(store.memories)
    ensures PlanOk(store, segments)
  {
    hide Accepts, PlanFrom, PlanOk, Rebuild.Plan, DistinctIndices;
    if store.memories == [] {
      EmptyPlanOk(store);
    } else if manifest.Some? && Accepts(core, store, model, manifest.value) {
      RestoredPlanOk(core, store, model, manifest.value, segments);
    } else {
      RebuiltPlanOk(FullRebuild(core, store));
    }
  }

  /** Plans a session that has no plan. */
  method PlanSession(core: Core, model: ModelKey, manifest: Option<Manifest>, session: Session) returns (ok: bool)
    requires ValidStore(session.store) && SoundManifest(manifest)
    modifies session`store, session`planReady, session`segments
    ensures PlannedAnew(core, model, manifest, old(session.store), ok, session.segments)
    ensures EstimatesFilled(old(session.store), session.store) && session.planReady
    ensures ValidStore(session.store) && PlanOk(session.store, session.segments)
  {
    hide Accepts, PlanFrom, ValidStore, PlanOk, SortedById, Rebuild.Plan, SameFacts, FullRebuild;
    ghost var before := session.store;
    ValidIsDistinct(before);
    SameAsItself(before);
    var plan := RestoreSegmentPlan(core, session.store, model, manifest);
    ok := true;
    if plan.Some? {
      session.planReady, session.segments := true, plan.value;
      PlannedAnewOk(core, model, manifest, before, ok, session.segments);
    } else {
      FullRebuildIsValid(core, session.store);
      var error := RebuildSegmentPlanFast(core, session, true, false, SoftLimit(core));
      ok := error == None;
      PlannedAnewOk(core, model, manifest, before, ok, session.segments);
      PlanSurvivesRefresh(before, session.store, session.segments);
    }
  }

  lemma {:induction false} FullRebuildIsValid(core: Core, store: SessionStore)
    ensures FullRebuild(core, store) == Rebuild(core, store, true, false, SoftLimit(core))
    ensures FullRebuild(core, store).Valid()
  {
  }

  lemma {:induction false} ValidIsDistinct(store: SessionStore)
    requires ValidStore(store)
    ensures DistinctIndices(store.memories)
  {
  }

  lemma {:induction false} PlanSurvivesRefresh(before: SessionStore, after: SessionStore, segments: seq<Segment>)
    requires ValidStore(before) && SameFacts(after, before) && PlanOk(before, segments)
    ensures ValidStore(after) && PlanOk(after, segments) && after.sessionId == before.sessionId
  {
    hide PlanOk, ValidStore, SameFacts;
    SameFactsBack(after, before);
    ValidUpToEstimates(before, after);
    PlanOkUpToEstimates(before, after, segments);
    SameName(after, before);
  }

  /** prepare_session_plan: a plan that is ready is kept; otherwise the session is planned and its
      cache entries are refreshed from the manifest, so that every segment is described. */
  method PrepareSessionPlan(core: Core, model: ModelKey, manifest: Option<Manifest>, files: map<Key, Snapshot>, d: DurableSession)
    returns (ok: bool)
    requires d.Inv() && SoundManifest(manifest) && PlanOk(d.session.store, d.session.segments)
    requires !d.session.planReady ==> d.session.segments == [] && d.session.metadata == map[]
    requires HashesOk(d.session.store, d.session.segments, d.session.metadata)
    modifies d`storable, d.session`store, d.session`planReady, d.session`segments, d.session`metadata
    ensures d.Inv() && d.session.planReady && PlanOk(d.session.store, d.session.segments)
    ensures HashesOk(d.session.store, d.session.segments, d.session.metadata)
    ensures old(d.session.planReady) ==>
              && ok && FactsOf(d) == old(FactsOf(d)) && View(d.session) == old(View(d.session))
    ensures !old(d.session.planReady) ==>
              && SameFacts(d.session.store, old(d.session.store))
              && PlannedAnew(core, model, manifest, old(d.session.store), ok, d.session.segments)
              && (ok ==> Described(d.session.segments, d.session.metadata)
                         && EntriesRefreshed(View(d.session), manifest, model, files))
    ensures StayStorable(old(FactsOf(d)), FactsOf(d), 0)
  {
    hide Accepts, PlanFrom, ValidStore, PlanOk, SortedById, Durable, Storable, SameFacts, PlannedAnew, RecordFor, SegmentHash, StayStorable, PastOlder, OlderState;
    ghost var facts := FactsOf(d);
    SameStoreStays(facts, facts, 0);
    if d.session.planReady {
      return true;
    }
    ghost var before := d.session.store;
    ok := PlanSession(core, model, manifest, d.session);
    if d.storable {
      PlanningKeepsDurable(d.dir.files, d.dir.name, before, d.session.store, d.session.segments, d.session.factsDirty, d.saved);
    }
    SameName(d.session.store, before);
    d.storable := d.storable && Storable(d.session.store);
    FilledStays(facts, FactsOf(d));
    SameFactsBack(d.session.store, before);
    SameFactsAreOlder(before, d.session.store);
    if facts.storable {
      PastGrows(d.dir.past, d.dir.name, before, d.session.store);
    }
    if ok {
      PlanIsNumbered(d.session.store, d.session.segments);
      RefreshSessionKvMetadata(model, manifest, files, d.session);
    }
  }

  /** Every segment's entry says what the manifest and the files say about its present content. */
  ghost predicate EntriesRefreshed(v: SessionView, manifest: Option<Manifest>, model: ModelKey, files: map<Key, Snapshot>) {
    forall k :: 0 <= k < |v.segments| ==>
      k in v.metadata && v.metadata[k] == RefreshedAt(v.store, v.segments[k], map[], manifest, model, files)
  }

  lemma {:induction false} PlanIsNumbered(store: SessionStore, segments: seq<Segment>)
    requires PlanOk(store, segments)
    ensures NumberedInOrder(segments)
  {
  }

  datatype SessionView = SessionView(store: SessionStore, segments: seq<Segment>, metadata: map<int, CacheEntry>)

  ghost function View(session: Session): SessionView
    reads session
  {
    SessionView(session.store, session.segments, session.metadata)
  }
}
