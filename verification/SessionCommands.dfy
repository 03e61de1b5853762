/** The commands of the session manager as steps of one state machine (session_manager.cpp,
    command_scope.cpp): what every command keeps, whatever ran before it on whichever session. */
module SessionCommands {
  import opened Basics
  import opened Persistent
  import opened SessionState
  import opened SegmentPlanner
  import opened IncrementalPlan
  import opened ContentHash
  import opened CacheManifest
  import opened SegmentKV
  import opened ResidentStore
  import opened Coherence
  import opened KVManager
  import opened BinaryIO
  import opened SessionFiles
  import opened SessionSaving
  import opened Durability
  import opened PlanInvariant
  import opened SessionPlans
  import opened StorageNames

  datatype ErrorCode =
    | InvalidSessionId
    | SessionNotFound
    | SessionAlreadyExists
    | InvalidRequest
    | InternalError
    | Planning(error: PlanError)

  // ----- What ties a session to the content that is cached for it -----

  /** `want` holds exactly the planned segments of session `id`, each with its present content. */
  ghost predicate WantedOf(want: map<Key, Content>, id: Bytes, store: SessionStore, segments: seq<Segment>) {
    && (forall k :: 0 <= k < |segments| ==> Key(id, k) in want && want[Key(id, k)] == ContentAt(store, segments[k]))
    && (forall key | key in want && key.session == id :: 0 <= key.segment < |segments|)
  }

  ghost predicate CacheOk(id: Bytes, v: SessionView, ready: bool, want: map<Key, Content>) {
    && PlanOk(v.store, v.segments) && HashesOk(v.store, v.segments, v.metadata)
    && (!ready ==> v.segments == [] && v.metadata == map[])
    && WantedOf(want, id, v.store, v.segments)
  }

  ghost predicate SessionOk(d: DurableSession, id: Bytes, want: map<Key, Content>)
    reads d, d.session, d.dir
  {
    d.Inv() && d.session.store.sessionId == id && CacheOk(id, View(d.session), d.session.planReady, want)
  }

  ghost predicate Unrelated(a: DurableSession, b: DurableSession) {
    a != b && a.session != b.session && a.dir != b.dir
  }

  ghost predicate SeparateIn(sessions: map<Bytes, DurableSession>, repr: set<object>, others: set<object>) {
    && others !! repr
    && (forall id | id in sessions :: {sessions[id], sessions[id].session, sessions[id].dir} <= repr)
    && (forall i, j | i in sessions && j in sessions && i != j :: Unrelated(sessions[i], sessions[j]))
  }

  ghost predicate SameElsewhere(before: map<Key, Content>, after: map<Key, Content>, id: Bytes) {
    && (forall key | key in before && key.session != id :: key in after && after[key] == before[key])
    && (forall key | key in after && key.session != id :: key in before)
  }

  /** A segment counts as saved when it has an entry with a path, not marked missing, and a file. */
  ghost predicate HasDisk(metadata: map<int, CacheEntry>, files: map<Key, Snapshot>, k: Key) {
    k.segment in metadata && metadata[k.segment].hasPath && metadata[k.segment].state != Missing && k in files
  }

  /** A segment counts as indexed when it is in memory or saved. */
  ghost predicate Indexed(kv: KVState, metadata: map<int, CacheEntry>, files: map<Key, Snapshot>, k: Key) {
    k in kv.resident || HasDisk(metadata, files, k)
  }

  /** Every segment of session `id` that was indexed is, but for one that is excepted. */
  ghost predicate KeepsIndexed(before: KVState, metadata: map<int, CacheEntry>, after: KVState, metadata': map<int, CacheEntry>,
                               files: map<Key, Snapshot>, id: Bytes, except: Option<int>) {
    forall k: Key | k.session == id && Some(k.segment) != except && Indexed(before, metadata, files, k) ::
      Indexed(after, metadata', files, k)
  }

  /** Every segment that was saved is, but for number `except`. */
  ghost predicate KeepsDisk(metadata: map<int, CacheEntry>, metadata': map<int, CacheEntry>, files: map<Key, Snapshot>, except: int) {
    forall k: Key | k.segment != except && HasDisk(metadata, files, k) :: HasDisk(metadata', files, k)
  }

  class SessionManager {
    const core: Core
    const model: ModelKey
    const kv: SegmentKVManager
    const disk: CacheDisk
    var sessions: map<Bytes, DurableSession>
    /** The content that every planned segment of every session has now. */
    ghost var want: map<Key, Content>
    /** The objects that make up the sessions. */
    ghost var repr: set<object>

    /** What belongs to session `id` alone. */
    ghost function ObjectsOf(id: Bytes): set<object>
      reads this`sessions
    {
      if id in sessions then {sessions[id], sessions[id].session, sessions[id].dir} else {}
    }

    ghost predicate CacheInv()
      reads this`want, kv, kv.table, kv.resident
    {
      kv.Valid() && Coherent(kv.State(), want)
    }

    /** No session shares an object with another or with the caches. */
    ghost predicate Separate()
      reads this`sessions, this`repr
    {
      SeparateIn(sessions, repr, {this, kv, kv.table, kv.resident, kv.log, disk})
    }

    ghost predicate SessionsInv()
      requires Separate()
      reads this`sessions, this`want, this`repr, repr
    {
      && (forall key | key in want :: key.session in sessions)
      && (forall id | id in sessions :: SessionOk(sessions[id], id, want))
    }

    ghost predicate DiskInv()
      reads disk`manifests
    {
      forall id | id in disk.manifests :: NumberedRecords(disk.manifests[id])
    }

    ghost predicate Inv()
      reads this, kv, kv.table, kv.resident, disk, repr
    {
      CacheInv() && Separate() && SessionsInv() && DiskInv()
    }

    constructor (core: Core, model: ModelKey, budget: nat)
      ensures this.core == core && this.model == model && kv.InMemory() == Held([], map[])
      ensures disk.files == map[] && disk.manifests == map[]
      ensures Inv() && sessions == map[] && kv.State() == KVState([], map[], map[], None)
      ensures kv.resident.budget == budget && repr == {}
      ensures fresh(kv) && fresh(kv.table) && fresh(kv.resident) && fresh(kv.log) && fresh(disk)
    {
      var k := new SegmentKVManager();
      var c := new CacheDisk();
      this.core, this.model := core, model;
      kv, disk, sessions, want, repr := k, c, map[], map[], {};
      new;
      kv.resident.budget := budget;
    }

    // ----- Entering a command -----

    /** The steps every command but create-session starts with. */
    method EnterCommand(engine: Engine, id: Bytes) returns (error: Option<ErrorCode>)
      requires Inv()
      modifies kv, kv.table, kv.resident
      ensures Inv()
      ensures error == None ==> id in sessions && OthersAsleep(kv.State(), id)
      ensures error == Some(InvalidSessionId) <==> !IsValidSessionId(id)
      ensures !IsValidSessionId(id) ==> kv.State() == old(kv.State())
      ensures IsValidSessionId(id) && id !in sessions ==> error.Some?
      ensures error == Some(SessionNotFound) ==> id !in sessions
      ensures error.Some? ==> error.value in {InvalidSessionId, SessionNotFound, InternalError}
      ensures Exports(engine) && IsValidSessionId(id) && id in sessions ==> error == None
      ensures Exports(engine) ==> error != Some(InternalError)
      ensures Shrinks(old(kv.State()), kv.State()) && kv.resident.budget == old(kv.resident.budget)
      ensures forall k | k in old(kv.State()).resident && k.session == id :: k in kv.State().resident
      ensures OthersSpared(engine, id, kv.resident.budget, old(kv.InMemory()), old(kv.State()), kv.State())
      ensures StaysSized(engine, {}, old(kv.InMemory()), kv.InMemory())
    {
      hide *;
      InvOpened(this);
      NothingChanges(kv.State(), Key(id, 0));
      ghost var h0 := kv.InMemory();
      SameStaysSized(engine, {}, h0, h0);
      NobodyLeft(engine, id, kv.resident.budget, h0, kv.State());
      SameNoneEvicted(engine, {}, {}, kv.resident.budget, h0);
      ResidentKeys(kv);
      if !IsValidSessionId(id) {
        return Some(InvalidSessionId);
      }
      ghost var s0 := kv.State();
      HeldParts(kv);
      kv.EvictActiveForCommand(false, id);
      ghost var s1 := kv.State();
      StateParts(kv);
      ResetShrinks(s0);
      ResetKeepsResident(s0);
      ShrinkingKeepsCoherence(s0, s1, want);
      ghost var h1 := kv.InMemory();
      HeldParts(kv);
      ResetStaysSized(engine, s0, h0.entries);
      var kept := kv.KeepOnlySessionLive(engine, id);
      StaysSizedTwice(engine, {}, h0, h1, kv.InMemory());
      ShrinkingKeepsCoherence(s1, kv.State(), want);
      ShrinkingTwice(s0, s1, kv.State());
      InvClosed(this);
      NoneEvictedTwice(engine, {}, {}, kv.resident.budget, h0, h1, kv.resident.entries.Keys);
      ResidentKeys(kv);
      StateParts(kv);
      EnteringSpares(engine, id, kv.resident.budget, h0, s0, kv.State(), kv.resident.entries.Keys);
      error := if !kept then Some(InternalError) else if id !in sessions then Some(SessionNotFound) else None;
    }

    /** The plan of the session is ready afterwards, even when planning failed half way. */
    method PreparePlan(id: Bytes, d: DurableSession) returns (ok: bool)
      requires Inv() && id in sessions && d == sessions[id]
      modifies this`want, d`storable, d.session
      ensures Inv() && SameElsewhere(old(want), want, id) && d.session.planReady
      ensures old(d.session.planReady) ==> ok && want == old(want) && View(d.session) == old(View(d.session))
      ensures ok <==> old(PlanFor(core, model, ManifestOf(id), d.session)).error == None
      ensures d.session.segments == old(PlanFor(core, model, ManifestOf(id), d.session)).segments
      ensures StayStorable(old(FactsOf(d)), FactsOf(d), 0) && |d.session.store.memories| == |old(d.session.store.memories)|
      ensures !old(d.session.planReady) ==>
                && SameFacts(d.session.store, old(d.session.store))
                && PlannedAnew(core, model, ManifestOf(id), old(d.session.store), ok, d.session.segments)
                && (ok ==> Described(d.session.segments, d.session.metadata)
                           && EntriesRefreshed(View(d.session), ManifestOf(id), model, disk.files))
    {
      hide *;
      InvOpened(this);
      SessionsApart(this, id);
      ManifestIsSound(this, id);
      PlanForMeans(core, model, ManifestOf(id), d.session);
      PartsOf(d.session);
      ghost var planned;
      ok, planned := PlanOneSession(core, model, ManifestOf(id), disk.files, id, d, want);
      PlannedAnewIsNewPlan(core, model, ManifestOf(id), old(d.session.store), ok, d.session.segments);
      PartsOf(d.session);
      NewSegmentKeepsCoherence(kv.State(), want, planned);
      want := planned;
      OthersStayOk(this, old(want), id);
      InvClosed(this);
    }

    /** The same for the commands that ask something of the plan: one with nothing to plan stays as it is. */
    method MakeReady(id: Bytes, d: DurableSession) returns (ok: bool)
      requires Inv() && id in sessions && d == sessions[id]
      modifies this`want, d`storable, d.session
      ensures Inv() && SameElsewhere(old(want), want, id) && d.session.planReady
      ensures StayStorable(old(FactsOf(d)), FactsOf(d), 0) && |d.session.store.memories| == |old(d.session.store.memories)|
      ensures ok <==> old(PlanAt(id)).error == None
      ensures d.session.segments == old(PlanAt(id)).segments
      ensures SameFacts(d.session.store, old(d.session.store)) || d.session.store == old(d.session.store)
      ensures old(d.session.planReady) ==> ok && want == old(want) && View(d.session) == old(View(d.session))
      ensures old(Settled(d.session)) ==> ok && PlannedOf(d.session) == old(PlannedOf(d.session))
    {
      hide *;
      PartsOf(d.session);
      SettledMeans(d.session);
      SessionPlanned(this, id);
      PlanAtMeans(this, id);
      ghost var store, ready := d.session.store, d.session.planReady;
      ok := PreparePlan(id, d);
      PartsOf(d.session);
      if !ready && store.memories == [] {
        NothingToPlan(core, model, ManifestOf(id), store, d.session.store, ok, d.session.segments);
      }
    }

    // ----- add_memory -----

    /** After a memory was accepted: the session's active context goes, and the KV state of the
        segment that grew becomes a prefix of what the segment holds now. */
    method StageGrown(k: Key, opens: bool, ghost grown: map<Key, Content>)
      requires kv.Valid() && Coherent(kv.State(), want) && k in grown
      requires forall j | j in want && j != k :: j in grown && grown[j] == want[j]
      requires if opens then k !in want else k in want && ProperPrefix(want[k], grown[k])
      modifies kv, kv.table, kv.resident
      ensures kv.Valid() && Coherent(kv.State(), grown) && k !in kv.State().resident
      ensures kv.State() == GrownState(old(kv.State()), k, opens)
      ensures kv.resident.entries == if opens then old(kv.resident.entries) else old(kv.resident.entries) - {k}
      ensures kv.resident.budget == old(kv.resident.budget)
      ensures forall j | j in kv.State().resident :: j in old(kv.State()).resident
      ensures forall j | j in old(kv.State()).resident && j != k :: j in kv.State().resident
    {
      hide Coherent, ProperPrefix, SegmentKVManager.Valid;
      ghost var s0 := kv.State();
      kv.EvictSession(k.session);
      ResetShrinks(s0);
      ShrinkingKeepsCoherence(s0, kv.State(), want);
      ghost var s1 := kv.State();
      if opens {
        NewSegmentKeepsCoherence(s1, want, grown);
        ResidentIsWanted(s1, want);
      } else {
        kv.StageIncrementalPrefix(k);
        StagingKeepsCoherence(s1, want, grown, k);
      }
    }

    method GrowSession(id: Bytes, d: DurableSession, input: MemoryInput) returns (decision: Decision)
      requires Inv() && id in sessions && d == sessions[id] && d.session.planReady
      modifies this`want, kv, kv.table, kv.resident, d`storable, d`saved, d.session
      ensures Inv() && d.session.planReady && kv.resident.budget == old(kv.resident.budget)
      ensures ReadableInput(input) ==> StayStorable(old(FactsOf(d)), FactsOf(d), 1)
      ensures d.saved == (old(d.saved) && !decision.Opens?)
      ensures decision == old(PlannedOf(d.session)).Decide(core, input.text)
      ensures PlannedOf(d.session) == old(PlannedOf(d.session)).Appended(core, input)
      ensures decision.Refused? ==> View(d.session) == old(View(d.session)) && kv.State() == old(kv.State()) && want == old(want)
      ensures EntriesLeft(old(kv.resident.entries), kv.resident.entries) && (!decision.Refused? ==> Grown(d.session))
      ensures !decision.Refused? ==>
                && d.session.segments != []
                && kv.State() == GrownState(old(kv.State()), Key(id, |d.session.segments| - 1), decision.Opens?)
                && OnlyUnindexes(Key(id, |d.session.segments| - 1), old(kv.State()), kv.State(),
                                 old(d.session.metadata), d.session.metadata, disk.files)
    {
      hide *;
      InvOpened(this);
      SessionsApart(this, id);
      ghost var grown;
      FewerEntries(kv.resident.entries, Key(id, 0));
      decision, grown := AppendToSession(core, id, d, input, want);
      if !decision.Refused? {
        var k := Key(id, |d.session.segments| - 1);
        StageGrown(k, decision.Opens?, grown);
        UnindexedOne(k, old(kv.State()), kv.State(), old(d.session.metadata), d.session.metadata, disk.files);
        FewerEntries(old(kv.resident.entries), k);
        GrownMeans(d.session);
      }
      want := grown;
      OthersStayOk(this, old(want), id);
      InvClosed(this);
    }

    /** Writes the facts of a session to its directory. */
    method PersistSession(id: Bytes, d: DurableSession, faults: SaveFaults) returns (ok: bool)
      requires Inv() && id in sessions && d == sessions[id]
      modifies d`saved, d.session`factsDirty, d.dir
      ensures Inv() && d.session.factsDirty == !ok && d.saved == ok
      ensures ok <==> faults == NO_FAULTS
    {
      hide *;
      InvOpened(this);
      SessionsApart(this, id);
      ok := PersistOneSession(id, d, faults, want);
      InvClosed(this);
    }

    /** The command: the memory is appended to the plan, and saved when it opened a segment. */
    method AddMemory(engine: Engine, id: Bytes, input: MemoryInput, faults: SaveFaults) returns (error: Option<ErrorCode>)
      requires Inv()
      modifies this`want, kv, kv.table, kv.resident, ObjectsOf(id)
      ensures Inv()
      ensures OthersSpared(engine, id, kv.resident.budget, old(kv.InMemory()), old(kv.State()), kv.State())
      ensures error == None ==>
                && id in sessions
                && AppendedTo(core, input, old(sessions[id].session.store), sessions[id].session.store)
      ensures id in sessions && ReadableInput(input) ==> StayStorable(old(FactsOf(sessions[id])), FactsOf(sessions[id]), 1)
      ensures id in sessions && faults == NO_FAULTS && old(sessions[id].saved) ==> sessions[id].saved
      ensures id in sessions && old(Settled(sessions[id].session)) && error.Some? && error.value.Planning? ==>
                PlannedOf(sessions[id].session) == old(PlannedOf(sessions[id].session))
      ensures id in sessions && old(Settled(sessions[id].session)) && (error == None || (Exports(engine) && IsValidSessionId(id))) ==>
                PlannedOf(sessions[id].session) == old(PlannedOf(sessions[id].session)).Appended(core, input)
      ensures id in sessions && old(sessions[id].session.planReady) ==>
                KeepsIndexed(old(kv.State()), old(sessions[id].session.metadata), kv.State(), sessions[id].session.metadata,
                             disk.files, id, Some(|sessions[id].session.segments| - 1))
      ensures id in sessions && old(Settled(sessions[id].session)) ==>
                PlannedOf(sessions[id].session) in {old(PlannedOf(sessions[id].session)), old(PlannedOf(sessions[id].session)).Appended(core, input)}
      ensures id in sessions && old(sessions[id].session.planReady) ==>
                KeepsDisk(old(sessions[id].session.metadata), sessions[id].session.metadata, disk.files, |sessions[id].session.segments| - 1)
      ensures error == None ==>
                && id in sessions
                && !Indexed(kv.State(), sessions[id].session.metadata, disk.files, Key(id, |sessions[id].session.segments| - 1))
      ensures error == None ==> id in sessions && Grown(sessions[id].session)
      ensures StaysSized(engine, {}, old(kv.InMemory()), kv.InMemory()) && EntriesFewer(old(kv.resident.entries), kv.resident.entries)
      ensures Exports(engine) && IsValidSessionId(id) && id in sessions ==>
                AddEnds(core, old(PlanAt(id)), old(sessions[id].session.store), input, faults,
                        error, sessions[id].session.segments)
    {
      hide *;
      ghost var plan := if id in sessions then PlanAt(id) else Outcome(None, []);
      if id in sessions {
        PlanAtMeans(this, id);
      }
      ObjectsMean(this, id);
      if id in sessions {
        SameStoreStays(FactsOf(sessions[id]), FactsOf(sessions[id]), 1);
        PartsOf(sessions[id].session);
        FactsParts(sessions[id]);
      }
      HeldParts(kv);
      ResidentKeys(kv);
      error := EnterCommand(engine, id);
      ResidentKeys(kv);
      ShrunkEntries(old(kv.State()), kv.State(), old(kv.resident.entries), kv.resident.entries);
      KeptByEntering(old(kv.State()), kv.State(), disk.files, id);
      DiskKeptByItself(disk.files);
      if error.Some? {
        return;
      }
      var d := sessions[id];
      ghost var facts := FactsOf(d);
      FactsParts(d);
      var ok := MakeReady(id, d);
      PartsOf(d.session);
      StayStorableTwice(facts, FactsOf(d), FactsOf(d), 0, 1) by { SameStoreStays(FactsOf(d), FactsOf(d), 1); }
      AddEndsFor(core, plan, facts.store, d.session.store, input, faults);
      AddAnswers(core, PlannedOf(d.session), input, faults);
      if !ok {
        return Some(InternalError);
      }
      ghost var entered, entries, held := kv.State(), kv.resident.entries, kv.InMemory();
      HeldParts(kv);
      error := AppendPlanned(id, d, input, faults, old(kv.State()), facts);
      HeldParts(kv);
      GrownStaysSized(engine, entered, entries, kv.resident.entries, kv.State());
      StaysSizedTwice(engine, {}, old(kv.InMemory()), held, kv.InMemory());
      FewerOfFewer(old(kv.resident.entries), entries, kv.resident.entries);
      PartsOf(d.session);
      StillSpared(engine, id, kv.resident.budget, old(kv.InMemory()), old(kv.State()), entered, kv.State());
    }

    /** The rest of the command, once the session is planned; `first` was the cache before it. */
    method AppendPlanned(id: Bytes, d: DurableSession, input: MemoryInput, faults: SaveFaults, ghost first: KVState, ghost facts: Facts)
      returns (error: Option<ErrorCode>)
      requires Inv() && id in sessions && d == sessions[id] && d.session.planReady
      requires forall j | j in first.resident && j.session == id :: j in kv.State().resident
      requires StayStorable(facts, FactsOf(d), 0) && (SameFacts(d.session.store, facts.store) || d.session.store == facts.store)
      modifies this`want, kv, kv.table, kv.resident, d, d.session, d.dir
      ensures Inv()
      ensures ReadableInput(input) ==> StayStorable(facts, FactsOf(d), 1)
      ensures faults == NO_FAULTS && old(d.saved) ==> d.saved
      ensures error == None ==> AppendedTo(core, input, facts.store, d.session.store)
      ensures error.Some? && error.value.Planning? ==> PlannedOf(d.session) == old(PlannedOf(d.session))
      ensures PlannedOf(d.session) == old(PlannedOf(d.session)).Appended(core, input)
      ensures kv.State() == old(kv.State()) || exists k: Key, opens :: kv.State() == GrownState(old(kv.State()), k, opens)
      ensures LeavesOthers(old(kv.State()), kv.State(), id) && kv.resident.budget == old(kv.resident.budget)
      ensures EntriesLeft(old(kv.resident.entries), kv.resident.entries) && d.session.planReady
      ensures error == None ==> Grown(d.session)
      ensures KeepsIndexed(first, old(d.session.metadata), kv.State(), d.session.metadata, disk.files, id, Some(|d.session.segments| - 1))
      ensures KeepsDisk(old(d.session.metadata), d.session.metadata, disk.files, |d.session.segments| - 1)
      ensures error == None ==> !Indexed(kv.State(), d.session.metadata, disk.files, Key(id, |d.session.segments| - 1))
      ensures error == AddAnswer(old(PlannedOf(d.session)).Decide(core, input.text), faults)
    {
      hide *;
      PartsOf(d.session);
      ghost var before, entered, metadata, planned := PlannedOf(d.session), kv.State(), d.session.metadata, FactsOf(d);
      DroppingLeavesOthers(entered, id);
      var decision := GrowSession(id, d, input);
      PartsOf(d.session);
      AddAnswerMeans(decision, faults);
      if ReadableInput(input) {
        StayStorableTwice(facts, planned, FactsOf(d), 0, 1);
      }
      KeptByGrowing(first, entered, kv.State(), metadata, d.session.metadata, disk.files, Key(id, |d.session.segments| - 1));
      GrowingLeavesOthers(entered, Key(id, |d.session.segments| - 1), decision.Opens?);
      if decision.Refused? {
        return Some(Planning(decision.error));
      }
      GrownParts(d.session);
      AcceptedIsAppended(core, input, facts.store, before);
      if decision.Opens? {
        var saved := PersistSession(id, d, faults);
        PartsOf(d.session);
        if !saved {
          return Some(InternalError);
        }
      }
      GrownMeans(d.session);
      error := None;
    }

    // ----- next_segment -----

    method SealLastSegment(id: Bytes, d: DurableSession)
      requires Inv() && id in sessions && d == sessions[id] && PlannedOf(d.session).CanSealSegment()
      modifies kv, kv.table, d`storable, d`saved, d.session
      ensures Inv() && PlannedOf(d.session) == old(PlannedOf(d.session)).Sealed() && d.session.metadata == old(d.session.metadata)
      ensures kv.State() == Deactivated(old(kv.State()), id) && kv.resident.budget == old(kv.resident.budget)
      ensures d.session.store.memories == old(d.session.store.memories)
      ensures d.session.factsDirty && StayStorable(old(FactsOf(d)), FactsOf(d), 1)
    {
      hide *;
      InvOpened(this);
      SessionsApart(this, id);
      ghost var s0 := kv.State();
      kv.EvictSession(id);
      DeactivatedShrinks(s0, id);
      ShrinkingKeepsCoherence(s0, kv.State(), want);
      SealOneSession(id, d, want);
      InvClosed(this);
    }

    method NextSegment(engine: Engine, id: Bytes, faults: SaveFaults) returns (error: Option<ErrorCode>)
      requires Inv()
      modifies this`want, kv, kv.table, kv.resident, ObjectsOf(id)
      ensures Inv()
      ensures OthersSpared(engine, id, kv.resident.budget, old(kv.InMemory()), old(kv.State()), kv.State())
      ensures id in sessions ==> |sessions[id].session.store.memories| == |old(sessions[id].session.store.memories)|
      ensures id in sessions ==> StayStorable(old(FactsOf(sessions[id])), FactsOf(sessions[id]), 1)
      ensures id in sessions && faults == NO_FAULTS && old(sessions[id].saved) ==> sessions[id].saved
      ensures id in sessions && old(Settled(sessions[id].session)) && Exports(engine) && IsValidSessionId(id) ==>
                PlannedOf(sessions[id].session) == old(PlannedOf(sessions[id].session)).Sealed()
      ensures id in sessions && old(Settled(sessions[id].session)) ==>
                PlannedOf(sessions[id].session) in {old(PlannedOf(sessions[id].session)), old(PlannedOf(sessions[id].session)).Sealed()}
      ensures Exports(engine) && IsValidSessionId(id) && id in sessions && old(Settled(sessions[id].session)) ==>
                && (error == Some(InvalidRequest) <==> !old(PlannedOf(sessions[id].session)).CanSealSegment())
                && (faults == NO_FAULTS && old(PlannedOf(sessions[id].session)).CanSealSegment() ==> error == None)
      ensures id in sessions && old(sessions[id].session.planReady) && error == None ==>
                && old(PlannedOf(sessions[id].session)).CanSealSegment()
                && PlannedOf(sessions[id].session) == old(PlannedOf(sessions[id].session)).Sealed()
      ensures id in sessions && old(sessions[id].session.planReady) ==>
                && sessions[id].session.metadata == old(sessions[id].session.metadata)
                && KeepsIndexed(old(kv.State()), old(sessions[id].session.metadata), kv.State(), sessions[id].session.metadata,
                                disk.files, id, None)
                && (error == Some(InvalidRequest) ==>
                      !old(PlannedOf(sessions[id].session)).CanSealSegment()
                      && PlannedOf(sessions[id].session) == old(PlannedOf(sessions[id].session)))
      ensures Exports(engine) && IsValidSessionId(id) && id in sessions ==>
                NextEnds(old(PlanAt(id)), old(sessions[id].session.store), faults,
                         error, sessions[id].session.segments)
    {
      hide *;
      ghost var plan := if id in sessions then PlanAt(id) else Outcome(None, []);
      if id in sessions {
        PlanAtMeans(this, id);
      }
      ObjectsMean(this, id);
      if id in sessions {
        SameStoreStays(FactsOf(sessions[id]), FactsOf(sessions[id]), 1);
        PartsOf(sessions[id].session);
        SealingMeans(PlannedOf(sessions[id].session));
        FactsParts(sessions[id]);
      }
      error := EnterCommand(engine, id);
      KeptByEntering(old(kv.State()), kv.State(), disk.files, id);
      if error.Some? {
        return;
      }
      var d := sessions[id];
      ghost var facts := FactsOf(d);
      FactsParts(d);
      var ok := MakeReady(id, d);
      PartsOf(d.session);
      SealedMeans(PlannedOf(d.session));
      SealingMeans(PlannedOf(d.session));
      ghost var planned := FactsOf(d);
      StayStorableTwice(facts, planned, planned, 0, 1) by { SameStoreStays(planned, planned, 1); }
      NextEndsFor(core, plan, facts.store, d.session.store, faults);
      if !ok {
        return Some(InternalError);
      }
      if d.session.segments == [] || Last(d.session.segments).indices == [] {
        return Some(InvalidRequest);
      }
      if d.session.store.nextIdx in d.session.store.boundaries {
        return Some(InvalidRequest);
      }
      ghost var entered := kv.State();
      var saved := SealAndPersist(id, d, faults);
      PartsOf(d.session);
      StayStorableTwice(facts, planned, FactsOf(d), 0, 1);
      KeptByEntering(old(kv.State()), kv.State(), disk.files, id);
      StillSpared(engine, id, kv.resident.budget, old(kv.InMemory()), old(kv.State()), entered, kv.State());
      error := if saved then None else Some(InternalError);
    }

    method SealAndPersist(id: Bytes, d: DurableSession, faults: SaveFaults) returns (saved: bool)
      requires Inv() && id in sessions && d == sessions[id] && PlannedOf(d.session).CanSealSegment()
      modifies kv, kv.table, d, d.session, d.dir
      ensures Inv() && PlannedOf(d.session) == old(PlannedOf(d.session)).Sealed() && d.session.metadata == old(d.session.metadata)
      ensures LeavesOthers(old(kv.State()), kv.State(), id)
      ensures kv.State().resident == old(kv.State()).resident && kv.resident.budget == old(kv.resident.budget)
      ensures d.session.store.memories == old(d.session.store.memories)
      ensures StayStorable(old(FactsOf(d)), FactsOf(d), 1) && d.saved == saved && (saved <==> faults == NO_FAULTS)
    {
      hide StayStorable;
      hide SessionManager.Inv, Planned.Sealed, Planned.CanSealSegment, Deactivated;
      DeactivatedShrinks(kv.State(), id);
      DroppingLeavesOthers(kv.State(), id);
      SealLastSegment(id, d);
      saved := PersistSession(id, d, faults);
    }

    // ----- add_system, clear, delete -----

    /** Everything that is cached in memory for a session goes. */
    method DropRuntimeState(id: Bytes)
      requires kv.Valid() && Coherent(kv.State(), want)
      modifies kv, kv.table, kv.resident
      ensures kv.Valid() && Coherent(kv.State(), want) && NothingCached(kv.State(), id)
      ensures kv.State() == Uncached(Deactivated(old(kv.State()), id), id) && kv.resident.budget == old(kv.resident.budget)
    {
      hide Coherent, Shrinks, Holds, HoldsPrefix;
      ghost var s0 := kv.State();
      kv.EvictSession(id);
      ghost var s1 := kv.State();
      ResetShrinks(s0);
      kv.ClearResidentSession(id);
      ClearingShrinks(s1, kv.State());
      ShrinkingTwice(s0, s1, kv.State());
      ShrinkingKeepsCoherence(s0, kv.State(), want);
    }

    method AddSystem(engine: Engine, id: Bytes, system: Bytes, faults: SaveFaults) returns (error: Option<ErrorCode>)
      requires Inv()
      modifies this`want, kv, kv.table, kv.resident, ObjectsOf(id)
      ensures Inv()
      ensures OthersSpared(engine, id, kv.resident.budget, old(kv.InMemory()), old(kv.State()), kv.State())
      ensures id in sessions ==> |sessions[id].session.store.memories| == |old(sessions[id].session.store.memories)|
      ensures id in sessions && |system| <= MAX_STRING_BYTES ==> StayStorable(old(FactsOf(sessions[id])), FactsOf(sessions[id]), 0)
      ensures id in sessions && faults == NO_FAULTS && old(sessions[id].saved) ==> sessions[id].saved
      ensures id in sessions && Exports(engine) && IsValidSessionId(id) ==>
                PlannedOf(sessions[id].session) == old(PlannedOf(sessions[id].session)).WithSystem(system)
      ensures id in sessions ==>
                PlannedOf(sessions[id].session) in {old(PlannedOf(sessions[id].session)), old(PlannedOf(sessions[id].session)).WithSystem(system)}
      ensures Exports(engine) && IsValidSessionId(id) && id in sessions ==>
                && (error == Some(InvalidRequest) <==> old(sessions[id].session.store.memories) != [])
                && (old(sessions[id].session.store.memories) == [] && faults.writeMetadata && faults.renameMetadata ==> error == None)
      ensures id in sessions && old(sessions[id].session.store.memories) != [] ==>
                error.Some? && View(sessions[id].session) == old(View(sessions[id].session))
      ensures error == None ==>
                && id in sessions
                && sessions[id].session.store == old(sessions[id].session.store).(system := system, systemLocked := true)
                && !sessions[id].session.factsDirty && sessions[id].session.segments == [] && NothingCached(kv.State(), id)
    {
      hide SessionManager.Inv, OthersSpared, LeavesOthers, OthersAsleep, NothingCached;
      error := EnterCommand(engine, id);
      if error.Some? {
        return;
      }
      var d := sessions[id];
      if d.session.store.memories != [] {
        return Some(InvalidRequest);
      }
      ghost var entered := kv.State();
      ChangeSystem(id, d, system);
      StillSpared(engine, id, kv.resident.budget, old(kv.InMemory()), old(kv.State()), entered, kv.State());
      var saved := SaveNewSystem(id, d, faults);
      error := if saved then None else Some(InternalError);
    }

    method ChangeSystem(id: Bytes, d: DurableSession, system: Bytes)
      requires Inv() && id in sessions && d == sessions[id] && d.session.store.memories == []
      modifies this`want, kv, kv.table, kv.resident, d`storable, d`saved, d.session
      ensures Inv() && d.session.store == old(d.session.store).(system := system, systemLocked := true)
      ensures d.session.segments == [] && NothingCached(kv.State(), id)
      ensures LeavesOthers(old(kv.State()), kv.State(), id) && kv.resident.budget == old(kv.resident.budget)
      ensures |system| <= MAX_STRING_BYTES ==> StayStorable(old(FactsOf(d)), FactsOf(d), 0)
    {
      hide *;
      InvOpened(this);
      SessionsApart(this, id);
      ResetOneSession(id, d, system, want);
      assert forall j | j in sessions && j != id :: SessionOk(sessions[j], j, want);
      DroppingLeavesOthers(kv.State(), id);
      DropRuntimeState(id);
      DroppedIsUnwanted(kv.State(), want, id);
      want := Without(want, id);
      OthersStayOk(this, old(want), id);
      InvClosed(this);
    }

    method SaveNewSystem(id: Bytes, d: DurableSession, faults: SaveFaults) returns (ok: bool)
      requires Inv() && id in sessions && d == sessions[id] && d.session.store.memories == []
      modifies d`saved, d.session`factsDirty, d.dir
      ensures Inv() && (ok ==> !d.session.factsDirty) && (faults == NO_FAULTS ==> d.saved)
      ensures ok <==> faults.writeMetadata && faults.renameMetadata
    {
      hide *;
      InvOpened(this);
      SessionsApart(this, id);
      ok := SaveOneMetadata(id, d, faults, want);
      InvClosed(this);
    }

    method ClearSession(engine: Engine, id: Bytes) returns (error: Option<ErrorCode>)
      requires Inv()
      modifies kv, kv.table, kv.resident, ObjectsOf(id)
      ensures Inv()
      ensures OthersSpared(engine, id, kv.resident.budget, old(kv.InMemory()), old(kv.State()), kv.State())
      ensures error == None ==> id in sessions && NothingCached(kv.State(), id)
      ensures Exports(engine) && IsValidSessionId(id) && id in sessions ==> error == None
      ensures error == None ==> sessions[id].session.metadata == Demoted(old(sessions[id].session.metadata), id, disk.files)
      ensures error == None ==> NoneResident(sessions[id].session.metadata)
      ensures id in sessions ==>
                && FactsOf(sessions[id]) == old(FactsOf(sessions[id])) && sessions[id].saved == old(sessions[id].saved)
                && PlannedOf(sessions[id].session) == old(PlannedOf(sessions[id].session))
                && forall k: Key | k.session == id ::
                     HasDisk(old(sessions[id].session.metadata), disk.files, k) <==> HasDisk(sessions[id].session.metadata, disk.files, k)
    {
      hide SessionManager.Inv, OthersAsleep, NothingCached, HasDisk, OthersSpared, LeavesOthers;
      error := EnterCommand(engine, id);
      if error.Some? {
        return;
      }
      ghost var entered := kv.State();
      NoneStaysResident(sessions[id].session.metadata, id, disk.files);
      DropAndMark(id, sessions[id]);
      StillSpared(engine, id, kv.resident.budget, old(kv.InMemory()), old(kv.State()), entered, kv.State());
    }

    method DropAndMark(id: Bytes, d: DurableSession)
      requires Inv() && id in sessions && d == sessions[id]
      modifies kv, kv.table, kv.resident, d.session`metadata
      ensures Inv() && NothingCached(kv.State(), id)
      ensures LeavesOthers(old(kv.State()), kv.State(), id) && kv.resident.budget == old(kv.resident.budget)
      ensures d.session.metadata == Demoted(old(d.session.metadata), id, disk.files)
      ensures forall k: Key | k.session == id ::
                HasDisk(old(d.session.metadata), disk.files, k) <==> HasDisk(d.session.metadata, disk.files, k)
    {
      hide *;
      InvOpened(this);
      SessionsApart(this, id);
      DroppingLeavesOthers(kv.State(), id);
      DropRuntimeState(id);
      assert forall j | j in sessions :: SessionOk(sessions[j], j, want);
      MarkCleared(disk.files, id, d, want);
      InvClosed(this);
    }

    /** When the session's directory cannot be removed the session stays, with whatever is left of
        its files; its cache directory is removed as far as that is possible. */
    method DeleteSession(engine: Engine, id: Bytes, removed: bool, left: SessionDir, leftFiles: set<Key>, leftManifest: bool)
      returns (error: Option<ErrorCode>)
      requires Inv()
      modifies this`want, this`sessions, kv, kv.table, kv.resident, disk, ObjectsOf(id)
      ensures Inv()
      ensures OthersSpared(engine, id, kv.resident.budget, old(kv.InMemory()), old(kv.State()), kv.State())
      ensures error == None ==> removed && sessions == old(sessions) - {id} && NothingCached(kv.State(), id)
      ensures error.Some? ==> sessions == old(sessions) && (id in sessions ==>
                View(sessions[id].session) == old(View(sessions[id].session)) && sessions[id].saved == old(sessions[id].saved))
      ensures id in sessions && removed ==> FactsOf(sessions[id]) == old(FactsOf(sessions[id]))
      ensures Exports(engine) && IsValidSessionId(id) && id in old(sessions) ==>
                && error == (if removed then None else Some(InternalError))
                && NothingCached(kv.State(), id) && disk.files == FilesLeft(old(disk.files), id, leftFiles)
                && disk.manifests == if leftManifest then old(disk.manifests) else old(disk.manifests) - {id}
      ensures error == None || disk.files != old(disk.files) ==> disk.files == FilesLeft(old(disk.files), id, leftFiles)
    {
      hide SessionManager.Inv, OthersSpared, LeavesOthers, OthersAsleep, NothingCached, FilesLeft, Exports, IsValidSessionId, Shrinks, StaysSized;
      error := EnterCommand(engine, id);
      if error.Some? {
        return;
      }
      ghost var entered := kv.State();
      RemoveFiles(id, sessions[id], removed, left, leftFiles, leftManifest);
      StillSpared(engine, id, kv.resident.budget, old(kv.InMemory()), old(kv.State()), entered, kv.State());
      if !removed {
        return Some(InternalError);
      }
      Forget(id);
    }

    method RemoveFiles(id: Bytes, d: DurableSession, removed: bool, left: SessionDir, leftFiles: set<Key>, leftManifest: bool)
      requires Inv() && id in sessions && d == sessions[id]
      modifies kv, kv.table, kv.resident, disk, d`storable, d.dir
      ensures Inv() && NothingCached(kv.State(), id)
      ensures LeavesOthers(old(kv.State()), kv.State(), id) && kv.resident.budget == old(kv.resident.budget)
      ensures disk.files == FilesLeft(old(disk.files), id, leftFiles)
      ensures disk.manifests == if leftManifest then old(disk.manifests) else old(disk.manifests) - {id}
    {
      hide *;
      InvOpened(this);
      SessionsApart(this, id);
      DroppingLeavesOthers(kv.State(), id);
      DropRuntimeState(id);
      assert forall j | j in sessions :: SessionOk(sessions[j], j, want);
      RemoveOneDirectory(id, d, removed, left, want);
      assert forall j | j in sessions :: SessionOk(sessions[j], j, want);
      DiskMeans(this);
      disk.files := FilesLeft(disk.files, id, leftFiles);
      if !leftManifest {
        DropManifest(disk, id);
      }
      DiskMeans(this);
      InvClosed(this);
    }

    /** A deleted session is no longer known. */
    method Forget(id: Bytes)
      requires Inv() && id in sessions && NothingCached(kv.State(), id)
      modifies this`want, this`sessions
      ensures Inv() && sessions == old(sessions) - {id}
    {
      hide *;
      InvOpened(this);
      DroppedIsUnwanted(kv.State(), want, id);
      SeparateMeans(this);
      FewerStaySeparate(sessions, repr, {this, kv, kv.table, kv.resident, kv.log, disk}, id);
      want, sessions := Without(want, id), sessions - {id};
      SeparateMeans(this);
      OthersStayOk(this, old(want), id);
      InvClosed(this);
    }

    // ----- create and restore -----

    /** A new session joins; nothing is planned or cached for it. */
    method Join(id: Bytes, d: DurableSession, ghost sound: bool)
      requires Inv() && id !in sessions
      requires sound ==> SessionOk(d, id, want) && forall i | i in sessions :: Unrelated(sessions[i], d)
      modifies this`sessions, this`repr
      ensures sessions == old(sessions)[id := d] && (sound ==> Inv())
      ensures repr == old(repr) + {d, d.session, d.dir}
    {
      hide *;
      InvOpened(this);
      SeparateMeans(this);
      if sound {
        MoreStaySeparate(sessions, repr, {this, kv, kv.table, kv.resident, kv.log, disk}, id, d);
      }
      sessions, repr := sessions[id := d], repr + {d, d.session, d.dir};
      if sound {
        SeparateMeans(this);
        InvClosed(this);
      }
    }

    method CreateSession(id: Bytes, kvPersist: bool, directoryExists: bool, faults: SaveFaults) returns (error: Option<ErrorCode>)
      requires Inv()
      modifies this`sessions, this`repr
      ensures Inv()
      ensures error == None <==>
                && IsValidSessionId(id) && id !in old(sessions) && !directoryExists && NoUnderscoreAtTheEnds(id)
                && faults.writeMetadata && faults.renameMetadata
      ensures error == Some(InvalidSessionId) <==> !IsValidSessionId(id)
      ensures error == Some(SessionAlreadyExists) <==> IsValidSessionId(id) && (id in old(sessions) || directoryExists)
      ensures error == None ==>
                && id in sessions && sessions == old(sessions)[id := sessions[id]] && fresh(sessions[id])
                && (StoreFits(FreshStore(id, kvPersist), 0) ==> sessions[id].storable) && sessions[id].saved
                && sessions[id].session.store == FreshStore(id, kvPersist) && sessions[id].session.planReady && sessions[id].session.segments == []
      ensures error.Some? ==> sessions == old(sessions)
      ensures fresh(repr - old(repr))
    {
      hide SessionManager.Inv, IsValidSessionId, SessionOk, NoUnderscoreAtTheEnds, CanSave, SessionLayout, EncodeMetadataAs, ValidStore, NothingCached;
      if !IsValidSessionId(id) {
        return Some(InvalidSessionId);
      }
      if id in sessions || directoryExists {
        return Some(SessionAlreadyExists);
      }
      var dir := CreateFiles(model, id, kvPersist, faults);
      if dir == null {
        return Some(InternalError);
      }
      var d := NewSession(id, dir, FreshStore(id, kvPersist));
      Join(id, d, true);
      error := None;
    }

    /** A session whose directory is there is read back, unplanned, with nothing cached. Under an
        identifier that begins or ends with an underscore it is a session of another name. */
    method RestoreSession(id: Bytes, present: bool, dir: SessionDirectory) returns (error: Option<ErrorCode>)
      requires Inv() && dir.name == SessionLayout(model, id).session && dir.past == {dir.files}
      modifies this`sessions, this`repr, kv, kv.table, kv.resident
      ensures Inv() <==> error.Some? || id in old(sessions) || NoUnderscoreAtTheEnds(id)
      ensures error == None <==> IsValidSessionId(id) && (id in old(sessions) || (present && Load(dir.files, dir.name).Some?))
      ensures error == Some(InvalidSessionId) <==> !IsValidSessionId(id)
      ensures error == Some(SessionNotFound) <==> IsValidSessionId(id) && id !in old(sessions) && !present
      ensures error.Some? || id in old(sessions) ==> sessions == old(sessions)
      ensures error == None && id !in old(sessions) ==>
                && id in sessions && sessions == old(sessions)[id := sessions[id]]
                && Load(dir.files, dir.name) == Some(sessions[id].session.store) && NothingCached(kv.State(), id)
                && sessions[id].storable && sessions[id].saved && Storable(sessions[id].session.store)
                && sessions[id].Inv() && fresh(sessions[id]) && fresh(sessions[id].session) && sessions[id].dir == dir
                && !sessions[id].session.planReady && sessions[id].session.segments == [] && sessions[id].session.metadata == map[]
                && (sessions[id].session.store.sessionId == id <==> NoUnderscoreAtTheEnds(id))
                && kv.State() == Uncached(Deactivated(old(kv.State()), id), id)
      ensures fresh(repr - old(repr) - {dir})
    {
      hide SessionManager.Inv, IsValidSessionId, SessionOk, NoUnderscoreAtTheEnds, SessionLayout, NothingCached, Load, Coherent, Unrelated;
      hide Uncached, Deactivated;
      if !IsValidSessionId(id) {
        return Some(InvalidSessionId);
      }
      if id in sessions {
        return None;
      }
      if !present {
        return Some(SessionNotFound);
      }
      var store := LoadSession(dir.files, dir.name);
      if store == None {
        return Some(InternalError);
      }
      LayoutName(model, id);
      LoadedName(dir.files, dir.name);
      var d := OldSession(id, dir, store.value);
      Join(id, d, NoUnderscoreAtTheEnds(id));
      if Inv() {
        InvNamesSessions(this, id);
      }
      error := None;
    }

    method OldSession(id: Bytes, dir: SessionDirectory, store: SessionStore) returns (d: DurableSession)
      requires Inv() && id !in sessions && Load(dir.files, dir.name) == Some(store) && store.sessionId == dir.name && dir.past == {dir.files}
      modifies kv, kv.table, kv.resident
      ensures Inv() && fresh(d) && fresh(d.session) && d.dir == dir && NothingCached(kv.State(), id)
      ensures kv.State() == Uncached(Deactivated(old(kv.State()), id), id)
      ensures d.session.store == store && !d.session.planReady && d.storable && d.saved && Storable(store) && d.Inv()
      ensures d.session.segments == [] && d.session.metadata == map[]
      ensures dir.name == id ==> SessionOk(d, id, want) && forall i | i in sessions :: Unrelated(sessions[i], d)
    {
      hide *;
      InvOpened(this);
      DropRuntimeState(id);
      InvClosed(this);
      d := ReadBack(dir, store);
      InvOpened(this);
      if dir.name == id {
        RestoredIsOk(this, id, d);
      }
      InvClosed(this);
    }

    method NewSession(id: Bytes, dir: SessionDirectory, facts: SessionStore) returns (d: DurableSession)
      requires Inv() && id !in sessions && ValidStore(facts) && facts.memories == [] && facts.sessionId == dir.name == id
      requires dir.files.metadata == Some(EncodeMetadata(facts)) && dir.past == {dir.files}
      ensures fresh(d) && fresh(d.session) && d.dir == dir && SessionOk(d, id, want) && NothingCached(kv.State(), id)
      ensures d.session.store == facts && d.session.planReady && d.session.segments == []
      ensures (StoreFits(facts, 0) ==> d.storable) && d.saved
      ensures forall i | i in sessions :: Unrelated(sessions[i], d)
    {
      hide SessionManager.Inv, SessionOk, Storable, StoreFits, StayStorable, ValidStore, EncodeMetadataAs, HashesOk, DurableSession.Inv, Coherent;
      InvOpened(this);
      UnknownIsUncached(this, id);
      ManifestIsSound(this, id);
      d := new DurableSession.Created(dir, facts);
      UnrelatedByName(this, id, d);
      EmptyPlanOk(facts);
      NothingHashed(facts, map[]);
      NothingWanted(want, id, facts);
      SessionClosed(d, id, want);
      ghost var planless := FactsOf(d);
      PlanEmptySession(core, model, ManifestOf(id), disk.files, id, d, want);
      if StoreFits(facts, 0) {
        StillStorable(planless, FactsOf(d));
      }
    }

    /** The process ends, at whatever point, and is started again: only the files are left. */
    method Restart()
      requires Inv()
      modifies this`want, this`sessions, kv, kv.table, kv.resident
      ensures Inv() && sessions == map[] && kv.State() == KVState([], map[], map[], None)
    {
      hide *;
      InvOpened(this);
      SeparateMeans(this);
      NoneAreSeparate(sessions, repr, {this, kv, kv.table, kv.resident, kv.log, disk});
      kv.Restart();
      sessions, want := map[], map[];
      SeparateMeans(this);
      NothingIsCoherent(want);
      InvClosed(this);
    }

    function ManifestOf(id: Bytes): Option<Manifest>
      reads disk
    {
      if id in disk.manifests then Some(disk.manifests[id]) else None
    }

    /** The plan that the next command on the session works with. */
    ghost function PlanAt(id: Bytes): Outcome
      requires id in sessions
      reads this, disk, sessions[id], sessions[id].session
    {
      PlanFor(core, model, ManifestOf(id), sessions[id].session)
    }
  }

  /** Where the budget has room for all that is in memory, nothing of another session leaves it; and
      nothing that is staged for another session leaves at all. */
  ghost predicate OthersSpared(engine: Engine, id: Bytes, budget: nat, held: Held, before: KVState, after: KVState) {
    && (forall k | k in before.prefixes && k.session != id :: k in after.prefixes)
    && forall limit: nat | Works(engine, limit) && Sized(held, limit) && Ample(budget, held.entries.Keys, limit) ::
         forall k | k in before.resident && k.session != id :: k in after.resident
  }

  lemma NobodyLeft(engine: Engine, id: Bytes, budget: nat, held: Held, kv: KVState)
    ensures OthersSpared(engine, id, budget, held, kv, kv)
  {
  }

  lemma {:induction false} EnteringSpares(engine: Engine, id: Bytes, budget: nat, held: Held, before: KVState, after: KVState, now: set<Key>)
    requires NoneEvicted(engine, {}, {}, budget, held, now) && now == after.resident.Keys
    requires held.entries.Keys == before.resident.Keys && after.prefixes == before.prefixes
    ensures OthersSpared(engine, id, budget, held, before, after)
  {
    hide Works, Sized, Ample;
    assert held.entries.Keys + {} == held.entries.Keys;
  }

  /** What follows the entry of a command and leaves the other sessions alone. */
  lemma {:induction false} StillSpared(engine: Engine, id: Bytes, budget: nat, held: Held, before: KVState, entered: KVState, after: KVState)
    requires OthersSpared(engine, id, budget, held, before, entered) && LeavesOthers(entered, after, id)
    ensures OthersSpared(engine, id, budget, held, before, after)
  {
    hide Works, Sized, Ample;
  }

  /** Of other sessions all that was in memory stays. */
  ghost predicate LeavesOthers(before: KVState, after: KVState, id: Bytes) {
    && (forall k | k in before.resident && k.session != id :: k in after.resident)
    && (forall k | k in before.prefixes && k.session != id :: k in after.prefixes)
  }

  lemma DroppingLeavesOthers(kv: KVState, id: Bytes)
    ensures LeavesOthers(kv, Uncached(Deactivated(kv, id), id), id) && LeavesOthers(kv, kv, id) && LeavesOthers(kv, Deactivated(kv, id), id)
  {
  }

  lemma GrowingLeavesOthers(kv: KVState, k: Key, opens: bool)
    ensures LeavesOthers(kv, GrownState(kv, k, opens), k.session)
  {
  }

  lemma PlanAtMeans(m: SessionManager, id: Bytes)
    requires id in m.sessions
    ensures m.PlanAt(id) == PlanFor(m.core, m.model, m.ManifestOf(id), m.sessions[id].session)
  {
  }

  /** How the placing of a memory is answered: only a memory that opens a segment is saved at once. */
  function AddAnswer(decision: Decision, faults: SaveFaults): Option<ErrorCode> {
    match decision
    case Refused(e) => Some(Planning(e))
    case Opens(_, _, _) => if faults == NO_FAULTS then None else Some(InternalError)
    case Extends(_, _) => None
  }

  /** How add-memory ends for a session with this plan: with an internal error when the plan could not be
      completed, otherwise as decided. */
  ghost predicate AddEnds(core: Core, plan: Outcome, store: SessionStore, input: MemoryInput, faults: SaveFaults,
                          error: Option<ErrorCode>, segments: seq<Segment>) {
    var planned := Planned(store, plan.segments);
    if plan.error.Some? then error == Some(InternalError) && segments == plan.segments
    else error == AddAnswer(planned.Decide(core, input.text), faults) && segments == planned.Appended(core, input).segments
  }

  /** And how next-segment ends. */
  ghost predicate NextEnds(plan: Outcome, store: SessionStore, faults: SaveFaults, error: Option<ErrorCode>, segments: seq<Segment>) {
    && segments == plan.segments
    && error == if plan.error.Some? then Some(InternalError)
                else if !Planned(store, plan.segments).CanSealSegment() then Some(InvalidRequest)
                else if faults == NO_FAULTS then None else Some(InternalError)
  }

  lemma {:induction false} AddEndsFor(core: Core, plan: Outcome, before: SessionStore, store: SessionStore, input: MemoryInput, faults: SaveFaults)
    requires store == before || SameFacts(store, before)
    ensures plan.error.Some? ==> AddEnds(core, plan, before, input, faults, Some(InternalError), plan.segments)
    ensures var planned := Planned(store, plan.segments);
            plan.error == None ==> AddEnds(core, plan, before, input, faults, AddAnswer(planned.Decide(core, input.text), faults),
                                           planned.Appended(core, input).segments)
  {
    hide SameFacts, Planned.Decide, Planned.Appended;
    if store != before {
      DecideUpToEstimates(core, store, before, plan.segments, input);
    }
  }

  lemma AddEndsReady(core: Core, p: Planned, input: MemoryInput, faults: SaveFaults, error: Option<ErrorCode>, segments: seq<Segment>)
    ensures AddEnds(core, Outcome(None, p.segments), p.store, input, faults, error, segments) ==>
              error == AddAnswer(p.Decide(core, input.text), faults)
  {
  }

  lemma {:induction false} NextEndsFor(core: Core, plan: Outcome, before: SessionStore, store: SessionStore, faults: SaveFaults)
    requires store == before || SameFacts(store, before)
    ensures plan.error.Some? ==> NextEnds(plan, before, faults, Some(InternalError), plan.segments)
    ensures plan.error == None && !Planned(store, plan.segments).CanSealSegment() ==>
              NextEnds(plan, before, faults, Some(InvalidRequest), plan.segments)
    ensures plan.error == None && Planned(store, plan.segments).CanSealSegment() ==>
              NextEnds(plan, before, faults, if faults == NO_FAULTS then None else Some(InternalError), plan.segments)
  {
    hide SameFacts, Planned.Decide, Planned.Appended, Planned.CanSealSegment;
    if store != before {
      DecideUpToEstimates(core, store, before, plan.segments, MemoryInput(false, [], []));
    }
  }

  lemma AddAnswerMeans(decision: Decision, faults: SaveFaults)
    ensures AddAnswer(decision, faults) ==
              if decision.Refused? then Some(Planning(decision.error))
              else if decision.Opens? && faults != NO_FAULTS then Some(InternalError) else None
  {
  }

  lemma AddAnswers(core: Core, p: Planned, input: MemoryInput, faults: SaveFaults)
    ensures p.Decide(core, input.text).Refused? ==>
              AddAnswer(p.Decide(core, input.text), faults) == Some(Planning(p.Decide(core, input.text).error))
    ensures !p.Decide(core, input.text).Refused? && faults == NO_FAULTS ==> AddAnswer(p.Decide(core, input.text), faults) == None
  {
  }

  /** The session is planned, or has nothing to plan. */
  ghost predicate Settled(session: Session)
    reads session
  {
    session.planReady || session.store.memories == []
  }

  lemma SettledMeans(session: Session)
    ensures Settled(session) <==> session.planReady || session.store.memories == []
  {
  }

  lemma {:induction false} SessionPlanned(m: SessionManager, id: Bytes)
    requires m.Inv() && id in m.sessions
    ensures !m.sessions[id].session.planReady ==> m.sessions[id].session.segments == []
  {
    hide SessionManager.Inv, SessionOk;
    InvOpened(m);
    SessionOpened(m.sessions[id], id, m.want);
  }

  lemma {:induction false} NothingToPlan(core: Core, model: ModelKey, manifest: Option<Manifest>, before: SessionStore, after: SessionStore,
                                         ok: bool, segments: seq<Segment>)
    requires PlannedAnew(core, model, manifest, before, ok, segments) && SameFacts(after, before) && before.memories == []
    ensures ok && segments == [] && after == before
  {
    var x, y := before.(memories := []), after.(memories := []);
    assert x == before && y == after;
  }

  lemma SealedMeans(p: Planned)
    ensures !p.CanSealSegment() ==> p.Sealed() == p
    ensures p.Sealed().segments == p.segments
  {
  }

  lemma SealingMeans(p: Planned)
    ensures p.CanSealSegment() <==> p.segments != [] && Last(p.segments).indices != [] && p.store.nextIdx !in p.store.boundaries
  {
  }

  lemma ObjectsMean(m: SessionManager, id: Bytes)
    ensures id in m.sessions ==> m.ObjectsOf(id) == {m.sessions[id], m.sessions[id].session, m.sessions[id].dir}
    ensures id !in m.sessions ==> m.ObjectsOf(id) == {}
  {
  }

  lemma PartsOf(session: Session)
    ensures View(session) == SessionView(session.store, session.segments, session.metadata)
    ensures PlannedOf(session) == Planned(session.store, session.segments)
  {
  }

  /** The plan of one session; its segments, if they are new, become wanted. */
  method PlanOneSession(core: Core, model: ModelKey, manifest: Option<Manifest>, files: map<Key, Snapshot>, id: Bytes, d: DurableSession,
                        ghost want: map<Key, Content>)
    returns (ok: bool, ghost planned: map<Key, Content>)
    requires SessionOk(d, id, want) && SoundManifest(manifest)
    modifies d`storable, d.session
    ensures SessionOk(d, id, planned) && d.session.planReady && SameElsewhere(want, planned, id)
    ensures forall j | j in want :: j in planned && planned[j] == want[j]
    ensures StayStorable(old(FactsOf(d)), FactsOf(d), 0) && |d.session.store.memories| == |old(d.session.store.memories)|
    ensures old(d.session.planReady) ==> ok && planned == want && View(d.session) == old(View(d.session))
    ensures !old(d.session.planReady) ==>
              && SameFacts(d.session.store, old(d.session.store))
              && PlannedAnew(core, model, manifest, old(d.session.store), ok, d.session.segments)
              && (ok ==> Described(d.session.segments, d.session.metadata)
                         && EntriesRefreshed(View(d.session), manifest, model, files))
  {
    hide EntriesRefreshed, PlannedAnew, SameFacts, PlanOk, HashesOk, WantedOf, DurableSession.Inv, SessionOk, Described, SoundManifest, ValidStore;
    SessionOpened(d, id, want);
    NothingElsewhere(want, id);
    planned := want;
    ok := PrepareSessionPlan(core, model, manifest, files, d);
    if !old(d.session.planReady) {
      SameCount(d.session.store, old(d.session.store));
      SameName(d.session.store, old(d.session.store));
      PlanEntersWant(want, id, old(d.session.store), d.session.store, d.session.segments);
      planned := want + ContentsOf(id, d.session.store, d.session.segments);
    }
    SessionClosed(d, id, planned);
  }

  method PersistOneSession(id: Bytes, d: DurableSession, faults: SaveFaults, ghost want: map<Key, Content>) returns (ok: bool)
    requires SessionOk(d, id, want)
    modifies d`saved, d.session`factsDirty, d.dir
    ensures SessionOk(d, id, want) && d.session.factsDirty == !ok && d.saved == ok
    ensures ok <==> faults == NO_FAULTS
  {
    hide PlanOk, HashesOk, WantedOf, DurableSession.Inv, SessionOk, ValidStore;
    SessionOpened(d, id, want);
    ok := d.Persist(faults);
    SessionClosed(d, id, want);
  }

  /** The facts, the plan and the cache entries of one session when a memory is added. */
  method AppendToSession(core: Core, id: Bytes, d: DurableSession, input: MemoryInput, ghost want: map<Key, Content>)
    returns (decision: Decision, ghost grown: map<Key, Content>)
    requires SessionOk(d, id, want) && d.session.planReady
    modifies d`storable, d`saved, d.session
    ensures SessionOk(d, id, grown) && d.session.planReady && SameElsewhere(want, grown, id)
    ensures ReadableInput(input) ==> StayStorable(old(FactsOf(d)), FactsOf(d), 1)
    ensures d.saved == (old(d.saved) && !decision.Opens?)
    ensures decision == old(PlannedOf(d.session)).Decide(core, input.text)
    ensures PlannedOf(d.session) == old(PlannedOf(d.session)).Appended(core, input)
    ensures decision.Refused? ==> View(d.session) == old(View(d.session)) && grown == want
    ensures !decision.Refused? ==>
              && d.session.segments != []
              && var k := Key(id, |d.session.segments| - 1);
              && k in grown && (forall j | j in want && j != k :: j in grown && grown[j] == want[j])
              && (forall j | j in grown && j != k :: j in want)
              && (if decision.Opens? then k !in want else k in want && ProperPrefix(want[k], grown[k]))
              && d.session.metadata == old(d.session.metadata)[k.segment := MissingEntry(d.session.store, Last(d.session.segments))]
              && d.session.metadata[k.segment].state == Missing && d.session.metadata[k.segment].hasPath
              && (Described(old(d.session.segments), old(d.session.metadata)) ==> Described(d.session.segments, d.session.metadata))
  {
    hide PlanOk, HashesOk, WantedOf, DurableSession.Inv, SessionOk, Described, ValidStore, SameElsewhere;
    hide Planned.Decide, Planned.Appended, ContentAt, ProperPrefix, MissingEntry;
    SessionOpened(d, id, want);
    NothingElsewhere(want, id);
    grown := want;
    ghost var before, metadata := PlannedOf(d.session), d.session.metadata;
    decision := d.AppendMemory(core, input);
    if decision.Refused? {
      RefusedChangesNothing(core, before, input);
    } else {
      GrownCacheOk(core, id, before, metadata, input, want);
      ghost var k := Key(id, Last(d.session.segments).id);
      grown := want[k := ContentAt(d.session.store, Last(d.session.segments))];
      OneKeyElsewhere(want, k, grown[k]);
    }
    SessionClosed(d, id, grown);
  }

  /** One more memory, numbered and with the input's text; planning may fill in estimates. */
  ghost predicate AppendedTo(core: Core, input: MemoryInput, before: SessionStore, after: SessionStore) {
    && after.memories != [] && SameMemories(before.memories, Init(after.memories))
    && Last(after.memories) == Planned(before, []).NewRecord(core, input)
    && after.nextIdx == before.nextIdx + 1 && after.boundaries == before.boundaries && after.system == before.system
  }

  lemma {:induction false} AcceptedIsAppended(core: Core, input: MemoryInput, store: SessionStore, p: Planned)
    requires !p.Decide(core, input.text).Refused?
    requires SameFacts(p.store, store) || p.store == store
    ensures AppendedTo(core, input, store, p.Appended(core, input).store)
  {
    hide Planned.Decide, Planned.Appended;
    AcceptedAppends(core, p, input);
    if p.store == store {
      SameAsItself(store);
    } else {
      SameFactsBack(p.store, store);
    }
    SameNumbers(store, p.store);
  }

  lemma SameCount(a: SessionStore, b: SessionStore)
    requires SameFacts(a, b)
    ensures |a.memories| == |b.memories|
  {
  }

  lemma SameNumbers(a: SessionStore, b: SessionStore)
    requires SameFacts(a, b)
    ensures a.nextIdx == b.nextIdx && a.boundaries == b.boundaries && a.system == b.system
  {
    var x, y := a.(memories := []), b.(memories := []);
    assert a.nextIdx == x.nextIdx && b.nextIdx == y.nextIdx;
    assert a.boundaries == x.boundaries && b.boundaries == y.boundaries;
    assert a.system == x.system && b.system == y.system;
  }

  lemma {:induction false} ResetKeepsResident(kv: KVState)
    ensures Reset(kv).resident == kv.resident && Reset(kv).prefixes == kv.prefixes
  {
  }

  lemma {:induction false} ClearingShrinks(before: KVState, after: KVState)
    requires after == before.(resident := after.resident, prefixes := after.prefixes)
    requires Within(after.resident, before.resident) && Within(after.prefixes, before.prefixes)
    ensures Shrinks(before, after)
  {
    NothingChanges(before, Key([], 0));
  }

  lemma NothingIsCoherent(want: map<Key, Content>)
    ensures Coherent(KVState([], map[], map[], None), want)
  {
  }

  lemma NoneAreSeparate(before: map<Bytes, DurableSession>, repr: set<object>, others: set<object>)
    requires SeparateIn(before, repr, others)
    ensures SeparateIn(map[], repr, others)
  {
  }

  /** Neither resident nor staged nor active. */
  ghost predicate NothingCached(kv: KVState, id: Bytes) {
    && (forall k | k in kv.resident :: k.session != id)
    && (forall k | k in kv.prefixes :: k.session != id)
    && (kv.active.Some? ==> kv.active.value.key.session != id)
  }

  ghost function Without(want: map<Key, Content>, id: Bytes): map<Key, Content> {
    map k | k in want && k.session != id :: want[k]
  }

  lemma {:induction false} DroppedIsUnwanted(kv: KVState, want: map<Key, Content>, id: Bytes)
    requires Coherent(kv, want) && NothingCached(kv, id)
    ensures Coherent(kv, Without(want, id)) && SameElsewhere(want, Without(want, id), id)
    ensures forall k | k in Without(want, id) :: k.session != id && k in want
  {
    hide NotShared, Holds, HoldsPrefix;
  }

  /** Contents and hashes depend on the system text and the memories alone. */
  lemma {:induction false} SameContents(a: SessionStore, b: SessionStore, segments: seq<Segment>, metadata: map<int, CacheEntry>, id: Bytes,
                                        want: map<Key, Content>)
    requires a.system == b.system && a.memories == b.memories
    ensures PlanOk(a, segments) <==> PlanOk(b, segments)
    ensures HashesOk(a, segments, metadata) <==> HashesOk(b, segments, metadata)
    ensures WantedOf(want, id, a, segments) <==> WantedOf(want, id, b, segments)
  {
    hide SegmentTexts, HashedItems, AllPresent, Fnv, Hex;
  }

  method SealOneSession(id: Bytes, d: DurableSession, ghost want: map<Key, Content>)
    requires SessionOk(d, id, want) && PlannedOf(d.session).CanSealSegment()
    modifies d`storable, d`saved, d.session`store, d.session`factsDirty
    ensures SessionOk(d, id, want) && PlannedOf(d.session) == old(PlannedOf(d.session)).Sealed() && d.session.factsDirty
    ensures d.session.store.memories == old(d.session.store.memories)
    ensures StayStorable(old(FactsOf(d)), FactsOf(d), 1)
  {
    hide PlanOk, HashesOk, WantedOf, DurableSession.Inv, SessionOk, ValidStore;
    SessionOpened(d, id, want);
    d.SealSegment();
    SameContents(old(d.session.store), d.session.store, d.session.segments, d.session.metadata, id, want);
    SessionClosed(d, id, want);
  }

  method ResetOneSession(id: Bytes, d: DurableSession, system: Bytes, ghost want: map<Key, Content>)
    requires SessionOk(d, id, want) && d.session.store.memories == []
    modifies d`storable, d`saved, d.session
    ensures SessionOk(d, id, Without(want, id)) && d.session.store == old(d.session.store).(system := system, systemLocked := true)
    ensures d.session.segments == []
    ensures |system| <= MAX_STRING_BYTES ==> StayStorable(old(FactsOf(d)), FactsOf(d), 0)
  {
    hide StayStorable, HashesOk, DurableSession.Inv, SessionOk, ValidStore;
    SessionOpened(d, id, want);
    d.SetSystem(system);
    EmptyPlanOk(d.session.store);
    NothingHashed(d.session.store, d.session.metadata);
    SessionClosed(d, id, Without(want, id));
  }

  lemma NothingHashed(store: SessionStore, metadata: map<int, CacheEntry>)
    ensures HashesOk(store, [], metadata)
  {
  }

  method SaveOneMetadata(id: Bytes, d: DurableSession, faults: SaveFaults, ghost want: map<Key, Content>) returns (ok: bool)
    requires SessionOk(d, id, want) && d.session.store.memories == []
    modifies d`saved, d.session`factsDirty, d.dir
    ensures SessionOk(d, id, want) && (ok ==> !d.session.factsDirty) && (faults == NO_FAULTS ==> d.saved)
    ensures ok <==> faults.writeMetadata && faults.renameMetadata
  {
    hide PlanOk, HashesOk, WantedOf, DurableSession.Inv, SessionOk, ValidStore;
    SessionOpened(d, id, want);
    ok := d.PersistMetadata(faults);
    SessionClosed(d, id, want);
  }

  /** A resident entry falls back to its file, if there is one. */
  function ClearedEntry(e: CacheEntry, fileExists: bool): (cleared: CacheEntry)
    ensures cleared == e.(state := cleared.state) && cleared.state != Resident
    ensures e.state != Resident ==> cleared == e
  {
    if e.state != Resident then e
    else e.(state := if e.hasPath && fileExists then DiskOnly else Missing)
  }

  /** All entries of a session after its resident segments were given up. */
  function Demoted(metadata: map<int, CacheEntry>, id: Bytes, files: map<Key, Snapshot>): map<int, CacheEntry> {
    map k | k in metadata :: ClearedEntry(metadata[k], Key(id, k) in files)
  }

  ghost predicate NoneResident(metadata: map<int, CacheEntry>) {
    forall k | k in metadata :: metadata[k].state != Resident
  }

  lemma NoneStaysResident(metadata: map<int, CacheEntry>, id: Bytes, files: map<Key, Snapshot>)
    ensures NoneResident(Demoted(metadata, id, files))
  {
    hide ClearedEntry;
  }

  method MarkCleared(files: map<Key, Snapshot>, id: Bytes, d: DurableSession, ghost want: map<Key, Content>)
    requires SessionOk(d, id, want)
    modifies d.session`metadata
    ensures SessionOk(d, id, want) && d.session.metadata == Demoted(old(d.session.metadata), id, files)
    ensures forall k: Key | k.session == id :: HasDisk(old(d.session.metadata), files, k) <==> HasDisk(d.session.metadata, files, k)
  {
    hide PlanOk, WantedOf, DurableSession.Inv, SessionOk, ValidStore, SegmentHash;
    SessionOpened(d, id, want);
    d.session.metadata := map k | k in d.session.metadata :: ClearedEntry(d.session.metadata[k], Key(id, k) in files);
    SessionClosed(d, id, want);
  }

  /** The directory of a new session, with its first metadata file; nothing when it cannot be written. */
  method CreateFiles(model: ModelKey, id: Bytes, kvPersist: bool, faults: SaveFaults) returns (dir: SessionDirectory?)
    requires IsValidSessionId(id)
    ensures dir != null <==> NoUnderscoreAtTheEnds(id) && faults.writeMetadata && faults.renameMetadata
    ensures dir != null ==>
              && fresh(dir) && dir.name == id && ValidStore(FreshStore(id, kvPersist))
              && dir.files.metadata == Some(EncodeMetadata(FreshStore(id, kvPersist))) && dir.past == {dir.files}
  {
    hide IsValidSessionId, NoUnderscoreAtTheEnds, SessionLayout, EncodeMetadataAs, ValidStore;
    var d := new SessionDirectory(SessionLayout(model, id).session, SessionDir(None, None, None, None));
    var ok := d.SaveSessionMetadata(FreshStore(id, kvPersist), faults);
    CreatedUnderItsOwnName(model, id, kvPersist);
    d.Enter();
    dir := if ok then d else null;
  }

  method RemoveOneDirectory(id: Bytes, d: DurableSession, removed: bool, left: SessionDir, ghost want: map<Key, Content>)
    requires SessionOk(d, id, want)
    modifies d`storable, d.dir
    ensures SessionOk(d, id, want)
  {
    hide PlanOk, HashesOk, WantedOf, DurableSession.Inv, SessionOk, ValidStore;
    SessionOpened(d, id, want);
    d.RemoveDirectory(removed, left);
    SessionClosed(d, id, want);
  }

  /** The session's files are gone, but for those that could not be removed. */
  function FilesLeft(files: map<Key, Snapshot>, id: Bytes, left: set<Key>): (kept: map<Key, Snapshot>)
    ensures forall k | k in files && k.session != id :: k in kept && kept[k] == files[k]
    ensures forall k | k in files && k.session == id :: k in kept <==> k in left
    ensures forall k | k in kept :: k in files && kept[k] == files[k]
  {
    map k | k in files && (k.session != id || k in left) :: files[k]
  }

  method DropManifest(disk: CacheDisk, id: Bytes)
    modifies disk`manifests
    ensures disk.manifests == old(disk.manifests) - {id}
    ensures (forall j | j in old(disk.manifests) :: NumberedRecords(old(disk.manifests)[j])) ==>
              forall j | j in disk.manifests :: NumberedRecords(disk.manifests[j])
  {
    disk.manifests := disk.manifests - {id};
  }

  lemma {:induction false} FewerStaySeparate(before: map<Bytes, DurableSession>, repr: set<object>, others: set<object>, id: Bytes)
    requires SeparateIn(before, repr, others)
    ensures SeparateIn(before - {id}, repr, others)
  {
    hide Unrelated;
  }

  lemma {:induction false} MoreStaySeparate(before: map<Bytes, DurableSession>, repr: set<object>, others: set<object>, id: Bytes, d: DurableSession)
    requires SeparateIn(before, repr, others) && {d, d.session, d.dir} !! others
    requires id !in before && forall i | i in before :: Unrelated(before[i], d)
    ensures SeparateIn(before[id := d], repr + {d, d.session, d.dir}, others)
  {
  }

  lemma {:induction false} DiskMeans(m: SessionManager)
    ensures m.DiskInv() <==> forall id | id in m.disk.manifests :: NumberedRecords(m.disk.manifests[id])
  {
    hide NumberedRecords;
  }

  lemma {:induction false} SeparateMeans(m: SessionManager)
    ensures m.Separate() <==> SeparateIn(m.sessions, m.repr, {m, m.kv, m.kv.table, m.kv.resident, m.kv.log, m.disk})
  {
    hide SeparateIn;
  }

  lemma {:induction false} StillStorable(before: Facts, after: Facts)
    requires StayStorable(before, after, 0) && StoreFits(before.store, 0) && (Storable(before.store) ==> before.storable)
    ensures after.storable
  {
    hide Storable;
  }

  /** Planning a session without memories always works and plans nothing. */
  method PlanEmptySession(core: Core, model: ModelKey, manifest: Option<Manifest>, files: map<Key, Snapshot>, id: Bytes, d: DurableSession,
                          ghost want: map<Key, Content>)
    requires SessionOk(d, id, want) && SoundManifest(manifest) && d.session.store.memories == [] && !d.session.planReady
    modifies d`storable, d.session
    ensures SessionOk(d, id, want) && d.session.planReady && d.session.segments == [] && d.session.store == old(d.session.store)
    ensures StayStorable(old(FactsOf(d)), FactsOf(d), 0)
  {
    hide SessionOk, Described, EntriesRefreshed, StayStorable;
    ghost var planned;
    var ok;
    SessionOpened(d, id, want);
    ok, planned := PlanOneSession(core, model, manifest, files, id, d, want);
    SessionOpened(d, id, planned);
    assert planned == want;
  }

  /** A session that is known under another name than its own breaks the invariant. */
  lemma {:induction false} InvNamesSessions(m: SessionManager, id: Bytes)
    requires m.Inv() && id in m.sessions
    ensures m.sessions[id].session.store.sessionId == id
  {
    hide SessionManager.Inv, SessionOk;
    InvOpened(m);
    SessionOpened(m.sessions[id], id, m.want);
  }

  lemma {:induction false} LayoutName(model: ModelKey, id: Bytes)
    requires IsValidSessionId(id)
    ensures SessionLayout(model, id).session != []
    ensures SessionLayout(model, id).session == id <==> NoUnderscoreAtTheEnds(id)
  {
    hide SafeName, IsValidSessionId, NoUnderscoreAtTheEnds;
    SafeNameOfSession(id);
    SafeNameIsNotEmpty(id);
    SomeName(id);
  }

  lemma SomeName(id: Bytes)
    requires IsValidSessionId(id)
    ensures id != []
  {
  }

  lemma {:induction false} LoadedName(files: SessionDir, name: Bytes)
    requires Load(files, name).Some? && name != []
    ensures Load(files, name).value.sessionId == name
  {
    hide ParseMetadata, ParseMemories, ValidStore;
  }

  method ReadBack(dir: SessionDirectory, store: SessionStore) returns (d: DurableSession)
    requires Load(dir.files, dir.name) == Some(store) && store.sessionId == dir.name && dir.past == {dir.files}
    ensures fresh(d) && fresh(d.session) && d.dir == dir && d.Inv()
    ensures d.session.store == store && !d.session.planReady && d.session.segments == [] && d.session.metadata == map[]
    ensures d.storable && d.saved && Storable(store)
  {
    hide DurableSession.Inv, Load, Storable;
    d := new DurableSession.Restored(dir, store);
  }

  lemma {:induction false} RestoredIsOk(m: SessionManager, id: Bytes, d: DurableSession)
    requires (forall key | key in m.want :: key.session in m.sessions) && id !in m.sessions
    requires forall j | j in m.sessions :: SessionOk(m.sessions[j], j, m.want)
    requires d.Inv() && d.session.store.sessionId == id == d.dir.name && !d.session.planReady
    requires d.session.segments == [] && d.session.metadata == map[]
    requires forall j | j in m.sessions :: m.sessions[j] != d && m.sessions[j].session != d.session
    ensures SessionOk(d, id, m.want) && forall j | j in m.sessions :: Unrelated(m.sessions[j], d)
  {
    hide SessionOk, HashesOk, DurableSession.Inv, PlanOk, Unrelated;
    UnrelatedByName(m, id, d);
    EmptyPlanOk(d.session.store);
    NothingHashed(d.session.store, map[]);
    NothingWanted(m.want, id, d.session.store);
    SessionClosed(d, id, m.want);
  }

  lemma {:induction false} UnrelatedByName(m: SessionManager, id: Bytes, d: DurableSession)
    requires forall j | j in m.sessions :: SessionOk(m.sessions[j], j, m.want)
    requires id !in m.sessions && d.dir.name == id
    requires forall j | j in m.sessions :: m.sessions[j] != d && m.sessions[j].session != d.session
    ensures forall j | j in m.sessions :: Unrelated(m.sessions[j], d)
  {
    hide SessionOk;
    forall j | j in m.sessions ensures Unrelated(m.sessions[j], d) {
      DirectoryHasItsName(m.sessions[j], j, m.want);
    }
  }

  lemma {:induction false} DirectoryHasItsName(d: DurableSession, id: Bytes, want: map<Key, Content>)
    requires SessionOk(d, id, want)
    ensures d.dir.name == id
  {
    hide CacheOk, Durable, ValidStore;
  }

  lemma NothingWanted(want: map<Key, Content>, id: Bytes, store: SessionStore)
    requires forall key | key in want :: key.session != id
    ensures WantedOf(want, id, store, [])
  {
  }

  lemma {:induction false} UnknownIsUncached(m: SessionManager, id: Bytes)
    requires m.Inv() && id !in m.sessions
    ensures NothingCached(m.kv.State(), id)
  {
    InvOpened(m);
    ResidentIsWanted(m.kv.State(), m.want);
    hide SessionManager.Inv, Holds, HoldsPrefix, SessionOk;
  }

  /** After an accepted memory: the session has a plan, and its last segment an entry with a path. */
  ghost predicate Grown(session: Session)
    reads session
  {
    && session.planReady && session.segments != [] && |session.segments| - 1 in session.metadata
    && session.metadata[|session.segments| - 1].hasPath
  }

  lemma GrownMeans(session: Session)
    requires session.planReady && session.segments != [] && |session.segments| - 1 in session.metadata
    requires session.metadata[|session.segments| - 1].hasPath
    ensures Grown(session)
  {
  }

  lemma GrownParts(session: Session)
    requires Grown(session)
    ensures session.planReady && session.segments != [] && |session.segments| - 1 in session.metadata
    ensures session.metadata[|session.segments| - 1].hasPath
  {
  }

  ghost predicate EntriesFewer(before: map<Key, Entry>, after: map<Key, Entry>) {
    forall k | k in after :: k in before
  }

  lemma FewerOfFewer(a: map<Key, Entry>, b: map<Key, Entry>, c: map<Key, Entry>)
    requires EntriesFewer(a, b) && EntriesLeft(b, c)
    ensures EntriesFewer(a, c)
  {
  }

  lemma ResidentKeys(m: SegmentKVManager)
    ensures m.State().resident.Keys == m.resident.entries.Keys
  {
  }

  lemma ShrunkEntries(before: KVState, after: KVState, a: map<Key, Entry>, b: map<Key, Entry>)
    requires Shrinks(before, after) && a.Keys == before.resident.Keys && b.Keys == after.resident.Keys
    ensures EntriesFewer(a, b)
  {
  }

  /** Entries may have gone, no other changed. */
  ghost predicate EntriesLeft(before: map<Key, Entry>, after: map<Key, Entry>) {
    forall k | k in after :: k in before && after[k] == before[k]
  }

  lemma FewerEntries(entries: map<Key, Entry>, k: Key)
    ensures EntriesLeft(entries, entries) && EntriesLeft(entries, entries - {k})
  {
  }

  lemma {:induction false} GrownCells(kv: KVState, k: Key, opens: bool)
    ensures GrownState(kv, k, opens).cells == kv.cells || GrownState(kv, k, opens).cells == Reset(kv).cells
  {
  }

  lemma {:induction false} GrownStaysSized(engine: Engine, kv: KVState, before: map<Key, Entry>, after: map<Key, Entry>, now: KVState)
    requires EntriesLeft(before, after) && (now == kv || exists k: Key, opens :: now == GrownState(kv, k, opens))
    ensures StaysSized(engine, {}, Held(kv.cells, before), Held(now.cells, after))
  {
    hide StaysSized, Reset;
    var reset := Held(now.cells, before);
    if now != kv {
      var k: Key, opens :| now == GrownState(kv, k, opens);
      GrownCells(kv, k, opens);
    }
    SameStaysSized(engine, {}, Held(kv.cells, before), Held(kv.cells, before));
    ResetStaysSized(engine, kv, before);
    SameStaysSized(engine, {}, reset, Held(now.cells, after));
    StaysSizedTwice(engine, {}, Held(kv.cells, before), reset, Held(now.cells, after));
  }

  /** The session's active context went; the state of a segment that grew was staged as a prefix. */
  ghost function GrownState(kv: KVState, k: Key, opens: bool): KVState {
    if opens then Deactivated(kv, k.session) else Staged(Deactivated(kv, k.session), k)
  }

  lemma DiskKeptByItself(files: map<Key, Snapshot>)
    ensures forall metadata, except :: KeepsDisk(metadata, metadata, files, except)
  {
  }

  /** Of all segments only `k` may have lost its cached state, and it did. */
  ghost predicate OnlyUnindexes(k: Key, before: KVState, after: KVState, metadata: map<int, CacheEntry>, metadata': map<int, CacheEntry>,
                                files: map<Key, Snapshot>) {
    && k !in after.resident && !HasDisk(metadata', files, k)
    && (forall j | j in before.resident && j != k :: j in after.resident)
    && KeepsDisk(metadata, metadata', files, k.segment)
  }

  lemma {:induction false} KeptByEntering(before: KVState, after: KVState, files: map<Key, Snapshot>, id: Bytes)
    requires forall k | k in before.resident && k.session == id :: k in after.resident
    ensures forall metadata, except :: KeepsIndexed(before, metadata, after, metadata, files, id, except)
  {
    hide HasDisk;
  }

  lemma {:induction false} KeptByGrowing(first: KVState, before: KVState, after: KVState, metadata: map<int, CacheEntry>,
                                         metadata': map<int, CacheEntry>, files: map<Key, Snapshot>, k: Key)
    requires forall j | j in first.resident && j.session == k.session :: j in before.resident
    requires OnlyUnindexes(k, before, after, metadata, metadata', files) || (after == before && metadata' == metadata)
    ensures KeepsIndexed(first, metadata, after, metadata', files, k.session, Some(k.segment))
    ensures KeepsDisk(metadata, metadata', files, k.segment)
    ensures OnlyUnindexes(k, before, after, metadata, metadata', files) ==> !Indexed(after, metadata', files, k)
  {
    hide HasDisk;
  }

  lemma UnindexedOne(k: Key, before: KVState, after: KVState, metadata: map<int, CacheEntry>, metadata': map<int, CacheEntry>,
                     files: map<Key, Snapshot>)
    requires k !in after.resident && k.segment in metadata' && metadata'[k.segment].state == Missing
    requires forall j | j in before.resident && j != k :: j in after.resident
    requires metadata' == metadata[k.segment := metadata'[k.segment]]
    ensures OnlyUnindexes(k, before, after, metadata, metadata', files)
  {
  }

  lemma ResidentIsWanted(kv: KVState, want: map<Key, Content>)
    requires Coherent(kv, want)
    ensures forall k | k in kv.resident :: k in want
    ensures forall k | k in kv.prefixes :: k in want
  {
    hide NotShared, Holds, HoldsPrefix;
  }

  lemma OneKeyElsewhere(want: map<Key, Content>, k: Key, c: Content)
    ensures SameElsewhere(want, want[k := c], k.session)
  {
  }

  /** An accepted memory keeps everything about its session as it should be; the segment it went
      to is new, or holds what it held and then the new text. */
  lemma {:induction false} GrownCacheOk(core: Core, id: Bytes, p: Planned, metadata: map<int, CacheEntry>, input: MemoryInput,
                                        want: map<Key, Content>)
    requires ValidStore(p.store) && PlanOk(p.store, p.segments) && HashesOk(p.store, p.segments, metadata)
    requires WantedOf(want, id, p.store, p.segments) && !p.Decide(core, input.text).Refused?
    ensures var (p', opens) := (p.Appended(core, input), p.Decide(core, input.text).Opens?);
            p'.segments != [] &&
            var last, metadata' := Last(p'.segments), metadata[Last(p'.segments).id := MissingEntry(p'.store, Last(p'.segments))];
            var k, grown := Key(id, last.id), want[Key(id, last.id) := ContentAt(p'.store, last)];
            && PlanOk(p'.store, p'.segments) && HashesOk(p'.store, p'.segments, metadata')
            && (Described(p.segments, metadata) ==> Described(p'.segments, metadata'))
            && WantedOf(grown, id, p'.store, p'.segments) && p'.store.sessionId == p.store.sessionId
            && last.id == |p'.segments| - 1 && |p'.segments| == |p.segments| + (if opens then 1 else 0)
            && (if opens then k !in want else k in want && ProperPrefix(want[k], grown[k]))
            && metadata'[last.id].state == Missing && metadata'[last.id].hasPath
  {
    hide Planned.Appended, Planned.Decide, ValidStore, PlanOk, HashesOk, SegmentHash, ContentAt, FindMemory, WantedOf, Described;
    var p', opens, m := p.Appended(core, input), p.Decide(core, input.text).Opens?, p.NewRecord(core, input);
    AcceptedAppends(core, p, input);
    AppendGrowsPlan(core, p, input);
    GrownPlanOk(p.store, m, p.segments, p'.segments, opens);
    GrownHashesOk(p.store, m, p.segments, p'.segments, opens, metadata);
    GrownWanted(id, p.store, m, p.segments, p'.segments, opens, want);
  }

  lemma {:induction false} GrownWanted(id: Bytes, store: SessionStore, m: MemoryRecord, before: seq<Segment>, after: seq<Segment>,
                                       opens: bool, want: map<Key, Content>)
    requires ValidStore(store) && m.idx == store.nextIdx && PlanOk(store, before) && GrownPlan(store, before, after, opens)
    requires !opens ==> before != []
    requires WantedOf(want, id, store, before)
    ensures var store' := store.(memories := store.memories + [m], nextIdx := store.nextIdx + 1, systemLocked := true);
            var k, grown := Key(id, |after| - 1), want[Key(id, |after| - 1) := ContentAt(store', Last(after))];
            && WantedOf(grown, id, store', after)
            && (if opens then k !in want else k in want && ProperPrefix(want[k], grown[k]))
  {
    hide ValidStore, PlanOk, SegmentHash, SegmentTexts;
    GrownContents(store, m, before, after, opens);
  }

  ghost function ContentsOf(id: Bytes, store: SessionStore, segments: seq<Segment>): map<Key, Content> {
    map k: int | 0 <= k < |segments| :: Key(id, k) := ContentAt(store, segments[k])
  }

  /** A session that had no plan is planned: its segments become wanted. */
  lemma {:induction false} PlanEntersWant(want: map<Key, Content>, id: Bytes, before: SessionStore, store: SessionStore, segments: seq<Segment>)
    requires WantedOf(want, id, before, [])
    ensures WantedOf(want + ContentsOf(id, store, segments), id, store, segments)
    ensures SameElsewhere(want, want + ContentsOf(id, store, segments), id)
    ensures forall key | key in want :: key in want + ContentsOf(id, store, segments) && (want + ContentsOf(id, store, segments))[key] == want[key]
  {
    hide ContentAt;
  }

  lemma NothingElsewhere(want: map<Key, Content>, id: Bytes)
    ensures SameElsewhere(want, want, id)
  {
  }

  lemma {:induction false} CacheOkElsewhere(id: Bytes, v: SessionView, ready: bool, before: map<Key, Content>, after: map<Key, Content>, changed: Bytes)
    requires CacheOk(id, v, ready, before) && id != changed && SameElsewhere(before, after, changed)
    ensures CacheOk(id, v, ready, after)
  {
    hide PlanOk, HashesOk, ContentAt;
  }

  /** A step on one session leaves the others as they should be. */
  lemma {:induction false} OthersStayOk(m: SessionManager, before: map<Key, Content>, id: Bytes)
    requires forall j | j in m.sessions && j != id :: SessionOk(m.sessions[j], j, before)
    requires SameElsewhere(before, m.want, id)
    ensures forall j | j in m.sessions && j != id :: SessionOk(m.sessions[j], j, m.want)
    ensures (forall key | key in before && key.session != id :: key.session in m.sessions) ==>
              forall key | key in m.want && key.session != id :: key.session in m.sessions
  {
    KeysElsewhere(before, m.want, id);
    hide CacheOk, DurableSession.Inv, SameElsewhere;
    forall j | j in m.sessions && j != id ensures SessionOk(m.sessions[j], j, m.want) {
      CacheOkElsewhere(j, View(m.sessions[j].session), m.sessions[j].session.planReady, before, m.want, id);
    }
  }

  lemma KeysElsewhere(before: map<Key, Content>, after: map<Key, Content>, id: Bytes)
    requires SameElsewhere(before, after, id)
    ensures forall key | key in after && key.session != id :: key in before
  {
  }

  lemma {:induction false} SessionOpened(d: DurableSession, id: Bytes, want: map<Key, Content>)
    requires SessionOk(d, id, want)
    ensures d.Inv() && d.session.store.sessionId == id && ValidStore(d.session.store)
    ensures PlanOk(d.session.store, d.session.segments) && HashesOk(d.session.store, d.session.segments, d.session.metadata)
    ensures !d.session.planReady ==> d.session.segments == [] && d.session.metadata == map[]
    ensures WantedOf(want, id, d.session.store, d.session.segments)
  {
  }

  lemma {:induction false} SessionClosed(d: DurableSession, id: Bytes, want: map<Key, Content>)
    requires d.Inv() && d.session.store.sessionId == id
    requires PlanOk(d.session.store, d.session.segments) && HashesOk(d.session.store, d.session.segments, d.session.metadata)
    requires !d.session.planReady ==> d.session.segments == [] && d.session.metadata == map[]
    requires WantedOf(want, id, d.session.store, d.session.segments)
    ensures SessionOk(d, id, want)
  {
  }

  lemma {:induction false} InvOpened(m: SessionManager)
    requires m.Inv()
    ensures m.kv.Valid() && Coherent(m.kv.State(), m.want) && m.Separate() && m.DiskInv()
    ensures forall key | key in m.want :: key.session in m.sessions
    ensures forall id | id in m.sessions :: SessionOk(m.sessions[id], id, m.want)
  {
    hide SessionOk, Coherent;
  }

  lemma {:induction false} InvClosed(m: SessionManager)
    requires m.kv.Valid() && Coherent(m.kv.State(), m.want) && m.Separate() && m.DiskInv()
    requires forall key | key in m.want :: key.session in m.sessions
    requires forall id | id in m.sessions :: SessionOk(m.sessions[id], id, m.want)
    ensures m.Inv()
  {
    hide SessionOk, Coherent;
  }

  lemma {:induction false} SessionsApart(m: SessionManager, id: Bytes)
    requires m.Separate() && id in m.sessions
    ensures forall j | j in m.sessions && j != id ::
              var (a, b) := (m.sessions[j], m.sessions[id]); a != b && a.session != b.session && a.dir != b.dir
  {
  }

  lemma {:induction false} ManifestIsSound(m: SessionManager, id: Bytes)
    requires m.DiskInv()
    ensures SoundManifest(m.ManifestOf(id))
  {
  }
}
