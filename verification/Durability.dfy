/** When a session's facts reach its directory, and what a crash or a failed save leaves there
    (command_scope.cpp, session_manager.cpp). */
module Durability {
  import opened Basics
  import opened Persistent
  import opened SessionState
  import opened SegmentPlanner
  import opened IncrementalPlan
  import opened BinaryIO
  import opened SessionFiles
  import opened SessionSaving

  /** Within what C++ can hold and what the readers take. */
  ghost predicate Storable(store: SessionStore) {
    Representable(store) && Readable(store)
  }

  /** What is on disk is an earlier state of the session: its memories are the first ones. */
  ghost predicate OlderState(older: SessionStore, newer: SessionStore) {
    older.sessionId == newer.sessionId && Grows(older, newer)
  }

  ghost predicate SameButMemories(a: SessionStore, b: SessionStore) {
    a.(memories := [], nextIdx := 0, systemLocked := false) == b.(memories := [], nextIdx := 0, systemLocked := false)
  }

  /** Memories that are not on disk are all in the last segment. */
  ghost predicate OnlyTailUnsaved(older: SessionStore, newer: SessionStore, segments: seq<Segment>) {
    && |older.memories| <= |newer.memories|
    && forall i :: |older.memories| <= i < |newer.memories| ==>
         segments != [] && newer.memories[i].idx in Last(segments).indices
  }

  /** How the files of a session relate to its facts in memory. */
  ghost predicate Durable(files: SessionDir, name: Bytes, store: SessionStore, segments: seq<Segment>, dirty: bool, saved: bool) {
    && Load(files, name).Some?
    && OlderState(Load(files, name).value, store)
    && (!dirty ==> SameFacts(Load(files, name).value, store))
    && (saved ==> SameButMemories(Load(files, name).value, store) && OnlyTailUnsaved(Load(files, name).value, store, segments))
  }

  /** Whatever was in the directory at any moment so far would load as an earlier state. */
  ghost predicate PastOlder(past: set<SessionDir>, name: Bytes, store: SessionStore) {
    forall f | f in past :: Load(f, name).Some? && OlderState(Load(f, name).value, store)
  }

  lemma {:induction false} OlderTwice(a: SessionStore, b: SessionStore, c: SessionStore)
    requires OlderState(a, b) && OlderState(b, c)
    ensures OlderState(a, c)
  {
    forall i | 0 <= i < |a.memories| ensures SameMemory(a.memories[i], c.memories[..|a.memories|][i]) {
      assert SameMemory(a.memories[i], b.memories[..|a.memories|][i]) && SameMemory(b.memories[i], c.memories[..|b.memories|][i]);
    }
  }

  lemma {:induction false} PastGrows(past: set<SessionDir>, name: Bytes, before: SessionStore, after: SessionStore)
    requires PastOlder(past, name, before) && OlderState(before, after)
    ensures PastOlder(past, name, after)
  {
    hide Load, OlderState;
    forall f | f in past ensures Load(f, name).Some? && OlderState(Load(f, name).value, after) {
      OlderTwice(Load(f, name).value, before, after);
    }
  }

  /** Stores that differ in other things than memories. */
  lemma {:induction false} SameMemoriesAreOlder(a: SessionStore, b: SessionStore)
    requires a.sessionId == b.sessionId && a.memories == b.memories
    ensures OlderState(a, b)
  {
    assert b.memories[..|a.memories|] == b.memories;
  }

  lemma {:induction false} AppendedIsNewer(a: SessionStore, b: SessionStore, m: MemoryRecord)
    requires a.sessionId == b.sessionId && b.memories == a.memories + [m]
    ensures OlderState(a, b)
  {
    assert b.memories[..|a.memories|] == a.memories;
  }

  lemma {:induction false} SameFactsAreOlder(a: SessionStore, b: SessionStore)
    requires SameFacts(a, b)
    ensures OlderState(a, b)
  {
    SameName(a, b);
    assert b.memories[..|a.memories|] == b.memories;
  }

  /** A save passes through states that load as the old facts or as the new ones. */
  lemma {:induction false} PastOfSave(past: set<SessionDir>, past': set<SessionDir>, files: SessionDir, name: Bytes, store: SessionStore)
    requires PastOlder(past, name, store) && Load(files, name).Some? && OlderState(Load(files, name).value, store)
    requires forall f | f in past' - past :: Load(f, name).Some? &&
               (SameFacts(Load(f, name).value, Load(files, name).value) || Load(f, name).value == store)
    ensures PastOlder(past', name, store)
  {
    hide Load, OlderState, SameFacts;
    SameMemoriesAreOlder(store, store);
    forall f | f in past' ensures Load(f, name).Some? && OlderState(Load(f, name).value, store) {
      if f !in past && Load(f, name).value != store {
        SameFactsAreOlder(Load(f, name).value, Load(files, name).value);
        OlderTwice(Load(f, name).value, Load(files, name).value, store);
      }
    }
  }

  // ----- Which sessions stay within the limits -----

  /** What is within the limits, with room for so many more memories and boundaries. */
  ghost predicate StoreFits(store: SessionStore, left: nat) {
    && Storable(store)
    && |store.memories| + left <= MAX_MEMORY_RECORDS && |store.boundaries| + left <= MAX_VECTOR_ITEMS
    && IsInt64(store.nextIdx + left)
  }

  ghost predicate ReadableInput(input: MemoryInput) {
    |input.id| <= MAX_STRING_BYTES && |input.text| <= MAX_STRING_BYTES
  }

  /** The facts of a session, and whether they could always be stored. */
  datatype Facts = Facts(store: SessionStore, storable: bool)

  ghost function FactsOf(d: DurableSession): Facts
    reads d`storable, d.session`store
  {
    Facts(d.session.store, d.storable)
  }

  lemma FactsParts(d: DurableSession)
    ensures FactsOf(d) == Facts(d.session.store, d.storable)
  {
  }

  /** A step that adds at most `cost` memories and boundaries, all of them small enough to store. */
  ghost predicate StayStorable(before: Facts, after: Facts, cost: nat) {
    forall room: nat | before.storable && StoreFits(before.store, room) && cost <= room :: after.storable && StoreFits(after.store, room - cost)
  }

  lemma {:induction false} FitsLess(store: SessionStore, more: nat, less: nat)
    requires StoreFits(store, more) && less <= more
    ensures StoreFits(store, less)
  {
  }

  lemma {:induction false} StayStorableTwice(a: Facts, b: Facts, c: Facts, m: nat, n: nat)
    requires StayStorable(a, b, m) && StayStorable(b, c, n)
    ensures StayStorable(a, c, m + n)
  {
    hide StoreFits;
    forall room: nat | a.storable && StoreFits(a.store, room) && m + n <= room ensures c.storable && StoreFits(c.store, room - (m + n)) {
      assert b.storable && StoreFits(b.store, room - m);
      assert room - m - n == room - (m + n);
    }
  }

  /** Steps that cost nothing. */
  lemma {:induction false} SameStoreStays(before: Facts, after: Facts, cost: nat)
    requires after.store == before.store && after.storable == before.storable
    ensures StayStorable(before, after, cost)
  {
    hide StoreFits;
    forall room: nat | before.storable && StoreFits(before.store, room) && cost <= room ensures StoreFits(after.store, room - cost) {
      FitsLess(before.store, room, room - cost);
    }
  }

  lemma {:induction false} SmallerChangeStays(before: Facts, after: Facts)
    requires after.storable == (before.storable && Storable(after.store))
    requires |after.store.memories| == |before.store.memories| && after.store.boundaries == before.store.boundaries
    requires after.store.nextIdx == before.store.nextIdx
    requires Storable(before.store) ==> Storable(after.store)
    ensures StayStorable(before, after, 0)
  {
    hide Storable;
  }

  lemma {:induction false} NewSystemStays(before: Facts, after: Facts, system: Bytes)
    requires after.store == before.store.(system := system, systemLocked := true)
    requires after.storable == (before.storable && Storable(after.store)) && |system| <= MAX_STRING_BYTES
    ensures StayStorable(before, after, 0)
  {
    hide RepresentableRecord, ReadableRecord;
    SmallerChangeStays(before, after);
  }

  lemma {:induction false} NewFlagStays(before: Facts, after: Facts)
    requires after.store == before.store.(kvPersist := true)
    requires after.storable == (before.storable && Storable(after.store))
    ensures StayStorable(before, after, 0)
  {
    hide RepresentableRecord, ReadableRecord;
    SmallerChangeStays(before, after);
  }

  lemma {:induction false} FilledStays(before: Facts, after: Facts)
    requires EstimatesFilled(before.store, after.store) && after.storable == (before.storable && Storable(after.store))
    ensures StayStorable(before, after, 0)
  {
    var x, y := before.store.(memories := []), after.store.(memories := []);
    assert x.boundaries == before.store.boundaries && y.boundaries == after.store.boundaries;
    assert x.nextIdx == before.store.nextIdx && y.nextIdx == after.store.nextIdx;
    assert x.system == before.store.system && y.system == after.store.system;
    assert x.sessionId == before.store.sessionId && y.sessionId == after.store.sessionId;
    assert x.schemaVersion == before.store.schemaVersion && y.schemaVersion == after.store.schemaVersion;
    if Storable(before.store) {
      forall m | m in after.store.memories ensures RepresentableRecord(m) && ReadableRecord(m) {
        var i :| 0 <= i < |after.store.memories| && after.store.memories[i] == m;
        FilledRecord(before.store.memories[i], m);
      }
    }
    hide RepresentableRecord, ReadableRecord;
    SmallerChangeStays(before, after);
  }

  lemma {:induction false} FilledRecord(a: MemoryRecord, b: MemoryRecord)
    requires SameMemory(b, a) && (b == a || IsInt32(b.estimated)) && RepresentableRecord(a) && ReadableRecord(a)
    ensures RepresentableRecord(b) && ReadableRecord(b)
  {
    var x, y := a.(estimated := 0), b.(estimated := 0);
    assert x.idx == a.idx && y.idx == b.idx && x.id == a.id && y.id == b.id && x.text == a.text && y.text == b.text;
  }

  lemma {:induction false} NewBoundaryStays(before: Facts, after: Facts)
    requires after.store == before.store.(boundaries := before.store.boundaries + [before.store.nextIdx])
    requires after.storable == (before.storable && Storable(after.store))
    ensures StayStorable(before, after, 1)
  {
    hide RepresentableRecord, ReadableRecord;
  }

  lemma {:induction false} NewMemoryStays(before: Facts, after: Facts, core: Core, p: Planned, input: MemoryInput)
    requires p.store == before.store && after.store == p.Appended(core, input).store && ReadableInput(input)
    requires after.storable == (before.storable && Storable(after.store))
    ensures StayStorable(before, after, 1)
  {
    hide Planned.Decide, Planned.Appended;
    if p.Decide(core, input.text).Refused? {
      RefusedChangesNothing(core, p, input);
      hide RepresentableRecord, ReadableRecord;
    } else {
      AcceptedAppends(core, p, input);
      var record := p.NewRecord(core, input);
      forall room: nat | before.storable && StoreFits(before.store, room) && 1 <= room ensures after.storable && StoreFits(after.store, room - 1) {
        assert RepresentableRecord(record) && ReadableRecord(record);
        assert forall m | m in after.store.memories :: m in before.store.memories || m == record;
        hide RepresentableRecord, ReadableRecord;
      }
    }
  }

  /** A new session has room for as many memories and boundaries as the readers take. */
  lemma {:induction false} FreshFits(id: Bytes, kvPersist: bool, left: nat)
    requires |id| <= MAX_STRING_BYTES && left <= MAX_MEMORY_RECORDS && left <= MAX_VECTOR_ITEMS
    ensures StoreFits(FreshStore(id, kvPersist), left)
  {
  }

  class DurableSession {
    const session: Session
    const dir: SessionDirectory
    /** Every store so far was storable, and the directory was left in place. */
    ghost var storable: bool
    /** Every save that was due succeeded. */
    ghost var saved: bool

    ghost predicate Inv()
      reads this, session`store, session`segments, session`factsDirty, dir`files, dir`past
    {
      && ValidStore(session.store) && session.store.sessionId == dir.name
      && (storable ==>
            && Storable(session.store) && Durable(dir.files, dir.name, session.store, session.segments, session.factsDirty, saved)
            && PastOlder(dir.past, dir.name, session.store))
    }

    /** A session read back from its directory, after a restart or by restore-session. */
    constructor Restored(dir: SessionDirectory, store: SessionStore)
      requires Load(dir.files, dir.name) == Some(store) && store.sessionId == dir.name && dir.past == {dir.files}
      ensures Inv() && this.dir == dir && fresh(session) && session.store == store && !session.factsDirty
      ensures !session.planReady && session.segments == [] && session.metadata == map[]
      ensures storable && saved && Storable(store)
    {
      var s := new Session(store);
      session, this.dir, storable, saved := s, dir, true, true;
      new;
      LoadedIsReadable(dir.files, dir.name);
      LoadedIsValid(dir.files, dir.name);
      SameAsItself(store);
      SameMemoriesAreOlder(store, store);
    }

    /** A session that was just created: only its first metadata file is there. */
    constructor Created(dir: SessionDirectory, facts: SessionStore)
      requires ValidStore(facts) && facts.memories == [] && facts.sessionId == dir.name
      requires dir.files.metadata == Some(EncodeMetadata(facts)) && dir.past == {dir.files}
      ensures Inv() && this.dir == dir && fresh(session) && session.store == facts && !session.factsDirty
      ensures !session.planReady && session.segments == [] && session.metadata == map[]
      ensures storable == Storable(facts) && saved
    {
      var s := new Session(facts);
      session, this.dir, storable, saved := s, dir, Storable(facts), true;
      new;
      hide Storable, Durable, ValidStore, EncodeMetadataAs;
      if storable {
        CreatedIsDurable(dir.files, dir.name, facts);
        CreatedPast(dir.files, dir.name, facts);
      }
    }

    /** delete-session: when the directory could not be removed, anything may be left of it. */
    method RemoveDirectory(removed: bool, left: SessionDir)
      requires Inv()
      modifies this`storable, dir
      ensures Inv() && dir.files == if removed then SessionDir(None, None, None, None) else left
    {
      dir.Put(if removed then SessionDir(None, None, None, None) else left);
      storable := false;
    }

    /** add_system changes the facts, which have no memories yet, and drops the plan. */
    method SetSystem(system: Bytes)
      requires Inv() && session.store.memories == []
      modifies this`storable, this`saved, session
      ensures Inv() && session.store == old(session.store).(system := system, systemLocked := true)
      ensures session.factsDirty && !session.planReady && session.segments == [] && session.metadata == map[]
      ensures |system| <= MAX_STRING_BYTES ==> StayStorable(old(FactsOf(this)), FactsOf(this), 0)
    {
      hide Load, Storable, StayStorable, PastOlder;
      ghost var before := FactsOf(this);
      session.store := session.store.(system := system, systemLocked := true);
      session.factsDirty, session.planReady, session.segments, session.metadata := true, false, [], map[];
      saved, storable := false, storable && Storable(session.store);
      if |system| <= MAX_STRING_BYTES {
        NewSystemStays(before, FactsOf(this), system);
      }
      SameMemoriesAreOlder(before.store, session.store);
      if before.storable {
        PastGrows(dir.past, dir.name, before.store, session.store);
      }
    }

    /** A refused memory changes nothing; an accepted one makes the facts dirty, and makes a save
        due when it opened a segment. */
    method AppendMemory(core: Core, input: MemoryInput) returns (decision: Decision)
      requires Inv()
      modifies this`storable, this`saved, session
      ensures Inv() && session.planReady == old(session.planReady)
      ensures decision == old(PlannedOf(session)).Decide(core, input.text)
      ensures PlannedOf(session) == old(PlannedOf(session)).Appended(core, input)
      ensures decision.Refused? ==> session.metadata == old(session.metadata) && session.factsDirty == old(session.factsDirty)
      ensures !decision.Refused? ==>
                && session.segments != [] && session.factsDirty
                && session.metadata == old(session.metadata)[Last(session.segments).id :=
                     MissingEntry(session.store, Last(session.segments))]
      ensures saved == (old(saved) && !decision.Opens?)
      ensures ReadableInput(input) ==> StayStorable(old(FactsOf(this)), FactsOf(this), 1)
    {
      hide Load, Storable, Planned.Decide, Planned.Appended, ValidStore, Durable, StayStorable, PastOlder, OlderState;
      ghost var facts := FactsOf(this);
      ghost var before := PlannedOf(session);
      decision := AppendMemoryAndUpdatePlan(core, session, input);
      if !decision.Refused? {
        AppendKeepsValid(core, before, input);
        AcceptedAppends(core, before, input);
        AppendedIsNewer(before.store, session.store, before.NewRecord(core, input));
        if storable {
          AppendKeepsDurable(dir.files, dir.name, core, before, input, session.factsDirty, saved);
          PastGrows(dir.past, dir.name, before.store, session.store);
        }
        session.factsDirty := true;
      } else {
        RefusedChangesNothing(core, before, input);
      }
      saved, storable := saved && !decision.Opens?, storable && Storable(session.store);
      if ReadableInput(input) {
        NewMemoryStays(facts, FactsOf(this), core, before, input);
      }
    }

    /** next_segment records a boundary. */
    method SealSegment()
      requires Inv() && PlannedOf(session).CanSealSegment()
      modifies this`storable, this`saved, session`store, session`factsDirty
      ensures Inv() && PlannedOf(session) == old(PlannedOf(session)).Sealed() && session.factsDirty
      ensures StayStorable(old(FactsOf(this)), FactsOf(this), 1)
    {
      hide Load, Storable, StayStorable, PastOlder;
      ghost var before := FactsOf(this);
      session.store, session.factsDirty := session.store.(boundaries := session.store.boundaries + [session.store.nextIdx]), true;
      saved, storable := false, storable && Storable(session.store);
      NewBoundaryStays(before, FactsOf(this));
      SameMemoriesAreOlder(before.store, session.store);
      if before.storable {
        PastGrows(dir.past, dir.name, before.store, session.store);
      }
    }

    /** save-session turns kv_persist on. */
    method EnableKvPersist()
      requires Inv()
      modifies this`storable, this`saved, session`store, session`factsDirty
      ensures Inv() && session.store == old(session.store).(kvPersist := true) && session.factsDirty
      ensures StayStorable(old(FactsOf(this)), FactsOf(this), 0)
    {
      hide Load, Storable, StayStorable, PastOlder;
      ghost var before := FactsOf(this);
      session.store, session.factsDirty := session.store.(kvPersist := true), true;
      saved, storable := false, storable && Storable(session.store);
      NewFlagStays(before, FactsOf(this));
      SameMemoriesAreOlder(before.store, session.store);
      if before.storable {
        PastGrows(dir.past, dir.name, before.store, session.store);
      }
    }

    /** save_session_metadata, as add_system uses it before there are memories. */
    method PersistMetadata(faults: SaveFaults) returns (ok: bool)
      requires Inv() && session.store.memories == []
      modifies this`saved, session`factsDirty, dir
      ensures Inv() && saved == (ok || old(saved)) && session.factsDirty == (!ok && old(session.factsDirty))
      ensures ok <==> faults.writeMetadata && faults.renameMetadata
      ensures storable ==> forall f | f in dir.past - old(dir.past) ::
                Load(f, dir.name) == Load(old(dir.files), dir.name) || Load(f, dir.name) == Some(session.store)
    {
      hide Load, ValidStore, Storable, EncodeMetadataAs, PastOlder;
      ok := dir.SaveSessionMetadata(session.store, faults);
      if ok {
        session.factsDirty, saved := false, true;
      }
      if storable {
        forall f | f in dir.past - old(dir.past) || f == dir.files
          ensures Load(f, dir.name) == Load(old(dir.files), dir.name) || Load(f, dir.name) == Some(session.store)
        {
          MetadataSaveLoads(old(dir.files), f, session.store, dir.name);
        }
        SameAsItself(Load(old(dir.files), dir.name).value);
        PastOfSave(old(dir.past), dir.past, old(dir.files), dir.name, session.store);
        if ok {
          MetadataSaveLoads(old(dir.files), dir.files, session.store, dir.name);
          SameAsItself(session.store);
        } else {
          SameFilesLoadAlike(old(dir.files), dir.files, dir.name);
        }
      }
    }

    /** persist_session_store: afterwards the facts are dirty exactly when the save failed. Whenever
        the process dies meanwhile, the directory loads as the old facts or as the new ones. */
    method Persist(faults: SaveFaults) returns (ok: bool)
      requires Inv()
      modifies this`saved, session`factsDirty, dir
      ensures Inv() && session.factsDirty == !ok && saved == ok
      ensures ok <==> faults == NO_FAULTS
      ensures storable ==> forall f | f in dir.past - old(dir.past) ::
                Load(f, dir.name).Some? &&
                (SameFacts(Load(f, dir.name).value, Load(old(dir.files), dir.name).value) || Load(f, dir.name).value == session.store)
    {
      hide Load, ValidStore, DuringSave, Storable, PastOlder;
      ok := dir.SaveSession(session.store, faults);
      session.factsDirty, saved := !ok, ok;
      if storable {
        DirectoryAfterSave(old(dir.files), dir.files, session.store, dir.name, ok);
        forall f | f in dir.past - old(dir.past)
          ensures Load(f, dir.name).Some? &&
                  (SameFacts(Load(f, dir.name).value, Load(old(dir.files), dir.name).value) || Load(f, dir.name).value == session.store)
        {
          DirectoryDuringSave(old(dir.files), f, session.store, dir.name);
        }
        PastOfSave(old(dir.past), dir.past, old(dir.files), dir.name, session.store);
      }
    }

    method PersistIfDirty(faults: SaveFaults) returns (ok: bool)
      requires Inv()
      modifies this`saved, session`factsDirty, dir
      ensures Inv()
      ensures !old(session.factsDirty) ==> ok && dir.files == old(dir.files) && saved == old(saved)
      ensures ok ==> !session.factsDirty
      ensures old(session.factsDirty) ==> session.factsDirty == !ok && saved == ok
      ensures faults == NO_FAULTS ==> ok
    {
      if !session.factsDirty {
        return true;
      }
      ok := Persist(faults);
    }
  }

  lemma {:induction false} LoadedIsValid(files: SessionDir, name: Bytes)
    requires Load(files, name).Some?
    ensures ValidStore(Load(files, name).value)
  {
    hide ParseMetadata, ParseMemories, ValidStore;
  }

  lemma {:induction false} SameAsItself(store: SessionStore)
    ensures SameFacts(store, store) && Grows(store, store)
  {
    assert store.memories[..|store.memories|] == store.memories;
  }

  lemma {:induction false} CreatedPast(files: SessionDir, name: Bytes, facts: SessionStore)
    requires Durable(files, name, facts, [], false, true)
    ensures PastOlder({files}, name, facts)
  {
    hide Load;
  }

  lemma {:induction false} CreatedIsDurable(files: SessionDir, name: Bytes, facts: SessionStore)
    requires ValidStore(facts) && Storable(facts) && facts.memories == [] && facts.sessionId == name
    requires files.metadata == Some(EncodeMetadata(facts))
    ensures Durable(files, name, facts, [], false, true)
  {
    hide Load, ValidStore, EncodeMetadataAs, Representable, ReadableMetadata;
    EmptySessionLoadsBack(facts, files);
    SameAsItself(facts);
  }

  // ----- Appending a memory -----

  lemma {:induction false} RefusedChangesNothing(core: Core, p: Planned, input: MemoryInput)
    requires p.Decide(core, input.text).Refused?
    ensures p.Appended(core, input) == p
  {
  }

  lemma {:induction false} AcceptedAppends(core: Core, p: Planned, input: MemoryInput)
    requires !p.Decide(core, input.text).Refused?
    ensures var p' := p.Appended(core, input);
            && p'.store == p.store.(memories := p.store.memories + [p.NewRecord(core, input)],
                                    nextIdx := p.store.nextIdx + 1, systemLocked := true)
            && p'.segments != [] && p.store.nextIdx in Last(p'.segments).indices
            && (p.Decide(core, input.text).Extends? ==>
                  p.segments != [] && Last(p'.segments).indices == Last(p.segments).indices + [p.store.nextIdx])
  {
    hide SoftLimit, AppendTokenEstimate;
  }

  lemma {:induction false} AppendKeepsValid(core: Core, p: Planned, input: MemoryInput)
    requires ValidStore(p.store) && !p.Decide(core, input.text).Refused?
    ensures ValidStore(p.Appended(core, input).store)
    ensures p.Appended(core, input).store.sessionId == p.store.sessionId
  {
    hide Planned.Decide, Planned.Appended, IsValidSessionId;
    AcceptedAppends(core, p, input);
  }

  /** The files still hold an older state; with one more memory unsaved, in the last segment. */
  lemma {:induction false} AppendKeepsDurable(files: SessionDir, name: Bytes, core: Core, p: Planned, input: MemoryInput,
                                              dirty: bool, saved: bool)
    requires Durable(files, name, p.store, p.segments, dirty, saved) && !p.Decide(core, input.text).Refused?
    ensures var p' := p.Appended(core, input);
            Durable(files, name, p'.store, p'.segments, true, saved && !p.Decide(core, input.text).Opens?)
  {
    hide Load, Planned.Decide, Planned.Appended;
    AcceptedAppends(core, p, input);
    var older, p' := Load(files, name).value, p.Appended(core, input);
    assert p'.store.memories[..|older.memories|] == p.store.memories[..|older.memories|];
  }

  // ----- Planning a session that was just loaded -----

  /** Planning may fill in token estimates; nothing is unsaved while there is no plan. */
  lemma {:induction false} PlanningKeepsDurable(files: SessionDir, name: Bytes, store: SessionStore, planned: SessionStore,
                                                segments: seq<Segment>, dirty: bool, saved: bool)
    requires Durable(files, name, store, [], dirty, saved) && SameFacts(planned, store)
    ensures Durable(files, name, planned, segments, dirty, saved)
  {
    hide Load, SameMemory;
    var older := Load(files, name).value;
    SameFactsFields(planned, store);
    NothingUnsaved(older, store);
    PlannedGrows(older, store, planned);
    if !dirty {
      SameFactsBack(planned, store);
      SameFactsChain(older, store, planned);
    }
  }

  lemma {:induction false} NothingUnsaved(older: SessionStore, store: SessionStore)
    ensures OnlyTailUnsaved(older, store, []) ==> |older.memories| == |store.memories|
  {
    assert |older.memories| < |store.memories| ==> store.memories[|older.memories|].idx == store.memories[|older.memories|].idx;
  }

  lemma {:induction false} PlannedGrows(older: SessionStore, store: SessionStore, planned: SessionStore)
    requires OlderState(older, store) && SameFacts(planned, store)
    ensures OlderState(older, planned)
  {
    assert planned.sessionId == planned.(memories := []).sessionId == store.(memories := []).sessionId == store.sessionId;
    forall i | 0 <= i < |older.memories| ensures SameMemory(older.memories[i], planned.memories[..|older.memories|][i]) {
      assert SameMemory(older.memories[i], store.memories[..|older.memories|][i]) && SameMemory(planned.memories[i], store.memories[i]);
    }
  }

  lemma {:induction false} SameFactsChain(a: SessionStore, b: SessionStore, c: SessionStore)
    requires SameFacts(a, b) && SameFacts(b, c)
    ensures SameFacts(a, c)
  {
    forall i | 0 <= i < |a.memories| ensures SameMemory(a.memories[i], c.memories[i]) {
      assert SameMemory(a.memories[i], b.memories[i]) && SameMemory(b.memories[i], c.memories[i]);
    }
  }

  lemma {:induction false} SameFactsFields(a: SessionStore, b: SessionStore)
    requires SameFacts(a, b)
    ensures SameButMemories(a, b)
  {
    var x, y := a.(memories := []), b.(memories := []);
    assert a.(memories := [], nextIdx := 0, systemLocked := false) == x.(nextIdx := 0, systemLocked := false);
    assert b.(memories := [], nextIdx := 0, systemLocked := false) == y.(nextIdx := 0, systemLocked := false);
  }

  lemma {:induction false} SameName(a: SessionStore, b: SessionStore)
    requires SameFacts(a, b)
    ensures a.sessionId == b.sessionId && a.system == b.system
  {
    var x, y := a.(memories := []), b.(memories := []);
    assert a.sessionId == x.sessionId && a.system == x.system;
    assert b.sessionId == y.sessionId && b.system == y.system;
  }

  // ----- What saves leave behind -----

  lemma {:induction false} MetadataSaveLoads(before: SessionDir, now: SessionDir, store: SessionStore, name: Bytes)
    requires Storable(store) && ValidStore(store) && store.sessionId == name && store.memories == []
    requires now.memories == before.memories && now.metadata in {before.metadata, Some(EncodeMetadata(store))}
    ensures Load(now, name) == Load(before, name) || Load(now, name) == Some(store)
    ensures now.metadata == Some(EncodeMetadata(store)) ==> Load(now, name) == Some(store)
  {
    hide Load, ValidStore, EncodeMetadataAs, Representable, ReadableMetadata;
    if now.metadata == Some(EncodeMetadata(store)) {
      EmptySessionLoadsBack(store, now);
    } else {
      SameFilesLoadAlike(before, now, name);
    }
  }

  /** What a save left loads as the old facts or as the new ones; as the new ones if it succeeded. */
  lemma {:induction false} DirectoryDuringSave(before: SessionDir, now: SessionDir, store: SessionStore, name: Bytes)
    requires Load(before, name).Some? && OlderState(Load(before, name).value, store)
    requires Storable(store) && ValidStore(store) && store.sessionId == name && DuringSave(before, store, now)
    ensures Load(now, name).Some?
    ensures SameFacts(Load(now, name).value, Load(before, name).value) || Load(now, name).value == store
    ensures now.metadata == Some(EncodeMetadata(store)) && now.memories == Some(EncodeMemories(store)) ==>
              Load(now, name).value == store
  {
    hide Load, ValidStore, DuringSave, Representable, Readable;
    SaveIsCrashConsistent(before, Load(before, name).value, store, now, name);
  }

  lemma {:induction false} SameFactsGrow(a: SessionStore, b: SessionStore, c: SessionStore)
    requires SameFacts(a, b) && OlderState(b, c)
    ensures OlderState(a, c)
  {
    assert a.sessionId == a.(memories := []).sessionId == b.(memories := []).sessionId;
    forall i | 0 <= i < |a.memories| ensures SameMemory(a.memories[i], c.memories[..|a.memories|][i]) {
      assert SameMemory(a.memories[i], b.memories[i]) && SameMemory(b.memories[i], c.memories[..|b.memories|][i]);
    }
  }

  lemma {:induction false} DirectoryAfterSave(before: SessionDir, now: SessionDir, store: SessionStore, name: Bytes, ok: bool)
    requires Load(before, name).Some? && OlderState(Load(before, name).value, store)
    requires Storable(store) && ValidStore(store) && store.sessionId == name && DuringSave(before, store, now)
    requires ok ==> now.metadata == Some(EncodeMetadata(store)) && now.memories == Some(EncodeMemories(store))
    ensures Load(now, name).Some? && OlderState(Load(now, name).value, store)
    ensures ok ==> Load(now, name).value == store && SameFacts(store, store)
  {
    hide Load, ValidStore, DuringSave, Storable, SameFacts, Grows;
    DirectoryDuringSave(before, now, store, name);
    SameAsItself(store);
    if Load(now, name).value != store {
      SameFactsGrow(Load(now, name).value, Load(before, name).value, store);
    }
  }
}
