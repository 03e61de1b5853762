/** Planning one memory at a time (session_manager.cpp): the commands add-system, add-memory
    and next-segment as they act on the facts and the plan of a session. */
module IncrementalPlan {
  import opened Basics
  import opened Persistent
  import opened SessionState
  import opened SegmentPlanner
  import opened ContentHash

  datatype MemoryInput = MemoryInput(hasId: bool, id: Bytes, text: Bytes)

  /** Where a new memory goes. */
  datatype Decision =
    | Refused(error: PlanError)
    | Opens(tokens: int, manual: bool, auto: bool)
    | Extends(estimated: int, exact: int)

  /** The facts and the plan that the planning commands work on. */
  datatype Planned = Planned(store: SessionStore, segments: seq<Segment>) {

    function Decide(core: Core, text: Bytes): Decision {
      if SoftLimit(core) <= 0 then Refused(NoContextLength)
      else
        match core.kvTokens(store.system, [text])
        case None => Refused(EstimateFailed)
        case Some(single) =>
          if single > SoftLimit(core) then Refused(MemoryTooLarge)
          else if segments == [] || store.nextIdx in store.boundaries then
            OpenIfRoom(Opens(single, store.nextIdx in store.boundaries, false))
          else
            match core.kvTokens(store.system, [])
            case None => Refused(EstimateFailed)
            case Some(empty) =>
              var cheap := AppendTokenEstimate(Last(segments).estimated, empty, single);
              if cheap <= SoftLimit(core) then Extends(cheap, 0)
              else
                match core.kvTokens(store.system, SegmentTexts(store.memories, Last(segments).indices) + [text])
                case None => Refused(EstimateFailed)
                case Some(exact) =>
                  if exact <= SoftLimit(core) then Extends(exact, exact)
                  else OpenIfRoom(Opens(single, false, true))
    }

    function OpenIfRoom(decision: Decision): Decision {
      if |segments| >= MAX_SEGMENTS then Refused(SegmentLimitExceeded) else decision
    }

    function NewRecord(core: Core, input: MemoryInput): MemoryRecord {
      MemoryRecord(store.nextIdx, input.hasId, input.id, input.text, core.textTokens(input.text).GetOr(0))
    }

    function Appended(core: Core, input: MemoryInput): Planned {
      var decision := Decide(core, input.text);
      var store' := store.(memories := store.memories + [NewRecord(core, input)],
                           nextIdx := store.nextIdx + 1,
                           systemLocked := true);
      match decision
      case Refused(_) => this
      case Opens(tokens, manual, auto) =>
        Planned(store', segments + [Segment(|segments|, [store.nextIdx], tokens, tokens, manual, auto)])
      case Extends(estimated, exact) =>
        if segments == [] then this else Planned(store', ExtendLast(segments, store.nextIdx, estimated, exact))
    }

    predicate CanSealSegment() {
      segments != [] && Last(segments).indices != [] && store.nextIdx !in store.boundaries
    }

    function Sealed(): Planned {
      if CanSealSegment() then this.(store := store.(boundaries := store.boundaries + [store.nextIdx])) else this
    }

    function WithSystem(system: Bytes): Planned {
      if store.memories == [] then Planned(store.(system := system, systemLocked := true), []) else this
    }
  }

  ghost function PlannedOf(session: Session): Planned
    reads session
  {
    Planned(session.store, session.segments)
  }

  function MissingEntry(store: SessionStore, segment: Segment): CacheEntry {
    CacheEntry(SegmentHash(store, segment.indices), true, Missing, 0, 0)
  }

  method MarkSegmentKvMissing(session: Session, segment: Segment)
    modifies session`metadata
    ensures session.metadata == old(session.metadata)[segment.id := MissingEntry(session.store, segment)]
  {
    var hash := SegmentKvContentHash(session.store, segment);
    session.metadata := session.metadata[segment.id := CacheEntry(hash, true, Missing, 0, 0)];
  }

  /** Appends a memory in place; a refused memory changes nothing. */
  method AppendMemoryAndUpdatePlan(core: Core, session: Session, input: MemoryInput) returns (decision: Decision)
    modifies session`store, session`segments, session`metadata
    ensures decision == old(PlannedOf(session)).Decide(core, input.text)
    ensures PlannedOf(session) == old(PlannedOf(session)).Appended(core, input)
    ensures decision.Refused? ==> session.metadata == old(session.metadata)
    ensures !decision.Refused? ==>
              && session.segments != []
              && session.metadata == old(session.metadata)[Last(session.segments).id :=
                   MissingEntry(session.store, Last(session.segments))]
  {
    decision := DecidePlace(core, session, input.text);
    if decision.Refused? {
      return;
    }
    var tokens := core.textTokens(input.text);
    PlaceRecord(session, MemoryRecord(session.store.nextIdx, input.hasId, input.id, input.text,
                                      if tokens.Some? then tokens.value else 0), decision);
    MarkSegmentKvMissing(session, Last(session.segments));
  }

  method PlaceRecord(session: Session, record: MemoryRecord, decision: Decision)
    requires !decision.Refused? && (decision.Extends? ==> session.segments != [])
    modifies session`store, session`segments
    ensures session.store == old(session.store).(memories := old(session.store.memories) + [record],
                                                 nextIdx := old(session.store.nextIdx) + 1,
                                                 systemLocked := true)
    ensures session.segments ==
            match decision
            case Opens(tokens, manual, auto) =>
              old(session.segments) + [Segment(old(|session.segments|), [record.idx], tokens, tokens, manual, auto)]
            case Extends(estimated, exact) => ExtendLast(old(session.segments), record.idx, estimated, exact)
  {
    session.store := session.store.(memories := session.store.memories + [record],
                                    nextIdx := session.store.nextIdx + 1,
                                    systemLocked := true);
    if decision.Opens? {
      session.segments := session.segments +
        [Segment(|session.segments|, [record.idx], decision.tokens, decision.tokens, decision.manual, decision.auto)];
    } else {
      session.segments := ExtendLast(session.segments, record.idx, decision.estimated, decision.exact);
    }
  }

  /** The part of add-memory that only looks: is there room, and where. */
  method DecidePlace(core: Core, session: Session, text: Bytes) returns (decision: Decision)
    ensures decision == PlannedOf(session).Decide(core, text)
    ensures decision.Extends? ==> session.segments != []
  {
    var softLimit := SoftLimit(core);
    if softLimit <= 0 {
      return Refused(NoContextLength);
    }
    var startsManual := session.store.nextIdx in session.store.boundaries;
    var single := core.kvTokens(session.store.system, [text]);
    if single == None {
      return Refused(EstimateFailed);
    }
    if single.value > softLimit {
      return Refused(MemoryTooLarge);
    }
    if session.segments == [] || startsManual {
      decision := Opens(single.value, startsManual, false);
    } else {
      var empty := core.kvTokens(session.store.system, []);
      if empty == None {
        return Refused(EstimateFailed);
      }
      var candidate := AppendTokenEstimate(Last(session.segments).estimated, empty.value, single.value);
      decision := Extends(candidate, 0);
      if candidate > softLimit {
        var texts := CollectSegmentMemoryTexts(session.store, Last(session.segments));
        var exact := core.kvTokens(session.store.system, texts + [text]);
        if exact == None {
          return Refused(EstimateFailed);
        }
        decision := if exact.value > softLimit then Opens(single.value, false, true) else Extends(exact.value, exact.value);
      }
    }
    if decision.Opens? && |session.segments| >= MAX_SEGMENTS {
      decision := Refused(SegmentLimitExceeded);
    }
  }
}
