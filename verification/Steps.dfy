/** The commands, each with the outcome of every file operation it tries: what each of them does to
    the sessions, and what it keeps of the saved segments, the durability and the order of all. */
module Steps {
  import opened Basics
  import opened Persistent
  import opened SessionState
  import opened IncrementalPlan
  import PlanRefinement
  import opened CacheManifest
  import opened SegmentKV
  import opened Coherence
  import opened KVManager
  import opened BinaryIO
  import opened SessionFiles
  import opened SessionSaving
  import opened Durability
  import opened StorageNames
  import opened PlanInvariant
  import opened SessionPlans
  import opened SessionCommands
  import opened IndexCommands
  import opened PlanRestore
  import opened MemoryRoom
  import opened SegmentPlanner
  import opened PlanOrder
  import opened SearchCommands
  import opened OneshotSearch
  import opened SavedSegments

  /** A command, with the outcome of every file operation it tries. */
  datatype Command =
    | Create(id: Bytes, kvPersist: bool, directoryExists: bool, faults: SaveFaults)
    | Restore(id: Bytes, files: Option<SessionDir>)
    | SetSystem(id: Bytes, system: Bytes, faults: SaveFaults)
    | Add(id: Bytes, input: MemoryInput, faults: SaveFaults)
    | Next(id: Bytes, faults: SaveFaults)
    | Clear(id: Bytes)
    | Delete(id: Bytes, removed: bool, left: SessionDir, leftFiles: set<Key>, leftManifest: bool)
    | Index(id: Bytes, faults: SaveFaults, indexFaults: IndexFaults)
    | Save(id: Bytes, faults: SaveFaults, indexFaults: IndexFaults)
    | Find(id: Bytes, query: Query, topK: int)
    | FindOnce(system: Bytes, inputs: seq<MemoryInput>, query: Query, topK: int)
    | Restarted
  {
    predicate IsOn(session: Bytes) {
      !FindOnce? && !Restarted? && id == session
    }

    /** Afterwards session `session` is no longer known, or may not be. */
    predicate Ends(session: Bytes) {
      Restarted? || (Delete? && id == session)
    }

    /** The command works on the plan of its session. */
    predicate OnPlan() {
      Clear? || Index? || Save? || Find?
    }

    /** What the command asks of the plan of its session. */
    function Planning(): Option<PlanRefinement.Command> {
      if SetSystem? then Some(PlanRefinement.AddSystem(system))
      else if Add? then Some(PlanRefinement.AddMemory(input))
      else if Next? then Some(PlanRefinement.NextSegment)
      else None
    }

    /** No restore loads a session under a name that is not its own. */
    ghost predicate KeepsNames(model: ModelKey) {
      Restore? && files.Some? ==> KeepsName(model, id, files.value)
    }
  }

  /** A command, and what the engine does while it runs: what fails now may work the next time. */
  datatype Step = Step(command: Command, engine: Engine)

  /** The segments that a command may stop from counting as saved. */
  ghost function Touched(c: Command, before: Views, after: Views): set<Key> {
    match c
    case Delete(id, _, _, _, _) => KeysOf(before, id)
    case Add(id, _, _) => LastOf(after, id)
    case Restarted => AllKeys(before)
    case _ => {}
  }

  /** The session that a command is about. */
  function Subject(c: Command): Bytes {
    if c.FindOnce? || c.Restarted? then [] else c.id
  }

  // ----- Which runs stay within the limits -----

  /** Memories and boundaries that a command may add to its session. */
  function Cost(c: Command): nat {
    if c.Add? || c.Next? then 1 else 0
  }

  /** Every save that the command makes works. */
  ghost predicate Clean(c: Command) {
    c.SetSystem? || c.Add? || c.Next? || c.Index? || c.Save? ==> c.faults == NO_FAULTS
  }

  /** What the command stores is small enough for the readers, with room for so many more memories
      and boundaries; and it does not fail to remove a directory. */
  ghost predicate SmallEnough(c: Command, left: nat, model: ModelKey) {
    match c
    case Create(id, kvPersist, _, _) => StoreFits(FreshStore(id, kvPersist), left)
    case Restore(id, files) =>
      files.Some? && Load(files.value, SessionLayout(model, id).session).Some? ==>
        HasSpace(Load(files.value, SessionLayout(model, id).session).value, left)
    case SetSystem(_, system, _) => |system| <= MAX_STRING_BYTES
    case Add(_, input, _) => ReadableInput(input)
    case Delete(_, removed, _, _, _) => removed
    case _ => true
  }

  /** Room for so many more memories and boundaries; a store that loads is within the limits otherwise. */
  predicate HasSpace(store: SessionStore, left: nat) {
    |store.memories| + left <= MAX_MEMORY_RECORDS && |store.boundaries| + left <= MAX_VECTOR_ITEMS && store.nextIdx + left <= 0x7fff_ffff_ffff_ffff
  }

  lemma {:induction false} SpaceFits(store: SessionStore, left: nat)
    requires Storable(store) && HasSpace(store, left)
    ensures StoreFits(store, left)
  {
    hide RepresentableRecord, ReadableRecord;
  }

  /** How many memories and boundaries the steps may add to session `id`. */
  function Growth(steps: seq<Step>, id: Bytes): nat {
    if steps == [] then 0 else Growth(steps[1..], id) + if steps[0].command.IsOn(id) then Cost(steps[0].command) else 0
  }

  /** All that the steps do to session `id` stays within the limits. */
  ghost predicate StepsFit(steps: seq<Step>, id: Bytes, model: ModelKey) {
    steps != [] ==>
      && (steps[0].command.IsOn(id) ==> SmallEnough(steps[0].command, Growth(steps[1..], id), model))
      && StepsFit(steps[1..], id, model)
  }

  /** Runs within the record limits fit: where a session is created there is room for all that is added
      to it later, so that only restored sessions have to be looked at. */
  lemma {:induction false} SmallRunsFit(steps: seq<Step>, id: Bytes, model: ModelKey, growth: nat)
    requires |id| <= MAX_STRING_BYTES && Growth(steps, id) <= growth <= MAX_MEMORY_RECORDS && growth <= MAX_VECTOR_ITEMS
    requires forall step | step in steps && step.command.IsOn(id) && !step.command.Create? :: SmallEnough(step.command, growth, model)
    ensures StepsFit(steps, id, model)
  {
    hide SmallEnough, StoreFits;
    if steps != [] {
      var c, left := steps[0].command, Growth(steps[1..], id);
      assert steps[0] in steps && forall step | step in steps[1..] :: step in steps;
      SmallRunsFit(steps[1..], id, model, growth);
      if c.IsOn(id) {
        if c.Create? {
          FreshFits(id, c.kvPersist, left);
          CreateFits(c, left, model);
        } else {
          SmallEnoughLess(c, growth, left, model);
        }
      }
    }
  }

  lemma CreateFits(c: Command, left: nat, model: ModelKey)
    requires c.Create? && StoreFits(FreshStore(c.id, c.kvPersist), left)
    ensures SmallEnough(c, left, model)
  {
  }

  lemma {:induction false} SmallEnoughLess(c: Command, more: nat, less: nat, model: ModelKey)
    requires SmallEnough(c, more, model) && less <= more
    ensures SmallEnough(c, less, model)
  {
    hide Load, Storable, SessionLayout;
    if c.Create? {
      FitsLess(FreshStore(c.id, c.kvPersist), more, less);
    }
  }

  /** No save of session `id` fails. */
  ghost predicate StepsClean(steps: seq<Step>, id: Bytes) {
    forall i :: 0 <= i < |steps| && steps[i].command.IsOn(id) ==> Clean(steps[i].command)
  }

  // ----- What a command does -----

  /** Afterwards `id` is known just when it was, or `enters`; if it was it is as it was. */
  ghost predicate Enters(id: Bytes, before: Views, after: Views, enters: bool) {
    && (id in after <==> id in before || enters)
    && (id in before && id in after ==> after[id] == before[id])
  }

  /** What a command does to the session that it is about. */
  ghost predicate OwnEffect(step: Step, core: Core, model: ModelKey, before: Views, after: Views) {
    var (c, e) := (step.command, step.engine);
    match c
    case Restarted => after == map[]
    case FindOnce(_, _, _, _) => after == before
    case Create(id, kvPersist, directoryExists, faults) =>
      && Enters(id, before, after, Creates(id, directoryExists, faults))
      && (id in after && id !in before ==> PlanIn(after[id]) == PlanRefinement.FreshSession(id, kvPersist))
    case Restore(id, files) =>
      var found := if files.Some? then Load(files.value, SessionLayout(model, id).session) else None;
      && Enters(id, before, after, IsValidSessionId(id) && found.Some?)
      && (id in after && id !in before ==> found.Some? && PlanIn(after[id]) == Planned(found.value, []))
    case Delete(id, removed, _, _, _) =>
      && (Exports(e) && IsValidSessionId(id) && removed ==> id !in after) && (!removed && id in before ==> id in after)
      && (id in after ==> id in before && PlanIn(after[id]) == PlanIn(before[id]))
    case Clear(id) =>
      SamePlans(id, before, after) && (Exports(e) && IsValidSessionId(id) && id in after ==> NoneResident(after[id].metadata))
    case Find(id, _, _) =>
      && (id in after <==> id in before)
      && (id in before && id in after ==> Follows(e, id, before[id], after[id], PlanIn(before[id])))
    case Index(id, _, _) =>
      && (id in after <==> id in before)
      && (id in before && id in after && before[id].segments != [] ==>
            after[id].store == before[id].store && SameRuns(before[id].segments, after[id].segments))
    case Save(id, _, _) =>
      && (id in after <==> id in before)
      && (id in before && id in after && before[id].segments != [] ==>
            PersistentStore(after[id].store) == PersistentStore(before[id].store) && SameRuns(before[id].segments, after[id].segments))
    case _ => FollowsCommand(e, core, c.id, c.Planning().value, before, after)
  }

  ghost predicate SamePlans(id: Bytes, before: Views, after: Views) {
    && (id in after <==> id in before)
    && (id in before && id in after ==> PlanIn(after[id]) == PlanIn(before[id]))
  }

  /** What a command does: it leaves the other sessions alone, but for the end of the process. */
  ghost predicate Effect(step: Step, core: Core, model: ModelKey, before: Views, after: Views) {
    && OwnEffect(step, core, model, before, after)
    && forall j | (j in before || j in after) && !step.command.IsOn(j) && !step.command.Restarted? ::
         j in before && j in after && after[j] == before[j]
  }

  lemma {:induction false} KeptHasEffect(step: Step, core: Core, model: ModelKey, before: Views, files: map<Key, Snapshot>, after: Views,
                                         files': map<Key, Snapshot>)
    requires Kept(step, model, before, files, after, files') && OwnEffect(step, core, model, before, after)
    ensures Effect(step, core, model, before, after)
  {
    hide OwnEffect, StaySaved, NewStands, StayStorable;
    if step.command.FindOnce? {
      NothingAtOnce(step, core, model, before, after);
    }
  }

  lemma NothingAtOnce(step: Step, core: Core, model: ModelKey, before: Views, after: Views)
    requires OwnEffect(step, core, model, before, after)
    ensures step.command.FindOnce? ==> after == before
  {
  }

  /** The parts of `OwnEffect`, command by command. */
  lemma {:induction false} EffectMeans(step: Step, core: Core, model: ModelKey, before: Views, after: Views)
    ensures var c := step.command;
            && (c.Restarted? ==> OwnEffect(step, core, model, before, after) == (after == map[]))
            && (c.FindOnce? ==> OwnEffect(step, core, model, before, after) == (after == before))
            && (c.Create? && Enters(c.id, before, after, Creates(c.id, c.directoryExists, c.faults))
                  && (c.id in after && c.id !in before ==> after[c.id].store == FreshStore(c.id, c.kvPersist) && after[c.id].segments == []) ==>
                  OwnEffect(step, core, model, before, after))
            && (c.Restore?
                  && Enters(c.id, before, after, IsValidSessionId(c.id) && c.files.Some? && Load(c.files.value, SessionLayout(model, c.id).session).Some?)
                  && (c.id in after && c.id !in before ==>
                        && c.files.Some? && Load(c.files.value, SessionLayout(model, c.id).session) == Some(after[c.id].store)
                        && after[c.id].segments == []) ==>
                  OwnEffect(step, core, model, before, after))
            && (c.Delete? && (Exports(step.engine) && IsValidSessionId(c.id) && c.removed ==> c.id !in after)
                  && (!c.removed && c.id in before ==> c.id in after)
                  && (c.id in after ==> c.id in before && PlanIn(after[c.id]) == PlanIn(before[c.id])) ==>
                  OwnEffect(step, core, model, before, after))
  {
    hide Follows, SameRuns, Creates, Exports, IsValidSessionId, Load, SessionLayout, Enters;
  }

  lemma {:induction false} PlanEffectMeans(step: Step, core: Core, model: ModelKey, before: Views, after: Views)
    ensures var (c, e) := (step.command, step.engine);
            && (c.Planning().Some? && FollowsCommand(e, core, c.id, c.Planning().value, before, after) ==> OwnEffect(step, core, model, before, after))
            && (c.OnPlan() && (c.id in before <==> c.id in after)
                  && (c.id in before && c.id in after ==>
                        var (v, v') := (before[c.id], after[c.id]);
                        && (c.Clear? ==> PlanIn(v') == PlanIn(v) && (Exports(e) && IsValidSessionId(c.id) ==> NoneResident(v'.metadata)))
                        && (c.Find? ==> Follows(e, c.id, v, v', PlanIn(v)))
                        && (c.Index? && v.segments != [] ==> v'.store == v.store && SameRuns(v.segments, v'.segments))
                        && (c.Save? && v.segments != [] ==> PersistentStore(v'.store) == PersistentStore(v.store) && SameRuns(v.segments, v'.segments))) ==>
                  OwnEffect(step, core, model, before, after))
  {
    hide Follows, SameRuns, PersistentStore, PlanIn, FollowsCommand, NoneResident, Exports, IsValidSessionId;
  }

  lemma EntersMeans(id: Bytes, before: Views, after: Views, enters: bool)
    ensures Enters(id, before, after, enters) <==>
            (id in after <==> id in before || enters) && (id in before && id in after ==> after[id] == before[id])
  {
  }

  // ----- One command -----

  /** What a command does for the durability, and the order, of a session it makes known. */
  ghost predicate NewStands(c: Command, model: ModelKey, before: Views, after: Views) {
    forall id | id in after && id !in before ::
      && c.IsOn(id) && after[id].saved
      && (c.Create? ==> InOrder(after[id].store, after[id].segments))
      && (c.Create? || c.Restore?)
      && forall left: nat | SmallEnough(c, left, model) :: after[id].storable && StoreFits(after[id].store, left)
  }

  ghost predicate Kept(step: Step, model: ModelKey, before: Views, files: map<Key, Snapshot>, after: Views, files': map<Key, Snapshot>) {
    var c := step.command;
    && StepKeeps(step.engine, Subject(c), before, files, after, files', Touched(c, before, after), Cost(c), SmallEnough(c, 0, model), Clean(c))
    && NewStands(c, model, before, after)
    && forall id | id in before && !c.Ends(id) :: id in after
  }

  /** What a command did and kept, in the terms of the command. */
  ghost predicate Performed(step: Step, core: Core, model: ModelKey, before: Views, files: map<Key, Snapshot>, after: Views, files': map<Key, Snapshot>,
                            fits: bool, clean: bool) {
    var c := step.command;
    && StepKeeps(step.engine, Subject(c), before, files, after, files', Touched(c, before, after), Cost(c), fits, clean)
    && (SmallEnough(c, 0, model) ==> fits) && (Clean(c) ==> clean)
    && OwnEffect(step, core, model, before, after)
  }

  lemma PerformedMeans(step: Step, core: Core, model: ModelKey, before: Views, files: map<Key, Snapshot>, after: Views, files': map<Key, Snapshot>,
                       fits: bool, clean: bool)
    ensures var c := step.command;
            Performed(step, core, model, before, files, after, files', fits, clean) <==>
              && StepKeeps(step.engine, Subject(c), before, files, after, files', Touched(c, before, after), Cost(c), fits, clean)
              && (SmallEnough(c, 0, model) ==> fits) && (Clean(c) ==> clean)
              && OwnEffect(step, core, model, before, after)
  {
  }

  /** Runs a command that asks something of the plan. */
  method PerformPlanning(m: SessionManager, step: Step) returns (ghost fits: bool, ghost clean: bool)
    requires m.Inv() && step.command.Planning().Some?
    modifies m, m.kv, m.kv.table, m.kv.resident, m.kv.log, m.disk, m.repr
    ensures m.Inv() && fresh(m.repr - old(m.repr)) && m.sessions == old(m.sessions)
    ensures Performed(step, m.core, m.model, old(ViewsOf(m)), old(m.disk.files), ViewsOf(m), m.disk.files, fits, clean)
  {
    hide *;
    ObjectsInRepr(m);
    ghost var before, files := ViewsOf(m), m.disk.files;
    CommandMeans(step.command, m.model);
    TouchedMeans(step.command, before);
    var e := step.engine;
    fits, clean := true, true;
    match step.command {
      case SetSystem(id, system, faults) =>
        SetSystemAndKeep(m, e, id, system, faults);
        fits, clean := |system| <= MAX_STRING_BYTES, faults == NO_FAULTS;
        PlanEffectMeans(step, m.core, m.model, before, ViewsOf(m));
      case Add(id, input, faults) =>
        AddAndKeep(m, e, id, input, faults);
        fits, clean := ReadableInput(input), faults == NO_FAULTS;
        PlanEffectMeans(step, m.core, m.model, before, ViewsOf(m));
      case Next(id, faults) =>
        NextAndKeep(m, e, id, faults);
        clean := faults == NO_FAULTS;
        PlanEffectMeans(step, m.core, m.model, before, ViewsOf(m));
      case _ => assert false;
    }
    PerformedMeans(step, m.core, m.model, before, files, ViewsOf(m), m.disk.files, fits, clean);
  }

  /** Runs a command that works on the plan there is. */
  method PerformOnPlan(m: SessionManager, step: Step) returns (ghost fits: bool, ghost clean: bool)
    requires m.Inv() && step.command.OnPlan()
    modifies m, m.kv, m.kv.table, m.kv.resident, m.kv.log, m.disk, m.repr
    ensures m.Inv() && fresh(m.repr - old(m.repr)) && m.sessions == old(m.sessions)
    ensures Performed(step, m.core, m.model, old(ViewsOf(m)), old(m.disk.files), ViewsOf(m), m.disk.files, fits, clean)
  {
    hide *;
    ObjectsInRepr(m);
    ghost var before, files := ViewsOf(m), m.disk.files;
    CommandMeans(step.command, m.model);
    TouchedMeans(step.command, before);
    var e := step.engine;
    fits, clean := true, true;
    match step.command {
      case Clear(id) =>
        ClearAndKeep(m, e, id);
        PlanEffectMeans(step, m.core, m.model, before, ViewsOf(m));
      case Index(id, faults, indexFaults) =>
        IndexAndKeep(m, e, id, faults, indexFaults);
        clean := faults == NO_FAULTS;
        PlanEffectMeans(step, m.core, m.model, before, ViewsOf(m));
      case Save(id, faults, indexFaults) =>
        SaveAndKeep(m, e, id, faults, indexFaults);
        clean := faults == NO_FAULTS;
        PlanEffectMeans(step, m.core, m.model, before, ViewsOf(m));
      case Find(id, query, topK) =>
        SearchAndKeep(m, e, id, query, topK);
        PlanEffectMeans(step, m.core, m.model, before, ViewsOf(m));
      case _ => assert false;
    }
    PerformedMeans(step, m.core, m.model, before, files, ViewsOf(m), m.disk.files, fits, clean);
  }

  /** Runs a command. */
  method Perform(m: SessionManager, step: Step) returns (ghost fits: bool, ghost clean: bool)
    requires m.Inv() && step.command.KeepsNames(m.model)
    modifies m, m.kv, m.kv.table, m.kv.resident, m.kv.log, m.disk, m.repr
    ensures m.Inv() && fresh(m.repr - old(m.repr))
    ensures Performed(step, m.core, m.model, old(ViewsOf(m)), old(m.disk.files), ViewsOf(m), m.disk.files, fits, clean)
    ensures forall id | id in m.sessions && id !in old(m.sessions) :: NewcomerOf(m, step.command, id)
    ensures forall id | id in old(m.sessions) && !step.command.Ends(id) :: id in m.sessions
  {
    hide *;
    ObjectsInRepr(m);
    ViewsMean(m);
    ghost var before, files := ViewsOf(m), m.disk.files;
    CommandMeans(step.command, m.model);
    TouchedMeans(step.command, before);
    var e := step.engine;
    if step.command.OnPlan() {
      fits, clean := PerformOnPlan(m, step);
      return;
    }
    if step.command.Planning().Some? {
      fits, clean := PerformPlanning(m, step);
      return;
    }
    fits, clean := true, true;
    match step.command {
      case Create(id, kvPersist, directoryExists, faults) =>
        CreateAndKeep(m, e, id, kvPersist, directoryExists, faults);
        if id !in old(m.sessions) {
          NewcomerMeans(m, step.command, id);
        }
        ViewsMean(m);
        EntersMeans(id, before, ViewsOf(m), Creates(id, directoryExists, faults));
      case Restore(id, content) =>
        RestoreAndKeep(m, e, id, content);
        if id !in old(m.sessions) {
          NewcomerMeans(m, step.command, id);
        }
        ViewsMean(m);
        EntersMeans(id, before, ViewsOf(m), IsValidSessionId(id) && content.Some? && Load(content.value, SessionLayout(m.model, id).session).Some?);
      case Delete(id, removed, left, leftFiles, leftManifest) =>
        DeleteAndKeep(m, e, id, removed, left, leftFiles, leftManifest);
        fits := removed;
        ViewsMean(m);
      case FindOnce(system, inputs, query, topK) => OneshotAndKeep(m, e, system, inputs, query, topK);
      case Restarted => RestartAndKeep(m, e);
      case _ => assert false;
    }
    EffectMeans(step, m.core, m.model, before, ViewsOf(m));
    PerformedMeans(step, m.core, m.model, before, files, ViewsOf(m), m.disk.files, fits, clean);
  }

  /** What is known of a session that a command has just made known. */
  ghost predicate NewcomerOf(m: SessionManager, c: Command, id: Bytes)
    requires id in m.sessions
    reads m, m.sessions[id], m.sessions[id].session
  {
    var d := m.sessions[id];
    && (c.Create? || c.Restore?) && c.id == id && d.saved
    && (c.Create? ==>
          && d.session.store == FreshStore(id, c.kvPersist) && d.session.segments == [] && (StoreFits(d.session.store, 0) ==> d.storable))
    && (c.Restore? ==>
          && d.storable && Storable(d.session.store)
          && c.files.Some? && Load(c.files.value, SessionLayout(m.model, id).session) == Some(d.session.store))
  }

  lemma NewcomerMeans(m: SessionManager, c: Command, id: Bytes)
    requires (c.Create? || c.Restore?) && c.id == id && id in m.sessions ==> m.sessions[id].saved
    requires c.Create? && c.id == id && id in m.sessions ==>
               && m.sessions[id].session.store == FreshStore(id, c.kvPersist) && m.sessions[id].session.segments == []
               && (StoreFits(FreshStore(id, c.kvPersist), 0) ==> m.sessions[id].storable)
    requires c.Restore? && c.id == id && id in m.sessions ==>
               && m.sessions[id].storable && Storable(m.sessions[id].session.store)
               && c.files.Some? && Load(c.files.value, SessionLayout(m.model, id).session) == Some(m.sessions[id].session.store)
    ensures (c.Create? || c.Restore?) && c.id == id && id in m.sessions ==> NewcomerOf(m, c, id)
  {
  }

  method Execute(m: SessionManager, step: Step)
    requires m.Inv() && step.command.KeepsNames(m.model)
    modifies m, m.kv, m.kv.table, m.kv.resident, m.kv.log, m.disk, m.repr
    ensures m.Inv() && fresh(m.repr - old(m.repr))
    ensures Kept(step, m.model, old(ViewsOf(m)), old(m.disk.files), ViewsOf(m), m.disk.files)
    ensures Effect(step, m.core, m.model, old(ViewsOf(m)), ViewsOf(m))
  {
    hide *;
    ViewsMean(m);
    ghost var before, files := ViewsOf(m), m.disk.files;
    ghost var fits, clean := Perform(m, step);
    ViewsMean(m);
    NewMeans(m, step.command, before);
    PerformedMeans(step, m.core, m.model, before, files, ViewsOf(m), m.disk.files, fits, clean);
    NowKept(step, m.model, before, files, ViewsOf(m), m.disk.files, fits, clean);
    KeptHasEffect(step, m.core, m.model, before, files, ViewsOf(m), m.disk.files);
  }

  lemma TouchedMeans(c: Command, before: Views)
    ensures c.Delete? ==> forall after :: Touched(c, before, after) == KeysOf(before, c.id)
    ensures c.Add? ==> forall after :: Touched(c, before, after) == LastOf(after, c.id)
    ensures c.Restarted? ==> forall after :: Touched(c, before, after) == AllKeys(before)
    ensures !c.Delete? && !c.Add? && !c.Restarted? ==> forall after :: Touched(c, before, after) == {}
  {
  }

  /** What the parts of `Kept` are for each command. */
  lemma CommandMeans(c: Command, model: ModelKey)
    ensures c.Restore? && c.files.Some? && c.KeepsNames(model) ==> KeepsName(model, c.id, c.files.value)
    ensures Cost(c) == (if c.Add? || c.Next? then 1 else 0) && Subject(c) == (if c.FindOnce? || c.Restarted? then [] else c.id)
    ensures c.SetSystem? ==> SmallEnough(c, 0, model) == (|c.system| <= MAX_STRING_BYTES)
    ensures c.Add? ==> SmallEnough(c, 0, model) == ReadableInput(c.input)
    ensures c.Delete? ==> SmallEnough(c, 0, model) == c.removed
    ensures c.SetSystem? || c.Add? || c.Next? || c.Index? || c.Save? ==> Clean(c) == (c.faults == NO_FAULTS)
    ensures c.OnPlan() <==> c.Clear? || c.Index? || c.Save? || c.Find?
    ensures c.Planning().Some? <==> c.SetSystem? || c.Add? || c.Next?
    ensures c.SetSystem? ==> c.Planning() == Some(PlanRefinement.AddSystem(c.system))
    ensures c.Add? ==> c.Planning() == Some(PlanRefinement.AddMemory(c.input))
    ensures c.Next? ==> c.Planning() == Some(PlanRefinement.NextSegment)
    ensures forall id :: c.Ends(id) == (c.Restarted? || (c.Delete? && c.id == id))
  {
  }

  /** Only create and restore make a session known, and only one that is within the limits. */
  lemma {:induction false} NewMeans(m: SessionManager, c: Command, before: Views)
    requires forall id | id in m.sessions && id !in before :: NewcomerOf(m, c, id)
    ensures NewStands(c, m.model, before, ViewsOf(m))
  {
    hide StoreFits, Storable, Load, SessionLayout, HasSpace, InOrder;
    forall id | id in m.sessions && id !in before && c.Create? ensures InOrder(m.sessions[id].session.store, m.sessions[id].session.segments) {
      assert NewcomerOf(m, c, id);
      EmptyIsInOrder(FreshStore(id, c.kvPersist));
    }
    forall id, left: nat | id in m.sessions && id !in before && SmallEnough(c, left, m.model)
      ensures m.sessions[id].storable && StoreFits(m.sessions[id].session.store, left)
    {
      assert NewcomerOf(m, c, id);
      if c.Create? {
        FitsLess(m.sessions[id].session.store, left, 0);
      } else {
        SpaceFits(m.sessions[id].session.store, left);
      }
    }
  }

  lemma {:induction false} NowKept(step: Step, model: ModelKey, before: Views, files: map<Key, Snapshot>, after: Views, files': map<Key, Snapshot>,
                                   fits: bool, clean: bool)
    requires var c := step.command;
             && StepKeeps(step.engine, Subject(c), before, files, after, files', Touched(c, before, after), Cost(c), fits, clean)
             && (SmallEnough(c, 0, model) ==> fits) && (Clean(c) ==> clean) && NewStands(c, model, before, after)
             && forall id | id in before && !c.Ends(id) :: id in after
    ensures Kept(step, model, before, files, after, files')
  {
    hide StaySaved, StayStorable, Touched, SmallEnough, Clean, NewStands;
  }

  lemma {:induction false} KeptMeans(step: Step, model: ModelKey, before: Views, files: map<Key, Snapshot>, after: Views, files': map<Key, Snapshot>)
    requires Kept(step, model, before, files, after, files')
    ensures StaySaved(step.engine, before, files, after, files', Touched(step.command, before, after))
    ensures forall id | id in before && id in after :: OrderKept(before[id], after[id])
    ensures var c := step.command;
            && Stands(before, after, Subject(c), Cost(c), SmallEnough(c, 0, model), Clean(c)) && NewStands(c, model, before, after)
            && forall id | id in before && !c.Ends(id) :: id in after
  {
    hide SavedIn, ContentIn, OrderKept, Stands, NewStands, SmallEnough, Clean, Touched;
  }
}
