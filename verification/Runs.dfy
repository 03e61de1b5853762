/** Everything together: whatever commands run, in whatever order and on whichever sessions, and
    whichever of their file and engine operations fail, the caches agree with the sessions, saved
    segments stay saved, and the directories hold what they should. */
module Runs {
  import opened Basics
  import opened Persistent
  import opened SessionState
  import opened IncrementalPlan
  import PlanRefinement
  import opened CacheManifest
  import opened SegmentKV
  import opened Coherence
  import opened KVManager
  import opened BinaryIO
  import opened SessionFiles
  import opened SessionSaving
  import opened Durability
  import opened StorageNames
  import opened PlanInvariant
  import opened SessionPlans
  import opened SessionCommands
  import opened IndexCommands
  import opened PlanRestore
  import opened MemoryRoom
  import opened SegmentPlanner
  import opened PlanOrder
  import opened SearchCommands
  import opened OneshotSearch
  import opened SavedSegments
  import opened Steps
  import opened Names

  // ----- What every reachable state satisfies -----

  /** The segment that a key names is planned now. */
  ghost predicate IsPlanned(m: SessionManager, k: Key)
    reads m, m.repr
  {
    && k.session in m.sessions && {m.sessions[k.session], m.sessions[k.session].session} <= m.repr
    && 0 <= k.segment < |m.sessions[k.session].session.segments|
  }

  ghost function ContentNow(m: SessionManager, k: Key): Content
    requires IsPlanned(m, k)
    reads m, m.repr
  {
    ContentAt(m.sessions[k.session].session.store, m.sessions[k.session].session.segments[k.segment])
  }

  /** What is cached in memory is what the sessions hold: a resident segment carries exactly its
      system text and its memories, a staged prefix a proper part of them, the active context those
      of the segment it stands for; and no segment is both resident and staged. */
  ghost predicate CachesAgree(m: SessionManager)
    reads m, m.kv, m.kv.table, m.kv.resident, m.repr
  {
    var kv := m.kv.State();
    && (forall k | k in kv.resident :: IsPlanned(m, k) && kv.resident[k] < |kv.cells| && Holds(kv.cells[kv.resident[k]], ContentNow(m, k)))
    && (forall k | k in kv.prefixes :: IsPlanned(m, k) && kv.prefixes[k] < |kv.cells| && HoldsPrefix(kv.cells[kv.prefixes[k]], ContentNow(m, k)))
    && (kv.active.Some? ==>
          && IsPlanned(m, kv.active.value.key) && kv.active.value.handle < |kv.cells|
          && kv.cells[kv.active.value.handle].Carries(ContentNow(m, kv.active.value.key)))
    && kv.resident.Keys !! kv.prefixes.Keys
  }

  /** Every entry of every session that has a path carries the hash of the segment's content. */
  ghost predicate HashesAgree(m: SessionManager)
    reads m, m.repr
  {
    forall id | id in m.sessions ::
      && {m.sessions[id], m.sessions[id].session} <= m.repr
      && HashesOk(m.sessions[id].session.store, m.sessions[id].session.segments, m.sessions[id].session.metadata)
  }

  /** After these steps from the start: whatever of a session stayed within the limits is on disk, in
      an earlier state, and in its present one unless the facts are marked dirty; and if no save of the
      session failed, only memories of the last segment can be missing. So it was at every moment of
      the run, also between the file operations of a command: whatever its directory held since the
      session became known loads as an earlier state. */
  ghost predicate FactsDurable(m: SessionManager, steps: seq<Step>)
    reads m, m.repr
  {
    forall id | id in m.sessions ::
      var d := m.sessions[id];
      && {d, d.session, d.dir} <= m.repr && d.dir.name == id && ValidStore(d.session.store)
      && (StepsFit(steps, id, m.model) ==>
            && Durable(d.dir.files, id, d.session.store, d.session.segments, d.session.factsDirty, StepsClean(steps, id))
            && PastOlder(d.dir.past, id, d.session.store))
  }

  lemma {:induction false} FactsAreDurable(m: SessionManager, steps: seq<Step>)
    requires m.Inv() && StandingsKept(map[], ViewsOf(m), steps, [], m.model)
    ensures FactsDurable(m, steps)
  {
    InvOpened(m);
    SeparateMeans(m);
    ViewsMean(m);
    hide SessionManager.Inv, SessionOk, Durable, PastOlder, ValidStore, Storable, Unrelated, StepsFit, StepsClean, StoreFits;
    forall id | id in m.sessions
      ensures var d := m.sessions[id];
              && {d, d.session, d.dir} <= m.repr && d.dir.name == id && ValidStore(d.session.store)
              && (StepsFit(steps, id, m.model) ==>
                    && Durable(d.dir.files, id, d.session.store, d.session.segments, d.session.factsDirty, StepsClean(steps, id))
                    && PastOlder(d.dir.past, id, d.session.store))
    {
      var d := m.sessions[id];
      SessionOpened(d, id, m.want);
      DirectoryHasItsName(d, id, m.want);
      if StepsFit(steps, id, m.model) {
        DurableLess(d.dir.files, id, d.session.store, d.session.segments, d.session.factsDirty, d.saved, StepsClean(steps, id));
      }
    }
  }

  lemma DurableLess(files: SessionDir, name: Bytes, store: SessionStore, segments: seq<Segment>, dirty: bool, saved: bool, clean: bool)
    requires Durable(files, name, store, segments, dirty, saved) && (clean ==> saved)
    ensures Durable(files, name, store, segments, dirty, clean)
  {
  }

  // ----- Durability of whole runs -----

  /** What a run of `steps` from `first` has kept so far, with `rest` to come. */
  ghost predicate StandingsKept(first: Views, now: Views, steps: seq<Step>, rest: seq<Step>, model: ModelKey) {
    forall id | id in now ::
      && (StepsFit(steps, id, model) && (id in first ==> first[id].storable && StoreFits(first[id].store, Growth(steps, id))) ==>
            now[id].storable && StoreFits(now[id].store, Growth(rest, id)))
      && (StepsClean(steps, id) && (id in first ==> first[id].saved) ==> now[id].saved)
  }

  lemma NothingStood(first: Views, steps: seq<Step>, model: ModelKey)
    ensures StandingsKept(first, first, steps, steps, model)
  {
  }

  lemma {:induction false} OneMoreStanding(first: Views, before: Views, after: Views, steps: seq<Step>, i: nat, model: ModelKey)
    requires i < |steps| && StandingsKept(first, before, steps, steps[i..], model)
    requires var c := steps[i].command;
             && Stands(before, after, Subject(c), Cost(c), SmallEnough(c, 0, model), Clean(c)) && NewStands(c, model, before, after)
    ensures StandingsKept(first, after, steps, steps[i + 1..], model)
  {
    hide SmallEnough, Clean, StoreFits, Stands, NewStands;
    var c := steps[i].command;
    assert steps[i..][1..] == steps[i + 1..];
    forall id | id in after
      ensures StepsFit(steps, id, model) && (id in first ==> first[id].storable && StoreFits(first[id].store, Growth(steps, id))) ==>
                after[id].storable && StoreFits(after[id].store, Growth(steps[i + 1..], id))
      ensures StepsClean(steps, id) && (id in first ==> first[id].saved) ==> after[id].saved
    {
      if StepsFit(steps, id, model) {
        SuffixFits(steps, i, id, model);
      }
      if id in before {
        OldStands(before, after, c, id, Growth(steps[i..], id), model);
      } else {
        NewcomerStands(before, after, c, id, Growth(steps[i + 1..], id), model);
      }
    }
  }

  /** What a run of `steps` that has come to step `i` has kept, wherever it ends. */
  ghost predicate StandingsUpTo(first: Views, now: Views, steps: seq<Step>, i: nat, model: ModelKey) {
    forall n: nat | i <= n <= |steps| :: StandingsKept(first, now, steps[..n], steps[i..n], model)
  }

  lemma {:induction false} OneMoreStandingUpTo(first: Views, before: Views, after: Views, steps: seq<Step>, i: nat, model: ModelKey)
    requires i < |steps| && StandingsUpTo(first, before, steps, i, model)
    requires var c := steps[i].command;
             && Stands(before, after, Subject(c), Cost(c), SmallEnough(c, 0, model), Clean(c)) && NewStands(c, model, before, after)
    ensures StandingsUpTo(first, after, steps, i + 1, model)
  {
    hide StandingsKept, Stands, NewStands, SmallEnough, Clean;
    forall n: nat | i + 1 <= n <= |steps| ensures StandingsKept(first, after, steps[..n], steps[i + 1..n], model) {
      assert steps[..n][i..] == steps[i..n] && steps[..n][i + 1..] == steps[i + 1..n] && steps[..n][i] == steps[i];
      OneMoreStanding(first, before, after, steps[..n], i, model);
    }
  }

  lemma {:induction false} NothingStoodUpTo(first: Views, steps: seq<Step>, model: ModelKey)
    ensures StandingsUpTo(first, first, steps, 0, model)
  {
    hide StandingsKept;
    forall n: nat | n <= |steps| ensures StandingsKept(first, first, steps[..n], steps[0..n], model) {
      NothingStood(first, steps[..n], model);
      assert steps[0..n] == steps[..n];
    }
  }

  lemma StandingsAt(first: Views, now: Views, steps: seq<Step>, i: nat, model: ModelKey)
    requires i <= |steps| && StandingsUpTo(first, now, steps, i, model)
    ensures StandingsKept(first, now, steps[..i], [], model)
  {
    hide StandingsKept;
    assert StandingsKept(first, now, steps[..i], steps[i..i], model) && steps[i..i] == [];
  }

  lemma {:induction false} SuffixFits(steps: seq<Step>, i: nat, id: Bytes, model: ModelKey)
    requires i <= |steps| && StepsFit(steps, id, model)
    ensures StepsFit(steps[i..], id, model)
  {
    hide SmallEnough;
    if i > 0 {
      SuffixFits(steps, i - 1, id, model);
      assert steps[i - 1..][1..] == steps[i..];
    } else {
      assert steps[0..] == steps;
    }
  }

  lemma {:induction false} NewcomerStands(before: Views, after: Views, c: Command, id: Bytes, left: nat, model: ModelKey)
    requires NewStands(c, model, before, after) && id in after && id !in before
    ensures c.IsOn(id) && after[id].saved
    ensures SmallEnough(c, left, model) ==> after[id].storable && StoreFits(after[id].store, left)
  {
    hide SmallEnough, StoreFits;
  }

  /** A session that was there has paid for what the command added. */
  lemma {:induction false} OldStands(before: Views, after: Views, c: Command, id: Bytes, room: nat, model: ModelKey)
    requires Stands(before, after, Subject(c), Cost(c), SmallEnough(c, 0, model), Clean(c)) && id in before && id in after
    ensures var cost := if c.IsOn(id) then Cost(c) else 0;
            cost <= room && before[id].storable && StoreFits(before[id].store, room) && (c.IsOn(id) ==> SmallEnough(c, room - cost, model)) ==>
              after[id].storable && StoreFits(after[id].store, room - cost)
    ensures before[id].saved && (c.IsOn(id) ==> Clean(c)) ==> after[id].saved
  {
    hide StoreFits;
    var cost := if c.IsOn(id) then Cost(c) else 0;
    if cost <= room && before[id].storable && StoreFits(before[id].store, room) && (c.IsOn(id) ==> SmallEnough(c, room - cost, model)) {
      if c.IsOn(id) {
        SmallEnoughLess(c, room - cost, 0, model);
      }
    }
  }

  lemma {:induction false} WantedIsPlanned(m: SessionManager, k: Key)
    requires m.Inv() && k in m.want
    ensures IsPlanned(m, k) && m.want[k] == ContentNow(m, k)
  {
    hide SessionManager.Inv, SessionOk, Coherent, Unrelated, PlanOk, HashesOk, ContentAt, DurableSession.Inv, ValidStore;
    InvOpened(m);
    SeparateMeans(m);
    SessionOpened(m.sessions[k.session], k.session, m.want);
  }

  lemma {:induction false} InvMeans(m: SessionManager)
    requires m.Inv()
    ensures CachesAgree(m) && HashesAgree(m)
  {
    InvOpened(m);
    hide SessionManager.Inv, SessionOk, Holds, HoldsPrefix, ContentNow, IsPlanned, HashesOk;
    forall k | k in m.want ensures IsPlanned(m, k) && m.want[k] == ContentNow(m, k) {
      WantedIsPlanned(m, k);
    }
    forall id | id in m.sessions
      ensures {m.sessions[id], m.sessions[id].session} <= m.repr
      ensures HashesOk(m.sessions[id].session.store, m.sessions[id].session.segments, m.sessions[id].session.metadata)
    {
      SeparateMeans(m);
      SessionOpened(m.sessions[id], id, m.want);
    }
  }


  // ----- Saved segments over whole runs -----

  /** A command that leaves segment `k`, one of `n`, alone: it does not delete the session or end the
      process, and a memory that it adds goes to a later segment. */
  predicate Spares(c: Command, k: Key, n: nat) {
    && !c.Restarted?
    && (c.Delete? ==> c.id != k.session)
    && (c.Add? && c.id == k.session ==> k.segment + 1 < n)
  }

  predicate AllSpare(steps: seq<Step>, k: Key, n: nat) {
    forall i :: 0 <= i < |steps| ==> Spares(steps[i].command, k, n)
  }

  /** A file that `engine` loads, every step's engine loads. */
  ghost predicate AllLoad(steps: seq<Step>, engine: Engine) {
    forall i :: 0 <= i < |steps| ==> LoadsNoLess(steps[i].engine, engine)
  }

  /** How many segments a session has. */
  ghost function SegmentCount(views: Views, id: Bytes): nat {
    if id in views then |views[id].segments| else 0
  }

  /** Segments that were saved and were spared still are. */
  ghost predicate SparedStaySaved(engine: Engine, before: Views, files: map<Key, Snapshot>, after: Views, files': map<Key, Snapshot>,
                                  steps: seq<Step>) {
    forall k | SavedIn(engine, before, files, k) && AllSpare(steps, k, SegmentCount(before, k.session)) ::
      && SavedIn(engine, after, files', k) && files'[k] == files[k] && ContentIn(after, k) == ContentIn(before, k)
      && SegmentCount(before, k.session) <= SegmentCount(after, k.session)
  }

  lemma {:induction false} OneMoreCommand(engine: Engine, first: Views, files: map<Key, Snapshot>, before: Views, files': map<Key, Snapshot>,
                                          after: Views, files'': map<Key, Snapshot>, steps: seq<Step>, i: nat)
    requires i < |steps|
    requires SparedStaySaved(engine, first, files, before, files', steps[..i])
    requires StaySaved(engine, before, files', after, files'', Touched(steps[i].command, before, after))
    ensures SparedStaySaved(engine, first, files, after, files'', steps[..i + 1])
  {
    hide HasDisk, Loads, ContentAt;
    var c := steps[i].command;
    TouchedMeans(c, before);
    forall k | SavedIn(engine, first, files, k) && AllSpare(steps[..i + 1], k, SegmentCount(first, k.session))
      ensures SavedIn(engine, after, files'', k) && files''[k] == files[k] && ContentIn(after, k) == ContentIn(first, k)
      ensures SegmentCount(first, k.session) <= SegmentCount(after, k.session)
    {
      var n := SegmentCount(first, k.session);
      assert Spares(steps[..i + 1][i].command, k, n);
      forall j | 0 <= j < i ensures Spares(steps[..i][j].command, k, n) {
        assert Spares(steps[..i + 1][j].command, k, n);
      }
      assert SavedIn(engine, before, files', k) && n <= SegmentCount(before, k.session);
    }
  }

  lemma NothingRan(engine: Engine, views: Views, files: map<Key, Snapshot>)
    ensures SparedStaySaved(engine, views, files, views, files, [])
  {
  }

  predicate NoneEnds(steps: seq<Step>, id: Bytes) {
    forall i :: 0 <= i < |steps| ==> !steps[i].command.Ends(id)
  }

  predicate NoneRestores(steps: seq<Step>, id: Bytes) {
    forall i :: 0 <= i < |steps| ==> !(steps[i].command.Restore? && steps[i].command.id == id)
  }

  /** A session that was there is there unless it was ended. Every session is planned in order that
      was, if it was there, and was not loaded from its directory meanwhile. */
  ghost predicate OrderStays(first: Views, now: Views, steps: seq<Step>) {
    && (forall id | id in first && NoneEnds(steps, id) :: id in now)
    && (forall id | id in now && (id in first ==> InOrder(first[id].store, first[id].segments))
                    && (NoneRestores(steps, id) || (id in first && NoneEnds(steps, id))) ::
          InOrder(now[id].store, now[id].segments))
  }

  lemma {:induction false} FewerSteps(steps: seq<Step>, i: nat, id: Bytes)
    requires i < |steps|
    ensures NoneEnds(steps[..i + 1], id) ==> NoneEnds(steps[..i], id) && !steps[i].command.Ends(id)
    ensures NoneRestores(steps[..i + 1], id) ==> NoneRestores(steps[..i], id) && !(steps[i].command.Restore? && steps[i].command.id == id)
  {
    var longer, shorter := steps[..i + 1], steps[..i];
    assert forall j :: 0 <= j < i ==> longer[j] == shorter[j];
    assert longer[i] == steps[i];
  }

  lemma {:induction false} OneMoreOrdered(first: Views, before: Views, after: Views, model: ModelKey, steps: seq<Step>, i: nat)
    requires i < |steps| && OrderStays(first, before, steps[..i]) && NewStands(steps[i].command, model, before, after)
    requires forall id | id in before && id in after :: OrderKept(before[id], after[id])
    requires forall id | id in before && !steps[i].command.Ends(id) :: id in after
    ensures OrderStays(first, after, steps[..i + 1])
  {
    hide InOrder, NoneEnds, NoneRestores, StoreFits, SmallEnough, Command.Ends;
    forall id ensures id in first && NoneEnds(steps[..i + 1], id) ==> id in after {
      FewerSteps(steps, i, id);
    }
    forall id | id in after && (id in first ==> InOrder(first[id].store, first[id].segments))
                && (NoneRestores(steps[..i + 1], id) || (id in first && NoneEnds(steps[..i + 1], id)))
      ensures InOrder(after[id].store, after[id].segments)
    {
      FewerSteps(steps, i, id);
      if id in before {
        assert OrderKept(before[id], after[id]);
      }
    }
  }

  lemma NothingOrdered(first: Views)
    ensures OrderStays(first, first, [])
  {
  }

  lemma FewerLoad(steps: seq<Step>, i: nat, engine: Engine)
    requires i < |steps| && AllLoad(steps[..i + 1], engine)
    ensures AllLoad(steps[..i], engine)
  {
    assert forall j :: 0 <= j < i ==> steps[..i][j] == steps[..i + 1][j];
  }

  /** One more step of a run, for everything that runs keep. */
  lemma {:induction false} OneMoreStep(engine: Engine, model: ModelKey, first: Views, files: map<Key, Snapshot>, before: Views, files': map<Key, Snapshot>,
                                       after: Views, files'': map<Key, Snapshot>, steps: seq<Step>, i: nat)
    requires i < |steps| && Kept(steps[i], model, before, files', after, files'')
    requires StandingsUpTo(first, before, steps, i, model) && OrderStays(first, before, steps[..i])
    requires AllLoad(steps[..i], engine) ==> SparedStaySaved(engine, first, files, before, files', steps[..i])
    ensures StandingsUpTo(first, after, steps, i + 1, model) && OrderStays(first, after, steps[..i + 1])
    ensures AllLoad(steps[..i + 1], engine) ==> SparedStaySaved(engine, first, files, after, files'', steps[..i + 1])
  {
    hide OrderStays, Command.Ends, Kept, OrderKept, StandingsUpTo, SparedStaySaved, StaySaved, Stands, NewStands, SmallEnough, Clean, Touched, LoadsNoLess;
    KeptMeans(steps[i], model, before, files', after, files'');
    OneMoreStandingUpTo(first, before, after, steps, i, model);
    OneMoreOrdered(first, before, after, model, steps, i);
    if AllLoad(steps[..i + 1], engine) {
      assert LoadsNoLess(steps[..i + 1][i].engine, engine);
      FewerLoad(steps, i, engine);
      StaySavedOn(steps[i].engine, engine, before, files', after, files'', Touched(steps[i].command, before, after));
      OneMoreCommand(engine, first, files, before, files', after, files'', steps, i);
    }
  }

  // ----- What a run does, step by step -----

  ghost predicate EffectAt(core: Core, model: ModelKey, steps: seq<Step>, trace: seq<World>, i: int) {
    0 <= i < |steps| && i + 1 < |trace| && EffectAs(steps[i], core, model, trace[i], trace[i + 1])
  }

  /** The sessions before, between and after the steps: each step has its effect. */
  ghost predicate IsTrace(core: Core, model: ModelKey, steps: seq<Step>, trace: seq<World>) {
    && |trace| == |steps| + 1 && (forall i :: 0 <= i < |steps| ==> EffectAt(core, model, steps, trace, i))
    && forall w | w in trace :: NamesOf(model, w.views.Keys, w.names)
  }

  lemma {:induction false} OneMoreWorld(core: Core, model: ModelKey, steps: seq<Step>, i: nat, trace: seq<World>, after: World)
    requires i < |steps| && IsTrace(core, model, steps[..i], trace) && EffectAs(steps[i], core, model, trace[i], after)
    requires NamesOf(model, after.views.Keys, after.names)
    ensures IsTrace(core, model, steps[..i + 1], trace + [after])
  {
    hide EffectAs, NamesOf;
    var longer, done := trace + [after], steps[..i + 1];
    forall j | 0 <= j < i + 1 ensures EffectAt(core, model, done, longer, j) {
      if j < i {
        assert EffectAt(core, model, steps[..i], trace, j);
        assert longer[j] == trace[j] && longer[j + 1] == trace[j + 1];
      }
    }
  }

  lemma NothingTraced(core: Core, model: ModelKey, first: World)
    requires NamesOf(model, first.views.Keys, first.names)
    ensures IsTrace(core, model, [], [first])
  {
  }

  /** The step is not on session `id`, or it grows its plan or leaves it alone. */
  predicate OnlyGrows(step: Step, id: Bytes) {
    var c := step.command;
    !c.Restarted? && (c.IsOn(id) ==> c.Planning().Some? || c.Clear? || c.Find? || c.Create? || c.Restore?)
  }

  /** What the steps ask of the plan of session `id`. */
  function PlanningOf(steps: seq<Step>, id: Bytes): seq<PlanRefinement.Command> {
    if steps == [] then []
    else
      var c := Last(steps).command;
      PlanningOf(Init(steps), id) + if c.IsOn(id) && c.Planning().Some? then [c.Planning().value] else []
  }

  /** One more step on a session whose plan is a run of planning commands. */
  lemma {:induction false} OneMoreGrows(core: Core, model: ModelKey, step: Step, before: Views, after: Views, id: Bytes, start: Planned,
                                        commands: seq<PlanRefinement.Command>)
    returns (commands': seq<PlanRefinement.Command>)
    requires Effect(step, core, model, before, after) && OnlyGrows(step, id)
    requires id in before && PlanIn(before[id]) == PlanRefinement.Run(core, start, commands) && HasPlan(before[id])
    ensures id in after && PlanIn(after[id]) == PlanRefinement.Run(core, start, commands')
    ensures var c := step.command;
            commands' in {commands, if c.IsOn(id) && c.Planning().Some? then commands + [c.Planning().value] else commands}
            && (Exports(step.engine) && IsValidSessionId(id) && c.IsOn(id) && c.Planning().Some? ==> commands' == commands + [c.Planning().value])
  {
    hide PlanRefinement.Apply, PlanRefinement.Run, Exports, IsValidSessionId, SameRuns, PersistentStore, Creates, Load, SessionLayout, HasPlan;
    var c := step.command;
    commands' := commands;
    if c.IsOn(id) && c.Planning().Some? {
      if PlanIn(after[id]) != PlanIn(before[id]) || (Exports(step.engine) && IsValidSessionId(id)) {
        commands' := commands + [c.Planning().value];
        OneMoreApplied(core, start, commands, c.Planning().value);
      }
    }
  }

  /** Who asks for the session by another name is refused. */
  lemma {:induction false} OneMoreGrowsAs(core: Core, model: ModelKey, step: Step, w: World, w': World, id: Bytes, start: Planned,
                                          commands: seq<PlanRefinement.Command>)
    returns (commands': seq<PlanRefinement.Command>)
    requires EffectAs(step, core, model, w, w') && OnlyGrows(step, id) && OwnName(model, id) == id && IsValidSessionId(id)
    requires id in w.views && id in w.names && w.names[id] == id
    requires PlanIn(w.views[id]) == PlanRefinement.Run(core, start, commands) && HasPlan(w.views[id])
    ensures id in w'.views && id in w'.names && w'.names[id] == id
    ensures PlanIn(w'.views[id]) == PlanRefinement.Run(core, start, commands')
    ensures var c := step.command;
            Exports(step.engine) ==> commands' == if c.IsOn(id) && c.Planning().Some? then commands + [c.Planning().value] else commands
  {
    hide PlanRefinement.Run, Exports, IsValidSessionId, OwnName, HasPlan, Effect;
    if ComesToNone(step.command, model, w.names) {
      commands' := commands;
    } else {
      var own := ByOwnName(step, model);
      assert own.command.IsOn(id) && own.command.Planning().Some? ==> step.command.IsOn(id) && own.command == step.command;
      commands' := OneMoreGrows(core, model, own, w.views, w'.views, id, start, commands);
    }
  }

  lemma {:induction false} OneMoreApplied(core: Core, start: Planned, commands: seq<PlanRefinement.Command>, command: PlanRefinement.Command)
    ensures PlanRefinement.Run(core, start, commands + [command]) == PlanRefinement.Apply(core, PlanRefinement.Run(core, start, commands), command)
  {
    assert Init(commands + [command]) == commands && Last(commands + [command]) == command;
  }

  /** A session that a run creates has at every later moment, as long as it is not indexed, saved or
      deleted and the process lives, the plan that its accepted commands give one by one; and that is the
      plan which a rebuild of its store gives, whenever a rebuild can count its texts. */
  lemma {:induction false} CreatedSessionIsRebuilt(core: Core, model: ModelKey, steps: seq<Step>, trace: seq<World>, a: nat, b: nat, id: Bytes)
    returns (commands: seq<PlanRefinement.Command>)
    requires IsTrace(core, model, steps, trace) && a < b <= |steps| && steps[a].command.Create? && steps[a].command.id == id
    requires id !in trace[a].views && id in trace[a + 1].views
    requires forall i | a < i < b :: OnlyGrows(steps[i], id)
    ensures id in trace[b].views && id in trace[b].names && trace[b].names[id] == id
    ensures PlanIn(trace[b].views[id]) == PlanRefinement.Run(core, PlanRefinement.FreshSession(id, steps[a].command.kvPersist), commands)
    ensures (forall i | a < i < b :: Exports(steps[i].engine)) ==> commands == PlanningOf(steps[a + 1..b], id)
    ensures var p, batch := PlanIn(trace[b].views[id]), PlanRefinement.FullRebuild(core, trace[b].views[id].store).Plan();
            && (batch.error == None <==>
                  p.store.memories == [] || (core.kvTokens(p.store.system, []).Some? && PlanRefinement.TextsCounted(core, p.store.memories)))
            && (batch.error == None ==> batch.segments == p.segments)
    decreases b
  {
    hide EffectAs, PlanRefinement.Run, PlanRefinement.FullRebuild, PlanRefinement.TextsCounted, Exports, OnlyGrows, PlanRefinement.RunInvariant;
    hide NamesOf, OwnName;
    var kvPersist := steps[a].command.kvPersist;
    assert EffectAt(core, model, steps, trace, a) && trace[a] in trace;
    CreatedFresh(core, model, steps[a], trace[a], trace[a + 1]);
    var start := PlanRefinement.FreshSession(id, kvPersist);
    if b == a + 1 {
      commands := [];
      NothingApplied(core, start);
    } else {
      var shorter := CreatedSessionIsRebuilt(core, model, steps, trace, a, b - 1, id);
      RunHasPlan(core, id, kvPersist, shorter, trace[b - 1].views[id]);
      assert EffectAt(core, model, steps, trace, b - 1) && OnlyGrows(steps[b - 1], id);
      commands := OneMoreGrowsAs(core, model, steps[b - 1], trace[b - 1], trace[b], id, start, shorter);
      assert Init(steps[a + 1..b]) == steps[a + 1..b - 1] && Last(steps[a + 1..b]) == steps[b - 1];
    }
    PlanRefinement.IncrementalRefinesBatch(core, id, kvPersist, commands);
  }

  lemma NothingApplied(core: Core, start: Planned)
    ensures PlanRefinement.Run(core, start, []) == start
  {
  }

  lemma {:induction false} CreatedFresh(core: Core, model: ModelKey, step: Step, w: World, w': World)
    requires EffectAs(step, core, model, w, w') && step.command.Create? && NamesOf(model, w.views.Keys, w.names)
    requires step.command.id !in w.views && step.command.id in w'.views
    ensures var id := step.command.id;
            && PlanIn(w'.views[id]) == PlanRefinement.FreshSession(id, step.command.kvPersist)
            && IsValidSessionId(id) && OwnName(model, id) == id && id in w'.names && w'.names[id] == id
  {
    hide IsValidSessionId, NoUnderscoreAtTheEnds, OwnName;
    assert Creates(step.command.id, step.command.directoryExists, step.command.faults);
    OwnIsOwn(model, step.command.id);
  }

  lemma {:induction false} RunHasPlan(core: Core, id: Bytes, kvPersist: bool, commands: seq<PlanRefinement.Command>, v: Standing)
    requires PlanIn(v) == PlanRefinement.Run(core, PlanRefinement.FreshSession(id, kvPersist), commands)
    ensures HasPlan(v)
  {
    hide PlanRefinement.Run, PlanRefinement.Gapless, PlanRefinement.PlanIsRebuilt;
    PlanRefinement.RunKeepsInvariant(core, id, kvPersist, commands);
  }

  lemma {:induction false} OwnStepsUpTo(steps: seq<Step>, i: nat, model: ModelKey)
    requires i <= |steps|
    ensures OwnSteps(steps[..i], model) == OwnSteps(steps, model)[..i] && |OwnSteps(steps, model)| == |steps|
    ensures i < |steps| ==> OwnSteps(steps, model)[i] == ByOwnName(steps[i], model)
  {
    hide ByOwnName;
  }

  /** Any run of commands, up to the first that would make a second session of the same own name known.
      A segment that counts as saved, and whose file loads for what it holds, still does in the end, in
      the same file, unless its session was deleted, the process ended, or a memory may have gone to it;
      whatever of a session stays within the limits stays on disk; plans that cut their store in order
      stay so; and each step has its effect on the sessions. */
  method Continue(m: SessionManager, names: map<Bytes, Bytes>, ghost engine: Engine, steps: seq<Step>)
    returns (names': map<Bytes, Bytes>, ran: nat, ghost trace: seq<World>)
    requires m.Inv() && NamesOf(m.model, m.sessions.Keys, names)
    modifies m, m.kv, m.kv.table, m.kv.resident, m.kv.log, m.disk, m.repr
    ensures m.Inv() && fresh(m.repr - old(m.repr)) && NamesOf(m.model, m.sessions.Keys, names')
    ensures ran <= |steps| && (ran < |steps| ==> Clashes(steps[ran].command, m.model, names'))
    ensures var done := OwnSteps(steps[..ran], m.model);
            && StandingsKept(old(ViewsOf(m)), ViewsOf(m), done, [], m.model) && OrderStays(old(ViewsOf(m)), ViewsOf(m), done)
            && (AllLoad(done, engine) ==> SparedStaySaved(engine, old(ViewsOf(m)), old(m.disk.files), ViewsOf(m), m.disk.files, done))
    ensures IsTrace(m.core, m.model, steps[..ran], trace) && |trace| == ran + 1
    ensures trace[0] == World(names, old(ViewsOf(m))) && trace[ran] == World(names', ViewsOf(m))
  {
    hide *;
    ViewsMean(m);
    ghost var first, files, own := ViewsOf(m), m.disk.files, OwnSteps(steps, m.model);
    NothingRan(engine, first, files);
    NothingStoodUpTo(first, own, m.model);
    NothingOrdered(first);
    NothingTraced(m.core, m.model, World(names, first));
    trace, names', ran := [World(names, first)], names, 0;
    OwnStepsUpTo(steps, 0, m.model);
    while ran < |steps|
      invariant ran <= |steps| && |own| == |steps|
      invariant m.Inv() && fresh(m.repr - old(m.repr)) && NamesOf(m.model, m.sessions.Keys, names')
      invariant StandingsUpTo(first, ViewsOf(m), own, ran, m.model) && OrderStays(first, ViewsOf(m), own[..ran])
      invariant AllLoad(own[..ran], engine) ==> SparedStaySaved(engine, first, files, ViewsOf(m), m.disk.files, own[..ran])
      invariant IsTrace(m.core, m.model, steps[..ran], trace) && |trace| == ran + 1
      invariant trace[0] == World(names, first) && trace[ran] == World(names', ViewsOf(m))
    {
      var clash := FindClash(steps[ran].command, m.model, names');
      if clash {
        break;
      }
      ghost var before, files' := ViewsOf(m), m.disk.files;
      OwnStepsUpTo(steps, ran, m.model);
      names' := ExecuteAs(m, names', steps[ran]);
      ViewsMean(m);
      OneMoreStep(engine, m.model, first, files, before, files', ViewsOf(m), m.disk.files, own, ran);
      OneMoreWorld(m.core, m.model, steps, ran, trace, World(names', ViewsOf(m)));
      trace, ran := trace + [World(names', ViewsOf(m))], ran + 1;
    }
    OwnStepsUpTo(steps, ran, m.model);
    StandingsAt(first, ViewsOf(m), own, ran, m.model);
  }

  lemma OrderOfNew(now: Views, steps: seq<Step>)
    requires OrderStays(map[], now, steps)
    ensures forall id | id in now && NoneRestores(steps, id) :: InOrder(now[id].store, now[id].segments)
  {
  }

  /** Any run of commands on a new session manager, up to the first that would make a second session of
      the same own name known. */
  method Run(core: Core, model: ModelKey, budget: nat, steps: seq<Step>)
    returns (m: SessionManager, names: map<Bytes, Bytes>, ran: nat, ghost trace: seq<World>)
    ensures m.Inv() && CachesAgree(m) && HashesAgree(m) && NamesOf(model, m.sessions.Keys, names)
    ensures ran <= |steps| && (ran < |steps| ==> Clashes(steps[ran].command, model, names))
    ensures var done := OwnSteps(steps[..ran], model);
            FactsDurable(m, done)
            && forall id | id in m.sessions && NoneRestores(done, id) :: InOrder(m.sessions[id].session.store, m.sessions[id].session.segments)
    ensures IsTrace(core, model, steps[..ran], trace) && |trace| == ran + 1
    ensures trace[0] == World(map[], map[]) && trace[ran] == World(names, ViewsOf(m))
  {
    hide *;
    m := new SessionManager(core, model, budget);
    ViewsMean(m);
    NoNames(model);
    names, ran, trace := Continue(m, map[], NO_ENGINE, steps);
    ViewsMean(m);
    OrderOfNew(ViewsOf(m), OwnSteps(steps[..ran], model));
    InvMeans(m);
    FactsAreDurable(m, OwnSteps(steps[..ran], model));
  }

  lemma NoNames(model: ModelKey)
    ensures NamesOf(model, {}, map[])
  {
  }

  /** A crash at any moment of a run, and a restore from the directory as it was then: the session
      comes back in an earlier state. From the directory as the last command left it, it comes back in
      the present state unless its facts were dirty, and when no save had failed without memories of
      the last segment at most. */
  method CrashAndRestore(m: SessionManager, ghost names: map<Bytes, Bytes>, id: Bytes, files: SessionDir, ghost steps: seq<Step>)
    returns (error: Option<ErrorCode>)
    requires m.Inv() && FactsDurable(m, steps) && StepsFit(steps, id, m.model)
    requires id in m.sessions && NamesOf(m.model, m.sessions.Keys, names)
    requires files == m.sessions[id].dir.files || files in m.sessions[id].dir.past
    modifies m`want, m`sessions, m`repr, m.kv, m.kv.table, m.kv.resident
    ensures m.Inv() && error == None && m.sessions.Keys == {id}
    ensures OlderState(m.sessions[id].session.store, old(m.sessions[id].session.store))
    ensures var before, after := old(m.sessions[id].session.store), m.sessions[id].session.store;
            files == old(m.sessions[id].dir.files) ==>
              && (!old(m.sessions[id].session.factsDirty) ==> SameFacts(after, before))
              && (StepsClean(steps, id) ==> SameButMemories(after, before) && OnlyTailUnsaved(after, before, old(m.sessions[id].session.segments)))
  {
    hide *;
    var d := m.sessions[id];
    KnownDirectory(m, names, id, steps);
    DurableParts(d.dir.files, id, d.session.store, d.session.segments, d.session.factsDirty, StepsClean(steps, id));
    PastParts(d.dir.past, id, d.session.store);
    m.Restart();
    var dir := new SessionDirectory(id, files);
    error := m.RestoreSession(id, true, dir);
  }

  lemma PastParts(past: set<SessionDir>, name: Bytes, store: SessionStore)
    requires PastOlder(past, name, store)
    ensures forall f | f in past :: Load(f, name).Some? && OlderState(Load(f, name).value, store)
  {
  }

  lemma {:induction false} KnownDirectory(m: SessionManager, names: map<Bytes, Bytes>, id: Bytes, steps: seq<Step>)
    requires m.Inv() && id in m.sessions && NamesOf(m.model, m.sessions.Keys, names) && FactsDurable(m, steps) && StepsFit(steps, id, m.model)
    ensures var d := m.sessions[id];
            && Durable(d.dir.files, id, d.session.store, d.session.segments, d.session.factsDirty, StepsClean(steps, id))
            && PastOlder(d.dir.past, id, d.session.store)
    ensures IsValidSessionId(id) && SessionLayout(m.model, id).session == id && NoUnderscoreAtTheEnds(id)
  {
    OwnIsOwn(m.model, names[id]);
    hide SessionManager.Inv, SessionOk, Durable, PastOlder, StepsFit, StepsClean, NoUnderscoreAtTheEnds, SessionLayout, IsValidSessionId;
    InvNamesSessions(m, id);
    ValidIdOf(m.sessions[id].session.store);
    LayoutName(m.model, id);
  }

  lemma DurableParts(files: SessionDir, name: Bytes, store: SessionStore, segments: seq<Segment>, dirty: bool, clean: bool)
    requires Durable(files, name, store, segments, dirty, clean)
    ensures Load(files, name).Some?
    ensures var older := Load(files, name).value;
            && OlderState(older, store) && (!dirty ==> SameFacts(older, store))
            && (clean ==> SameButMemories(older, store) && OnlyTailUnsaved(older, store, segments))
  {
  }

  // ----- Indexed stays indexed -----

  /** An index, and whatever runs after it. Once the index of a session with kv_persist succeeded, over
      no file that was stale, all its segments stay saved through any further run that spares them.
      `indexed` is the session as the index left it: with the plan it had, or the one it gets. */
  method IndexAndContinue(m: SessionManager, names: map<Bytes, Bytes>, engine: Engine, id: Bytes, faults: SaveFaults, indexFaults: IndexFaults,
                          steps: seq<Step>)
    returns (error: Option<ErrorCode>, ghost indexed: Standing, names': map<Bytes, Bytes>, ran: nat)
    requires m.Inv() && LoadsFreshFiles(engine) && NamesOf(m.model, m.sessions.Keys, names)
    modifies m, m.kv, m.kv.table, m.kv.resident, m.kv.log, m.disk, m.repr
    ensures m.Inv() && NamesOf(m.model, m.sessions.Keys, names')
    ensures ran <= |steps| && (ran < |steps| ==> Clashes(steps[ran].command, m.model, names'))
    ensures forall limit: nat | id in old(m.sessions) && Works(engine, limit) && faults == NO_FAULTS && IsValidSessionId(id)
              && Roomy(old(m.kv.InMemory()), old(m.disk.files), id, limit, |old(m.sessions[id].session.segments)|)
              && old(m.sessions[id].session.planReady) && old(m.sessions[id].session.store.kvPersist)
              && old(m.sessions[id].session.segments) != [] && indexFaults.None(|old(m.sessions[id].session.segments)|)
              :: error == None
    ensures error == None ==>
              && id in old(m.sessions) && indexed.segments != []
              && if old(m.sessions[id].session.planReady)
                 then indexed.store == old(m.sessions[id].session.store) && SameRuns(old(m.sessions[id].session.segments), indexed.segments)
                 else SameFacts(indexed.store, old(m.sessions[id].session.store))
                      && PlansTo(m.core, m.model, old(m.ManifestOf(id)), old(m.sessions[id].session.store), indexed.segments)
    ensures error == None && id in old(m.sessions)
              && (if old(m.sessions[id].session.planReady)
                  then InOrder(old(m.sessions[id].session.store), old(m.sessions[id].session.segments))
                  else Ascending(old(m.sessions[id].session.store.memories))
                       && OwnOrRefused(m.core, m.model, old(m.ManifestOf(id)), old(m.sessions[id].session.store))) ==>
              InOrder(indexed.store, indexed.segments)
    ensures error == None && indexed.store.kvPersist && NothingStale(id, old(m.disk.files), indexed)
              && AllLoad(OwnSteps(steps[..ran], m.model), engine) ==>
              forall k: int | 0 <= k < |indexed.segments| && AllSpare(OwnSteps(steps[..ran], m.model), Key(id, k), |indexed.segments|) ::
                && SavedIn(engine, ViewsOf(m), m.disk.files, Key(id, k))
                && ContentIn(ViewsOf(m), Key(id, k)) == ContentAt(indexed.store, indexed.segments[k])
  {
    hide *;
    ghost var files, manifest := m.disk.files, m.ManifestOf(id);
    ghost var first := if id in m.sessions then PlannedOf(m.sessions[id].session) else Planned(FreshStore([], false), []);
    if id in m.sessions {
      PartsOf(m.sessions[id].session);
    }
    ghost var ready := id in m.sessions && m.sessions[id].session.planReady;
    ObjectsInRepr(m);
    NameOf(m.model, m.sessions.Keys, names, id);
    error := IndexFirst(m, if id in names then names[id] else id, engine, id, faults, indexFaults);
    ghost var views, after := ViewsOf(m), m.disk.files;
    ViewsMean(m);
    indexed := if id in views then views[id] else Standing(FreshStore([], false), [], map[], false, false);
    if error == None {
      IndexedInOrder(m.core, m.model, manifest, ready, first, indexed);
    }
    ghost var trace;
    names', ran, trace := Continue(m, names, engine, steps);
    ghost var done := OwnSteps(steps[..ran], m.model);
    if error == None && indexed.store.kvPersist && NothingStale(id, files, indexed) && AllLoad(done, engine) {
      forall k: int | 0 <= k < |indexed.segments| && AllSpare(done, Key(id, k), |indexed.segments|)
        ensures SavedIn(engine, ViewsOf(m), m.disk.files, Key(id, k)) && IsSegment(ViewsOf(m), Key(id, k))
        ensures ContentIn(ViewsOf(m), Key(id, k)) == ContentAt(indexed.store, indexed.segments[k])
      {
        StillSaved(engine, views, after, ViewsOf(m), m.disk.files, done, Key(id, k));
      }
    }
  }

  lemma {:induction false} IndexedInOrder(core: Core, model: ModelKey, manifest: Option<Manifest>, ready: bool, p: Planned, v: Standing)
    requires if ready then v.store == p.store && SameRuns(p.segments, v.segments)
             else SameFacts(v.store, p.store) && PlansTo(core, model, manifest, p.store, v.segments)
    ensures (if ready then InOrder(p.store, p.segments) else Ascending(p.store.memories) && OwnOrRefused(core, model, manifest, p.store)) ==>
              InOrder(v.store, v.segments)
  {
    hide *;
    if ready && InOrder(p.store, p.segments) {
      CountedInOrder(p.store, v.store, p.segments, v.segments);
    }
    if !ready && Ascending(p.store.memories) && OwnOrRefused(core, model, manifest, p.store) {
      PlansToInOrder(core, model, manifest, p.store, v.store, v.segments);
    }
  }

  lemma {:induction false} StillSaved(engine: Engine, before: Views, files: map<Key, Snapshot>, after: Views, files': map<Key, Snapshot>,
                                      steps: seq<Step>, k: Key)
    requires SparedStaySaved(engine, before, files, after, files', steps)
    requires k.session in before && 0 <= k.segment < |before[k.session].segments| && SavedIn(engine, before, files, k)
    requires AllSpare(steps, k, |before[k.session].segments|)
    ensures SavedIn(engine, after, files', k)
    ensures IsSegment(after, k) && ContentIn(after, k) == ContentAt(before[k.session].store, before[k.session].segments[k.segment])
  {
    hide HasDisk, Loads, AllSpare, ContentAt;
  }

  /** No file of the session holds anything but what its segment holds. */
  ghost predicate NothingStale(id: Bytes, files: map<Key, Snapshot>, s: Standing) {
    forall k | k in files && k.session == id ::
      0 <= k.segment < |s.segments| && files[k].metadata.content == ContentAt(s.store, s.segments[k.segment])
  }

  lemma {:induction false} NothingStaleMeans(id: Bytes, files: map<Key, Snapshot>, s: Standing, want: map<Key, Content>)
    requires WantedOf(want, id, s.store, s.segments)
    ensures NothingStale(id, files, s) ==> NoStaleFile(id, files, want, 0)
  {
    hide ContentAt;
    forall k: Key | NothingStale(id, files, s) && k.session == id && 0 <= k.segment && k in files ensures FreshFile(files, want, k) {
      assert k == Key(id, k.segment);
    }
  }

  lemma {:induction false} NameOf(model: ModelKey, sessions: set<Bytes>, names: map<Bytes, Bytes>, id: Bytes)
    requires NamesOf(model, sessions, names)
    ensures names.Keys == sessions && (id in names && KnownAs(model, names, id) ==> names[id] == id)
  {
    hide OwnName, IsValidSessionId;
    if id in names {
      OwnIsOwn(model, names[id]);
    }
  }

  /** The index, of a session that is known as `name`. */
  method IndexFirst(m: SessionManager, name: Bytes, engine: Engine, id: Bytes, faults: SaveFaults, indexFaults: IndexFaults)
    returns (error: Option<ErrorCode>)
    requires m.Inv() && LoadsFreshFiles(engine)
    modifies m`want, m.kv, m.kv.table, m.kv.resident, m.disk, m.ObjectsOf(id)
    ensures m.Inv() && m.sessions == old(m.sessions)
    ensures forall limit: nat | id in m.sessions && Works(engine, limit) && faults == NO_FAULTS && IsValidSessionId(id)
              && Roomy(old(m.kv.InMemory()), old(m.disk.files), id, limit, |old(m.sessions[id].session.segments)|)
              && old(m.sessions[id].session.planReady) && old(m.sessions[id].session.store.kvPersist)
              && old(m.sessions[id].session.segments) != [] && indexFaults.None(|old(m.sessions[id].session.segments)|)
              :: error == None
    ensures error == None ==>
              && id in m.sessions && m.sessions[id].session.segments != []
              && if old(m.sessions[id].session.planReady)
                 then m.sessions[id].session.store == old(m.sessions[id].session.store)
                      && SameRuns(old(m.sessions[id].session.segments), m.sessions[id].session.segments)
                 else SameFacts(m.sessions[id].session.store, old(m.sessions[id].session.store))
                      && PlansTo(m.core, m.model, old(m.ManifestOf(id)), old(m.sessions[id].session.store), m.sessions[id].session.segments)
    ensures error == None && m.sessions[id].session.store.kvPersist && NothingStale(id, old(m.disk.files), ViewsOf(m)[id]) ==>
              forall k: int | 0 <= k < |m.sessions[id].session.segments| :: SavedIn(engine, ViewsOf(m), m.disk.files, Key(id, k))
  {
    hide *;
    ObjectsInRepr(m);
    ghost var ready, segments := id in m.sessions && m.sessions[id].session.planReady, if id in m.sessions then m.sessions[id].session.segments else [];
    WorkingCounts(engine, Content([], []));
    ghost var held := m.kv.InMemory();
    if name != id {
      var ok := EnterAs(m, engine, name, id);
      if !ok {
        return Some(InternalError);
      }
      RoomAfter(engine, id, held, m.disk.files, m.kv.InMemory(), |segments|);
    }
    ReadyPlan(m, id);
    error := IndexSession(m, engine, id, faults, indexFaults);
    ViewsMean(m);
    if ready {
      SameLength(segments, m.sessions[id].session.segments);
    }
    if error == None {
      SavedByIndex(m, engine, id, old(m.disk.files));
    }
  }

  lemma {:induction false} SavedByIndex(m: SessionManager, engine: Engine, id: Bytes, files: map<Key, Snapshot>)
    requires m.Inv() && LoadsFreshFiles(engine) && id in m.sessions && id in ViewsOf(m)
    requires Indexes(id, View(m.sessions[id].session), m.kv.State(), m.disk, m.model, files, m.want)
    ensures m.sessions[id].session.store.kvPersist && NothingStale(id, files, ViewsOf(m)[id]) ==>
              forall k: int | 0 <= k < |m.sessions[id].session.segments| :: SavedIn(engine, ViewsOf(m), m.disk.files, Key(id, k))
  {
    hide *;
    if m.sessions[id].session.store.kvPersist && NothingStale(id, files, ViewsOf(m)[id]) {
      ViewsMean(m);
      WantedNow(m, id);
      PartsOf(m.sessions[id].session);
      IndexesMeans(id, View(m.sessions[id].session), m.kv.State(), m.disk, m.model, files, m.want);
      NothingStaleMeans(id, files, ViewsOf(m)[id], m.want);
      IndexedIsSaved(engine, id, ViewsOf(m), m.disk.files, m.want);
    }
  }

  /** An engine that can do nothing. */
  const NO_ENGINE := Engine(_ => None, _ => None, (_, _) => None, (_, _) => None, (_, _) => false, _ => None, _ => 1)
}
