/** The names by which sessions are asked for. A session has a name of its own, that of its directory,
    under which its facts are stored and its segments cached. It is known by the name it was created or
    loaded under, and that is another one when it has an underscore at an end. */
module Names {
  import opened Basics
  import opened Persistent
  import opened SessionState
  import opened IncrementalPlan
  import PlanRefinement
  import opened SegmentKV
  import opened SessionFiles
  import opened SessionSaving
  import opened Durability
  import opened CacheManifest
  import opened StorageNames
  import opened SegmentPlanner
  import opened KVManager
  import opened MemoryRoom
  import opened SessionCommands
  import opened IndexCommands
  import opened PlanOrder
  import opened SavedSegments
  import opened Steps

  function OwnName(model: ModelKey, name: Bytes): Bytes {
    SessionLayout(model, name).session
  }

  /** What each session, by its own name, is known as: no two sessions have the same own name. */
  predicate NamesOf(model: ModelKey, sessions: set<Bytes>, names: map<Bytes, Bytes>) {
    names.Keys == sessions && forall own | own in names :: IsValidSessionId(names[own]) && OwnName(model, names[own]) == own
  }

  predicate KnownAs(model: ModelKey, names: map<Bytes, Bytes>, name: Bytes) {
    OwnName(model, name) in names && names[OwnName(model, name)] == name
  }

  /** The command makes a session known whose own name a session has that is known by another. */
  ghost predicate Clashes(c: Command, model: ModelKey, names: map<Bytes, Bytes>) {
    match c
    case Create(id, _, directoryExists, faults) => Creates(id, directoryExists, faults) && id in names && names[id] != id
    case Restore(id, files) =>
      && IsValidSessionId(id) && files.Some? && Load(files.value, OwnName(model, id)).Some?
      && OwnName(model, id) in names && names[OwnName(model, id)] != id
    case _ => false
  }

  method FindClash(c: Command, model: ModelKey, names: map<Bytes, Bytes>) returns (clash: bool)
    ensures clash == Clashes(c, model, names)
  {
    hide Load, SessionLayout, IsValidSessionId, NoUnderscoreAtTheEnds;
    match c {
      case Create(id, _, directoryExists, faults) => clash := Creates(id, directoryExists, faults) && id in names && names[id] != id;
      case Restore(id, files) =>
        var own := OwnName(model, id);
        if !IsValidSessionId(id) || files == None || own !in names || names[own] == id {
          return false;
        }
        var store := LoadSession(files.value, own);
        clash := store.Some?;
      case _ => clash := false;
    }
  }

  /** The command is on no session that is known. */
  predicate ComesToNone(c: Command, model: ModelKey, names: map<Bytes, Bytes>) {
    match c
    case Create(_, _, _, _) => false
    case Restore(id, _) => !IsValidSessionId(id)
    case FindOnce(_, _, _, _) => false
    case Restarted => false
    case _ => !KnownAs(model, names, c.id)
  }

  /** The command by the session's own name. A delete forgets the own name: a session that is known by
      another stays known, though its directory is gone. */
  function OnOwnName(c: Command, model: ModelKey): Command {
    match c
    case Create(_, _, _, _) => c
    case FindOnce(_, _, _, _) => c
    case Restarted => c
    case Restore(id, files) => Restore(OwnName(model, id), files)
    case SetSystem(id, system, faults) => SetSystem(OwnName(model, id), system, faults)
    case Add(id, input, faults) => Add(OwnName(model, id), input, faults)
    case Next(id, faults) => Next(OwnName(model, id), faults)
    case Clear(id) => Clear(OwnName(model, id))
    case Delete(id, removed, left, leftFiles, leftManifest) =>
      if OwnName(model, id) == id then c
      else Delete(OwnName(model, id), false, if removed then SessionDir(None, None, None, None) else left, leftFiles, leftManifest)
    case Index(id, faults, indexFaults) => Index(OwnName(model, id), faults, indexFaults)
    case Save(id, faults, indexFaults) => Save(OwnName(model, id), faults, indexFaults)
    case Find(id, query, topK) => Find(OwnName(model, id), query, topK)
  }

  /** The commands do the same, perhaps to different sessions. */
  ghost predicate SameButName(c: Command, d: Command) {
    match c
    case Create(_, kvPersist, directoryExists, faults) =>
      d.Create? && d.kvPersist == kvPersist && d.directoryExists == directoryExists && d.faults == faults
    case Restore(_, files) => d.Restore? && d.files == files
    case SetSystem(_, system, faults) => d.SetSystem? && d.system == system && d.faults == faults
    case Add(_, input, faults) => d.Add? && d.input == input && d.faults == faults
    case Next(_, faults) => d.Next? && d.faults == faults
    case Clear(_) => d.Clear?
    case Delete(_, removed, left, leftFiles, leftManifest) =>
      d.Delete? && d.leftFiles == leftFiles && d.leftManifest == leftManifest && (d.removed ==> removed)
    case Index(_, faults, indexFaults) => d.Index? && d.faults == faults && d.indexFaults == indexFaults
    case Save(_, faults, indexFaults) => d.Save? && d.faults == faults && d.indexFaults == indexFaults
    case Find(_, query, topK) => d.Find? && d.query == query && d.topK == topK
    case FindOnce(_, _, _, _) => d == c
    case Restarted => d == c
  }

  /** It is the same command, on the session's own directory. What a delete by another name removes, it
      does not take out of the known sessions. */
  lemma OnItsOwnName(c: Command, model: ModelKey)
    ensures SameButName(c, OnOwnName(c, model))
    ensures !c.Create? && !c.FindOnce? && !c.Restarted? ==> Subject(OnOwnName(c, model)) == OwnName(model, c.id)
    ensures c.Delete? ==> (OnOwnName(c, model).removed <==> c.removed && OwnName(model, c.id) == c.id)
  {
    hide OwnName;
  }

  function ByOwnName(step: Step, model: ModelKey): Step {
    Step(OnOwnName(step.command, model), step.engine)
  }

  function OwnSteps(steps: seq<Step>, model: ModelKey): seq<Step> {
    seq(|steps|, i requires 0 <= i < |steps| => ByOwnName(steps[i], model))
  }

  /** The sessions that are known, as values, and what they are known as. */
  datatype World = World(names: map<Bytes, Bytes>, views: Views)

  /** A session that became known is known as `name`. */
  ghost function Renamed(names: map<Bytes, Bytes>, sessions: set<Bytes>, name: Bytes): map<Bytes, Bytes> {
    map own | own in sessions :: if own in names then names[own] else name
  }

  /** What a command does in the terms of its own effect on the session that it comes to. */
  ghost predicate EffectAs(step: Step, core: Core, model: ModelKey, w: World, w': World) {
    if ComesToNone(step.command, model, w.names) then w' == w
    else
      && Effect(ByOwnName(step, model), core, model, w.views, w'.views)
      && w'.names == Renamed(w.names, w'.views.Keys, Subject(step.command))
  }

  // ----- Own names -----

  /** A name of its own is its own name. */
  lemma {:induction false} OwnIsOwn(model: ModelKey, name: Bytes)
    requires IsValidSessionId(name)
    ensures var own := OwnName(model, name);
            OwnName(model, own) == own && (IsValidSessionId(own) ==> NoUnderscoreAtTheEnds(own))
    ensures OwnName(model, name) == name <==> NoUnderscoreAtTheEnds(name)
  {
    hide Sanitized, IsValidSessionId, NoUnderscoreAtTheEnds;
    LayoutName(model, name);
    SanitizingTwice(name);
    SanitizedFallback();
    var own := OwnName(model, name);
    SomeName(name);
    assert own == SafeName(name, SESSION) && SafeName(own, SESSION) == own && own != [];
    if IsValidSessionId(own) {
      SafeNameOfSession(own);
    }
  }

  /** A restore that can be loaded makes a session known as it says, whatever other names there are. */
  lemma {:induction false} RestoredIsKnown(step: Step, core: Core, model: ModelKey, w: World, w': World)
    requires NamesOf(model, w.views.Keys, w.names) && EffectAs(step, core, model, w, w') && !Clashes(step.command, model, w.names)
    requires step.command.Restore? && IsValidSessionId(step.command.id)
    requires step.command.files.Some? && Load(step.command.files.value, OwnName(model, step.command.id)).Some?
    ensures KnownAs(model, w'.names, step.command.id)
  {
    hide IsValidSessionId, NoUnderscoreAtTheEnds, SessionLayout, ParseMetadata, LoadMemories;
    var id, own := step.command.id, OwnName(model, step.command.id);
    OwnIsOwn(model, id);
    LayoutName(model, id);
    LoadedName(step.command.files.value, own);
  }

  /** A command under a name that is known, or a new one to be created, has its effect. */
  lemma {:induction false} KnownHasEffect(step: Step, core: Core, model: ModelKey, w: World, w': World)
    requires EffectAs(step, core, model, w, w') && !step.command.Restore?
    ensures var c := step.command;
            c.Create? || c.FindOnce? || c.Restarted? || KnownAs(model, w.names, c.id) ==>
              Effect(ByOwnName(step, model), core, model, w.views, w'.views)
  {
    hide Effect, OwnName;
  }

  lemma SanitizedFallback()
    ensures Sanitized(SESSION) == SESSION
  {
    SanitizedIsClean(SESSION);
    hide Sanitized;
    assert CleanName(SESSION);
  }

  lemma {:induction false} OwnKeepsNames(c: Command, model: ModelKey, names: map<Bytes, Bytes>)
    requires !ComesToNone(c, model, names)
    ensures OnOwnName(c, model).KeepsNames(model)
  {
    hide IsValidSessionId, NoUnderscoreAtTheEnds, Load, OwnName;
    if c.Restore? {
      OwnIsOwn(model, c.id);
    }
  }

  /** Who becomes known does so under a name of its own that no other session has. */
  lemma {:induction false} StillNamed(step: Step, core: Core, model: ModelKey, w: World, after: Views)
    requires NamesOf(model, w.views.Keys, w.names) && !ComesToNone(step.command, model, w.names)
    requires Effect(ByOwnName(step, model), core, model, w.views, after)
    ensures NamesOf(model, after.Keys, Renamed(w.names, after.Keys, Subject(step.command)))
  {
    hide IsValidSessionId, NoUnderscoreAtTheEnds, Load, OwnName, Follows, FollowsCommand, SameRuns;
    var c, names := step.command, Renamed(w.names, after.Keys, Subject(step.command));
    forall own | own in names ensures IsValidSessionId(names[own]) && OwnName(model, names[own]) == own {
      if own !in w.names {
        assert own !in w.views;
        assert OnOwnName(c, model).IsOn(own) && (c.Create? || c.Restore?);
        if c.Create? {
          OwnIsOwn(model, c.id);
        }
      }
    }
  }

  /** A session that is known by another name than its own stays known when it is deleted. */
  lemma {:induction false} DeletedStaysKnown(step: Step, core: Core, model: ModelKey, w: World, w': World)
    requires EffectAs(step, core, model, w, w') && NamesOf(model, w.views.Keys, w.names)
    requires step.command.Delete? && KnownAs(model, w.names, step.command.id) && OwnName(model, step.command.id) != step.command.id
    ensures KnownAs(model, w'.names, step.command.id)
    ensures var own := OwnName(model, step.command.id); own in w'.views && PlanIn(w'.views[own]) == PlanIn(w.views[own])
  {
    hide OwnName, IsValidSessionId, Exports;
  }

  // ----- A command under any name -----

  /** Nothing happened, and nothing is lost. */
  lemma {:induction false} NothingKept(step: Step, model: ModelKey, views: Views, files: map<Key, Snapshot>)
    ensures Kept(step, model, views, files, views, files)
  {
    hide StayStorable, SmallEnough, Clean, SavedIn, InOrder, StoreFits;
    forall id | id in views ensures StayStorable(views[id].AsFacts(), views[id].AsFacts(), Cost(step.command)) {
      SameStoreStays(views[id].AsFacts(), views[id].AsFacts(), Cost(step.command));
    }
  }

  /** A command that could not put the contexts of other sessions to sleep does nothing else. */
  lemma {:induction false} HinderedHasEffect(step: Step, core: Core, model: ModelKey, views: Views)
    requires !Exports(step.engine) && !step.command.Create? && !step.command.Restore? && !step.command.Restarted?
    requires step.command.Delete? ==> !step.command.removed
    ensures Effect(step, core, model, views, views)
  {
    hide Exports;
    forall id | id in views ensures SameRuns(views[id].segments, views[id].segments) {
      RunsOfItself(views[id].segments);
    }
    hide SameRuns;
  }

  lemma {:induction false} SameNames(model: ModelKey, w: World, name: Bytes)
    requires NamesOf(model, w.views.Keys, w.names)
    ensures Renamed(w.names, w.views.Keys, name) == w.names
  {
  }

  lemma {:induction false} NoneHasEffect(step: Step, core: Core, model: ModelKey, w: World)
    requires ComesToNone(step.command, model, w.names)
    ensures EffectAs(step, core, model, w, w)
  {
    hide Effect, ComesToNone;
  }

  lemma {:induction false} ByOwnNameHasEffect(step: Step, core: Core, model: ModelKey, w: World, w': World)
    requires !ComesToNone(step.command, model, w.names) && Effect(ByOwnName(step, model), core, model, w.views, w'.views)
    requires w'.names == Renamed(w.names, w'.views.Keys, Subject(step.command))
    ensures EffectAs(step, core, model, w, w')
  {
    hide Effect, ComesToNone;
  }

  lemma RenamedMeans(names: map<Bytes, Bytes>, sessions: set<Bytes>, name: Bytes)
    ensures Renamed(names, sessions, name) == map own | own in sessions :: if own in names then names[own] else name
  {
  }

  lemma OwnParts(step: Step, model: ModelKey)
    ensures ByOwnName(step, model) == Step(OnOwnName(step.command, model), step.engine)
    ensures var (c, own) := (step.command, OnOwnName(step.command, model));
            && (own.OnPlan() || own.Planning().Some? ==> !own.Create? && !own.Restore? && !own.Restarted? && !own.Delete?)
            && (own.Delete? && Subject(c) != Subject(own) ==> !own.removed)
  {
  }

  /** The first steps of a command that calls its session `name`: the contexts of all sessions go to
      sleep that are not called so. */
  method EnterAs(m: SessionManager, engine: Engine, name: Bytes, id: Bytes) returns (ok: bool)
    requires m.Inv()
    modifies m.kv, m.kv.table, m.kv.resident
    ensures m.Inv() && (Exports(engine) ==> ok)
    ensures StaysRoomy(engine, id, old(m.kv.InMemory()), m.disk.files, m.kv.InMemory(), m.disk.files, 0)
  {
    hide *;
    ghost var held, kv := m.kv.InMemory(), m.kv.State();
    HeldParts(m.kv);
    ResidentKeys(m.kv);
    var error := m.EnterCommand(engine, name);
    HeldParts(m.kv);
    ResidentKeys(m.kv);
    ShrunkEntries(kv, m.kv.State(), held.entries, m.kv.InMemory().entries);
    SizedEntries(engine, id, held, m.kv.InMemory(), m.disk.files);
    ok := error != Some(InternalError);
  }

  /** Runs a command, under whatever name it calls its session. When that is not the session's own, its
      contexts go to sleep with those of the others. */
  method ExecuteAs(m: SessionManager, names: map<Bytes, Bytes>, step: Step) returns (names': map<Bytes, Bytes>)
    requires m.Inv() && NamesOf(m.model, m.sessions.Keys, names) && !Clashes(step.command, m.model, names)
    modifies m, m.kv, m.kv.table, m.kv.resident, m.kv.log, m.disk, m.repr
    ensures m.Inv() && fresh(m.repr - old(m.repr)) && NamesOf(m.model, m.sessions.Keys, names')
    ensures Kept(ByOwnName(step, m.model), m.model, old(ViewsOf(m)), old(m.disk.files), ViewsOf(m), m.disk.files)
    ensures EffectAs(step, m.core, m.model, World(names, old(ViewsOf(m))), World(names', ViewsOf(m)))
  {
    hide *;
    ViewsMean(m);
    ghost var w, files := World(names, ViewsOf(m)), m.disk.files;
    var c, own := step.command, OnOwnName(step.command, m.model);
    ghost var inner := ByOwnName(step, m.model);
    NothingKept(inner, m.model, w.views, files);
    names' := names;
    if ComesToNone(c, m.model, names) {
      if !c.Restore? {
        var _ := EnterAs(m, step.engine, Subject(c), Subject(c));
      }
      NoneHasEffect(step, m.core, m.model, w);
      return;
    }
    OwnParts(step, m.model);
    if own.OnPlan() || own.Planning().Some? || own.Delete? {
      if Subject(c) != Subject(own) {
        var ok := EnterAs(m, step.engine, Subject(c), Subject(own));
        if !ok {
          HinderedHasEffect(inner, m.core, m.model, w.views);
          SameNames(m.model, w, Subject(c));
          ByOwnNameHasEffect(step, m.core, m.model, w, w);
          return;
        }
      }
    }
    OwnKeepsNames(c, m.model, names);
    Execute(m, Step(own, step.engine));
    ViewsMean(m);
    StillNamed(step, m.core, m.model, w, ViewsOf(m));
    names' := map id | id in m.sessions :: if id in names then names[id] else Subject(c);
    RenamedMeans(names, ViewsOf(m).Keys, Subject(c));
    ByOwnNameHasEffect(step, m.core, m.model, w, World(names', ViewsOf(m)));
  }
}
