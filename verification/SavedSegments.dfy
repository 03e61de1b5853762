/** Indexed stays indexed: a segment that counts as saved, with a file that loads for what the
    segment holds, stays so whatever commands run, on whichever sessions, until its session is
    deleted or a memory is added to that very segment. */
module SavedSegments {
  import opened Basics
  import opened Persistent
  import opened SessionState
  import opened IncrementalPlan
  import PlanRefinement
  import opened SegmentKV
  import opened Coherence
  import opened KVManager
  import opened BinaryIO
  import opened SessionFiles
  import opened SessionSaving
  import opened Durability
  import opened CacheManifest
  import opened StorageNames
  import opened PlanInvariant
  import opened SessionPlans
  import opened SessionCommands
  import opened IndexCommands
  import opened PlanRestore
  import opened PlanOrder
  import opened SearchCommands
  import opened OneshotSearch

  /** A session as a value, with what is known of its durability: whether its facts could always be
      stored, and whether every save that was due succeeded. */
  datatype Standing = Standing(store: SessionStore, segments: seq<Segment>, metadata: map<int, CacheEntry>, storable: bool, saved: bool) {

    ghost function AsFacts(): Facts {
      Facts(store, storable)
    }
  }

  type Views = map<Bytes, Standing>

  ghost function StandingOf(d: DurableSession): Standing
    reads d, d.session
  {
    Standing(d.session.store, d.session.segments, d.session.metadata, d.storable, d.saved)
  }

  ghost function ViewsOf(m: SessionManager): Views
    reads m, set id | id in m.sessions :: m.sessions[id], set id | id in m.sessions :: m.sessions[id].session
  {
    map id | id in m.sessions :: StandingOf(m.sessions[id])
  }

  function PlanIn(v: Standing): Planned {
    Planned(v.store, v.segments)
  }

  /** The session has a plan, or nothing to plan. */
  predicate HasPlan(v: Standing) {
    v.segments != [] || v.store.memories == []
  }

  /** A command that is to give the plan `next` gives that, or refuses and leaves the plan alone; it
      does the former whenever the contexts in memory can be saved. */
  ghost predicate Follows(engine: Engine, id: Bytes, v: Standing, v': Standing, next: Planned) {
    HasPlan(v) ==> PlanIn(v') in {PlanIn(v), next} && (Exports(engine) && IsValidSessionId(id) ==> PlanIn(v') == next)
  }

  /** A command that asks something of the plan of session `id`. */
  ghost predicate FollowsCommand(engine: Engine, core: Core, id: Bytes, command: PlanRefinement.Command, before: Views, after: Views) {
    && (id in before <==> id in after)
    && (id in before && id in after ==>
          Follows(engine, id, before[id], after[id], PlanRefinement.Apply(core, PlanIn(before[id]), command)))
  }

  lemma FollowsIntro(engine: Engine, core: Core, id: Bytes, command: PlanRefinement.Command, before: Views, after: Views)
    requires id in before <==> id in after
    requires id in before && id in after && (before[id].segments != [] || before[id].store.memories == []) ==>
               var (p, p') := (Planned(before[id].store, before[id].segments), Planned(after[id].store, after[id].segments));
               match command
               case AddSystem(system) => p' in {p, p.WithSystem(system)} && (Exports(engine) && IsValidSessionId(id) ==> p' == p.WithSystem(system))
               case AddMemory(input) => p' in {p, p.Appended(core, input)} && (Exports(engine) && IsValidSessionId(id) ==> p' == p.Appended(core, input))
               case NextSegment => p' in {p, p.Sealed()} && (Exports(engine) && IsValidSessionId(id) ==> p' == p.Sealed())
    ensures FollowsCommand(engine, core, id, command, before, after)
  {
    hide Planned.WithSystem, Planned.Appended, Planned.Sealed, Exports, IsValidSessionId;
  }

  lemma FollowsMeans(engine: Engine, id: Bytes, v: Standing, v': Standing, next: Planned)
    ensures Follows(engine, id, v, v', next) <==>
            (v.segments != [] || v.store.memories == [] ==>
               && Planned(v'.store, v'.segments) in {Planned(v.store, v.segments), next}
               && (Exports(engine) && IsValidSessionId(id) ==> Planned(v'.store, v'.segments) == next))
    ensures PlanIn(v) == Planned(v.store, v.segments)
  {
  }

  ghost predicate IsSegment(views: Views, k: Key) {
    k.session in views && 0 <= k.segment < |views[k.session].segments|
  }

  /** Segment `k` counts as saved, and its file loads for what the segment holds. */
  ghost predicate SavedIn(engine: Engine, views: Views, files: map<Key, Snapshot>, k: Key) {
    IsSegment(views, k) &&
    var v := views[k.session];
    HasDisk(v.metadata, files, k) && k in files && Loads(engine, files[k], ContentAt(v.store, v.segments[k.segment]))
  }

  ghost function ContentIn(views: Views, k: Key): Content
    requires IsSegment(views, k)
  {
    ContentAt(views[k.session].store, views[k.session].segments[k.segment])
  }

  /** A plan that cuts the whole store in order stays one. */
  ghost predicate OrderKept(v: Standing, v': Standing) {
    InOrder(v.store, v.segments) ==> InOrder(v'.store, v'.segments)
  }

  /** Of the segments that were saved all but `touched` still are, with the same files and contents; and
      no plan became shorter, or stopped to cut its store in order. */
  ghost predicate StaySaved(engine: Engine, before: Views, files: map<Key, Snapshot>, after: Views, files': map<Key, Snapshot>,
                            touched: set<Key>) {
    && (forall id | id in before && id in after :: |before[id].segments| <= |after[id].segments| && OrderKept(before[id], after[id]))
    && (forall k | SavedIn(engine, before, files, k) && k !in touched ::
          SavedIn(engine, after, files', k) && files'[k] == files[k] && ContentIn(after, k) == ContentIn(before, k))
  }

  /** Every file that `engine` loads, `other` loads too. */
  ghost predicate LoadsNoLess(other: Engine, engine: Engine) {
    forall file: Snapshot, content: Content :: engine.load(file, content) ==> other.load(file, content)
  }

  /** A command may run on an engine of its own, as long as that loads what `engine` does. */
  lemma {:induction false} StaySavedOn(other: Engine, engine: Engine, before: Views, files: map<Key, Snapshot>, after: Views,
                                       files': map<Key, Snapshot>, touched: set<Key>)
    requires LoadsNoLess(other, engine) && StaySaved(other, before, files, after, files', touched)
    ensures StaySaved(engine, before, files, after, files', touched)
  {
    hide HasDisk, ContentAt;
    forall k | SavedIn(engine, before, files, k) && k !in touched
      ensures SavedIn(engine, after, files', k) && files'[k] == files[k] && ContentIn(after, k) == ContentIn(before, k)
    {
      assert SavedIn(other, before, files, k);
    }
  }

  // ----- From one command to all segments -----

  /** The segments hold what they held, but for number `except`. */
  ghost predicate ContentsKept(v: Standing, v': Standing, except: int) {
    |v.segments| <= |v'.segments| && OrderKept(v, v') &&
    forall k :: 0 <= k < |v.segments| && k != except ==> ContentAt(v'.store, v'.segments[k]) == ContentAt(v.store, v.segments[k])
  }

  /** Files that load are still there, and still count. */
  ghost predicate FilesKept(engine: Engine, id: Bytes, v: Standing, files: map<Key, Snapshot>, v': Standing, files': map<Key, Snapshot>,
                            except: int) {
    forall k | 0 <= k < |v.segments| && k != except && SavedIn(engine, map[id := v], files, Key(id, k)) ::
      HasDisk(v'.metadata, files', Key(id, k)) && files'[Key(id, k)] == files[Key(id, k)]
  }

  /** The other sessions stand as they did; `id`, if it was there and is, stays within the limits at a
      cost of at most `cost` when `fits`, and stays saved when `clean`. */
  ghost predicate Stands(before: Views, after: Views, id: Bytes, cost: nat, fits: bool, clean: bool) {
    && (forall j | j in after && j != id :: j in before && after[j] == before[j])
    && (id in after && id in before ==>
          && (fits ==> StayStorable(before[id].AsFacts(), after[id].AsFacts(), cost))
          && (clean && before[id].saved ==> after[id].saved))
  }

  /** What a command on session `id` does for the saved segments and the durability of all sessions. */
  ghost predicate StepKeeps(engine: Engine, id: Bytes, before: Views, files: map<Key, Snapshot>, after: Views, files': map<Key, Snapshot>,
                            touched: set<Key>, cost: nat, fits: bool, clean: bool) {
    StaySaved(engine, before, files, after, files', touched) && Stands(before, after, id, cost, fits, clean)
  }

  lemma {:induction false} CommandKeepsSaved(engine: Engine, id: Bytes, before: Views, files: map<Key, Snapshot>, after: Views,
                                             files': map<Key, Snapshot>, except: int)
    requires forall j | j in before && j != id :: j in after && after[j] == before[j]
    requires OtherFilesKept(id, files, files')
    requires id in before && before[id].segments != [] ==>
               && id in after
               && ContentsKept(before[id], after[id], except) && FilesKept(engine, id, before[id], files, after[id], files', except)
    requires id in before && id in after && before[id].segments == [] ==> OrderKept(before[id], after[id])
    ensures StaySaved(engine, before, files, after, files', {Key(id, except)})
    ensures except < 0 ==> StaySaved(engine, before, files, after, files', {})
  {
    hide Loads, ContentAt, InOrder;
    forall k | SavedIn(engine, before, files, k) && k != Key(id, except)
      ensures SavedIn(engine, after, files', k) && files'[k] == files[k] && ContentIn(after, k) == ContentIn(before, k)
    {
      if k.session == id {
        assert k == Key(id, k.segment) && SavedIn(engine, map[id := before[id]], files, k);
      } else {
        OtherSaved(before[k.session].metadata, id, files, files', k);
      }
    }
  }

  lemma {:induction false} CommandKeeps(engine: Engine, id: Bytes, before: Views, files: map<Key, Snapshot>, after: Views, files': map<Key, Snapshot>,
                                        except: int, cost: nat, fits: bool, clean: bool)
    requires forall j | (j in before || j in after) && j != id :: j in before && j in after && after[j] == before[j]
    requires OtherFilesKept(id, files, files')
    requires id in before && before[id].segments != [] ==>
               && id in after
               && ContentsKept(before[id], after[id], except) && FilesKept(engine, id, before[id], files, after[id], files', except)
    requires id in before && id in after && before[id].segments == [] ==> OrderKept(before[id], after[id])
    requires id in before && id in after && fits ==>
               StayStorable(Facts(before[id].store, before[id].storable), Facts(after[id].store, after[id].storable), cost)
    requires id in before && id in after && clean && before[id].saved ==> after[id].saved
    ensures StepKeeps(engine, id, before, files, after, files', {Key(id, except)}, cost, fits, clean)
    ensures except < 0 ==> StepKeeps(engine, id, before, files, after, files', {}, cost, fits, clean)
  {
    hide ContentsKept, FilesKept, StayStorable, StaySaved, OrderKept;
    CommandKeepsSaved(engine, id, before, files, after, files', except);
  }

  lemma {:induction false} OtherSaved(metadata: map<int, CacheEntry>, id: Bytes, files: map<Key, Snapshot>, files': map<Key, Snapshot>, k: Key)
    requires OtherFilesKept(id, files, files') && k.session != id && HasDisk(metadata, files, k)
    ensures HasDisk(metadata, files', k) && files'[k] == files[k]
  {
  }

  /** Sessions may have come, and `gone` may be gone. */
  lemma {:induction false} SameSessionsKeep(engine: Engine, gone: Bytes, before: Views, files: map<Key, Snapshot>, after: Views, files': map<Key, Snapshot>)
    requires forall j | j in before && j in after :: after[j] == before[j]
    requires (forall j | j in before && j != gone :: j in after) && forall j | j in after && j != gone :: j in before
    requires forall k | k in files && k.session != gone :: k in files' && files'[k] == files[k]
    ensures StepKeeps(engine, gone, before, files, after, files', KeysOf(before, gone), 0, true, true)
    ensures (gone in before ==> gone in after) && files' == files ==> StepKeeps(engine, gone, before, files, after, files', {}, 0, true, true)
  {
    hide Loads, ContentAt, StayStorable, InOrder;
    if gone in before && gone in after {
      SameStoreStays(before[gone].AsFacts(), after[gone].AsFacts(), 0);
    }
    forall k | SavedIn(engine, before, files, k) && k !in KeysOf(before, gone)
      ensures SavedIn(engine, after, files', k) && files'[k] == files[k] && ContentIn(after, k) == ContentIn(before, k)
    {
      assert k.session == gone ==> k == Key(gone, k.segment);
    }
  }

  /** A session that could not be deleted is still there, but may have lost files. */
  lemma {:induction false} LeftBehindKeeps(engine: Engine, id: Bytes, before: Views, files: map<Key, Snapshot>, after: Views, files': map<Key, Snapshot>,
                                           fits: bool)
    requires forall j | (j in before || j in after) && j != id :: j in before && j in after && after[j] == before[j]
    requires id in before && id in after
    requires after[id].segments == before[id].segments && after[id].saved == before[id].saved && after[id].store == before[id].store
    requires fits ==> after[id].storable == before[id].storable
    requires forall k | k in files && k.session != id :: k in files' && files'[k] == files[k]
    ensures StepKeeps(engine, id, before, files, after, files', KeysOf(before, id), 0, fits, true)
  {
    hide Loads, ContentAt, StayStorable, InOrder;
    if fits {
      SameStoreStays(before[id].AsFacts(), after[id].AsFacts(), 0);
    }
    forall k | SavedIn(engine, before, files, k) && k !in KeysOf(before, id)
      ensures SavedIn(engine, after, files', k) && files'[k] == files[k] && ContentIn(after, k) == ContentIn(before, k)
    {
      assert k.session == id ==> k == Key(id, k.segment);
    }
  }

  lemma {:induction false} FitsMore(engine: Engine, id: Bytes, before: Views, files: map<Key, Snapshot>, after: Views, files': map<Key, Snapshot>,
                                    touched: set<Key>, cost: nat, fits: bool, clean: bool)
    requires StepKeeps(engine, id, before, files, after, files', touched, cost, true, true)
    ensures StepKeeps(engine, id, before, files, after, files', touched, cost, fits, clean)
  {
    hide StaySaved, StayStorable;
  }

  /** The engine loads every file for the content it was written for. */
  ghost predicate LoadsFreshFiles(engine: Engine) {
    forall file: Snapshot :: engine.load(file, file.metadata.content)
  }

  /** What an index of a session with kv_persist, or a save, leaves. */
  lemma {:induction false} IndexedIsSaved(engine: Engine, id: Bytes, views: Views, files: map<Key, Snapshot>, want: map<Key, Content>)
    requires id in views && LoadsFreshFiles(engine)
    requires var v := views[id];
             && SavedUpTo(id, v.metadata, files, |v.segments|) && FreshUpTo(id, files, want, |v.segments|)
             && WantedOf(want, id, v.store, v.segments)
    ensures forall k | 0 <= k < |views[id].segments| :: SavedIn(engine, views, files, Key(id, k))
  {
    hide HasDisk, ContentAt;
    forall k | 0 <= k < |views[id].segments| ensures SavedIn(engine, views, files, Key(id, k)) {
      assert FreshFile(files, want, Key(id, k));
    }
  }

  // ----- What the commands do for their own session -----

  lemma {:induction false} SameStoreContents(a: SessionStore, b: SessionStore, before: seq<Segment>, after: seq<Segment>)
    requires a.system == b.system && a.memories == b.memories && SameRuns(before, after)
    ensures |before| == |after| && forall k :: 0 <= k < |before| ==> ContentAt(b, after[k]) == ContentAt(a, before[k])
  {
    hide SameRuns, SegmentTexts;
    SameIndices(before, after);
  }

  /** Index, save and search. */
  lemma {:induction false} LoadableIsKept(engine: Engine, id: Bytes, want: map<Key, Content>, v: Standing, files: map<Key, Snapshot>,
                                          v': Standing, files': map<Key, Snapshot>)
    requires v'.store.system == v.store.system && v'.store.memories == v.store.memories && SameRuns(v.segments, v'.segments)
    requires v'.store.boundaries == v.store.boundaries
    requires WantedOf(want, id, v'.store, v'.segments)
    requires KeepsLoadable(id, engine, want, files, v.metadata, files', v'.metadata)
    ensures ContentsKept(v, v', -1) && FilesKept(engine, id, v, files, v', files', -1)
  {
    hide Loads, ContentAt, SameRuns, InOrder;
    if InOrder(v.store, v.segments) {
      CountedInOrder(v.store, v'.store, v.segments, v'.segments);
    }
    SameStoreContents(v.store, v'.store, v.segments, v'.segments);
    forall k | 0 <= k < |v.segments| && SavedIn(engine, map[id := v], files, Key(id, k))
      ensures HasDisk(v'.metadata, files', Key(id, k)) && files'[Key(id, k)] == files[Key(id, k)]
    {
      assert Key(id, k) in want && want[Key(id, k)] == ContentAt(v'.store, v'.segments[k]);
    }
  }

  /** Clear, next-segment, add-system and add-memory, which touch no file. */
  lemma {:induction false} DiskIsKept(engine: Engine, id: Bytes, v: Standing, v': Standing, files: map<Key, Snapshot>, except: int)
    requires KeepsDisk(v.metadata, v'.metadata, files, except)
    ensures FilesKept(engine, id, v, files, v', files, except)
  {
    hide HasDisk, Loads, ContentAt;
  }

  lemma {:induction false} SamePlanSameContents(v: Standing, v': Standing, except: int)
    requires v'.store.system == v.store.system && v'.store.memories == v.store.memories && v'.segments == v.segments
    requires OrderKept(v, v')
    ensures ContentsKept(v, v', except)
  {
    hide SegmentTexts, OrderKept;
  }

  lemma SameOrder(v: Standing, v': Standing)
    requires v'.store == v.store && v'.segments == v.segments
    ensures OrderKept(v, v')
  {
  }

  lemma {:induction false} AppendedOrder(core: Core, p: Planned, input: MemoryInput, v: Standing, v': Standing)
    requires ValidStore(p.store) && v.store == p.store && v.segments == p.segments
    requires Planned(v'.store, v'.segments) == p.Appended(core, input)
    ensures OrderKept(v, v')
  {
    hide Planned.Decide, Planned.Appended, ValidStore, InOrder;
    if InOrder(p.store, p.segments) {
      GrownInOrder(core, p, input);
    }
  }

  lemma {:induction false} AppendedContents(core: Core, p: Planned, input: MemoryInput, v: Standing, v': Standing)
    requires ValidStore(p.store) && PlanOk(p.store, p.segments) && v.store == p.store && v.segments == p.segments
    requires Planned(v'.store, v'.segments) == p.Appended(core, input)
    ensures ContentsKept(v, v', |v'.segments| - 1)
  {
    hide Planned.Decide, Planned.Appended, ValidStore, PlanOk, ContentAt, OrderKept, GrownPlan;
    AppendedOrder(core, p, input, v, v');
    if p.Decide(core, input.text).Refused? {
      RefusedChangesNothing(core, p, input);
    } else {
      AcceptedAppends(core, p, input);
      AppendGrowsPlan(core, p, input);
      OthersAreKept(p.store, p.NewRecord(core, input), p.segments, v'.segments, p.Decide(core, input.text).Opens?);
    }
  }

  lemma {:induction false} OthersAreKept(store: SessionStore, m: MemoryRecord, before: seq<Segment>, after: seq<Segment>, opens: bool)
    requires ValidStore(store) && m.idx == store.nextIdx
    requires PlanOk(store, before) && GrownPlan(store, before, after, opens) && (!opens ==> before != [])
    ensures |before| <= |after|
    ensures var store' := store.(memories := store.memories + [m], nextIdx := store.nextIdx + 1, systemLocked := true);
            forall k :: 0 <= k < |before| && k != |after| - 1 ==> ContentAt(store', after[k]) == ContentAt(store, before[k])
  {
    hide ValidStore, PlanOk, ContentAt;
    GrownContents(store, m, before, after, opens);
  }

  lemma {:induction false} PlannedIsReady(m: SessionManager, id: Bytes)
    requires m.Inv() && id in m.sessions && m.sessions[id].session.segments != []
    ensures m.sessions[id].session.planReady && m.sessions[id].session.store.memories != []
    ensures ValidStore(m.sessions[id].session.store) && PlanOk(m.sessions[id].session.store, m.sessions[id].session.segments)
  {
    hide SessionManager.Inv, SessionOk, ValidStore;
    InvOpened(m);
    SessionOpened(m.sessions[id], id, m.want);
    var session := m.sessions[id].session;
    FirstIsPresent(session.store, session.segments);
  }

  lemma FirstIsPresent(store: SessionStore, segments: seq<Segment>)
    requires PlanOk(store, segments) && segments != []
    ensures store.memories != []
  {
    assert FindMemory(store.memories, segments[0].indices[0]).Some?;
  }

  /** A session with nothing to plan, to which no memory was added, still has nothing to plan. */
  lemma {:induction false} StillEmpty(m: SessionManager, id: Bytes, v: Standing, v': Standing)
    requires m.Inv() && id in m.sessions && v.segments == [] && |v'.store.memories| == |v.store.memories|
    requires v'.store == m.sessions[id].session.store && v'.segments == m.sessions[id].session.segments
    ensures OrderKept(v, v')
  {
    hide SessionManager.Inv, PlanOk, Ascending;
    SessionPlan(m, id, m.sessions[id]);
    if InOrder(v.store, v.segments) {
      if v'.segments != [] {
        FirstIsPresent(v'.store, v'.segments);
      }
      EmptyIsInOrder(v'.store);
    }
  }

  /** The first memory of a session with nothing to plan. */
  lemma {:induction false} FirstInOrder(core: Core, input: MemoryInput, v: Standing, v': Standing)
    requires ValidStore(v.store) && v.segments == []
    requires v.store.memories == [] ==>
               Planned(v'.store, v'.segments) in {Planned(v.store, []), Planned(v.store, []).Appended(core, input)}
    ensures OrderKept(v, v')
  {
    hide ValidStore, Planned.Appended, Ascending;
    if InOrder(v.store, v.segments) {
      NothingInOrder(v.store);
      GrownInOrder(core, Planned(v.store, []), input);
    }
  }

  lemma NothingInOrder(store: SessionStore)
    requires InOrder(store, [])
    ensures store.memories == []
  {
  }

  lemma {:induction false} Apart(m: SessionManager, id: Bytes)
    requires m.Inv()
    ensures forall j | j in m.sessions && j != id ::
              m.sessions[j] !in m.ObjectsOf(id) && (m.sessions[j].session as object) !in m.ObjectsOf(id)
    ensures m !in m.ObjectsOf(id) && m.disk !in m.ObjectsOf(id) && m.kv.log !in m.ObjectsOf(id)
  {
    InvOpened(m);
    SeparateMeans(m);
    hide SessionManager.Inv, SessionOk;
  }

  lemma {:induction false} ObjectsInRepr(m: SessionManager)
    requires m.Inv()
    ensures m !in m.repr && forall id :: m.ObjectsOf(id) <= m.repr
  {
    InvOpened(m);
    SeparateMeans(m);
    hide SessionManager.Inv, SessionOk, Unrelated;
  }

  lemma {:induction false} ViewsMean(m: SessionManager)
    ensures ViewsOf(m).Keys == m.sessions.Keys
    ensures forall id | id in m.sessions ::
              var d := m.sessions[id]; ViewsOf(m)[id] == Standing(d.session.store, d.session.segments, d.session.metadata, d.storable, d.saved)
  {
  }

  lemma NoFilesTouched(id: Bytes, files: map<Key, Snapshot>)
    ensures OtherFilesKept(id, files, files)
  {
  }

  // ----- The commands -----

  /** What there is to know before a command on session `id`. */
  lemma {:induction false} BeforeCommand(m: SessionManager, id: Bytes)
    requires m.Inv()
    ensures forall j | j in m.sessions && j != id ::
              m.sessions[j] !in m.ObjectsOf(id) && (m.sessions[j].session as object) !in m.ObjectsOf(id)
    ensures m !in m.ObjectsOf(id) && m.disk !in m.ObjectsOf(id) && m.kv.log !in m.ObjectsOf(id)
    ensures ViewsOf(m).Keys == m.sessions.Keys
    ensures forall id | id in m.sessions ::
              var d := m.sessions[id]; ViewsOf(m)[id] == Standing(d.session.store, d.session.segments, d.session.metadata, d.storable, d.saved)
    ensures id in m.sessions && m.sessions[id].session.segments != [] ==>
              && m.sessions[id].session.planReady && m.sessions[id].session.store.memories != []
              && ValidStore(m.sessions[id].session.store) && PlanOk(m.sessions[id].session.store, m.sessions[id].session.segments)
    ensures id in m.sessions ==> (Settled(m.sessions[id].session) <==> m.sessions[id].session.planReady || m.sessions[id].session.store.memories == [])
  {
    hide *;
    if id in m.sessions {
      SettledMeans(m.sessions[id].session);
    }
    Apart(m, id);
    ViewsMean(m);
    if id in m.sessions && m.sessions[id].session.segments != [] {
      PlannedIsReady(m, id);
    }
  }

  method IndexAndKeep(m: SessionManager, engine: Engine, id: Bytes, faults: SaveFaults, indexFaults: IndexFaults)
    requires m.Inv()
    modifies m`want, m.kv, m.kv.table, m.kv.resident, m.disk, m.ObjectsOf(id)
    ensures m.Inv() && StepKeeps(engine, id, old(ViewsOf(m)), old(m.disk.files), ViewsOf(m), m.disk.files, {}, 0, true, faults == NO_FAULTS)
    ensures id in ViewsOf(m) <==> id in old(ViewsOf(m))
    ensures id in ViewsOf(m) && old(ViewsOf(m))[id].segments != [] ==>
              var (v, v') := (old(ViewsOf(m))[id], ViewsOf(m)[id]); v'.store == v.store && SameRuns(v.segments, v'.segments)
  {
    hide *;
    BeforeCommand(m, id);
    ghost var before, planned := ViewsOf(m), id in m.sessions && m.sessions[id].session.segments != [];
    if id in m.sessions {
      FactsParts(m.sessions[id]);
    }
    var _ := IndexSession(m, engine, id, faults, indexFaults);
    ViewsMean(m);
    if id in m.sessions {
      FactsParts(m.sessions[id]);
    }
    if planned {
      WantedNow(m, id);
      LoadableIsKept(engine, id, m.want, before[id], old(m.disk.files), ViewsOf(m)[id], m.disk.files);
    } else if id in m.sessions {
      StillEmpty(m, id, before[id], ViewsOf(m)[id]);
    }
    CommandKeeps(engine, id, before, old(m.disk.files), ViewsOf(m), m.disk.files, -1, 0, true, faults == NO_FAULTS);
  }

  method SaveAndKeep(m: SessionManager, engine: Engine, id: Bytes, faults: SaveFaults, indexFaults: IndexFaults)
    requires m.Inv()
    modifies m`want, m.kv, m.kv.table, m.kv.resident, m.disk, m.ObjectsOf(id)
    ensures m.Inv() && StepKeeps(engine, id, old(ViewsOf(m)), old(m.disk.files), ViewsOf(m), m.disk.files, {}, 0, true, faults == NO_FAULTS)
    ensures id in ViewsOf(m) <==> id in old(ViewsOf(m))
    ensures id in ViewsOf(m) && old(ViewsOf(m))[id].segments != [] ==>
              var (v, v') := (old(ViewsOf(m))[id], ViewsOf(m)[id]);
              PersistentStore(v'.store) == PersistentStore(v.store) && SameRuns(v.segments, v'.segments)
  {
    hide *;
    BeforeCommand(m, id);
    ghost var before, planned := ViewsOf(m), id in m.sessions && m.sessions[id].session.segments != [];
    if id in m.sessions {
      FactsParts(m.sessions[id]);
    }
    var _ := SaveSession(m, engine, id, faults, indexFaults);
    ViewsMean(m);
    if id in m.sessions {
      FactsParts(m.sessions[id]);
    }
    if planned {
      WantedNow(m, id);
      SameUpToFlag(before[id].store, ViewsOf(m)[id].store);
      LoadableIsKept(engine, id, m.want, before[id], old(m.disk.files), ViewsOf(m)[id], m.disk.files);
    } else if id in m.sessions {
      StillEmpty(m, id, before[id], ViewsOf(m)[id]);
    }
    CommandKeeps(engine, id, before, old(m.disk.files), ViewsOf(m), m.disk.files, -1, 0, true, faults == NO_FAULTS);
  }

  lemma SameUpToFlag(a: SessionStore, b: SessionStore)
    requires PersistentStore(a) == PersistentStore(b)
    ensures a.system == b.system && a.memories == b.memories && a.boundaries == b.boundaries
  {
    assert PersistentStore(a).system == a.system && PersistentStore(a).memories == a.memories && PersistentStore(a).boundaries == a.boundaries;
  }

  method SearchAndKeep(m: SessionManager, engine: Engine, id: Bytes, query: Query, topK: int)
    requires m.Inv()
    modifies m`want, m.kv, m.kv.table, m.kv.resident, m.kv.log, m.ObjectsOf(id)
    ensures m.Inv() && StepKeeps(engine, id, old(ViewsOf(m)), old(m.disk.files), ViewsOf(m), m.disk.files, {}, 0, true, true)
    ensures id in ViewsOf(m) <==> id in old(ViewsOf(m))
    ensures id in ViewsOf(m) ==> Follows(engine, id, old(ViewsOf(m))[id], ViewsOf(m)[id], PlanIn(old(ViewsOf(m))[id]))
  {
    hide *;
    BeforeCommand(m, id);
    ghost var before, planned := ViewsOf(m), id in m.sessions && m.sessions[id].session.segments != [];
    if id in m.sessions {
      FactsParts(m.sessions[id]);
    }
    ghost var rankings, seen;
    if id in m.sessions {
      PartsOf(m.sessions[id].session);
    }
    var error, result;
    error, result, rankings, seen := Search(m, engine, id, query, topK);
    ViewsMean(m);
    if id in m.sessions {
      FactsParts(m.sessions[id]);
      PartsOf(m.sessions[id].session);
      FollowsMeans(engine, id, before[id], ViewsOf(m)[id], PlanIn(before[id]));
    }
    if planned {
      WantedNow(m, id);
      assert ViewsOf(m)[id].segments == before[id].segments && ViewsOf(m)[id].store == before[id].store;
      RunsOfItself(before[id].segments);
      LoadableIsKept(engine, id, m.want, before[id], old(m.disk.files), ViewsOf(m)[id], m.disk.files);
    } else if id in m.sessions {
      StillEmpty(m, id, before[id], ViewsOf(m)[id]);
    }
    NoFilesTouched(id, m.disk.files);
    CommandKeeps(engine, id, before, old(m.disk.files), ViewsOf(m), m.disk.files, -1, 0, true, true);
  }

  /** The segments of a session. */
  ghost function KeysOf(views: Views, id: Bytes): set<Key> {
    if id in views then set k: int | 0 <= k < |views[id].segments| :: Key(id, k) else {}
  }

  /** The segment that a memory was added to last. */
  ghost function LastOf(views: Views, id: Bytes): set<Key> {
    if id in views then {Key(id, |views[id].segments| - 1)} else {}
  }

  method AddAndKeep(m: SessionManager, engine: Engine, id: Bytes, input: MemoryInput, faults: SaveFaults)
    requires m.Inv()
    modifies m`want, m.kv, m.kv.table, m.kv.resident, m.ObjectsOf(id)
    ensures m.Inv()
    ensures StepKeeps(engine, id, old(ViewsOf(m)), old(m.disk.files), ViewsOf(m), m.disk.files, LastOf(ViewsOf(m), id),
                      1, ReadableInput(input), faults == NO_FAULTS)
    ensures FollowsCommand(engine, m.core, id, PlanRefinement.AddMemory(input), old(ViewsOf(m)), ViewsOf(m))
  {
    hide *;
    BeforeCommand(m, id);
    ghost var before := ViewsOf(m);
    if id in m.sessions {
      PartsOf(m.sessions[id].session);
      FactsParts(m.sessions[id]);
      SessionPlan(m, id, m.sessions[id]);
    }
    var _ := m.AddMemory(engine, id, input, faults);
    ViewsMean(m);
    if id in m.sessions {
      PartsOf(m.sessions[id].session);
      FactsParts(m.sessions[id]);
    }
    FollowsIntro(engine, m.core, id, PlanRefinement.AddMemory(input), before, ViewsOf(m));
    AddedStep(m.core, engine, id, input, before, ViewsOf(m), m.disk.files, faults == NO_FAULTS);
  }

  lemma {:induction false} AddedStep(core: Core, engine: Engine, id: Bytes, input: MemoryInput, before: Views, after: Views, files: map<Key, Snapshot>,
                                     clean: bool)
    requires forall j | (j in before || j in after) && j != id :: j in before && j in after && after[j] == before[j]
    requires id in before && id in after ==>
               && ValidStore(before[id].store) && PlanOk(before[id].store, before[id].segments)
               && (before[id].segments != [] || before[id].store.memories == [] ==>
                     Planned(after[id].store, after[id].segments) in {Planned(before[id].store, before[id].segments),
                                                                     Planned(before[id].store, before[id].segments).Appended(core, input)})
               && (before[id].segments != [] ==> KeepsDisk(before[id].metadata, after[id].metadata, files, |after[id].segments| - 1))
               && (ReadableInput(input) ==>
                     StayStorable(Facts(before[id].store, before[id].storable), Facts(after[id].store, after[id].storable), 1))
               && (clean && before[id].saved ==> after[id].saved)
    requires id in before <==> id in after
    ensures StepKeeps(engine, id, before, files, after, files, LastOf(after, id), 1, ReadableInput(input), clean)
  {
    hide *;
    if id in before {
      if before[id].segments != [] {
        AddedKeeps(core, engine, id, input, before[id], after[id], files);
      } else {
        FirstInOrder(core, input, before[id], after[id]);
      }
    }
    NoFilesTouched(id, files);
    LastMeans(after, id);
    CommandKeeps(engine, id, before, files, after, files, if id in after then |after[id].segments| - 1 else -1, 1, ReadableInput(input), clean);
  }

  lemma {:induction false} AddedKeeps(core: Core, engine: Engine, id: Bytes, input: MemoryInput, v: Standing, v': Standing, files: map<Key, Snapshot>)
    requires ValidStore(v.store) && PlanOk(v.store, v.segments)
    requires Planned(v'.store, v'.segments) in {Planned(v.store, v.segments), Planned(v.store, v.segments).Appended(core, input)}
    requires KeepsDisk(v.metadata, v'.metadata, files, |v'.segments| - 1)
    ensures ContentsKept(v, v', |v'.segments| - 1) && FilesKept(engine, id, v, files, v', files, |v'.segments| - 1)
  {
    hide ValidStore, PlanOk, Planned.Appended, ContentsKept, FilesKept, KeepsDisk, OrderKept;
    DiskIsKept(engine, id, v, v', files, |v'.segments| - 1);
    if v'.store == v.store && v'.segments == v.segments {
      SameOrder(v, v');
      SamePlanSameContents(v, v', |v'.segments| - 1);
    } else {
      AppendedContents(core, Planned(v.store, v.segments), input, v, v');
    }
  }

  lemma LastMeans(views: Views, id: Bytes)
    ensures LastOf(views, id) == if id in views then {Key(id, |views[id].segments| - 1)} else {}
  {
  }

  lemma {:induction false} SealedContents(p: Planned, v: Standing, v': Standing)
    requires p == Planned(v.store, v.segments) && Planned(v'.store, v'.segments) in {p, p.Sealed()} && ValidStore(p.store)
    ensures OrderKept(v, v')
    ensures v'.store.system == v.store.system && v'.store.memories == v.store.memories && v'.segments == v.segments
  {
    hide InOrder, ValidStore;
    if InOrder(v.store, v.segments) {
      SealedInOrder(v.store, v.segments);
    }
  }

  method NextAndKeep(m: SessionManager, engine: Engine, id: Bytes, faults: SaveFaults)
    requires m.Inv()
    modifies m`want, m.kv, m.kv.table, m.kv.resident, m.ObjectsOf(id)
    ensures m.Inv() && StepKeeps(engine, id, old(ViewsOf(m)), old(m.disk.files), ViewsOf(m), m.disk.files, {}, 1, true, faults == NO_FAULTS)
    ensures FollowsCommand(engine, m.core, id, PlanRefinement.NextSegment, old(ViewsOf(m)), ViewsOf(m))
  {
    hide *;
    BeforeCommand(m, id);
    ghost var before, planned := ViewsOf(m), id in m.sessions && m.sessions[id].session.segments != [];
    if id in m.sessions {
      FactsParts(m.sessions[id]);
      PartsOf(m.sessions[id].session);
    }
    var _ := m.NextSegment(engine, id, faults);
    ViewsMean(m);
    if id in m.sessions {
      FactsParts(m.sessions[id]);
      PartsOf(m.sessions[id].session);
    }
    FollowsIntro(engine, m.core, id, PlanRefinement.NextSegment, before, ViewsOf(m));
    if planned {
      SealedContents(Planned(before[id].store, before[id].segments), before[id], ViewsOf(m)[id]);
      KeptAsBefore(engine, id, before[id], ViewsOf(m)[id], m.disk.files);
    } else if id in m.sessions {
      StillEmpty(m, id, before[id], ViewsOf(m)[id]);
    }
    NoFilesTouched(id, m.disk.files);
    CommandKeeps(engine, id, before, old(m.disk.files), ViewsOf(m), m.disk.files, -1, 1, true, faults == NO_FAULTS);
  }

  /** The same contents, and the same entries as far as files are concerned. */
  lemma {:induction false} KeptAsBefore(engine: Engine, id: Bytes, v: Standing, v': Standing, files: map<Key, Snapshot>)
    requires v'.store.system == v.store.system && v'.store.memories == v.store.memories && v'.segments == v.segments
    requires OrderKept(v, v')
    requires v'.metadata == v.metadata || forall k: Key | k.session == id :: HasDisk(v.metadata, files, k) <==> HasDisk(v'.metadata, files, k)
    ensures ContentsKept(v, v', -1) && FilesKept(engine, id, v, files, v', files, -1)
  {
    hide Loads, ContentAt, OrderKept;
    SamePlanSameContents(v, v', -1);
  }

  lemma SamePlan(v: Standing, v': Standing)
    requires v'.store == v.store && v'.segments == v.segments
    ensures PlanIn(v') == PlanIn(v)
  {
  }

  method ClearAndKeep(m: SessionManager, engine: Engine, id: Bytes)
    requires m.Inv()
    modifies m.kv, m.kv.table, m.kv.resident, m.ObjectsOf(id)
    ensures m.Inv() && StepKeeps(engine, id, old(ViewsOf(m)), old(m.disk.files), ViewsOf(m), m.disk.files, {}, 0, true, true)
    ensures id in ViewsOf(m) <==> id in old(ViewsOf(m))
    ensures id in ViewsOf(m) ==> PlanIn(ViewsOf(m)[id]) == PlanIn(old(ViewsOf(m))[id])
    ensures Exports(engine) && IsValidSessionId(id) && id in ViewsOf(m) ==> NoneResident(ViewsOf(m)[id].metadata)
  {
    hide *;
    BeforeCommand(m, id);
    ghost var before, planned := ViewsOf(m), id in m.sessions && m.sessions[id].session.segments != [];
    if id in m.sessions {
      FactsParts(m.sessions[id]);
      SameStoreStays(FactsOf(m.sessions[id]), FactsOf(m.sessions[id]), 0);
    }
    if id in m.sessions {
      PartsOf(m.sessions[id].session);
    }
    var _ := m.ClearSession(engine, id);
    ViewsMean(m);
    if id in m.sessions {
      FactsParts(m.sessions[id]);
      PartsOf(m.sessions[id].session);
      SamePlan(before[id], ViewsOf(m)[id]);
    }
    if planned {
      assert ViewsOf(m)[id].segments == before[id].segments && ViewsOf(m)[id].store == before[id].store;
      SameOrder(before[id], ViewsOf(m)[id]);
      KeptAsBefore(engine, id, before[id], ViewsOf(m)[id], m.disk.files);
    } else if id in m.sessions {
      StillEmpty(m, id, before[id], ViewsOf(m)[id]);
    }
    NoFilesTouched(id, m.disk.files);
    CommandKeeps(engine, id, before, old(m.disk.files), ViewsOf(m), m.disk.files, -1, 0, true, true);
  }

  method SetSystemAndKeep(m: SessionManager, engine: Engine, id: Bytes, system: Bytes, faults: SaveFaults)
    requires m.Inv()
    modifies m`want, m.kv, m.kv.table, m.kv.resident, m.ObjectsOf(id)
    ensures m.Inv() && StepKeeps(engine, id, old(ViewsOf(m)), old(m.disk.files), ViewsOf(m), m.disk.files, {}, 0, |system| <= MAX_STRING_BYTES, faults == NO_FAULTS)
    ensures FollowsCommand(engine, m.core, id, PlanRefinement.AddSystem(system), old(ViewsOf(m)), ViewsOf(m))
  {
    hide *;
    BeforeCommand(m, id);
    ghost var before, planned := ViewsOf(m), id in m.sessions && m.sessions[id].session.segments != [];
    if id in m.sessions {
      FactsParts(m.sessions[id]);
    }
    if id in m.sessions {
      PartsOf(m.sessions[id].session);
    }
    var _ := m.AddSystem(engine, id, system, faults);
    ViewsMean(m);
    if id in m.sessions {
      FactsParts(m.sessions[id]);
      PartsOf(m.sessions[id].session);
    }
    FollowsIntro(engine, m.core, id, PlanRefinement.AddSystem(system), before, ViewsOf(m));
    if planned {
      SameOrder(before[id], ViewsOf(m)[id]);
      KeptAsBefore(engine, id, before[id], ViewsOf(m)[id], m.disk.files);
    } else if id in m.sessions {
      StillEmpty(m, id, before[id], ViewsOf(m)[id]);
    }
    NoFilesTouched(id, m.disk.files);
    CommandKeeps(engine, id, before, old(m.disk.files), ViewsOf(m), m.disk.files, -1, 0, |system| <= MAX_STRING_BYTES, faults == NO_FAULTS);
  }

  method DeleteAndKeep(m: SessionManager, engine: Engine, id: Bytes, removed: bool, left: SessionDir, leftFiles: set<Key>, leftManifest: bool)
    requires m.Inv()
    modifies m`want, m`sessions, m.kv, m.kv.table, m.kv.resident, m.disk, m.ObjectsOf(id)
    ensures m.sessions.Keys <= old(m.sessions).Keys && forall j | j in old(m.sessions) && j != id :: j in m.sessions
    ensures m.Inv()
    ensures StepKeeps(engine, id, old(ViewsOf(m)), old(m.disk.files), ViewsOf(m), m.disk.files, KeysOf(old(ViewsOf(m)), id), 0, removed, true)
    ensures Exports(engine) && IsValidSessionId(id) && removed ==> id !in m.sessions
    ensures !removed && id in old(m.sessions) ==> id in m.sessions
    ensures id in m.sessions ==> id in old(ViewsOf(m)) && id in ViewsOf(m) && PlanIn(ViewsOf(m)[id]) == PlanIn(old(ViewsOf(m))[id])
  {
    hide *;
    BeforeCommand(m, id);
    ghost var before := ViewsOf(m);
    if id in m.sessions {
      PartsOf(m.sessions[id].session);
      FactsParts(m.sessions[id]);
    }
    var error := m.DeleteSession(engine, id, removed, left, leftFiles, leftManifest);
    ViewsMean(m);
    LeftMeans(old(m.disk.files), id, leftFiles);
    if id in m.sessions {
      PartsOf(m.sessions[id].session);
      SamePlan(before[id], ViewsOf(m)[id]);
    }
    if error.Some? && id in m.sessions {
      FactsParts(m.sessions[id]);
      LeftBehindKeeps(engine, id, before, old(m.disk.files), ViewsOf(m), m.disk.files, removed);
    } else {
      SameSessionsKeep(engine, id, before, old(m.disk.files), ViewsOf(m), m.disk.files);
      FitsMore(engine, id, before, old(m.disk.files), ViewsOf(m), m.disk.files, KeysOf(before, id), 0, removed, true);
    }
  }

  lemma LeftMeans(files: map<Key, Snapshot>, id: Bytes, left: set<Key>)
    ensures var kept := FilesLeft(files, id, left); forall k | k in files && k.session != id :: k in kept && kept[k] == files[k]
  {
  }

  /** What create-session asks for, apart from a name that is not in use. */
  predicate Creates(id: Bytes, directoryExists: bool, faults: SaveFaults) {
    IsValidSessionId(id) && !directoryExists && NoUnderscoreAtTheEnds(id) && faults.writeMetadata && faults.renameMetadata
  }

  lemma CreatesMeans(id: Bytes, directoryExists: bool, faults: SaveFaults)
    ensures Creates(id, directoryExists, faults) <==>
            IsValidSessionId(id) && !directoryExists && NoUnderscoreAtTheEnds(id) && faults.writeMetadata && faults.renameMetadata
  {
  }

  method CreateAndKeep(m: SessionManager, engine: Engine, id: Bytes, kvPersist: bool, directoryExists: bool, faults: SaveFaults)
    requires m.Inv()
    modifies m`sessions, m`repr
    ensures (forall j | j in m.sessions && j != id :: j in old(m.sessions)) && forall j | j in old(m.sessions) :: j in m.sessions
    ensures m.Inv() && fresh(m.repr - old(m.repr))
    ensures StepKeeps(engine, id, old(ViewsOf(m)), old(m.disk.files), ViewsOf(m), m.disk.files, {}, 0, true, true)
    ensures id in m.sessions && id !in old(m.sessions) ==>
              && m.sessions[id].session.store == FreshStore(id, kvPersist) && m.sessions[id].saved
              && (StoreFits(FreshStore(id, kvPersist), 0) ==> m.sessions[id].storable)
    ensures id in m.sessions <==> id in old(m.sessions) || Creates(id, directoryExists, faults)
    ensures id in old(m.sessions) ==> m.sessions[id] == old(m.sessions[id])
    ensures id in m.sessions && id !in old(m.sessions) ==> m.sessions[id].session.segments == []
  {
    hide *;
    ViewsMean(m);
    ghost var before := ViewsOf(m);
    CreatesMeans(id, directoryExists, faults);
    var _ := m.CreateSession(id, kvPersist, directoryExists, faults);
    ViewsMean(m);
    SameSessionsKeep(engine, id, before, old(m.disk.files), ViewsOf(m), m.disk.files);
  }

  /** Restoring does not load a session under a name that is not its own: the name has no underscore
      at its ends, or the directory that it leads to does not load. */
  ghost predicate KeepsName(model: ModelKey, id: Bytes, files: SessionDir) {
    IsValidSessionId(id) && !NoUnderscoreAtTheEnds(id) ==> Load(files, SessionLayout(model, id).session) == None
  }

  lemma KeepsNameMeans(model: ModelKey, id: Bytes, files: SessionDir)
    requires KeepsName(model, id, files)
    ensures IsValidSessionId(id) && !NoUnderscoreAtTheEnds(id) ==> Load(files, SessionLayout(model, id).session) == None
  {
  }

  method RestoreFrom(m: SessionManager, engine: Engine, id: Bytes, present: bool, dir: SessionDirectory)
    requires m.Inv() && dir.name == SessionLayout(m.model, id).session && dir.past == {dir.files} && (present ==> KeepsName(m.model, id, dir.files))
    modifies m`sessions, m`repr, m.kv, m.kv.table, m.kv.resident
    ensures (forall j | j in m.sessions && j != id :: j in old(m.sessions)) && forall j | j in old(m.sessions) :: j in m.sessions
    ensures m.Inv() && fresh(m.repr - old(m.repr) - {dir})
    ensures StepKeeps(engine, id, old(ViewsOf(m)), old(m.disk.files), ViewsOf(m), m.disk.files, {}, 0, true, true)
    ensures id in m.sessions && id !in old(m.sessions) ==>
              && m.sessions[id].storable && m.sessions[id].saved && Storable(m.sessions[id].session.store)
              && present && Load(dir.files, dir.name) == Some(m.sessions[id].session.store)
    ensures id in m.sessions <==> id in old(m.sessions) || (IsValidSessionId(id) && present && Load(dir.files, dir.name).Some?)
    ensures id in old(m.sessions) ==> m.sessions[id] == old(m.sessions[id])
    ensures id in m.sessions && id !in old(m.sessions) ==> m.sessions[id].session.segments == []
  {
    hide *;
    ViewsMean(m);
    ghost var before := ViewsOf(m);
    if present {
      KeepsNameMeans(m.model, id, dir.files);
    }
    var error := m.RestoreSession(id, present, dir);
    ViewsMean(m);
    SameSessionsKeep(engine, id, before, old(m.disk.files), ViewsOf(m), m.disk.files);
  }

  method RestoreAndKeep(m: SessionManager, engine: Engine, id: Bytes, files: Option<SessionDir>)
    requires m.Inv() && (files.Some? ==> KeepsName(m.model, id, files.value))
    modifies m`sessions, m`repr, m.kv, m.kv.table, m.kv.resident
    ensures (forall j | j in m.sessions && j != id :: j in old(m.sessions)) && forall j | j in old(m.sessions) :: j in m.sessions
    ensures m.Inv() && fresh(m.repr - old(m.repr))
    ensures StepKeeps(engine, id, old(ViewsOf(m)), old(m.disk.files), ViewsOf(m), m.disk.files, {}, 0, true, true)
    ensures id in m.sessions && id !in old(m.sessions) ==>
              && m.sessions[id].storable && m.sessions[id].saved && Storable(m.sessions[id].session.store)
              && files.Some? && Load(files.value, SessionLayout(m.model, id).session) == Some(m.sessions[id].session.store)
    ensures id in m.sessions <==> id in old(m.sessions) || (IsValidSessionId(id) && files.Some? && Load(files.value, SessionLayout(m.model, id).session).Some?)
    ensures id in old(m.sessions) ==> m.sessions[id] == old(m.sessions[id])
    ensures id in m.sessions && id !in old(m.sessions) ==> m.sessions[id].session.segments == []
  {
    hide *;
    var content := if files.Some? then files.value else SessionDir(None, None, None, None);
    var dir := new SessionDirectory(SessionLayout(m.model, id).session, content);
    RestoreFrom(m, engine, id, files.Some?, dir);
  }

  method OneshotAndKeep(m: SessionManager, engine: Engine, system: Bytes, inputs: seq<MemoryInput>, query: Query, topK: int)
    requires m.Inv()
    modifies m.kv, m.kv.table, m.kv.resident
    ensures m.Inv() && ViewsOf(m) == old(ViewsOf(m))
    ensures StepKeeps(engine, [], old(ViewsOf(m)), old(m.disk.files), ViewsOf(m), m.disk.files, {}, 0, true, true)
  {
    hide *;
    ViewsMean(m);
    ghost var before := ViewsOf(m);
    ghost var store, segments, rankings;
    var error, hits;
    error, hits, store, segments, rankings := Oneshot(m, engine, system, inputs, query, topK);
    ViewsMean(m);
    SameSessionsKeep(engine, [], before, old(m.disk.files), ViewsOf(m), m.disk.files);
  }

  ghost function AllKeys(views: Views): set<Key> {
    set id, k: int | id in views && 0 <= k < |views[id].segments| :: Key(id, k)
  }

  lemma {:induction false} NothingStays(engine: Engine, before: Views, files: map<Key, Snapshot>)
    ensures StepKeeps(engine, [], before, files, map[], files, AllKeys(before), 0, true, true)
  {
    hide HasDisk, Loads, ContentAt;
    forall k | SavedIn(engine, before, files, k) ensures k in AllKeys(before) {
      assert k == Key(k.session, k.segment);
    }
  }

  method RestartAndKeep(m: SessionManager, engine: Engine)
    requires m.Inv()
    modifies m`want, m`sessions, m.kv, m.kv.table, m.kv.resident
    ensures m.Inv() && m.sessions == map[] && ViewsOf(m) == map[]
    ensures StepKeeps(engine, [], old(ViewsOf(m)), old(m.disk.files), ViewsOf(m), m.disk.files, AllKeys(old(ViewsOf(m))), 0, true, true)
  {
    hide *;
    ghost var before := ViewsOf(m);
    m.Restart();
    ViewsMean(m);
    NothingStays(engine, before, m.disk.files);
  }
}
