/** The state of the KV cache protocol as one value, and the invariant that ties every cached
    KV state to the content it stands for. */
module Coherence {
  import opened Basics
  import opened SegmentKV
  import opened ResidentStore

  /** The one segment that is loaded for searching. */
  datatype ActiveSegment = ActiveSegment(key: Key, handle: Handle)

  /** Resident handles, staged prefixes and the active slot, over the table of shared states. */
  datatype KVState = KVState(
    cells: seq<SegmentKVState>,
    resident: map<Key, Handle>,
    prefixes: map<Key, Handle>,
    active: Option<ActiveSegment>)

  ghost function HandleMap(entries: map<Key, Entry>): map<Key, Handle> {
    map k | k in entries :: entries[k].handle
  }

  // ----- What a cached state must hold -----

  ghost predicate ProperPrefix(p: Content, c: Content) {
    p.system == c.system && p.memories < c.memories
  }

  /** Snapshot and live context, where both are present, are of the same tokens. */
  ghost predicate Agrees(s: SegmentKVState) {
    s.snapshot.Some? && s.active.Live? ==> s.active.metadata == s.snapshot.value.metadata
  }

  /** Snapshot and live context, where present, are those of exactly `c`; the snapshot is there. */
  ghost predicate Holds(s: SegmentKVState, c: Content) {
    s.snapshot.Some? && s.Carries(c) && Agrees(s)
  }

  ghost predicate HoldsPrefix(s: SegmentKVState, c: Content) {
    && s.snapshot.Some?
    && ProperPrefix(s.snapshot.value.metadata.content, c)
    && s.Carries(s.snapshot.value.metadata.content) && Agrees(s)
  }

  ghost predicate ResidentOk(kv: KVState, want: map<Key, Content>) {
    forall k | k in kv.resident ::
      k in want && kv.resident[k] < |kv.cells| && Holds(kv.cells[kv.resident[k]], want[k])
  }

  ghost predicate PrefixesOk(kv: KVState, want: map<Key, Content>) {
    forall k | k in kv.prefixes ::
      k in want && kv.prefixes[k] < |kv.cells| && HoldsPrefix(kv.cells[kv.prefixes[k]], want[k])
  }

  ghost predicate ActiveOk(kv: KVState, want: map<Key, Content>) {
    kv.active.Some? ==>
      && kv.active.value.key in want && kv.active.value.handle < |kv.cells|
      && kv.cells[kv.active.value.handle].Carries(want[kv.active.value.key])
  }

  /** Handles are shared only between the resident entry and the active slot of one segment. */
  ghost predicate NotShared(kv: KVState) {
    && kv.resident.Keys !! kv.prefixes.Keys
    && (forall j, k | j in kv.resident && k in kv.resident && j != k :: kv.resident[j] != kv.resident[k])
    && (forall j, k | j in kv.prefixes && k in kv.prefixes && j != k :: kv.prefixes[j] != kv.prefixes[k])
    && (forall j, k | j in kv.prefixes && k in kv.resident :: kv.prefixes[j] != kv.resident[k])
    && (kv.active.Some? ==>
          && (forall k | k in kv.prefixes :: kv.prefixes[k] != kv.active.value.handle)
          && (forall k | k in kv.resident && kv.resident[k] == kv.active.value.handle :: k == kv.active.value.key))
  }

  /** `want` gives, for every planned segment, its current system text and memory texts. */
  ghost predicate Coherent(kv: KVState, want: map<Key, Content>) {
    ResidentOk(kv, want) && PrefixesOk(kv, want) && ActiveOk(kv, want) && NotShared(kv)
  }

  // ----- Steps on the shared states -----

  /** What the faces of a state were computed from. */
  function FacesOf(s: SegmentKVState): set<KVMetadata> {
    (if s.snapshot.Some? then {s.snapshot.value.metadata} else {}) + (if s.active.Live? then {s.active.metadata} else {})
  }

  /** Faces may be dropped, exported or released, never replaced by another content. */
  ghost predicate Faithful(s: SegmentKVState, t: SegmentKVState) {
    && (forall c: Content :: s.Carries(c) ==> t.Carries(c))
    && (s.snapshot.Some? ==> t.snapshot.Some?)
    && (t.active.Live? ==> t.active == s.active)
    && (t.snapshot.Some? ==> t.snapshot.value.metadata in FacesOf(s))
  }

  /** The table may have grown; every old state is faithful to what it was. */
  ghost predicate CellsFaithful(before: seq<SegmentKVState>, after: seq<SegmentKVState>) {
    |before| <= |after| && forall h | 0 <= h < |before| :: Faithful(before[h], after[h])
  }

  lemma {:induction false} ReleaseIsFaithful(engine: Engine, s: SegmentKVState)
    ensures Faithful(s, Released(s)) && Faithful(s, s)
    ensures Exported(engine, s).Some? ==> Faithful(s, Exported(engine, s).value)
    ensures ReleasedToSnapshot(engine, s).Some? ==> Faithful(s, ReleasedToSnapshot(engine, s).value)
  {
  }

  lemma {:induction false} PartlyReleasedIsFaithful(engine: Engine, before: seq<SegmentKVState>, after: seq<SegmentKVState>)
    requires PartlyReleased(engine, before, after)
    ensures CellsFaithful(before, after)
  {
    forall h | 0 <= h < |before| ensures Faithful(before[h], after[h]) {
      ReleaseIsFaithful(engine, before[h]);
    }
  }

  lemma {:induction false} FaithfulHolds(s: SegmentKVState, t: SegmentKVState, c: Content)
    requires Faithful(s, t)
    ensures Holds(s, c) ==> Holds(t, c)
    ensures HoldsPrefix(s, c) ==> HoldsPrefix(t, c)
    ensures s.Carries(c) ==> t.Carries(c)
    ensures Agrees(s) && s.snapshot.Some? ==> t.Metadata() == s.Metadata()
  {
    if s.snapshot.Some? {
      assert s.Carries(s.snapshot.value.metadata.content) ==> t.Carries(s.snapshot.value.metadata.content);
    }
  }

  /** Entries of one map that stay, with the values they had. */
  ghost predicate Within(after: map<Key, Handle>, before: map<Key, Handle>) {
    after.Keys <= before.Keys && forall k | k in after :: after[k] == before[k]
  }

  /** Nothing was added: entries may go, the active slot may be emptied, states stay faithful. */
  ghost predicate Shrinks(before: KVState, after: KVState) {
    && CellsFaithful(before.cells, after.cells)
    && Within(after.resident, before.resident)
    && Within(after.prefixes, before.prefixes)
    && (after.active == before.active || after.active == None)
  }

  lemma {:induction false} ShrinkingKeepsCoherence(before: KVState, after: KVState, want: map<Key, Content>)
    requires Coherent(before, want) && Shrinks(before, after)
    ensures Coherent(after, want)
  {
    forall k | k in after.resident ensures after.resident[k] < |after.cells| && Holds(after.cells[after.resident[k]], want[k]) {
      FaithfulHolds(before.cells[before.resident[k]], after.cells[before.resident[k]], want[k]);
    }
    forall k | k in after.prefixes ensures after.prefixes[k] < |after.cells| && HoldsPrefix(after.cells[after.prefixes[k]], want[k]) {
      FaithfulHolds(before.cells[before.prefixes[k]], after.cells[before.prefixes[k]], want[k]);
    }
    if after.active.Some? {
      var a := after.active.value;
      FaithfulHolds(before.cells[a.handle], after.cells[a.handle], want[a.key]);
    }
  }

  lemma {:induction false} ShrinkingTwice(a: KVState, b: KVState, c: KVState)
    requires Shrinks(a, b) && Shrinks(b, c)
    ensures Shrinks(a, c)
  {
    forall h | 0 <= h < |a.cells| ensures Faithful(a.cells[h], c.cells[h]) {
      assert Faithful(a.cells[h], b.cells[h]) && Faithful(b.cells[h], c.cells[h]);
    }
  }

  // ----- Live contexts -----

  ghost predicate LiveAt(kv: KVState, h: Handle) {
    h < |kv.cells| && kv.cells[h].active.Live?
  }

  /** Handles that something still holds. */
  ghost predicate Reachable(kv: KVState, h: Handle) {
    || (exists k | k in kv.resident :: kv.resident[k] == h)
    || (exists k | k in kv.prefixes :: kv.prefixes[k] == h)
    || (kv.active.Some? && kv.active.value.handle == h)
  }

  /** No resident segment of another session has a live context. */
  ghost predicate OthersAsleep(kv: KVState, session: Bytes) {
    forall k | k in kv.resident && k.session != session :: !LiveAt(kv, kv.resident[k])
  }

  /** Only segment `keep`, of its session's resident segments and of all staged prefixes, may be
      live, and only it may be active. */
  ghost predicate OnlySegmentAwake(kv: KVState, keep: Key) {
    && (forall k | k in kv.resident && k.session == keep.session && k != keep :: !LiveAt(kv, kv.resident[k]))
    && (forall k | k in kv.prefixes && k != keep :: !LiveAt(kv, kv.prefixes[k]))
    && (kv.active.Some? ==> kv.active.value.key == keep)
  }
}
