/** The segments kept in memory, with a byte budget and least-recently-used eviction
    (resident_kv_store.cpp). */
module ResidentStore {
  import opened Basics
  import opened SegmentKV

  datatype Entry = Entry(handle: Handle, bytes: Size, lastAccess: nat)

  // ----- Byte accounting -----

  ghost function Total(entries: map<Key, Entry>): nat {
    if entries == map[] then 0
    else
      var k :| k in entries;
      entries[k].bytes + Total(entries - {k})
  }

  lemma {:induction false} TotalRemove(entries: map<Key, Entry>, k: Key)
    requires k in entries
    ensures Total(entries) == entries[k].bytes + Total(entries - {k})
    decreases |entries|
  {
    var j :| j in entries && Total(entries) == entries[j].bytes + Total(entries - {j});
    if j != k {
      TotalRemove(entries - {j}, k);
      TotalRemove(entries - {k}, j);
      assert entries - {j} - {k} == entries - {k} - {j};
    }
  }

  lemma {:induction false} TotalPut(entries: map<Key, Entry>, k: Key, e: Entry)
    ensures Total(entries[k := e]) == Total(entries - {k}) + e.bytes
    ensures k !in entries ==> Total(entries[k := e]) == Total(entries) + e.bytes
    ensures k in entries ==> Total(entries[k := e]) == Total(entries) - entries[k].bytes + e.bytes
  {
    TotalRemove(entries[k := e], k);
    assert entries[k := e] - {k} == entries - {k};
    if k in entries {
      TotalRemove(entries, k);
    } else {
      assert entries - {k} == entries;
    }
  }

  lemma {:induction false} TotalMonotone(smaller: map<Key, Entry>, larger: map<Key, Entry>)
    requires smaller.Keys <= larger.Keys && forall k | k in smaller :: smaller[k] == larger[k]
    ensures Total(smaller) <= Total(larger)
    decreases |larger|
  {
    if k :| k in larger {
      TotalRemove(larger, k);
      if k in smaller {
        TotalRemove(smaller, k);
        TotalMonotone(smaller - {k}, larger - {k});
      } else {
        TotalMonotone(smaller, larger - {k});
      }
    } else {
      assert smaller == larger;
    }
  }

  /** The byte counter is a 64-bit word. */
  ghost function Used(entries: map<Key, Entry>): nat {
    Total(entries) % WORD
  }

  lemma {:induction false} WrapAdjust(total: nat, delta: int)
    requires total + delta >= 0
    ensures (total % WORD + delta) % WORD == (total + delta) % WORD
  {
    var q := total / WORD;
    assert total == q * WORD + total % WORD;
    assert (total + delta) == (total % WORD + delta) + q * WORD;
  }

  /** The counter arithmetic of replacing an entry of `previous` bytes by one of `bytes`. */
  lemma {:induction false} ReplaceBytes(total: nat, previous: Size, bytes: Size)
    requires previous <= total
    ensures var without := (total % WORD - previous) % WORD;
            && (bytes <= UINT64_MAX - without ==> without + bytes == (total - previous + bytes) % WORD)
            && (total <= UINT64_MAX ==> without == total - previous)
  {
    WrapAdjust(total, -(previous as int));
    var without := (total % WORD - previous) % WORD;
    assert without == (total - previous) % WORD;
    WrapAdjust(total - previous, bytes);
  }

  // ----- Eviction -----

  /** With a negative segment number the whole session is protected. */
  predicate Protects(session: Bytes, segment: int, k: Key): (protects: bool)
    ensures segment >= 0 ==> (protects <==> k == Key(session, segment))
  {
    k.session == session && (segment < 0 || k.segment == segment)
  }

  ghost predicate Selectable(entries: map<Key, Entry>, session: Bytes, segment: int, k: Key) {
    k in entries && !Protects(session, segment, k) && entries[k].lastAccess < UINT64_MAX
  }

  /** `after` is `before` without some entries that were not protected, each older than every
      unprotected entry that stays. */
  ghost predicate OldestLeft(before: map<Key, Entry>, after: map<Key, Entry>, session: Bytes, segment: int) {
    && after.Keys <= before.Keys
    && (forall k | k in after :: after[k] == before[k])
    && (forall k | k in before && k !in after :: Selectable(before, session, segment, k))
    && (forall r, k | r in before && r !in after && k in after && !Protects(session, segment, k) ::
          before[r].lastAccess <= before[k].lastAccess)
  }

  /** Putting the last evicted entry back would exceed the budget again. */
  ghost predicate NoMoreThanNeeded(before: map<Key, Entry>, after: map<Key, Entry>, budget: nat) {
    after != before ==>
      exists r | r in before && r !in after ::
        && (forall r' | r' in before && r' !in after :: before[r'].lastAccess <= before[r].lastAccess)
        && Used(after[r := before[r]]) > budget
  }

  ghost predicate Evicted(before: map<Key, Entry>, after: map<Key, Entry>, budget: nat, session: Bytes, segment: int) {
    && OldestLeft(before, after, session, segment)
    && NoMoreThanNeeded(before, after, budget)
    && (budget == 0 ==> after == before)
    && (budget == 0 || Used(after) <= budget || forall k :: !Selectable(after, session, segment, k))
  }

  /** Nothing is evicted where so many entries of such sizes are within the budget. */
  lemma {:induction false} NothingToEvict(before: map<Key, Entry>, after: map<Key, Entry>, budget: nat, session: Bytes, segment: int, limit: nat)
    requires Evicted(before, after, budget, session, segment) && forall k | k in before :: before[k].bytes <= limit
    requires budget == 0 || |before| * limit <= budget
    ensures after == before
  {
    hide Total, Used;
    if after != before {
      var r :| r in before && r !in after && Used(after[r := before[r]]) > budget;
      AllIsWithin(before, after[r := before[r]], limit);
    }
  }

  lemma {:induction false} AllIsWithin(before: map<Key, Entry>, part: map<Key, Entry>, limit: nat)
    requires part.Keys <= before.Keys && forall k | k in part :: part[k] == before[k]
    requires forall k | k in before :: before[k].bytes <= limit
    ensures Used(part) <= |before| * limit
  {
    hide Total;
    TotalIsBounded(before, limit);
    TotalMonotone(part, before);
    WrapsDown(Total(part));
  }

  lemma WrapsDown(total: nat)
    ensures total % WORD <= total
  {
  }

  lemma {:induction false} TotalIsBounded(entries: map<Key, Entry>, limit: nat)
    requires forall k | k in entries :: entries[k].bytes <= limit
    ensures Total(entries) <= |entries| * limit
    decreases |entries|
  {
    hide Total;
    NoBytes();
    if entries != map[] {
      var k :| k in entries;
      var fewer := entries - {k};
      TotalRemove(entries, k);
      OneFewer(entries, k);
      TotalIsBounded(fewer, limit);
      Distribute(|fewer|, 0, limit);
    }
  }

  lemma OneFewer(entries: map<Key, Entry>, k: Key)
    requires k in entries
    ensures |entries - {k}| == |entries| - 1
  {
    assert (entries - {k}).Keys == entries.Keys - {k};
  }

  lemma NoBytes()
    ensures Total(map[]) == 0
  {
  }

  lemma Distribute(a: nat, n: nat, limit: nat)
    ensures (a + n + 1) * limit == a * limit + n * limit + limit
    ensures n * limit >= 0
  {
  }

  lemma Monotone(a: nat, b: nat, limit: nat)
    requires a <= b
    ensures a * limit <= b * limit
  {
  }

  lemma {:induction false} CardinalityOf(a: set<Key>, b: set<Key>)
    requires a <= b
    ensures |a| <= |b|
  {
    assert b == a + (b - a);
  }

  // ----- Time stamps -----

  /** No two entries have the same stamp, and none is ahead of the clock. */
  ghost predicate Stamped(entries: map<Key, Entry>, clock: nat) {
    && (forall j, k | j in entries && k in entries && j != k :: entries[j].lastAccess != entries[k].lastAccess)
    && (forall k | k in entries :: entries[k].lastAccess <= clock)
  }

  lemma {:induction false} FewerStamped(before: map<Key, Entry>, after: map<Key, Entry>, clock: nat)
    requires Stamped(before, clock) && forall k | k in after :: k in before && after[k].lastAccess == before[k].lastAccess
    ensures Stamped(after, clock)
  {
  }

  lemma LaterClock(entries: map<Key, Entry>, clock: nat, later: nat)
    requires Stamped(entries, clock) && clock <= later
    ensures Stamped(entries, later)
  {
  }

  lemma {:induction false} NewlyStamped(entries: map<Key, Entry>, clock: nat, k: Key, e: Entry)
    requires Stamped(entries, clock) && e.lastAccess == clock + 1
    ensures Stamped(entries[k := e], clock + 1) && UsedLast(entries[k := e], k, false)
  {
  }

  // ----- The store -----

  class ResidentKVStore {
    const table: HandleTable
    var entries: map<Key, Entry>
    var budget: nat
    var residentBytes: nat
    var clock: nat
    /** The clock has started again at some point. */
    ghost var wrapped: bool

    ghost predicate Valid()
      reads this, table
    {
      && residentBytes == Used(entries)
      && clock < UINT64_MAX
      && (!wrapped ==> Stamped(entries, clock))
      && (forall k | k in entries :: entries[k].handle < |table.cells| && entries[k].lastAccess <= UINT64_MAX)
    }

    /** So many more bytes do not make the byte counter wrap. */
    ghost predicate HasRoom(bytes: nat)
      reads this`entries
    {
      Total(entries) + bytes <= UINT64_MAX
    }

    constructor (table: HandleTable)
      ensures this.table == table && entries == map[] && Valid() && budget == 0 && !wrapped
    {
      this.table, entries, budget, residentBytes, clock, wrapped := table, map[], 0, 0, 0, false;
    }

    /** A new time stamp. The counter restarts at 1 after the largest 64-bit value. */
    method Tick() returns (stamp: nat)
      requires clock < UINT64_MAX
      modifies this`clock, this`wrapped
      ensures stamp == old(clock) + 1 && clock == if stamp == UINT64_MAX then 1 else stamp
      ensures wrapped == (old(wrapped) || stamp == UINT64_MAX)
    {
      clock := clock + 1;
      stamp := clock;
      if clock == UINT64_MAX {
        clock, wrapped := 1, true;
      }
    }

    method Find(k: Key) returns (h: Option<Handle>)
      requires Valid()
      modifies this`entries, this`clock, this`wrapped
      ensures Valid()
      ensures h == if k in old(entries) then Some(old(entries)[k].handle) else None
      ensures k !in old(entries) ==> entries == old(entries) && clock == old(clock)
      ensures wrapped == (old(wrapped) || clock < old(clock))
      ensures k in old(entries) ==> entries == old(entries)[k := old(entries)[k].(lastAccess := old(clock) + 1)]
      ensures k in old(entries) ==> UsedLast(entries, k, wrapped)
    {
      hide Stamped;
      if k !in entries {
        return None;
      }
      var stamp := Tick();
      if !wrapped {
        NewlyStamped(entries, old(clock), k, entries[k].(lastAccess := stamp));
      }
      ghost var before := entries;
      TotalPut(entries, k, entries[k].(lastAccess := stamp));
      entries := entries[k := entries[k].(lastAccess := stamp)];
      h := Some(entries[k].handle);
    }

    method Remove(k: Key)
      requires Valid()
      modifies this`entries, this`residentBytes
      ensures Valid()
      ensures entries == old(entries) - {k}
    {
      hide Stamped;
      if !wrapped {
        FewerStamped(entries, entries - {k}, clock);
      }
      if k in entries {
        TotalRemove(entries, k);
        var bytes: int := entries[k].bytes;
        WrapAdjust(Total(entries), -bytes);
        residentBytes := (residentBytes - entries[k].bytes) % WORD;
        entries := entries - {k};
      } else {
        assert entries - {k} == entries;
      }
    }

    method ClearSession(session: Bytes)
      requires Valid()
      modifies this`entries, this`residentBytes
      ensures Valid()
      ensures entries == map k | k in old(entries) && k.session != session :: old(entries)[k]
    {
      var todo := set k | k in entries && k.session == session;
      while todo != {}
        invariant Valid()
        invariant todo == set k | k in entries && k.session == session
        invariant entries.Keys <= old(entries).Keys
        invariant forall k | k in old(entries) && k.session != session :: k in entries
        invariant forall k | k in entries :: entries[k] == old(entries)[k]
        decreases |todo|
      {
        var k :| k in todo;
        Remove(k);
        todo := todo - {k};
      }
      assert forall k | k in entries :: k.session != session by {
        forall k | k in entries ensures k.session != session {
          assert k !in todo;
        }
      }
    }

    /** The unprotected entry that was used longest ago. */
    method OldestUnprotected(session: Bytes, segment: int) returns (candidate: Option<Key>)
      requires Valid()
      ensures candidate == None ==> forall k :: !Selectable(entries, session, segment, k)
      ensures candidate.Some? ==>
                && Selectable(entries, session, segment, candidate.value)
                && forall k | k in entries && !Protects(session, segment, k) ::
                     entries[candidate.value].lastAccess <= entries[k].lastAccess
    {
      candidate := None;
      var oldest := UINT64_MAX;
      var todo := entries.Keys;
      while todo != {}
        invariant todo <= entries.Keys
        invariant oldest <= UINT64_MAX
        invariant candidate == None ==> oldest == UINT64_MAX
        invariant candidate.Some? ==> Selectable(entries, session, segment, candidate.value)
                                      && oldest == entries[candidate.value].lastAccess
        invariant forall k | k in entries && k !in todo && !Protects(session, segment, k) :: oldest <= entries[k].lastAccess
        decreases |todo|
      {
        var k :| k in todo;
        todo := todo - {k};
        if !Protects(session, segment, k) && entries[k].lastAccess < oldest {
          oldest, candidate := entries[k].lastAccess, Some(k);
        }
      }
    }

    method EvictToBudget(session: Bytes, segment: int)
      requires Valid()
      modifies this`entries, this`residentBytes
      ensures Valid()
      ensures Evicted(old(entries), entries, budget, session, segment)
    {
      if budget == 0 {
        return;
      }
      while residentBytes > budget
        invariant Valid()
        invariant OldestLeft(old(entries), entries, session, segment)
        invariant NoMoreThanNeeded(old(entries), entries, budget)
        decreases |entries|
      {
        var candidate := OldestUnprotected(session, segment);
        if candidate == None {
          return;
        }
        ghost var before := entries;
        Remove(candidate.value);
        EvictOne(old(entries), before, entries, candidate.value, budget, session, segment);
      }
    }

    /** Puts a handle into the store, then evicts others until the budget is met. The byte
        counter never wraps: an entry that would make it wrap is refused. */
    method Store(k: Key, h: Handle) returns (ok: bool)
      requires Valid() && h < |table.cells|
      modifies this`entries, this`residentBytes, this`clock, this`wrapped
      ensures Valid()
      ensures var e := Entry(h, table.cells[h].BlobBytes(), old(clock) + 1);
              && (ok ==> Evicted(old(entries)[k := e], entries, budget, k.session, k.segment) && k in entries && entries[k] == e)
              && (!ok ==> entries == old(entries))
              && (Total(old(entries)) <= UINT64_MAX ==> (ok <==> Total(old(entries)[k := e]) <= UINT64_MAX))
      ensures ok ==> UsedLast(entries, k, wrapped)
    {
      hide Stamped, Total, Used, NoMoreThanNeeded;
      var stamp := Tick();
      if !wrapped {
        NewlyStamped(entries, old(clock), k, Entry(h, table.cells[h].BlobBytes(), stamp));
        LaterClock(entries, old(clock), clock);
      }
      ok := Put(k, Entry(h, table.cells[h].BlobBytes(), stamp));
      if ok {
        ghost var put := entries;
        EvictToBudget(k.session, k.segment);
        if !wrapped {
          StaysLast(put, entries, k, false);
        }
      }
    }

    method Put(k: Key, e: Entry) returns (ok: bool)
      requires Valid() && e.handle < |table.cells| && e.lastAccess <= UINT64_MAX && (!wrapped ==> Stamped(entries[k := e], clock))
      modifies this`entries, this`residentBytes
      ensures Valid()
      ensures entries == if ok then old(entries)[k := e] else old(entries)
      ensures Total(old(entries)) <= UINT64_MAX ==> (ok <==> Total(old(entries)[k := e]) <= UINT64_MAX)
    {
      hide Total, Stamped;
      var previous := if k in entries then entries[k].bytes else 0;
      TotalPut(entries, k, e);
      ReplaceBytes(Total(entries), previous, e.bytes);
      var withoutPrevious := (residentBytes - previous) % WORD;
      if e.bytes > UINT64_MAX - withoutPrevious {
        return false;
      }
      residentBytes, entries := withoutPrevious + e.bytes, entries[k := e];
      return true;
    }

    /** Exports and releases the live context of one entry and refreshes its recorded size. */
    method ReleaseEntry(engine: Engine, k: Key) returns (ok: bool)
      requires Valid() && k in entries
      modifies this`entries, this`residentBytes, table
      ensures Valid() && |table.cells| == |old(table.cells)|
      ensures ok == ReleasedToSnapshot(engine, old(table.cells)[old(entries)[k].handle]).Some?
      ensures ok ==>
                && table.cells == old(table.cells)[old(entries)[k].handle :=
                     ReleasedToSnapshot(engine, old(table.cells)[old(entries)[k].handle]).value]
                && entries == old(entries)[k := old(entries)[k].(bytes := table.cells[old(entries)[k].handle].BlobBytes())]
      ensures !ok ==> table.cells == old(table.cells) && entries == old(entries)
    {
      hide ReleasedToSnapshot, Used;
      ok := table.ReleaseToSnapshot(engine, entries[k].handle);
      if ok {
        RefreshEntryBytes(k);
      }
    }

    /** Exports and releases the live contexts of some entries and refreshes their recorded sizes. */
    method ReleaseEntries(engine: Engine, keys: set<Key>) returns (ok: bool)
      requires Valid() && keys <= entries.Keys
      modifies this`entries, this`residentBytes, table
      ensures Valid() && |table.cells| == |old(table.cells)|
      ensures SameHandles(old(entries), entries)
      ensures PartlyReleased(engine, old(table.cells), table.cells)
      ensures ok ==> HandlesReleased(engine, old(table.cells), table.cells, HandlesOf(old(entries), keys))
      ensures ok ==> entries == Resized(old(entries), keys, table.cells)
      ensures Exports(engine) ==> ok
    {
      hide Exports, Used, ReleasedToSnapshot, HandlesReleased, PartlyReleased, Resized, ResidentKVStore.Valid;
      var todo := keys;
      ghost var first := table.cells;
      NothingReleased(engine, first);
      NothingResized(entries, first);
      ValidHandles(this);
      assert HandlesOf(entries, {}) == {} && keys - todo == {};
      while todo != {}
        invariant Valid() && todo <= keys && |table.cells| == |first|
        invariant SameHandles(old(entries), entries)
        invariant HandlesReleased(engine, first, table.cells, HandlesOf(old(entries), keys - todo))
        invariant entries == Resized(old(entries), keys - todo, table.cells)
        decreases |todo|
      {
        var k :| k in todo;
        ghost var before, handle, done := table.cells, entries[k].handle, keys - todo;
        ValidHandles(this);
        ReleaseOneMore(engine, first, before, handle, HandlesOf(old(entries), done));
        ok := ReleaseEntry(engine, k);
        if Exports(engine) {
          ReleasingWorks(engine, before[handle]);
        }
        if !ok {
          return;
        }
        OneMoreHandle(old(entries), done, k);
        ResizeOneMore(engine, old(entries), first, before, table.cells, done, k);
        assert keys - (todo - {k}) == done + {k};
        todo := todo - {k};
      }
      assert keys - todo == keys;
      ReleasedIsPartly(engine, first, table.cells, HandlesOf(old(entries), keys));
      ok := true;
    }

    method RefreshEntryBytes(k: Key)
      requires Valid() && k in entries
      modifies this`entries, this`residentBytes
      ensures Valid()
      ensures entries == old(entries)[k := old(entries)[k].(bytes := table.cells[old(entries)[k].handle].BlobBytes())]
    {
      hide Stamped;
      var e := entries[k].(bytes := table.cells[entries[k].handle].BlobBytes());
      var delta := (e.bytes as int) - entries[k].bytes;
      TotalPut(entries, k, e);
      if !wrapped {
        FewerStamped(entries, entries[k := e], clock);
      }
      WrapAdjust(Total(entries), delta);
      residentBytes, entries := (residentBytes + delta) % WORD, entries[k := e];
    }

    method ReleaseAllLiveContexts(engine: Engine) returns (ok: bool)
      requires Valid()
      modifies this`entries, this`residentBytes, table
      ensures Valid() && |table.cells| == |old(table.cells)|
      ensures SameHandles(old(entries), entries)
      ensures PartlyReleased(engine, old(table.cells), table.cells)
      ensures ok ==> HandlesReleased(engine, old(table.cells), table.cells, HandlesOf(old(entries), old(entries).Keys))
      ensures ok ==> entries == Resized(old(entries), old(entries).Keys, table.cells)
      ensures Exports(engine) ==> ok
    {
      ok := ReleaseEntries(engine, entries.Keys);
    }

    method KeepOnlySessionLive(engine: Engine, session: Bytes) returns (ok: bool)
      requires Valid()
      modifies this`entries, this`residentBytes, table
      ensures Valid() && |table.cells| == |old(table.cells)|
      ensures PartlyReleased(engine, old(table.cells), table.cells)
      ensures SameHandlesLeft(old(entries), entries)
      ensures ok ==> HandlesReleased(engine, old(table.cells), table.cells,
                                     HandlesOf(old(entries), KeysOfOthers(old(entries), session)))
      ensures forall k | k in old(entries) && k.session == session :: k in entries
      ensures ok ==> Evicted(Resized(old(entries), KeysOfOthers(old(entries), session), table.cells), entries, budget, session, -1)
      ensures !ok ==> entries.Keys == old(entries).Keys
      ensures Exports(engine) ==> ok
    {
      hide Exports, HandlesReleased, PartlyReleased, Used, Resized;
      ok := ReleaseEntries(engine, KeysOfOthers(entries, session));
      if ok {
        EvictToBudget(session, -1);
      }
    }

    method KeepOnlySegmentLive(engine: Engine, keep: Key) returns (ok: bool)
      requires Valid()
      modifies this`entries, this`residentBytes, table
      ensures Valid() && |table.cells| == |old(table.cells)|
      ensures PartlyReleased(engine, old(table.cells), table.cells)
      ensures SameHandlesLeft(old(entries), entries)
      ensures ok ==> HandlesReleased(engine, old(table.cells), table.cells,
                                     HandlesOf(old(entries), KeysBeside(old(entries), keep)))
      ensures keep in old(entries) ==> keep in entries
      ensures (forall k | k in old(entries) :: k.session != keep.session) ==> ok && entries == old(entries)
      ensures ok && (exists k :: k in old(entries) && k.session == keep.session) ==>
                Evicted(Resized(old(entries), KeysBeside(old(entries), keep), table.cells),
                        entries, budget, keep.session, keep.segment)
      ensures !ok ==> entries.Keys == old(entries).Keys
      ensures Exports(engine) ==> ok
    {
      hide Exports, Used, Resized;
      var others := KeysBeside(entries, keep);
      if forall k | k in entries :: k.session != keep.session {
        assert HandlesOf(entries, others) == {};
        return true;
      }
      ok := ReleaseEntries(engine, others);
      if ok {
        EvictToBudget(keep.session, keep.segment);
      }
    }
  }

  /** The entry was used after all others, unless the clock has started again. */
  ghost predicate UsedLast(entries: map<Key, Entry>, k: Key, wrapped: bool) {
    k in entries && (wrapped || forall j | j in entries && j != k :: entries[j].lastAccess < entries[k].lastAccess)
  }

  lemma {:induction false} StaysLast(before: map<Key, Entry>, after: map<Key, Entry>, k: Key, wrapped: bool)
    requires UsedLast(before, k, wrapped) && SameHandlesLeft(before, after) && k in after
    ensures UsedLast(after, k, wrapped)
  {
  }

  lemma {:induction false} RefusedHasNoRoom(entries: map<Key, Entry>, k: Key, e: Entry)
    requires Total(entries) <= UINT64_MAX ==> Total(entries[k := e]) > UINT64_MAX
    ensures Total(entries) + e.bytes > UINT64_MAX
  {
    TotalPut(entries, k, e);
  }

  ghost predicate SameHandles(before: map<Key, Entry>, after: map<Key, Entry>) {
    after.Keys == before.Keys && SameHandlesLeft(before, after)
  }

  /** Entries may have gone; those that stay have the handle and the time stamp they had. */
  ghost predicate SameHandlesLeft(before: map<Key, Entry>, after: map<Key, Entry>) {
    && after.Keys <= before.Keys
    && forall k | k in after :: after[k].handle == before[k].handle && after[k].lastAccess == before[k].lastAccess
  }

  ghost function HandlesOf(entries: map<Key, Entry>, keys: set<Key>): set<Handle>
    requires keys <= entries.Keys
  {
    set k | k in keys :: entries[k].handle
  }

  function KeysOfOthers(entries: map<Key, Entry>, session: Bytes): (keys: set<Key>)
    ensures forall k :: k in keys <==> k in entries && k.session != session
  {
    set k | k in entries && k.session != session
  }

  /** The other segments of a segment's session. */
  function KeysBeside(entries: map<Key, Entry>, keep: Key): (keys: set<Key>)
    ensures forall k :: k in keys <==> k in entries && k.session == keep.session && k.segment != keep.segment
  {
    set k | k in entries && k.session == keep.session && k != keep
  }

  /** The recorded sizes of some entries are those of their snapshots. */
  ghost function Resized(entries: map<Key, Entry>, keys: set<Key>, cells: seq<SegmentKVState>): map<Key, Entry> {
    map k | k in entries ::
      if k in keys && entries[k].handle < |cells| then entries[k].(bytes := cells[entries[k].handle].BlobBytes()) else entries[k]
  }

  lemma NothingResized(entries: map<Key, Entry>, cells: seq<SegmentKVState>)
    ensures Resized(entries, {}, cells) == entries
  {
  }

  /** Releasing one more context does not change the sizes that were refreshed before. */
  lemma {:induction false} ResizeOneMore(engine: Engine, entries: map<Key, Entry>, first: seq<SegmentKVState>, before: seq<SegmentKVState>,
                                         after: seq<SegmentKVState>, done: set<Key>, k: Key)
    requires done <= entries.Keys && k in entries && forall j | j in entries :: entries[j].handle < |first|
    requires HandlesReleased(engine, first, before, HandlesOf(entries, done))
    requires HandlesReleased(engine, first, after, HandlesOf(entries, done) + {entries[k].handle})
    ensures Resized(entries, done, before)[k := Resized(entries, done, before)[k].(bytes := after[entries[k].handle].BlobBytes())]
            == Resized(entries, done + {k}, after)
  {
    forall j | j in done ensures before[entries[j].handle] == after[entries[j].handle] {
      assert entries[j].handle in HandlesOf(entries, done);
    }
  }

  lemma ValidHandles(store: ResidentKVStore)
    requires store.Valid()
    ensures forall k | k in store.entries :: store.entries[k].handle < |store.table.cells|
  {
  }

  lemma OneMoreHandle(entries: map<Key, Entry>, done: set<Key>, k: Key)
    requires done <= entries.Keys && k in entries
    ensures HandlesOf(entries, done + {k}) == HandlesOf(entries, done) + {entries[k].handle}
  {
  }

  lemma {:induction false} NothingReleased(engine: Engine, cells: seq<SegmentKVState>)
    ensures HandlesReleased(engine, cells, cells, {}) && PartlyReleased(engine, cells, cells)
  {
  }

  lemma {:induction false} ReleasedIsPartly(engine: Engine, before: seq<SegmentKVState>, after: seq<SegmentKVState>, done: set<Handle>)
    requires HandlesReleased(engine, before, after, done)
    ensures PartlyReleased(engine, before, after)
  {
  }

  lemma {:induction false} ReleaseOneMore(engine: Engine, first: seq<SegmentKVState>, before: seq<SegmentKVState>, h: Handle, done: set<Handle>)
    requires h < |before| && HandlesReleased(engine, first, before, done)
    ensures PartlyReleased(engine, first, before)
    ensures var released := ReleasedToSnapshot(engine, before[h]);
            released.Some? ==> HandlesReleased(engine, first, before[h := released.value], done + {h})
  {
    if h in done {
      ReleaseTwice(engine, first[h]);
    }
  }

  lemma {:induction false} EvictOne(first: map<Key, Entry>, before: map<Key, Entry>, after: map<Key, Entry>, k: Key,
                                    budget: nat, session: Bytes, segment: int)
    requires OldestLeft(first, before, session, segment) && Used(before) > budget
    requires Selectable(before, session, segment, k) && after == before - {k}
    requires forall j | j in before && !Protects(session, segment, j) :: before[k].lastAccess <= before[j].lastAccess
    ensures OldestLeft(first, after, session, segment) && NoMoreThanNeeded(first, after, budget)
  {
    assert after[k := first[k]] == before;
    hide Used;
    assert k in first && k !in after;
  }

  // ----- The result of eviction is determined -----

  ghost predicate DistinctStamps(entries: map<Key, Entry>) {
    && (forall j, k | j in entries && k in entries && j != k :: entries[j].lastAccess != entries[k].lastAccess)
    && (forall k | k in entries :: entries[k].lastAccess < UINT64_MAX)
  }

  lemma {:induction false} PartsFit(before: map<Key, Entry>, part: map<Key, Entry>)
    requires Total(before) <= UINT64_MAX
    requires part.Keys <= before.Keys && forall k | k in part :: part[k] == before[k]
    ensures Used(part) == Total(part)
  {
    TotalMonotone(part, before);
  }

  lemma {:induction false} NewestEvictedStays(before: map<Key, Entry>, a: map<Key, Entry>, b: map<Key, Entry>, r: Key,
                                              session: Bytes, segment: int)
    requires OldestLeft(before, a, session, segment) && OldestLeft(before, b, session, segment)
    requires DistinctStamps(before) && a.Keys < b.Keys
    requires r in before && r !in a && forall r' | r' in before && r' !in a :: before[r'].lastAccess <= before[r].lastAccess
    ensures r in b
  {
    var x :| x in b && x !in a;
    assert Selectable(before, session, segment, x);
  }

  lemma {:induction false} PuttingBackFits(before: map<Key, Entry>, a: map<Key, Entry>, b: map<Key, Entry>, r: Key)
    requires a.Keys <= b.Keys <= before.Keys && Total(before) <= UINT64_MAX && r in b
    requires (forall k | k in a :: a[k] == before[k]) && (forall k | k in b :: b[k] == before[k])
    ensures Used(a[r := before[r]]) <= Used(b)
  {
    hide Total, Used;
    var a' := a[r := before[r]];
    PartsFit(before, a');
    PartsFit(before, b);
    TotalMonotone(a', b);
  }

  /** Whoever evicted less than `a` did is still over the budget. */
  lemma {:induction false} EvictingLessIsTooLittle(before: map<Key, Entry>, a: map<Key, Entry>, b: map<Key, Entry>,
                                                   budget: nat, session: Bytes, segment: int)
    requires OldestLeft(before, a, session, segment) && NoMoreThanNeeded(before, a, budget)
    requires OldestLeft(before, b, session, segment)
    requires DistinctStamps(before) && Total(before) <= UINT64_MAX && a.Keys < b.Keys
    ensures Used(b) > budget
  {
    var r :| r in before && r !in a
      && (forall r' | r' in before && r' !in a :: before[r'].lastAccess <= before[r].lastAccess)
      && Used(a[r := before[r]]) > budget;
    hide Total, Used, DistinctStamps;
    NewestEvictedStays(before, a, b, r, session, segment);
    PuttingBackFits(before, a, b, r);
  }

  /** Of two ways to evict, one keeps everything that the other keeps. */
  lemma {:induction false} EvictionsAreNested(before: map<Key, Entry>, a: map<Key, Entry>, b: map<Key, Entry>, session: Bytes, segment: int)
    requires OldestLeft(before, a, session, segment) && OldestLeft(before, b, session, segment) && DistinctStamps(before)
    ensures a.Keys <= b.Keys || b.Keys <= a.Keys
  {
    if y :| y in b && y !in a {
      forall x | x in a ensures x in b {
      }
    }
  }

  /** With distinct time stamps below the largest one, and sizes that add up to less than 2^64,
      there is only one way to evict. */
  lemma {:induction false} EvictionIsDetermined(before: map<Key, Entry>, a: map<Key, Entry>, b: map<Key, Entry>,
                                                budget: nat, session: Bytes, segment: int)
    requires Evicted(before, a, budget, session, segment) && Evicted(before, b, budget, session, segment)
    requires DistinctStamps(before) && Total(before) <= UINT64_MAX
    ensures a == b
  {
    EvictionsAreNested(before, a, b, session, segment);
    KeepsNoMore(before, a, b, budget, session, segment);
    KeepsNoMore(before, b, a, budget, session, segment);
  }

  lemma {:induction false} KeepsNoMore(before: map<Key, Entry>, a: map<Key, Entry>, b: map<Key, Entry>,
                                       budget: nat, session: Bytes, segment: int)
    requires Evicted(before, a, budget, session, segment) && Evicted(before, b, budget, session, segment)
    requires DistinctStamps(before) && Total(before) <= UINT64_MAX
    ensures !(a.Keys < b.Keys)
  {
    hide Used, Total;
    if a.Keys < b.Keys {
      var x :| x in b && x !in a;
      assert Selectable(b, session, segment, x);
      EvictingLessIsTooLittle(before, a, b, budget, session, segment);
      assert false;
    }
  }

  /** In a store whose clock has not started again there is only one way to evict. */
  lemma {:induction false} OnlyOneWayToEvict(store: ResidentKVStore, a: map<Key, Entry>, b: map<Key, Entry>, session: Bytes, segment: int)
    requires store.Valid() && !store.wrapped && Total(store.entries) <= UINT64_MAX
    requires Evicted(store.entries, a, store.budget, session, segment) && Evicted(store.entries, b, store.budget, session, segment)
    ensures a == b
  {
    hide Evicted, Total, Used;
    EvictionIsDetermined(store.entries, a, b, store.budget, session, segment);
  }
}
