/** When there is room in memory: what a caller can check before a command, so that it cannot fail
    for lack of it. */
module MemoryRoom {
  import opened Basics
  import opened SegmentKV
  import opened ResidentStore
  import opened Coherence
  import opened KVManager

  /** Nothing that is held, and no file of the session, is empty or larger than `limit`, and `n` more
      segments of that size, and one, cannot make the byte counter wrap. */
  ghost predicate Roomy(held: Held, files: map<Key, Snapshot>, id: Bytes, limit: nat, n: nat) {
    && Sized(held, limit)
    && (forall k | k in files && k.session == id :: SizeFits(files[k].blobBytes, limit))
    && (|held.entries| + n + 1) * limit <= UINT64_MAX
  }

  /** A step that brings at most `cost` segments into memory. */
  ghost predicate StaysRoomy(engine: Engine, id: Bytes, a: Held, files: map<Key, Snapshot>, b: Held, files': map<Key, Snapshot>, cost: nat) {
    forall limit: nat, n: nat | Works(engine, limit) && Roomy(a, files, id, limit, n) && cost <= n :: Roomy(b, files', id, limit, n - cost)
  }

  /** All segments of a session. */
  function SegmentKeys(id: Bytes, n: nat): set<Key> {
    set k: int | 0 <= k < n :: Key(id, k)
  }

  lemma {:induction false} RoomyFits(m: SegmentKVManager, files: map<Key, Snapshot>, id: Bytes, k: int, limit: nat, n: nat)
    requires Roomy(m.InMemory(), files, id, limit, n)
    ensures Fits(m.resident, files, Key(id, k), limit)
  {
    TotalIsBounded(m.resident.entries, limit);
    assert |m.resident.entries| * limit + limit <= (|m.resident.entries| + n + 1) * limit by {
      Distribute(|m.resident.entries|, n, limit);
    }
  }

  lemma {:induction false} StaysRoomyTwice(engine: Engine, id: Bytes, a: Held, f: map<Key, Snapshot>, b: Held, f': map<Key, Snapshot>,
                                           c: Held, f'': map<Key, Snapshot>, cost: nat, more: nat)
    requires StaysRoomy(engine, id, a, f, b, f', cost) && StaysRoomy(engine, id, b, f', c, f'', more)
    ensures StaysRoomy(engine, id, a, f, c, f'', cost + more)
  {
    hide Works, Roomy;
    forall limit: nat, n: nat | Works(engine, limit) && Roomy(a, f, id, limit, n) && cost + more <= n ensures Roomy(c, f'', id, limit, n - (cost + more)) {
      assert Roomy(b, f', id, limit, n - cost);
      assert n - cost - more == n - (cost + more);
    }
  }

  lemma {:induction false} FewerAreRoomy(held: Held, files: map<Key, Snapshot>, id: Bytes, limit: nat, more: nat, fewer: nat)
    requires Roomy(held, files, id, limit, more) && fewer <= more
    ensures Roomy(held, files, id, limit, fewer)
  {
    Distribute(|held.entries|, more, limit);
    Distribute(|held.entries|, fewer, limit);
    assert fewer * limit <= more * limit;
  }

  /** Sizes stay, and at most so many segments came. */
  lemma {:induction false} SizedIsRoomy(engine: Engine, id: Bytes, k: int, a: Held, b: Held, files: map<Key, Snapshot>, cost: nat)
    requires StaysSized(engine, FileOf(files, Key(id, k)), a, b) && |b.entries| <= |a.entries| + cost
    ensures StaysRoomy(engine, id, a, files, b, files, cost)
  {
    hide Works, Sized, SizeFits;
    forall limit: nat, n: nat | Works(engine, limit) && Roomy(a, files, id, limit, n) && cost <= n ensures Roomy(b, files, id, limit, n - cost) {
      assert forall f | f in FileOf(files, Key(id, k)) :: SizeFits(f.blobBytes, limit);
      Monotone(|b.entries| + (n - cost) + 1, |a.entries| + n + 1, limit);
    }
  }

  lemma {:induction false} NotGrown(engine: Engine, id: Bytes, files: map<Key, Snapshot>, a: Held)
    ensures StaysRoomy(engine, id, a, files, a, files, 0)
  {
    hide Works, Roomy;
  }

  lemma {:induction false} CostsMore(engine: Engine, id: Bytes, a: Held, f: map<Key, Snapshot>, b: Held, f': map<Key, Snapshot>, cost: nat, more: nat)
    requires StaysRoomy(engine, id, a, f, b, f', cost) && cost <= more
    ensures StaysRoomy(engine, id, a, f, b, f', more)
  {
    hide Works, Roomy;
    forall limit: nat, n: nat | Works(engine, limit) && Roomy(a, f, id, limit, n) && more <= n ensures Roomy(b, f', id, limit, n - more) {
      FewerAreRoomy(b, f', id, limit, n - cost, n - more);
    }
  }

  /** A file was written from what is held, or removed. */
  lemma {:induction false} WritingIsRoomy(engine: Engine, id: Bytes, held: Held, files: map<Key, Snapshot>, files': map<Key, Snapshot>, k: Key)
    requires forall j | j in files' && j != k :: j in files && files'[j] == files[j]
    requires k in files' ==> exists h :: 0 <= h < |held.cells| && held.cells[h].snapshot == Some(files'[k])
    ensures StaysRoomy(engine, id, held, files, held, files', 0)
  {
    hide Works, SizeFits;
  }

  /** At most one entry came. */
  lemma {:induction false} OneMoreEntry(a: map<Key, Entry>, b: map<Key, Entry>, k: Key)
    requires forall j | j in b && j != k :: j in a
    ensures |b| <= |a| + 1
  {
    assert b.Keys <= a.Keys + {k};
    CardinalityOf(b.Keys, a.Keys + {k});
  }

  lemma {:induction false} NoMoreEntries(a: map<Key, Entry>, b: map<Key, Entry>)
    requires forall j | j in b :: j in a
    ensures |b| <= |a|
  {
    CardinalityOf(b.Keys, a.Keys);
  }

  lemma SameKeys(m: SegmentKVManager)
    ensures m.State().resident.Keys == m.resident.entries.Keys && m.InMemory() == Held(m.State().cells, m.resident.entries)
  {
  }

  /** A segment in memory is serialised to something. */
  lemma {:induction false} NothingEmpty(kv: KVState, want: map<Key, Content>, entries: map<Key, Entry>, k: Key, limit: nat)
    requires Coherent(kv, want) && Sized(Held(kv.cells, entries), limit)
    ensures !EmptyBlob(kv, k)
  {
    hide NotShared, PrefixesOk, ActiveOk;
  }
}
