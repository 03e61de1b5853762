/** The facts a session keeps: its memories and the boundaries the user asked for
    (persistent.h, session_persistence.cpp). */
module Persistent {
  import opened Basics

  datatype MemoryRecord = MemoryRecord(idx: int, hasId: bool, id: Bytes, text: Bytes, estimated: int)

  datatype SessionStore = SessionStore(
    schemaVersion: int,
    sessionId: Bytes,
    system: Bytes,
    systemLocked: bool,
    kvPersist: bool,
    nextIdx: int,
    memories: seq<MemoryRecord>,
    boundaries: seq<int>)

  const CURRENT_SCHEMA_VERSION := 2

  function FreshStore(sessionId: Bytes, kvPersist: bool): SessionStore {
    SessionStore(CURRENT_SCHEMA_VERSION, sessionId, [], false, kvPersist, 0, [], [])
  }

  // ----- Session names -----

  predicate IsNameByte(b: byte) {
    || 'a' as int <= b <= 'z' as int
    || 'A' as int <= b <= 'Z' as int
    || '0' as int <= b <= '9' as int
    || b == '.' as int
    || b == '_' as int
    || b == '-' as int
  }

  const DOT: Bytes := ['.' as int]
  const DOT_DOT: Bytes := ['.' as int, '.' as int]

  predicate IsValidSessionId(id: Bytes) {
    id != [] && id != DOT && id != DOT_DOT && forall b | b in id :: IsNameByte(b)
  }

  // ----- Looking a memory up -----

  function FirstWithIdx(memories: seq<MemoryRecord>, idx: int): Option<MemoryRecord> {
    if memories == [] then None
    else if memories[0].idx == idx then Some(memories[0])
    else FirstWithIdx(memories[1..], idx)
  }

  function FindMemory(memories: seq<MemoryRecord>, idx: int): Option<MemoryRecord> {
    if 0 <= idx < |memories| && memories[idx].idx == idx then Some(memories[idx])
    else FirstWithIdx(memories, idx)
  }

  predicate DistinctIndices(memories: seq<MemoryRecord>) {
    forall i, j :: 0 <= i < j < |memories| ==> memories[i].idx != memories[j].idx
  }

  lemma {:induction false} FirstWithIdxFinds(memories: seq<MemoryRecord>, idx: int)
    ensures FirstWithIdx(memories, idx) == None <==> forall i :: 0 <= i < |memories| ==> memories[i].idx != idx
    ensures FirstWithIdx(memories, idx).Some? ==>
              exists i :: 0 <= i < |memories| && memories[i] == FirstWithIdx(memories, idx).value && memories[i].idx == idx
  {
    if memories != [] && memories[0].idx != idx {
      FirstWithIdxFinds(memories[1..], idx);
      assert forall i :: 1 <= i < |memories| ==> memories[i] == memories[1..][i - 1];
    }
  }

  /** The positional shortcut never changes the answer: with distinct indices the lookup
      returns the one record that carries the index, and nothing when there is none. */
  lemma FindMemoryIsTheRecord(memories: seq<MemoryRecord>, idx: int)
    requires DistinctIndices(memories)
    ensures FindMemory(memories, idx) == None <==> forall i :: 0 <= i < |memories| ==> memories[i].idx != idx
    ensures forall i :: 0 <= i < |memories| && memories[i].idx == idx ==> FindMemory(memories, idx) == Some(memories[i])
  {
    FirstWithIdxFinds(memories, idx);
  }

  // ----- Validity of a store -----

  ghost predicate ValidStore(store: SessionStore) {
    && IsValidSessionId(store.sessionId)
    && 0 <= store.nextIdx
    && (forall i :: 0 <= i < |store.memories| ==> 0 <= store.memories[i].idx < store.nextIdx)
    && DistinctIndices(store.memories)
    && (forall i :: 0 <= i < |store.boundaries| ==> 0 <= store.boundaries[i] <= store.nextIdx)
  }

  method ValidateLoadedStore(store: SessionStore) returns (ok: bool)
    ensures ok <==> ValidStore(store)
  {
    if !IsValidSessionId(store.sessionId) || store.nextIdx < 0 {
      return false;
    }
    var seen: set<int> := {};
    for i := 0 to |store.memories|
      invariant seen == set j | 0 <= j < i :: store.memories[j].idx
      invariant DistinctIndices(store.memories[..i])
      invariant forall j :: 0 <= j < i ==> 0 <= store.memories[j].idx < store.nextIdx
    {
      var idx := store.memories[i].idx;
      if idx < 0 || idx >= store.nextIdx {
        return false;
      }
      if idx in seen {
        var j :| 0 <= j < i && store.memories[j].idx == idx;
        return false;
      }
      seen := seen + {idx};
    }
    assert store.memories[..|store.memories|] == store.memories;
    for i := 0 to |store.boundaries|
      invariant forall j :: 0 <= j < i ==> 0 <= store.boundaries[j] <= store.nextIdx
    {
      if store.boundaries[i] < 0 || store.boundaries[i] > store.nextIdx {
        return false;
      }
    }
    return true;
  }

  // ----- Equality of facts, up to the cached per-memory token estimate -----

  predicate SameMemory(a: MemoryRecord, b: MemoryRecord) {
    a.(estimated := 0) == b.(estimated := 0)
  }

  predicate SameMemories(a: seq<MemoryRecord>, b: seq<MemoryRecord>) {
    |a| == |b| && forall i :: 0 <= i < |a| ==> SameMemory(a[i], b[i])
  }

  /** Two stores hold the same facts: they differ at most in cached `estimated` fields. */
  predicate SameFacts(a: SessionStore, b: SessionStore) {
    a.(memories := []) == b.(memories := []) && SameMemories(a.memories, b.memories)
  }

  /** Planning may fill in token estimates, which are 32-bit integers. */
  ghost predicate EstimatesFilled(before: SessionStore, after: SessionStore) {
    && SameFacts(after, before)
    && forall i :: 0 <= i < |after.memories| ==> after.memories[i] == before.memories[i] || IsInt32(after.memories[i].estimated)
  }
}
