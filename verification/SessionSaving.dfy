/** Writing and reading the session files step by step, with every point at which the process
    may die (session_persistence.cpp). */
module SessionSaving {
  import opened Basics
  import opened Persistent
  import opened BinaryIO
  import opened SessionFiles

  // ----- Stream level -----

  method WriteMemoryRecord(out: OutputStream, m: MemoryRecord)
    modifies out
    ensures out.written == old(out.written) + EncodeRecord(m)
  {
    hide I64, Bool, String, I32, LittleEndian;
    ghost var start := out.written;
    out.WritePod(m.idx, 8);
    out.WriteBool(m.hasId);
    out.WriteString(m.id);
    out.WriteString(m.text);
    out.WritePod(m.estimated, 4);
    RecordIsFields(start, m);
  }

  lemma {:induction false} RecordIsFields(start: Bytes, m: MemoryRecord)
    ensures ((((start + LittleEndian(m.idx, 8)) + Bool(m.hasId)) + String(m.id)) + String(m.text)) + LittleEndian(m.estimated, 4)
            == start + EncodeRecord(m)
  {
    hide String, Bool, LittleEndian;
    var a, b, c, d, e := LittleEndian(m.idx, 8), Bool(m.hasId), String(m.id), String(m.text), LittleEndian(m.estimated, 4);
    ConcatAssociates(((start + a) + b) + c, d, e);
    ConcatAssociates((start + a) + b, c, d + e);
    ConcatAssociates(start + a, b, c + (d + e));
    ConcatAssociates(start, a, b + (c + (d + e)));
  }

  method ReadMemoryRecord(input: InputStream) returns (r: Parsed<MemoryRecord>)
    modifies input
    ensures r == ParseRecord(old(input.rest))
    ensures r.Parsed? ==> input.rest == r.rest
  {
    hide ParseSigned, ParseBool, ParseString;
    var idx :- input.ReadSigned(8);
    var hasId :- input.ReadBool();
    var id :- input.ReadString();
    var text :- input.ReadString();
    var estimated :- input.ReadSigned(4);
    r := Parsed(MemoryRecord(idx.0, hasId.0, id.0, text.0, estimated.0), input.rest);
  }

  /** The content of the memories file. */
  method WriteStoreMemories(store: SessionStore) returns (content: Bytes)
    ensures content == EncodeMemories(store)
  {
    hide EncodeRecord, LittleEndian;
    var out := new OutputStream();
    out.WritePod(MEMORIES_MAGIC, 4);
    out.WritePod(MEMORIES_VERSION, 4);
    ghost var header := out.written;
    assert header == U32(MEMORIES_MAGIC) + U32(MEMORIES_VERSION);
    for i := 0 to |store.memories|
      invariant out.written == header + EncodeRecords(store.memories[..i])
    {
      WriteMemoryRecord(out, store.memories[i]);
      assert Init(store.memories[..i + 1]) == store.memories[..i];
      ConcatAssociates(header, EncodeRecords(store.memories[..i]), EncodeRecord(store.memories[i]));
    }
    assert store.memories[..|store.memories|] == store.memories;
    ConcatAssociates(U32(MEMORIES_MAGIC), U32(MEMORIES_VERSION), EncodeRecords(store.memories));
    content := out.written;
  }

  /** The content of the metadata file. */
  method WriteStoreMetadata(store: SessionStore) returns (content: Bytes)
    ensures content == EncodeMetadata(store)
  {
    hide String, Bool, LittleEndian, I64Vector;
    var out := new OutputStream();
    out.WritePod(STORE_MAGIC, 4);
    out.WritePod(STORE_VERSION, 4);
    out.WritePod(store.schemaVersion, 4);
    out.WriteString(store.sessionId);
    out.WriteString(store.system);
    ghost var identity := out.written;
    out.WriteBool(store.systemLocked);
    out.WriteBool(store.kvPersist);
    out.WritePod(store.nextIdx, 8);
    out.WriteI64Vector(store.boundaries);
    out.WritePod(|store.memories|, 8);
    content := out.written;
    FlagsAreFields(identity, store);
    IdentityIsFields(store);
  }

  lemma {:induction false} FlagsAreFields(start: Bytes, store: SessionStore)
    ensures ((((start + Bool(store.systemLocked)) + Bool(store.kvPersist)) + LittleEndian(store.nextIdx, 8))
             + I64Vector(store.boundaries)) + LittleEndian(|store.memories|, 8)
            == start + EncodeFlags(store, STORE_VERSION)
  {
    hide Bool, LittleEndian, I64Vector;
    var a, b, c := Bool(store.systemLocked), Bool(store.kvPersist), LittleEndian(store.nextIdx, 8);
    var d, e := I64Vector(store.boundaries), LittleEndian(|store.memories|, 8);
    ConcatAssociates(((start + a) + b) + c, d, e);
    ConcatAssociates((start + a) + b, c, d + e);
    ConcatAssociates(start + a, b, c + (d + e));
    ConcatAssociates(start, a, b + (c + (d + e)));
  }

  lemma {:induction false} IdentityIsFields(store: SessionStore)
    ensures ((((([] + LittleEndian(STORE_MAGIC, 4)) + LittleEndian(STORE_VERSION, 4)) + LittleEndian(store.schemaVersion, 4))
              + String(store.sessionId)) + String(store.system)) + EncodeFlags(store, STORE_VERSION)
            == EncodeMetadata(store)
  {
    hide String, LittleEndian, EncodeFlags;
    var a, b, c := LittleEndian(STORE_MAGIC, 4), LittleEndian(STORE_VERSION, 4), LittleEndian(store.schemaVersion, 4);
    var d, e, f := String(store.sessionId), String(store.system), EncodeFlags(store, STORE_VERSION);
    assert [] + a == a;
    ConcatAssociates(((a + b) + c) + d, e, f);
    ConcatAssociates((a + b) + c, d, e + f);
    ConcatAssociates(a + b, c, d + (e + f));
    ConcatAssociates(a, b, c + (d + (e + f)));
  }

  method ReadStoreMetadata(content: Bytes) returns (r: Parsed<Metadata>)
    ensures r == ParseMetadata(content)
  {
    hide ParseUnsigned, ParseString, ParseFlags;
    var input := new InputStream(content);
    var magic :- input.ReadUnsigned(4);
    var version :- input.ReadUnsigned(4);
    if magic.0 != STORE_MAGIC || (version.0 != 1 && version.0 != STORE_VERSION) {
      return Rejected;
    }
    var schema :- input.ReadUnsigned(4);
    var sessionId :- input.ReadString();
    var system :- input.ReadString();
    r := ReadFlags(input, version.0, FreshStore(sessionId.0, false).(schemaVersion := schema.0, system := system.0));
  }

  method ReadFlags(input: InputStream, version: nat, base: SessionStore) returns (r: Parsed<Metadata>)
    modifies input
    ensures r == ParseFlags(old(input.rest), version, base)
  {
    hide ParseUnsigned, ParseSigned, ParseBool, ParseI64Vector;
    var store := base;
    var locked :- input.ReadBool();
    store := store.(systemLocked := locked.0);
    if version >= 2 {
      var kvPersist :- input.ReadBool();
      store := store.(kvPersist := kvPersist.0);
    }
    var nextIdx :- input.ReadSigned(8);
    var boundaries :- input.ReadI64Vector();
    var count :- input.ReadUnsigned(8);
    if count.0 > MAX_MEMORY_RECORDS || !IsValidSessionId(store.sessionId) {
      return Rejected;
    }
    r := Parsed((store.(nextIdx := nextIdx.0, boundaries := boundaries.0), count.0), input.rest);
  }

  lemma {:induction false} ParseRecordsStops(input: Bytes, count: nat, total: nat)
    requires count <= total && ParseRecords(input, count).Rejected?
    ensures ParseRecords(input, total).Rejected?
  {
    hide ParseRecord;
    if count < total {
      ParseRecordsStops(input, count, total - 1);
    }
  }

  method ReadStoreMemories(content: Bytes, count: nat) returns (r: Parsed<seq<MemoryRecord>>)
    ensures r == ParseMemories(content, count)
  {
    hide ParseUnsigned, ParseRecord;
    var input := new InputStream(content);
    var magic :- input.ReadUnsigned(4);
    var version :- input.ReadUnsigned(4);
    if magic.0 != MEMORIES_MAGIC || version.0 != MEMORIES_VERSION {
      return Rejected;
    }
    var memories := [];
    for i := 0 to count
      invariant Parsed(memories, input.rest) == ParseRecords(version.1, i)
    {
      var memory := ReadMemoryRecord(input);
      if memory.Rejected? {
        ParseRecordsStops(version.1, i + 1, count);
        return Rejected;
      }
      memories := memories + [memory.value];
    }
    r := Parsed(memories, input.rest);
  }

  method LoadSession(files: SessionDir, name: Bytes) returns (store: Option<SessionStore>)
    ensures store == Load(files, name)
  {
    hide ParseMetadata, ParseMemories, ValidStore;
    if files.metadata == None {
      return None;
    }
    var header := ReadStoreMetadata(files.metadata.value);
    if header.Rejected? {
      return None;
    }
    var (base, count) := header.value;
    var memories := [];
    if count > 0 {
      if files.memories == None {
        return None;
      }
      var read := ReadStoreMemories(files.memories.value, count);
      if read.Rejected? {
        return None;
      }
      memories := read.value;
    }
    var loaded := base.(memories := memories);
    if name != [] && loaded.sessionId != name {
      return None;
    }
    var ok := ValidateLoadedStore(loaded);
    store := if ok then Some(loaded) else None;
  }

  // ----- Saving -----

  /** Which file operations of one save succeed. */
  datatype SaveFaults = SaveFaults(writeMemories: bool, renameMemories: bool, writeMetadata: bool, renameMetadata: bool)

  const NO_FAULTS := SaveFaults(true, true, true, true)

  /** A session directory together with every state it has ever been in: the process may die,
      and the directory be read again, at any of them. */
  class SessionDirectory {
    const name: Bytes
    var files: SessionDir
    ghost var past: set<SessionDir>

    constructor (name: Bytes, files: SessionDir)
      ensures this.name == name && this.files == files && past == {files}
    {
      this.name, this.files, past := name, files, {files};
    }

    /** The session becomes known now: what went before is not its past. */
    ghost method Enter()
      modifies this`past
      ensures past == {files}
    {
      past := {files};
    }

    method Put(next: SessionDir)
      modifies this
      ensures files == next && past == old(past) + {next}
    {
      files, past := next, past + {next};
    }

    /** Writes a temporary file and renames it over the memories file. */
    method WriteMemoriesFile(store: SessionStore, canWrite: bool, canRename: bool) returns (ok: bool)
      modifies this
      ensures ok <==> canWrite && canRename
      ensures files.metadata == old(files.metadata)
      ensures files.memories == if ok then Some(EncodeMemories(store)) else old(files.memories)
      ensures old(past) <= past && files in past
      ensures forall f | f in past - old(past) ::
                f.metadata == old(files.metadata) &&
                f.memories in {old(files.memories), files.memories}
    {
      var content := WriteStoreMemories(store);
      hide EncodeMemories;
      Put(files.(memoriesTemp := Some([])));
      if canWrite {
        Put(files.(memoriesTemp := Some(content)));
      }
      if !canWrite || !canRename {
        Put(files.(memoriesTemp := None));
        return false;
      }
      Put(files.(memories := Some(content), memoriesTemp := None));
      return true;
    }

    method WriteMetadataFile(store: SessionStore, canWrite: bool, canRename: bool) returns (ok: bool)
      modifies this
      ensures ok <==> canWrite && canRename
      ensures files.memories == old(files.memories)
      ensures files.metadata == if ok then Some(EncodeMetadata(store)) else old(files.metadata)
      ensures old(past) <= past && files in past
      ensures forall f | f in past - old(past) ::
                f.memories == old(files.memories) &&
                f.metadata in {old(files.metadata), files.metadata}
    {
      var content := WriteStoreMetadata(store);
      hide EncodeMetadata;
      Put(files.(metadataTemp := Some([])));
      if canWrite {
        Put(files.(metadataTemp := Some(content)));
      }
      if !canWrite || !canRename {
        Put(files.(metadataTemp := None));
        return false;
      }
      Put(files.(metadata := Some(content), metadataTemp := None));
      return true;
    }

    /** save_session: memories first, then metadata. */
    method SaveSession(store: SessionStore, faults: SaveFaults) returns (ok: bool)
      modifies this
      ensures ok <==> CanSave(store, name) && faults == NO_FAULTS
      ensures files in past || files == old(files)
      ensures ok ==> files.metadata == Some(EncodeMetadata(store)) && files.memories == Some(EncodeMemories(store))
      ensures old(past) <= past
      ensures forall f | f in past - old(past) :: DuringSave(old(files), store, f)
      ensures DuringSave(old(files), store, files)
      ensures past != old(past) || files != old(files) ==> CanSave(store, name)
    {
      hide EncodeMetadata, EncodeMemories, ValidStore;
      var valid := ValidateLoadedStore(store);
      if !valid || (name != [] && store.sessionId != name) {
        return false;
      }
      ok := WriteMemoriesFile(store, faults.writeMemories, faults.renameMemories);
      if ok {
        ok := WriteMetadataFile(store, faults.writeMetadata, faults.renameMetadata);
      }
    }

    /** save_session_metadata: used before a session has any memories. */
    method SaveSessionMetadata(store: SessionStore, faults: SaveFaults) returns (ok: bool)
      modifies this
      ensures ok <==> CanSave(store, name) && faults.writeMetadata && faults.renameMetadata
      ensures files.memories == old(files.memories)
      ensures files.metadata == if ok then Some(EncodeMetadata(store)) else old(files.metadata)
      ensures old(past) <= past && (files in past || files == old(files))
      ensures forall f | f in past - old(past) ::
                f.memories == old(files.memories) && f.metadata in {old(files.metadata), files.metadata}
    {
      hide EncodeMetadata, ValidStore;
      var valid := ValidateLoadedStore(store);
      if !valid || (name != [] && store.sessionId != name) {
        return false;
      }
      ok := WriteMetadataFile(store, faults.writeMetadata, faults.renameMetadata);
    }
  }

  ghost predicate CanSave(store: SessionStore, name: Bytes) {
    ValidStore(store) && (name != [] ==> store.sessionId == name)
  }

  /** The files a save passes through, apart from the temporary ones: both old, new memories
      with old metadata, or both new. */
  ghost predicate DuringSave(before: SessionDir, store: SessionStore, now: SessionDir) {
    || (now.metadata == before.metadata && now.memories == before.memories)
    || (now.metadata == before.metadata && now.memories == Some(EncodeMemories(store)))
    || (now.metadata == Some(EncodeMetadata(store)) && now.memories == Some(EncodeMemories(store)))
  }

  // ----- Crash consistency -----

  /** Memories only grow: the older store's memories are the first ones of the newer. */
  ghost predicate Grows(older: SessionStore, newer: SessionStore) {
    |older.memories| <= |newer.memories| && SameMemories(older.memories, newer.memories[..|older.memories|])
  }

  lemma {:induction false} ValidUpToEstimates(a: SessionStore, b: SessionStore)
    requires ValidStore(a) && SameFacts(a, b)
    ensures ValidStore(b)
  {
    assert forall i :: 0 <= i < |a.memories| ==> a.memories[i].idx == b.memories[i].idx by {
      forall i | 0 <= i < |a.memories| ensures a.memories[i].idx == b.memories[i].idx {
        assert SameMemory(a.memories[i], b.memories[i]);
      }
    }
    assert a.sessionId == a.(memories := []).sessionId == b.sessionId;
    assert a.nextIdx == a.(memories := []).nextIdx == b.nextIdx;
    assert a.boundaries == a.(memories := []).boundaries == b.boundaries;
  }

  /** New memories under old metadata read as the old store. */
  lemma {:induction false} NewMemoriesOldMetadata(before: SessionDir, older: SessionStore, newer: SessionStore, now: SessionDir, name: Bytes)
    requires Load(before, name) == Some(older) && Grows(older, newer)
    requires Representable(newer) && Readable(newer)
    requires now.metadata == before.metadata && now.memories == Some(EncodeMemories(newer))
    ensures Load(now, name).Some? && SameFacts(Load(now, name).value, older)
  {
    hide ParseMetadata, ParseMemories, EncodeMemories, ValidStore, ReadableRecord, Representable, SameMemory;
    var header := ParseMetadata(before.metadata.value).value;
    var count := header.1;
    LoadedCount(before, count);
    MemoriesReadBack(newer, count);
    var read := header.0.(memories := newer.memories[..count]);
    assert SameFacts(older, read);
    ValidUpToEstimates(older, read);
    assert forall m | m in newer.memories[..count] :: m in newer.memories;
    SameFactsBack(older, read);
  }

  lemma {:induction false} SameFactsBack(a: SessionStore, b: SessionStore)
    requires SameFacts(a, b)
    ensures SameFacts(b, a)
  {
    forall i | 0 <= i < |a.memories| ensures SameMemory(b.memories[i], a.memories[i]) {
      assert SameMemory(a.memories[i], b.memories[i]);
    }
  }

  lemma {:induction false} LoadedCount(files: SessionDir, count: nat)
    ensures LoadMemories(files, count).Parsed? ==> |LoadMemories(files, count).value| == count
  {
    if count > 0 && files.memories.Some? {
      var input := files.memories.value;
      var magic := ParseUnsigned(input, 4);
      if magic.Parsed? {
        var version := ParseUnsigned(magic.rest, 4);
        if version.Parsed? {
          RecordCount(version.rest, count);
        }
      }
    }
  }

  lemma {:induction false} RecordCount(input: Bytes, count: nat)
    ensures ParseRecords(input, count).Parsed? ==> |ParseRecords(input, count).value| == count
  {
    hide ParseRecord;
    if count > 0 {
      RecordCount(input, count - 1);
    }
  }

  /** Whenever the process dies during a save, or the save fails half way, what is on disk loads
      as exactly the old store or exactly the new one, up to cached token estimates. */
  lemma {:induction false} SaveIsCrashConsistent(before: SessionDir, older: SessionStore, newer: SessionStore, now: SessionDir, name: Bytes)
    requires Load(before, name) == Some(older) && CanSave(newer, name) && Grows(older, newer)
    requires Representable(newer) && Readable(newer)
    requires DuringSave(before, newer, now)
    ensures Load(now, name).Some?
    ensures SameFacts(Load(now, name).value, older) || Load(now, name).value == newer
    ensures now.metadata == Some(EncodeMetadata(newer)) && now.memories == Some(EncodeMemories(newer)) ==>
              Load(now, name).value == newer
  {
    if now.metadata == Some(EncodeMetadata(newer)) && now.memories == Some(EncodeMemories(newer)) {
      SavedSessionLoadsBack(newer, now);
      LoadByName(now, newer.sessionId, name);
    } else if now.memories == Some(EncodeMemories(newer)) {
      NewMemoriesOldMetadata(before, older, newer, now, name);
    } else {
      SameFilesLoadAlike(before, now, name);
    }
  }

  lemma {:induction false} LoadByName(files: SessionDir, id: Bytes, name: Bytes)
    requires Load(files, id).Some? && Load(files, id).value.sessionId == id && (name == [] || name == id)
    ensures Load(files, name) == Load(files, id)
  {
    hide ParseMetadata, ParseMemories, ValidStore;
  }

  lemma {:induction false} SameFilesLoadAlike(a: SessionDir, b: SessionDir, name: Bytes)
    requires a.metadata == b.metadata && a.memories == b.memories
    ensures Load(a, name) == Load(b, name)
  {
    hide ParseMetadata, ParseMemories, ValidStore;
  }
}
