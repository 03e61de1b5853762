/** The two files of a session and how they are written and read back
    (session_persistence.cpp). */
module SessionFiles {
  import opened Basics
  import opened Persistent
  import opened BinaryIO

  const STORE_MAGIC := 0x414d5331
  const STORE_VERSION := 2
  const MEMORIES_MAGIC := 0x414d4d31
  const MEMORIES_VERSION := 1
  const MAX_MEMORY_RECORDS := 1000000

  // ----- Formats -----

  function EncodeRecord(m: MemoryRecord): Bytes {
    I64(m.idx) + (Bool(m.hasId) + (String(m.id) + (String(m.text) + I32(m.estimated))))
  }

  function EncodeRecords(memories: seq<MemoryRecord>): Bytes {
    if memories == [] then [] else EncodeRecords(Init(memories)) + EncodeRecord(Last(memories))
  }

  function EncodeMemories(store: SessionStore): Bytes {
    U32(MEMORIES_MAGIC) + (U32(MEMORIES_VERSION) + EncodeRecords(store.memories))
  }

  /** What follows the kv_persist flag, which only version 2 files have. */
  function EncodeTail(store: SessionStore): Bytes {
    I64(store.nextIdx) + (I64Vector(store.boundaries) + U64(|store.memories|))
  }

  function EncodeFlags(store: SessionStore, version: int): Bytes {
    Bool(store.systemLocked) + ((if version >= 2 then Bool(store.kvPersist) else []) + EncodeTail(store))
  }

  function EncodeMetadataAs(store: SessionStore, version: int): Bytes {
    U32(STORE_MAGIC) + (U32(version) + (U32(store.schemaVersion) +
      (String(store.sessionId) + (String(store.system) + EncodeFlags(store, version)))))
  }

  function EncodeMetadata(store: SessionStore): Bytes {
    EncodeMetadataAs(store, STORE_VERSION)
  }

  // ----- Readers -----

  function ParseRecord(input: Bytes): Parsed<MemoryRecord> {
    var (idx, a) :- ParseSigned(input, 8);
    var (hasId, b) :- ParseBool(a);
    var (id, c) :- ParseString(b);
    var (text, d) :- ParseString(c);
    var (estimated, e) :- ParseSigned(d, 4);
    Parsed(MemoryRecord(idx, hasId, id, text, estimated), e)
  }

  function ParseRecords(input: Bytes, count: nat): Parsed<seq<MemoryRecord>> {
    if count == 0 then Parsed([], input)
    else
      var (memories, rest) :- ParseRecords(input, count - 1);
      var (memory, rest') :- ParseRecord(rest);
      Parsed(memories + [memory], rest')
  }

  function ParseMemories(input: Bytes, count: nat): Parsed<seq<MemoryRecord>> {
    var (magic, a) :- ParseUnsigned(input, 4);
    var (version, b) :- ParseUnsigned(a, 4);
    if magic != MEMORIES_MAGIC || version != MEMORIES_VERSION then Rejected else ParseRecords(b, count)
  }

  /** The metadata with an empty memory list, and the number of memories to read. */
  type Metadata = (SessionStore, nat)

  function ParseTail(input: Bytes, store: SessionStore): Parsed<Metadata> {
    var (nextIdx, a) :- ParseSigned(input, 8);
    var (boundaries, b) :- ParseI64Vector(a);
    var (count, c) :- ParseUnsigned(b, 8);
    if count > MAX_MEMORY_RECORDS || !IsValidSessionId(store.sessionId) then Rejected
    else Parsed((store.(nextIdx := nextIdx, boundaries := boundaries), count), c)
  }

  function ParseFlags(input: Bytes, version: nat, store: SessionStore): Parsed<Metadata> {
    var (locked, a) :- ParseBool(input);
    if version >= 2 then
      var (kvPersist, b) :- ParseBool(a);
      ParseTail(b, store.(systemLocked := locked, kvPersist := kvPersist))
    else ParseTail(a, store.(systemLocked := locked))
  }

  function ParseMetadata(input: Bytes): Parsed<Metadata> {
    var (magic, a) :- ParseUnsigned(input, 4);
    var (version, b) :- ParseUnsigned(a, 4);
    if magic != STORE_MAGIC || (version != 1 && version != STORE_VERSION) then Rejected
    else
      var (schema, c) :- ParseUnsigned(b, 4);
      var (sessionId, d) :- ParseString(c);
      var (system, e) :- ParseString(d);
      ParseFlags(e, version, FreshStore(sessionId, false).(schemaVersion := schema, system := system))
  }

  // ----- What can be written, and what the readers take -----

  /** The values fit the C++ types that hold them. */
  ghost predicate RepresentableRecord(m: MemoryRecord) {
    IsInt64(m.idx) && IsInt32(m.estimated) && |m.id| <= UINT64_MAX && |m.text| <= UINT64_MAX
  }

  ghost predicate Representable(store: SessionStore) {
    && 0 <= store.schemaVersion < 0x1_0000_0000
    && IsInt64(store.nextIdx)
    && |store.sessionId| <= UINT64_MAX && |store.system| <= UINT64_MAX
    && |store.boundaries| <= UINT64_MAX && |store.memories| <= UINT64_MAX
    && (forall b | b in store.boundaries :: IsInt64(b))
    && (forall m | m in store.memories :: RepresentableRecord(m))
  }

  /** The writer accepts longer values than the readers do. */
  ghost predicate ReadableRecord(m: MemoryRecord) {
    |m.id| <= MAX_STRING_BYTES && |m.text| <= MAX_STRING_BYTES
  }

  ghost predicate ReadableMetadata(store: SessionStore) {
    && |store.sessionId| <= MAX_STRING_BYTES && |store.system| <= MAX_STRING_BYTES
    && |store.boundaries| <= MAX_VECTOR_ITEMS && |store.memories| <= MAX_MEMORY_RECORDS
  }

  ghost predicate Readable(store: SessionStore) {
    ReadableMetadata(store) && forall m | m in store.memories :: ReadableRecord(m)
  }

  // ----- Round trips -----

  lemma {:induction false} RecordReadsBack(m: MemoryRecord, rest: Bytes)
    requires RepresentableRecord(m)
    ensures ParseRecord(EncodeRecord(m) + rest) == if ReadableRecord(m) then Parsed(m, rest) else Rejected
  {
    hide ParseSigned, ParseBool, ParseString, I64, I32, Bool, String;
    var e := I32(m.estimated);
    var d := String(m.text) + e;
    var c := String(m.id) + d;
    var b := Bool(m.hasId) + c;
    ConcatAssociates(I64(m.idx), b, rest);
    ConcatAssociates(Bool(m.hasId), c, rest);
    ConcatAssociates(String(m.id), d, rest);
    ConcatAssociates(String(m.text), e, rest);
    I64ReadsBack(m.idx, b + rest);
    BoolReadsBack(m.hasId, c + rest);
    StringReadsBack(m.id, d + rest);
    StringReadsBack(m.text, e + rest);
    I32ReadsBack(m.estimated, rest);
  }

  /** The first `count` records of a longer file read back, unless one of them is too long. */
  lemma {:induction false} RecordsReadBack(memories: seq<MemoryRecord>, rest: Bytes)
    requires forall m | m in memories :: RepresentableRecord(m)
    ensures ParseRecords(EncodeRecords(memories) + rest, |memories|) ==
            if forall m | m in memories :: ReadableRecord(m) then Parsed(memories, rest) else Rejected
    decreases |memories|
  {
    hide EncodeRecord, ParseRecord, ReadableRecord, RepresentableRecord;
    if memories == [] {
      assert EncodeRecords(memories) + rest == rest;
    } else {
      var front, last := Init(memories), Last(memories);
      assert memories == front + [last];
      ConcatAssociates(EncodeRecords(front), EncodeRecord(last), rest);
      RecordsReadBack(front, EncodeRecord(last) + rest);
      RecordReadsBack(last, rest);
    }
  }

  lemma {:induction false} RecordsSplit(a: seq<MemoryRecord>, b: seq<MemoryRecord>)
    ensures EncodeRecords(a + b) == EncodeRecords(a) + EncodeRecords(b)
    decreases |b|
  {
    hide EncodeRecord;
    if b == [] {
      assert a + b == a;
    } else {
      assert Init(a + b) == a + Init(b) && Last(a + b) == Last(b);
      RecordsSplit(a, Init(b));
      ConcatAssociates(EncodeRecords(a), EncodeRecords(Init(b)), EncodeRecord(Last(b)));
    }
  }

  /** Reading `count` records from the memories file of a store that has at least as many. */
  lemma {:induction false} MemoriesReadBack(store: SessionStore, count: nat)
    requires Representable(store) && count <= |store.memories|
    ensures var first := store.memories[..count];
            var read := ParseMemories(EncodeMemories(store), count);
            if forall m | m in first :: ReadableRecord(m) then read.Parsed? && read.value == first else read.Rejected?
  {
    hide ParseUnsigned, EncodeRecords, ParseRecords, U32, ReadableRecord, RepresentableRecord;
    var first, others := store.memories[..count], store.memories[count..];
    assert store.memories == first + others;
    RecordsSplit(first, others);
    RecordsReadBack(first, EncodeRecords(others));
    U32ReadsBack(MEMORIES_MAGIC, U32(MEMORIES_VERSION) + EncodeRecords(store.memories));
    U32ReadsBack(MEMORIES_VERSION, EncodeRecords(store.memories));
  }

  /** What reading a store's metadata gives back: everything but the memories, which are counted.
      A version 1 file has no kv_persist flag and reads as `false`. */
  function MetadataOf(store: SessionStore, version: int): Metadata {
    (store.(memories := [], kvPersist := version >= 2 && store.kvPersist), |store.memories|)
  }

  lemma {:induction false} TailReadsBack(store: SessionStore, base: SessionStore)
    requires Representable(store) && base.sessionId == store.sessionId && IsValidSessionId(store.sessionId)
    ensures ParseTail(EncodeTail(store), base) ==
            if |store.boundaries| <= MAX_VECTOR_ITEMS && |store.memories| <= MAX_MEMORY_RECORDS
            then Parsed((base.(nextIdx := store.nextIdx, boundaries := store.boundaries), |store.memories|), [])
            else Rejected
  {
    hide ParseSigned, ParseUnsigned, ParseI64Vector, I64, I64Vector, U64;
    var b := U64(|store.memories|);
    I64ReadsBack(store.nextIdx, I64Vector(store.boundaries) + b);
    I64VectorReadsBack(store.boundaries, b);
    U64ReadsBack(|store.memories|, []);
    assert b + [] == b;
  }

  lemma {:induction false} FlagsReadBack(store: SessionStore, version: int, base: SessionStore)
    requires Representable(store) && base.sessionId == store.sessionId && IsValidSessionId(store.sessionId)
    requires version == 1 || version == 2
    requires base == FreshStore(store.sessionId, false).(schemaVersion := store.schemaVersion, system := store.system)
    ensures ParseFlags(EncodeFlags(store, version), version, base) ==
            if |store.boundaries| <= MAX_VECTOR_ITEMS && |store.memories| <= MAX_MEMORY_RECORDS
            then Parsed(MetadataOf(store, version), [])
            else Rejected
  {
    hide ParseBool, ParseTail, EncodeTail, Bool;
    var flag := if version >= 2 then Bool(store.kvPersist) else [];
    BoolReadsBack(store.systemLocked, flag + EncodeTail(store));
    BoolReadsBack(store.kvPersist, EncodeTail(store));
    assert [] + EncodeTail(store) == EncodeTail(store);
    var locked := base.(systemLocked := store.systemLocked);
    TailReadsBack(store, if version >= 2 then locked.(kvPersist := store.kvPersist) else locked);
  }

  lemma {:induction false} MetadataReadsBack(store: SessionStore, version: int)
    requires Representable(store) && IsValidSessionId(store.sessionId) && (version == 1 || version == 2)
    ensures ParseMetadata(EncodeMetadataAs(store, version)) ==
            if ReadableMetadata(store) then Parsed(MetadataOf(store, version), []) else Rejected
  {
    hide ParseUnsigned, ParseString, ParseFlags, EncodeFlags, U32, String;
    var e := EncodeFlags(store, version);
    var d := String(store.system) + e;
    var c := String(store.sessionId) + d;
    var b := U32(store.schemaVersion) + c;
    U32ReadsBack(STORE_MAGIC, U32(version) + b);
    U32ReadsBack(version, b);
    U32ReadsBack(store.schemaVersion, c);
    StringReadsBack(store.sessionId, d);
    StringReadsBack(store.system, e);
    FlagsReadBack(store, version,
                  FreshStore(store.sessionId, false).(schemaVersion := store.schemaVersion, system := store.system));
  }

  // ----- The session directory -----

  /** Everything in a session's directory. The temporary files are written but never read. */
  datatype SessionDir = SessionDir(
    metadata: Option<Bytes>,
    memories: Option<Bytes>,
    metadataTemp: Option<Bytes>,
    memoriesTemp: Option<Bytes>)

  function LoadMemories(files: SessionDir, count: nat): Parsed<seq<MemoryRecord>> {
    if count == 0 then Parsed([], [])
    else if files.memories == None then Rejected
    else ParseMemories(files.memories.value, count)
  }

  /** What load_session gives for the directory of session `name`. */
  ghost function Load(files: SessionDir, name: Bytes): Option<SessionStore> {
    if files.metadata == None then None
    else
      match ParseMetadata(files.metadata.value)
      case Rejected => None
      case Parsed((header, count), _) =>
        match LoadMemories(files, count)
        case Rejected => None
        case Parsed(memories, _) =>
          var store := header.(memories := memories);
          if (name != [] && store.sessionId != name) || !ValidStore(store) then None else Some(store)
  }

  lemma {:induction false} ValidIdOf(store: SessionStore)
    requires ValidStore(store)
    ensures IsValidSessionId(store.sessionId)
    ensures ValidStore(store.(kvPersist := false))
  {
  }

  /** A saved session loads back as it was saved exactly when it is within what the readers
      take; the writer itself does not check. */
  lemma {:induction false} SavedSessionLoadsBack(store: SessionStore, files: SessionDir)
    requires ValidStore(store) && Representable(store)
    requires files.metadata == Some(EncodeMetadata(store)) && files.memories == Some(EncodeMemories(store))
    ensures Load(files, store.sessionId) == if Readable(store) then Some(store) else None
  {
    hide EncodeMetadataAs, EncodeMemories, ParseMetadata, ParseMemories, ValidStore, ReadableRecord, Representable;
    ValidIdOf(store);
    MetadataReadsBack(store, STORE_VERSION);
    MemoriesReadBack(store, |store.memories|);
    assert store.memories[..|store.memories|] == store.memories;
  }

  /** Before there are memories the metadata file alone is enough. */
  lemma {:induction false} EmptySessionLoadsBack(store: SessionStore, files: SessionDir)
    requires ValidStore(store) && Representable(store) && ReadableMetadata(store) && store.memories == []
    requires files.metadata == Some(EncodeMetadata(store))
    ensures Load(files, store.sessionId) == Some(store)
  {
    hide EncodeMetadataAs, ParseMetadata, ParseMemories, ValidStore, Representable;
    ValidIdOf(store);
    MetadataReadsBack(store, STORE_VERSION);
  }

  /** A version 1 metadata file reads as the same store with kv_persist off. */
  lemma {:induction false} VersionOneLoadsBack(store: SessionStore, files: SessionDir)
    requires ValidStore(store) && Representable(store) && Readable(store)
    requires files.metadata == Some(EncodeMetadataAs(store, 1)) && files.memories == Some(EncodeMemories(store))
    ensures Load(files, store.sessionId) == Some(store.(kvPersist := false))
  {
    hide EncodeMetadataAs, EncodeMemories, ParseMetadata, ParseMemories, ValidStore, ReadableRecord, Representable;
    ValidIdOf(store);
    MetadataReadsBack(store, 1);
    MemoriesReadBack(store, |store.memories|);
    assert store.memories[..|store.memories|] == store.memories;
  }

  // ----- What the readers give -----

  lemma {:induction false} UnsignedIsBounded(bytes: Bytes)
    ensures Unsigned(bytes) < Pow256(|bytes|)
  {
    if bytes != [] {
      UnsignedIsBounded(bytes[1..]);
    }
  }

  lemma {:induction false} ParsedSigned(input: Bytes, width: nat)
    requires ParseSigned(input, width).Parsed?
    ensures width == 8 ==> IsInt64(ParseSigned(input, width).value)
    ensures width == 4 ==> IsInt32(ParseSigned(input, width).value)
  {
    UnsignedIsBounded(input[..width]);
    Pow256Values();
  }

  lemma {:induction false} ParsedI64s(input: Bytes, count: nat)
    requires ParseI64s(input, count).Parsed?
    ensures |ParseI64s(input, count).value| == count
    ensures forall v | v in ParseI64s(input, count).value :: IsInt64(v)
  {
    hide ParseSigned;
    if count > 0 {
      ParsedI64s(input, count - 1);
      ParsedSigned(ParseI64s(input, count - 1).rest, 8);
    }
  }

  lemma {:induction false} ParsedRecords(input: Bytes, count: nat)
    requires ParseRecords(input, count).Parsed?
    ensures |ParseRecords(input, count).value| == count
    ensures forall m | m in ParseRecords(input, count).value :: RepresentableRecord(m) && ReadableRecord(m)
  {
    hide ParseRecord, RepresentableRecord, ReadableRecord;
    if count > 0 {
      ParsedRecords(input, count - 1);
      ParsedRecord(ParseRecords(input, count - 1).rest);
    }
  }

  lemma {:induction false} ParsedRecord(input: Bytes)
    requires ParseRecord(input).Parsed?
    ensures RepresentableRecord(ParseRecord(input).value) && ReadableRecord(ParseRecord(input).value)
  {
    hide ParseSigned;
    ParsedSigned(input, 8);
    var c := ParseString(ParseBool(ParseSigned(input, 8).rest).rest);
    ParsedSigned(ParseString(c.rest).rest, 4);
  }

  /** Metadata that was read, with so many memories to follow, is within the limits. */
  ghost predicate WithinLimits(m: Metadata) {
    && m.0.memories == [] && Representable(m.0) && m.1 <= MAX_MEMORY_RECORDS
    && |m.0.sessionId| <= MAX_STRING_BYTES && |m.0.system| <= MAX_STRING_BYTES && |m.0.boundaries| <= MAX_VECTOR_ITEMS
  }

  lemma {:induction false} ParsedTail(input: Bytes, store: SessionStore)
    requires WithinLimits((store, 0)) && ParseTail(input, store).Parsed?
    ensures WithinLimits(ParseTail(input, store).value)
  {
    hide ParseSigned, ParseI64s, IsValidSessionId;
    ParsedSigned(input, 8);
    var size := ParseUnsigned(ParseSigned(input, 8).rest, 8);
    ParsedI64s(size.rest, size.value);
  }

  lemma ParsedU32(input: Bytes)
    requires ParseUnsigned(input, 4).Parsed?
    ensures 0 <= ParseUnsigned(input, 4).value < 0x1_0000_0000
  {
    UnsignedIsBounded(input[..4]);
    Pow256Values();
  }

  lemma {:induction false} ParsedMetadata(input: Bytes)
    requires ParseMetadata(input).Parsed?
    ensures WithinLimits(ParseMetadata(input).value)
  {
    hide ParseTail, ParseUnsigned, ParseString, ParseBool;
    var version := ParseUnsigned(ParseUnsigned(input, 4).rest, 4);
    var schema := ParseUnsigned(version.rest, 4);
    ParsedU32(version.rest);
    var id := ParseString(schema.rest);
    StringIsWritten(schema.rest);
    var system := ParseString(id.rest);
    StringIsWritten(id.rest);
    var store := FreshStore(id.value, false).(schemaVersion := schema.value, system := system.value);
    var locked := ParseBool(system.rest);
    if version.value >= 2 {
      var kvPersist := ParseBool(locked.rest);
      ParsedTail(kvPersist.rest, store.(systemLocked := locked.value, kvPersist := kvPersist.value));
    } else {
      ParsedTail(locked.rest, store.(systemLocked := locked.value));
    }
  }

  /** The other half of the round trip: whatever loads could have been saved, and would load again. */
  lemma {:induction false} LoadedIsReadable(files: SessionDir, name: Bytes)
    requires Load(files, name).Some?
    ensures Representable(Load(files, name).value) && Readable(Load(files, name).value)
  {
    hide ParseMetadata, ParseRecords, ParseUnsigned, ValidStore, RepresentableRecord, ReadableRecord;
    ParsedMetadata(files.metadata.value);
    var count := ParseMetadata(files.metadata.value).value.1;
    if count > 0 {
      ParsedRecords(ParseUnsigned(ParseUnsigned(files.memories.value, 4).rest, 4).rest, count);
    }
  }

  // ----- What is read was written so -----

  /** A record with the byte that was read as its flag. */
  function RecordBytes(m: MemoryRecord, flag: byte): Bytes {
    I64(m.idx) + ([flag] + (String(m.id) + (String(m.text) + I32(m.estimated))))
  }

  lemma {:induction false} RecordIsWritten(input: Bytes)
    requires ParseRecord(input).Parsed?
    ensures var p := ParseRecord(input);
            exists flag: byte :: (flag != 0 <==> p.value.hasId) && input == RecordBytes(p.value, flag) + p.rest
  {
    hide ParseSigned, ParseBool, ParseString, LittleEndian, String;
    var a := ParseSigned(input, 8);
    var b := ParseBool(a.rest);
    var c := ParseString(b.rest);
    var d := ParseString(c.rest);
    var p := ParseRecord(input);
    var m := p.value;
    SignedIsWritten(input, 8);
    BoolIsWritten(a.rest);
    StringIsWritten(b.rest);
    StringIsWritten(c.rest);
    SignedIsWritten(d.rest, 4);
    var flag: byte :| (flag != 0 <==> m.hasId) && a.rest == [flag] + b.rest;
    var texts := String(m.text) + I32(m.estimated);
    ConcatAssociates(String(m.text), I32(m.estimated), p.rest);
    ConcatAssociates(String(m.id), texts, p.rest);
    ConcatAssociates([flag], String(m.id) + texts, p.rest);
    ConcatAssociates(I64(m.idx), [flag] + (String(m.id) + texts), p.rest);
    assert input == RecordBytes(m, flag) + p.rest;
  }

  /** The records one after the other, each with the byte that was read as its flag. */
  function RecordsBytes(memories: seq<MemoryRecord>, flags: seq<byte>): Bytes
    requires |flags| == |memories|
  {
    if memories == [] then [] else RecordsBytes(Init(memories), Init(flags)) + RecordBytes(Last(memories), Last(flags))
  }

  ghost predicate FlagsOf(memories: seq<MemoryRecord>, flags: seq<byte>) {
    |flags| == |memories| && forall i :: 0 <= i < |flags| ==> (flags[i] != 0 <==> memories[i].hasId)
  }

  lemma OneMoreRecordsBytes(memories: seq<MemoryRecord>, flags: seq<byte>, m: MemoryRecord, flag: byte)
    requires FlagsOf(memories, flags) && (flag != 0 <==> m.hasId)
    ensures FlagsOf(memories + [m], flags + [flag])
    ensures RecordsBytes(memories + [m], flags + [flag]) == RecordsBytes(memories, flags) + RecordBytes(m, flag)
  {
    hide RecordBytes;
    assert Init(memories + [m]) == memories && Init(flags + [flag]) == flags;
  }

  lemma {:induction false} RecordsAreWritten(input: Bytes, count: nat)
    requires ParseRecords(input, count).Parsed?
    ensures var p := ParseRecords(input, count);
            |p.value| == count && exists flags :: FlagsOf(p.value, flags) && input == RecordsBytes(p.value, flags) + p.rest
  {
    hide ParseRecord, RecordBytes;
    if count == 0 {
      assert FlagsOf([], []) && RecordsBytes([], []) + input == input;
    } else {
      RecordsAreWritten(input, count - 1);
      var front := ParseRecords(input, count - 1);
      RecordIsWritten(front.rest);
      var last := ParseRecord(front.rest);
      var p := ParseRecords(input, count);
      assert p == Parsed(front.value + [last.value], last.rest);
      hide *;
      var flags :| FlagsOf(front.value, flags) && input == RecordsBytes(front.value, flags) + front.rest;
      var flag: byte :| (flag != 0 <==> last.value.hasId) && front.rest == RecordBytes(last.value, flag) + last.rest;
      OneMoreRecordsBytes(front.value, flags, last.value, flag);
      ConcatAssociates(RecordsBytes(front.value, flags), RecordBytes(last.value, flag), last.rest);
      assert FlagsOf(p.value, flags + [flag]) && input == RecordsBytes(p.value, flags + [flag]) + p.rest;
    }
  }

  /** The reader of memories takes nothing but the magic number, the version and so many records. */
  lemma {:induction false} MemoriesAreWritten(input: Bytes, count: nat)
    requires ParseMemories(input, count).Parsed?
    ensures var p := ParseMemories(input, count);
            && |p.value| == count
            && exists flags :: FlagsOf(p.value, flags) &&
                 input == U32(MEMORIES_MAGIC) + (U32(MEMORIES_VERSION) + (RecordsBytes(p.value, flags) + p.rest))
  {
    hide ParseUnsigned, ParseRecords, LittleEndian, RecordsBytes, FlagsOf;
    var a := ParseUnsigned(input, 4);
    var b := ParseUnsigned(a.rest, 4);
    UnsignedIsWritten(input, 4);
    UnsignedIsWritten(a.rest, 4);
    RecordsAreWritten(b.rest, count);
  }

  /** What follows the flags. */
  function TailBytes(store: SessionStore, count: nat): Bytes {
    I64(store.nextIdx) + (I64Vector(store.boundaries) + U64(count))
  }

  lemma {:induction false} TailIsWritten(input: Bytes, base: SessionStore)
    requires ParseTail(input, base).Parsed?
    ensures var p := ParseTail(input, base);
            && input == TailBytes(p.value.0, p.value.1) + p.rest && p.value.1 <= MAX_MEMORY_RECORDS
            && p.value.0 == base.(nextIdx := p.value.0.nextIdx, boundaries := p.value.0.boundaries)
  {
    hide ParseSigned, ParseI64Vector, ParseUnsigned, LittleEndian, I64Vector;
    var a := ParseSigned(input, 8);
    var b := ParseI64Vector(a.rest);
    var c := ParseUnsigned(b.rest, 8);
    SignedIsWritten(input, 8);
    I64VectorIsWritten(a.rest);
    UnsignedIsWritten(b.rest, 8);
    ConcatAssociates(I64Vector(b.value), U64(c.value), c.rest);
    ConcatAssociates(I64(a.value), I64Vector(b.value) + U64(c.value), c.rest);
  }

  /** The metadata with the bytes that were read as its flags; version 1 has only the first. */
  function MetadataBytes(store: SessionStore, version: int, locked: byte, persist: byte, tail: Bytes): Bytes {
    U32(STORE_MAGIC) + (U32(version) + (U32(store.schemaVersion) + (String(store.sessionId) + (String(store.system) +
      ([locked] + ((if version >= 2 then [persist] else []) + tail))))))
  }

  /** The reader of metadata takes nothing but what the writer writes, or wrote as version 1, up to the
      bytes that stand for true. */
  lemma {:induction false} MetadataIsWritten(input: Bytes)
    requires ParseMetadata(input).Parsed?
    ensures var p := ParseMetadata(input);
            exists version: int, locked: byte, persist: byte ::
              && (version == 1 || version == STORE_VERSION)
              && (locked != 0 <==> p.value.0.systemLocked) && (p.value.0.kvPersist <==> version >= 2 && persist != 0)
              && input == MetadataBytes(p.value.0, version, locked, persist, TailBytes(p.value.0, p.value.1) + p.rest)
  {
    hide ParseUnsigned, ParseString, ParseTail, ParseBool, LittleEndian, String, TailBytes;
    var a := ParseUnsigned(input, 4);
    var b := ParseUnsigned(a.rest, 4);
    var c := ParseUnsigned(b.rest, 4);
    var d := ParseString(c.rest);
    var e := ParseString(d.rest);
    var f := ParseBool(e.rest);
    UnsignedIsWritten(input, 4);
    UnsignedIsWritten(a.rest, 4);
    UnsignedIsWritten(b.rest, 4);
    StringIsWritten(c.rest);
    StringIsWritten(d.rest);
    BoolIsWritten(e.rest);
    var locked: byte :| (locked != 0 <==> f.value) && e.rest == [locked] + f.rest;
    var base := FreshStore(d.value, false).(schemaVersion := c.value, system := e.value, systemLocked := f.value);
    var p := ParseMetadata(input);
    if b.value >= 2 {
      var g := ParseBool(f.rest);
      BoolIsWritten(f.rest);
      var persist: byte :| (persist != 0 <==> g.value) && f.rest == [persist] + g.rest;
      TailIsWritten(g.rest, base.(kvPersist := g.value));
      assert input == MetadataBytes(p.value.0, b.value, locked, persist, TailBytes(p.value.0, p.value.1) + p.rest);
    } else {
      TailIsWritten(f.rest, base);
      assert [] + f.rest == f.rest;
      assert input == MetadataBytes(p.value.0, b.value, locked, 0, TailBytes(p.value.0, p.value.1) + p.rest);
    }
  }

  // ----- The bytes of one session -----

  function Small(): SessionStore {
    SessionStore(7, [97], [98], true, false, 3, [MemoryRecord(4, true, [99], [100], 5)], [2])
  }

  /** The end of the metadata file of a small session, field by field. */
  lemma SmallTail()
    ensures EncodeTail(Small()) ==
            [3, 0, 0, 0, 0, 0, 0, 0] + (([1, 0, 0, 0, 0, 0, 0, 0] + ([2, 0, 0, 0, 0, 0, 0, 0] + [])) +
              [1, 0, 0, 0, 0, 0, 0, 0])
  {
    hide LittleEndian;
    EightBytes(1);
    EightBytes(2);
    EightBytes(3);
    assert [2][1..] == [];
  }

  /** The whole metadata file. */
  lemma SmallMetadata()
    ensures EncodeMetadata(Small()) ==
            [49, 83, 77, 65] + ([2, 0, 0, 0] + ([7, 0, 0, 0] +
              ([1, 0, 0, 0, 0, 0, 0, 0, 97] + ([1, 0, 0, 0, 0, 0, 0, 0, 98] + ([1] + ([0] + EncodeTail(Small())))))))
  {
    hide LittleEndian, Bool, String, EncodeTail;
    Flags();
    FourBytes(49, 83, 77, 65);
    FourBytes(2, 0, 0, 0);
    FourBytes(7, 0, 0, 0);
    OneByteString(97);
    OneByteString(98);
  }

  /** The file of a new session: of schema 2, nothing locked, the next index 0. */
  lemma FreshMetadata()
    ensures EncodeMetadata(FreshStore([97], true)) ==
            [49, 83, 77, 65] + ([2, 0, 0, 0] + ([2, 0, 0, 0] +
              ([1, 0, 0, 0, 0, 0, 0, 0, 97] + ([0, 0, 0, 0, 0, 0, 0, 0] + ([0] + ([1] + ([0, 0, 0, 0, 0, 0, 0, 0] +
              ([0, 0, 0, 0, 0, 0, 0, 0] + [0, 0, 0, 0, 0, 0, 0, 0]))))))))
  {
    EightBytes(0);
    assert I64s([]) == [];
    hide LittleEndian, Bool, I64s;
    Flags();
    FourBytes(49, 83, 77, 65);
    FourBytes(2, 0, 0, 0);
    OneByteString(97);
    assert String([]) == [0, 0, 0, 0, 0, 0, 0, 0];
    assert I64Vector([]) == [0, 0, 0, 0, 0, 0, 0, 0];
    hide String, I64Vector;
  }

  /** Its memories file. */
  lemma SmallMemories()
    ensures EncodeMemories(Small()) ==
            [49, 77, 77, 65] + ([1, 0, 0, 0] +
              ([4, 0, 0, 0, 0, 0, 0, 0] + ([1] + ([1, 0, 0, 0, 0, 0, 0, 0, 99] + ([1, 0, 0, 0, 0, 0, 0, 0, 100] +
              [5, 0, 0, 0])))))
  {
    hide LittleEndian, Bool, String;
    Flags();
    FourBytes(49, 77, 77, 65);
    FourBytes(1, 0, 0, 0);
    FourBytes(5, 0, 0, 0);
    OneByteString(99);
    OneByteString(100);
    EightBytes(4);
    assert Init(Small().memories) == [];
  }
}
