/** The manifest of a session's cached segments: its file format (kv_cache_persistence.cpp) and
    the plan that is restored from it (segment_planner.cpp). */
module CacheManifest {
  import opened Basics
  import opened Persistent
  import opened BinaryIO

  const MANIFEST_MAGIC := 0x414d4331
  const MANIFEST_VERSION := 1
  const MAX_MANIFEST_SEGMENTS := 1000000

  datatype ModelKey = ModelKey(
    value: Bytes, vendor: Bytes, modelDesc: Bytes, modelName: Bytes,
    backend: Bytes, templateHash: Bytes, kvTypeK: Bytes, kvTypeV: Bytes)
  {
    function Fields(): seq<Bytes> {
      [value, vendor, modelDesc, modelName, backend, templateHash, kvTypeK, kvTypeV]
    }
  }

  datatype SegmentRecord = SegmentRecord(
    id: int, first: int, last: int, hash: Bytes, kvFile: Bytes, searchFile: Bytes,
    tokens: int, bytes: int, createdAt: int, accessedAt: int)

  datatype Manifest = Manifest(schemaVersion: int, model: ModelKey, session: Bytes, segments: seq<SegmentRecord>)

  // ----- Format -----

  function EncodeStrings(strings: seq<Bytes>): Bytes {
    if strings == [] then [] else EncodeStrings(Init(strings)) + String(Last(strings))
  }

  function EncodeTimes(r: SegmentRecord): Bytes {
    I32(r.tokens) + (I64(r.bytes) + (I64(r.createdAt) + I64(r.accessedAt)))
  }

  function EncodeSegment(r: SegmentRecord): Bytes {
    I32(r.id) + (I64(r.first) + (I64(r.last) + (EncodeStrings([r.hash, r.kvFile, r.searchFile]) + EncodeTimes(r))))
  }

  function EncodeSegments(records: seq<SegmentRecord>): Bytes {
    if records == [] then [] else EncodeSegments(Init(records)) + EncodeSegment(Last(records))
  }

  function EncodeManifest(m: Manifest): Bytes {
    U32(MANIFEST_MAGIC) + (U32(MANIFEST_VERSION) + (U32(m.schemaVersion) +
      (EncodeStrings(m.model.Fields() + [m.session]) + (U64(|m.segments|) + EncodeSegments(m.segments)))))
  }

  function ParseStrings(input: Bytes, count: nat): (r: Parsed<seq<Bytes>>)
    ensures r.Parsed? ==> |r.value| == count
  {
    if count == 0 then Parsed([], input)
    else
      var (strings, a) :- ParseStrings(input, count - 1);
      var (s, b) :- ParseString(a);
      Parsed(strings + [s], b)
  }

  function ParseSegment(input: Bytes): Parsed<SegmentRecord> {
    var (id, a) :- ParseSigned(input, 4);
    var (first, b) :- ParseSigned(a, 8);
    var (last, c) :- ParseSigned(b, 8);
    var (names, d) :- ParseStrings(c, 3);
    var (tokens, e) :- ParseSigned(d, 4);
    var (bytes, f) :- ParseSigned(e, 8);
    var (created, g) :- ParseSigned(f, 8);
    var (accessed, h) :- ParseSigned(g, 8);
    Parsed(SegmentRecord(id, first, last, names[0], names[1], names[2], tokens, bytes, created, accessed), h)
  }

  function ParseSegments(input: Bytes, count: nat): Parsed<seq<SegmentRecord>> {
    if count == 0 then Parsed([], input)
    else
      var (records, a) :- ParseSegments(input, count - 1);
      var (r, b) :- ParseSegment(a);
      Parsed(records + [r], b)
  }

  function ParseManifest(input: Bytes): Parsed<Manifest> {
    var (magic, a) :- ParseUnsigned(input, 4);
    var (version, b) :- ParseUnsigned(a, 4);
    if magic != MANIFEST_MAGIC || version != MANIFEST_VERSION then Rejected
    else
      var (schema, c) :- ParseUnsigned(b, 4);
      var (names, d) :- ParseStrings(c, 9);
      var (count, e) :- ParseUnsigned(d, 8);
      if count > MAX_MANIFEST_SEGMENTS then Rejected
      else
        var (records, f) :- ParseSegments(e, count);
        Parsed(Manifest(schema,
                        ModelKey(names[0], names[1], names[2], names[3], names[4], names[5], names[6], names[7]),
                        names[8], records), f)
  }

  // ----- Round trip -----

  ghost predicate RepresentableSegment(r: SegmentRecord) {
    && IsInt32(r.id) && IsInt64(r.first) && IsInt64(r.last)
    && |r.hash| <= UINT64_MAX && |r.kvFile| <= UINT64_MAX && |r.searchFile| <= UINT64_MAX
    && IsInt32(r.tokens) && IsInt64(r.bytes) && IsInt64(r.createdAt) && IsInt64(r.accessedAt)
  }

  ghost predicate RepresentableManifest(m: Manifest) {
    && 0 <= m.schemaVersion < 0x1_0000_0000
    && (forall s | s in m.model.Fields() + [m.session] :: |s| <= UINT64_MAX)
    && |m.segments| <= UINT64_MAX && (forall r | r in m.segments :: RepresentableSegment(r))
  }

  ghost predicate ShortStrings(strings: seq<Bytes>) {
    forall s | s in strings :: |s| <= MAX_STRING_BYTES
  }

  ghost predicate ReadableSegment(r: SegmentRecord) {
    ShortStrings([r.hash, r.kvFile, r.searchFile])
  }

  ghost predicate ReadableManifest(m: Manifest) {
    && ShortStrings(m.model.Fields() + [m.session])
    && |m.segments| <= MAX_MANIFEST_SEGMENTS && (forall r | r in m.segments :: ReadableSegment(r))
  }

  lemma {:induction false} StringsReadBack(strings: seq<Bytes>, rest: Bytes)
    requires forall s | s in strings :: |s| <= UINT64_MAX
    ensures ParseStrings(EncodeStrings(strings) + rest, |strings|) ==
            if ShortStrings(strings) then Parsed(strings, rest) else Rejected
    decreases |strings|
  {
    hide ParseString, String;
    if strings == [] {
      assert EncodeStrings(strings) + rest == rest;
    } else {
      var front, last := Init(strings), Last(strings);
      assert strings == front + [last];
      ConcatAssociates(EncodeStrings(front), String(last), rest);
      StringsReadBack(front, String(last) + rest);
      StringReadsBack(last, rest);
    }
  }

  lemma {:induction false} TimesReadBack(r: SegmentRecord, rest: Bytes)
    requires RepresentableSegment(r)
    ensures ParseSigned(EncodeTimes(r) + rest, 4) == Parsed(r.tokens, I64(r.bytes) + (I64(r.createdAt) + (I64(r.accessedAt) + rest)))
    ensures ParseSigned(I64(r.bytes) + (I64(r.createdAt) + (I64(r.accessedAt) + rest)), 8)
            == Parsed(r.bytes, I64(r.createdAt) + (I64(r.accessedAt) + rest))
    ensures ParseSigned(I64(r.createdAt) + (I64(r.accessedAt) + rest), 8) == Parsed(r.createdAt, I64(r.accessedAt) + rest)
    ensures ParseSigned(I64(r.accessedAt) + rest, 8) == Parsed(r.accessedAt, rest)
  {
    hide ParseSigned, I32, I64;
    var c := I64(r.accessedAt);
    var b := I64(r.createdAt) + c;
    var a := I64(r.bytes) + b;
    ConcatAssociates(I32(r.tokens), a, rest);
    ConcatAssociates(I64(r.bytes), b, rest);
    ConcatAssociates(I64(r.createdAt), c, rest);
    I32ReadsBack(r.tokens, a + rest);
    I64ReadsBack(r.bytes, b + rest);
    I64ReadsBack(r.createdAt, c + rest);
    I64ReadsBack(r.accessedAt, rest);
  }

  lemma {:induction false} SegmentReadsBack(r: SegmentRecord, rest: Bytes)
    requires RepresentableSegment(r)
    ensures ParseSegment(EncodeSegment(r) + rest) == if ReadableSegment(r) then Parsed(r, rest) else Rejected
  {
    hide ParseSigned, ParseStrings, I32, I64, EncodeStrings, EncodeTimes, ShortStrings;
    var times := EncodeTimes(r);
    var c := EncodeStrings([r.hash, r.kvFile, r.searchFile]) + times;
    var b := I64(r.last) + c;
    var a := I64(r.first) + b;
    ConcatAssociates(I32(r.id), a, rest);
    ConcatAssociates(I64(r.first), b, rest);
    ConcatAssociates(I64(r.last), c, rest);
    ConcatAssociates(EncodeStrings([r.hash, r.kvFile, r.searchFile]), times, rest);
    I32ReadsBack(r.id, a + rest);
    I64ReadsBack(r.first, b + rest);
    I64ReadsBack(r.last, c + rest);
    StringsReadBack([r.hash, r.kvFile, r.searchFile], times + rest);
    TimesReadBack(r, rest);
  }

  lemma {:induction false} SegmentsReadBack(records: seq<SegmentRecord>, rest: Bytes)
    requires forall r | r in records :: RepresentableSegment(r)
    ensures ParseSegments(EncodeSegments(records) + rest, |records|) ==
            if forall r | r in records :: ReadableSegment(r) then Parsed(records, rest) else Rejected
    decreases |records|
  {
    hide ParseSegment, EncodeSegment, ReadableSegment, RepresentableSegment;
    if records == [] {
      assert EncodeSegments(records) + rest == rest;
    } else {
      var front, last := Init(records), Last(records);
      assert records == front + [last];
      ConcatAssociates(EncodeSegments(front), EncodeSegment(last), rest);
      SegmentsReadBack(front, EncodeSegment(last) + rest);
      SegmentReadsBack(last, rest);
    }
  }

  /** A written manifest reads back as it was, exactly when it is within what the reader takes. */
  lemma {:induction false} ManifestReadsBack(m: Manifest)
    requires RepresentableManifest(m)
    ensures ParseManifest(EncodeManifest(m)) == if ReadableManifest(m) then Parsed(m, []) else Rejected
  {
    hide ParseUnsigned, ParseStrings, ParseSegments, U32, U64, EncodeStrings, EncodeSegments, ShortStrings,
         ReadableSegment, RepresentableSegment;
    var names := m.model.Fields() + [m.session];
    var records := EncodeSegments(m.segments);
    var d := U64(|m.segments|) + records;
    var c := EncodeStrings(names) + d;
    var b := U32(m.schemaVersion) + c;
    U32ReadsBack(MANIFEST_MAGIC, U32(MANIFEST_VERSION) + b);
    U32ReadsBack(MANIFEST_VERSION, b);
    U32ReadsBack(m.schemaVersion, c);
    StringsReadBack(names, d);
    U64ReadsBack(|m.segments|, records);
    assert records + [] == records;
    SegmentsReadBack(m.segments, []);
  }

  // ----- Writing and reading step by step -----

  method WriteStrings(out: OutputStream, strings: seq<Bytes>)
    modifies out
    ensures out.written == old(out.written) + EncodeStrings(strings)
  {
    hide String;
    ghost var start := out.written;
    for i := 0 to |strings|
      invariant out.written == start + EncodeStrings(strings[..i])
    {
      out.WriteString(strings[i]);
      assert Init(strings[..i + 1]) == strings[..i];
      ConcatAssociates(start, EncodeStrings(strings[..i]), String(strings[i]));
    }
    assert strings[..|strings|] == strings;
  }

  method WriteSegment(out: OutputStream, r: SegmentRecord)
    modifies out
    ensures out.written == old(out.written) + EncodeSegment(r)
  {
    hide LittleEndian, EncodeStrings;
    ghost var start := out.written;
    out.WritePod(r.id, 4);
    out.WritePod(r.first, 8);
    out.WritePod(r.last, 8);
    WriteStrings(out, [r.hash, r.kvFile, r.searchFile]);
    ghost var named := out.written;
    out.WritePod(r.tokens, 4);
    out.WritePod(r.bytes, 8);
    out.WritePod(r.createdAt, 8);
    out.WritePod(r.accessedAt, 8);
    SegmentIsFields(start, named, r);
  }

  lemma {:induction false} SegmentIsFields(start: Bytes, named: Bytes, r: SegmentRecord)
    requires named == (((start + LittleEndian(r.id, 4)) + LittleEndian(r.first, 8)) + LittleEndian(r.last, 8))
                      + EncodeStrings([r.hash, r.kvFile, r.searchFile])
    ensures (((named + LittleEndian(r.tokens, 4)) + LittleEndian(r.bytes, 8)) + LittleEndian(r.createdAt, 8)) + LittleEndian(r.accessedAt, 8)
            == start + EncodeSegment(r)
  {
    hide LittleEndian, EncodeStrings;
    var a, b, c := LittleEndian(r.tokens, 4), LittleEndian(r.bytes, 8), LittleEndian(r.createdAt, 8);
    var d, names := LittleEndian(r.accessedAt, 8), EncodeStrings([r.hash, r.kvFile, r.searchFile]);
    var x, y, z := LittleEndian(r.id, 4), LittleEndian(r.first, 8), LittleEndian(r.last, 8);
    ConcatAssociates((named + a) + b, c, d);
    ConcatAssociates(named + a, b, c + d);
    ConcatAssociates(named, a, b + (c + d));
    ConcatAssociates(((start + x) + y) + z, names, EncodeTimes(r));
    ConcatAssociates((start + x) + y, z, names + EncodeTimes(r));
    ConcatAssociates(start + x, y, z + (names + EncodeTimes(r)));
    ConcatAssociates(start, x, y + (z + (names + EncodeTimes(r))));
  }

  /** The content of the manifest file. */
  method WriteManifest(m: Manifest) returns (content: Bytes)
    ensures content == EncodeManifest(m)
  {
    hide LittleEndian, EncodeStrings, EncodeSegment;
    var out := new OutputStream();
    out.WritePod(MANIFEST_MAGIC, 4);
    out.WritePod(MANIFEST_VERSION, 4);
    out.WritePod(m.schemaVersion, 4);
    WriteStrings(out, m.model.Fields() + [m.session]);
    out.WritePod(|m.segments|, 8);
    ghost var header := out.written;
    for i := 0 to |m.segments|
      invariant out.written == header + EncodeSegments(m.segments[..i])
    {
      WriteSegment(out, m.segments[i]);
      assert Init(m.segments[..i + 1]) == m.segments[..i];
      ConcatAssociates(header, EncodeSegments(m.segments[..i]), EncodeSegment(m.segments[i]));
    }
    assert m.segments[..|m.segments|] == m.segments;
    content := out.written;
    HeaderIsFields(m);
  }

  lemma {:induction false} HeaderIsFields(m: Manifest)
    ensures ((((([] + LittleEndian(MANIFEST_MAGIC, 4)) + LittleEndian(MANIFEST_VERSION, 4)) + LittleEndian(m.schemaVersion, 4))
              + EncodeStrings(m.model.Fields() + [m.session])) + LittleEndian(|m.segments|, 8)) + EncodeSegments(m.segments)
            == EncodeManifest(m)
  {
    hide LittleEndian, EncodeStrings, EncodeSegments;
    var a, b, c := LittleEndian(MANIFEST_MAGIC, 4), LittleEndian(MANIFEST_VERSION, 4), LittleEndian(m.schemaVersion, 4);
    var d, e, f := EncodeStrings(m.model.Fields() + [m.session]), LittleEndian(|m.segments|, 8), EncodeSegments(m.segments);
    assert [] + a == a;
    ConcatAssociates(((a + b) + c) + d, e, f);
    ConcatAssociates((a + b) + c, d, e + f);
    ConcatAssociates(a + b, c, d + (e + f));
    ConcatAssociates(a, b, c + (d + (e + f)));
  }

  lemma {:induction false} ParseStringsStops(input: Bytes, count: nat, total: nat)
    requires count <= total && ParseStrings(input, count).Rejected?
    ensures ParseStrings(input, total).Rejected?
  {
    hide ParseString;
    if count < total {
      ParseStringsStops(input, count, total - 1);
    }
  }

  method ReadStrings(input: InputStream, count: nat) returns (r: Parsed<seq<Bytes>>)
    modifies input
    ensures r == ParseStrings(old(input.rest), count)
    ensures r.Parsed? ==> input.rest == r.rest
  {
    hide ParseString;
    ghost var start := input.rest;
    var strings := [];
    for i := 0 to count
      invariant Parsed(strings, input.rest) == ParseStrings(start, i)
    {
      var s := input.ReadString();
      if s.Rejected? {
        ParseStringsStops(start, i + 1, count);
        return Rejected;
      }
      strings := strings + [s.value];
    }
    r := Parsed(strings, input.rest);
  }

  lemma {:induction false} ParseSegmentsStops(input: Bytes, count: nat, total: nat)
    requires count <= total && ParseSegments(input, count).Rejected?
    ensures ParseSegments(input, total).Rejected?
  {
    hide ParseSegment;
    if count < total {
      ParseSegmentsStops(input, count, total - 1);
    }
  }

  method ReadSegment(input: InputStream) returns (r: Parsed<SegmentRecord>)
    modifies input
    ensures r == ParseSegment(old(input.rest))
    ensures r.Parsed? ==> input.rest == r.rest
  {
    hide ParseSigned, ParseStrings;
    var id :- input.ReadSigned(4);
    var first :- input.ReadSigned(8);
    var last :- input.ReadSigned(8);
    var names :- ReadStrings(input, 3);
    var tokens :- input.ReadSigned(4);
    var bytes :- input.ReadSigned(8);
    var created :- input.ReadSigned(8);
    var accessed :- input.ReadSigned(8);
    var n := names.0;
    r := Parsed(SegmentRecord(id.0, first.0, last.0, n[0], n[1], n[2], tokens.0, bytes.0, created.0, accessed.0), input.rest);
  }

  method ReadManifest(content: Bytes) returns (r: Parsed<Manifest>)
    ensures r == ParseManifest(content)
  {
    hide ParseUnsigned, ParseStrings, ParseSegment;
    var input := new InputStream(content);
    var magic :- input.ReadUnsigned(4);
    var version :- input.ReadUnsigned(4);
    if magic.0 != MANIFEST_MAGIC || version.0 != MANIFEST_VERSION {
      return Rejected;
    }
    var schema :- input.ReadUnsigned(4);
    var names :- ReadStrings(input, 9);
    var count :- input.ReadUnsigned(8);
    var n := names.0;
    if count.0 > MAX_MANIFEST_SEGMENTS {
      return Rejected;
    }
    var records := [];
    for i := 0 to count.0
      invariant Parsed(records, input.rest) == ParseSegments(count.1, i)
    {
      var record := ReadSegment(input);
      if record.Rejected? {
        ParseSegmentsStops(count.1, i + 1, count.0);
        return Rejected;
      }
      records := records + [record.value];
    }
    r := Parsed(Manifest(schema.0, ModelKey(n[0], n[1], n[2], n[3], n[4], n[5], n[6], n[7]), n[8], records), input.rest);
  }

  // ----- What is read was written so -----

  lemma {:induction false} StringsAreWritten(input: Bytes, count: nat)
    requires ParseStrings(input, count).Parsed?
    ensures var p := ParseStrings(input, count); input == EncodeStrings(p.value) + p.rest
  {
    hide String, ParseString;
    if count > 0 {
      StringsAreWritten(input, count - 1);
      var front := ParseStrings(input, count - 1);
      StringIsWritten(front.rest);
      var last := ParseString(front.rest);
      assert Init(front.value + [last.value]) == front.value;
      ConcatAssociates(EncodeStrings(front.value), String(last.value), last.rest);
    } else {
      assert EncodeStrings([]) + input == input;
    }
  }

  lemma {:induction false} TimesAreWritten(a: Bytes, b: Bytes, c: Bytes, d: Bytes, rest: Bytes, tokens: int, bytes: int, created: int, accessed: int)
    requires ParseSigned(a, 4) == Parsed(tokens, b) && ParseSigned(b, 8) == Parsed(bytes, c)
    requires ParseSigned(c, 8) == Parsed(created, d) && ParseSigned(d, 8) == Parsed(accessed, rest)
    ensures a == (I32(tokens) + (I64(bytes) + (I64(created) + I64(accessed)))) + rest
  {
    hide ParseSigned, LittleEndian;
    SignedIsWritten(a, 4);
    SignedIsWritten(b, 8);
    SignedIsWritten(c, 8);
    SignedIsWritten(d, 8);
    ConcatAssociates(I64(created), I64(accessed), rest);
    ConcatAssociates(I64(bytes), I64(created) + I64(accessed), rest);
    ConcatAssociates(I32(tokens), I64(bytes) + (I64(created) + I64(accessed)), rest);
  }

  lemma {:induction false} SegmentIsWritten(input: Bytes)
    requires ParseSegment(input).Parsed?
    ensures var p := ParseSegment(input); input == EncodeSegment(p.value) + p.rest
  {
    hide ParseSigned, ParseStrings, EncodeStrings, LittleEndian;
    var a := ParseSigned(input, 4);
    var b := ParseSigned(a.rest, 8);
    var c := ParseSigned(b.rest, 8);
    var names := ParseStrings(c.rest, 3);
    var p := ParseSegment(input);
    var r := p.value;
    SignedIsWritten(input, 4);
    SignedIsWritten(a.rest, 8);
    SignedIsWritten(b.rest, 8);
    StringsAreWritten(c.rest, 3);
    assert names.value == [r.hash, r.kvFile, r.searchFile];
    var e := ParseSigned(names.rest, 4).rest;
    var f := ParseSigned(e, 8).rest;
    TimesAreWritten(names.rest, e, f, ParseSigned(f, 8).rest, p.rest, r.tokens, r.bytes, r.createdAt, r.accessedAt);
    var named := EncodeStrings(names.value);
    ConcatAssociates(named, EncodeTimes(r), p.rest);
    ConcatAssociates(I64(r.last), named + EncodeTimes(r), p.rest);
    ConcatAssociates(I64(r.first), I64(r.last) + (named + EncodeTimes(r)), p.rest);
    ConcatAssociates(I32(r.id), I64(r.first) + (I64(r.last) + (named + EncodeTimes(r))), p.rest);
  }

  lemma {:induction false} SegmentsAreWritten(input: Bytes, count: nat)
    requires ParseSegments(input, count).Parsed?
    ensures var p := ParseSegments(input, count); input == EncodeSegments(p.value) + p.rest && |p.value| == count
  {
    hide ParseSegment, EncodeSegment;
    if count > 0 {
      SegmentsAreWritten(input, count - 1);
      var front := ParseSegments(input, count - 1);
      SegmentIsWritten(front.rest);
      var last := ParseSegment(front.rest);
      assert Init(front.value + [last.value]) == front.value;
      ConcatAssociates(EncodeSegments(front.value), EncodeSegment(last.value), last.rest);
    } else {
      assert EncodeSegments([]) + input == input;
    }
  }

  /** The reader takes nothing but what the writer writes: with the magic number, the version and every
      field in its place. What follows the last record is not looked at. */
  lemma {:induction false} ManifestIsWritten(input: Bytes)
    requires ParseManifest(input).Parsed?
    ensures var p := ParseManifest(input); input == EncodeManifest(p.value) + p.rest && |p.value.segments| <= MAX_MANIFEST_SEGMENTS
  {
    hide ParseUnsigned, ParseStrings, ParseSegments, EncodeStrings, EncodeSegments, LittleEndian;
    var a := ParseUnsigned(input, 4);
    var b := ParseUnsigned(a.rest, 4);
    var c := ParseUnsigned(b.rest, 4);
    var names := ParseStrings(c.rest, 9);
    var count := ParseUnsigned(names.rest, 8);
    var p := ParseManifest(input);
    var m := p.value;
    UnsignedIsWritten(input, 4);
    UnsignedIsWritten(a.rest, 4);
    UnsignedIsWritten(b.rest, 4);
    StringsAreWritten(c.rest, 9);
    UnsignedIsWritten(names.rest, 8);
    SegmentsAreWritten(count.rest, count.value);
    assert names.value == m.model.Fields() + [m.session];
    var tail := U64(count.value) + EncodeSegments(m.segments);
    ConcatAssociates(U64(count.value), EncodeSegments(m.segments), p.rest);
    ConcatAssociates(EncodeStrings(names.value), tail, p.rest);
    ConcatAssociates(U32(m.schemaVersion), EncodeStrings(names.value) + tail, p.rest);
    ConcatAssociates(U32(MANIFEST_VERSION), U32(m.schemaVersion) + (EncodeStrings(names.value) + tail), p.rest);
    ConcatAssociates(U32(MANIFEST_MAGIC), U32(MANIFEST_VERSION) + (U32(m.schemaVersion) + (EncodeStrings(names.value) + tail)), p.rest);
  }

  // ----- The bytes of one manifest -----

  function Small(): Manifest {
    Manifest(7, ModelKey([97], [98], [99], [100], [101], [102], [103], [104]), [105],
             [SegmentRecord(1, 2, 3, [106], [107], [108], 4, 5, 6, 7)])
  }

  lemma OneMoreString(strings: seq<Bytes>, a: byte)
    ensures EncodeStrings(strings + [[a]]) == EncodeStrings(strings) + [1, 0, 0, 0, 0, 0, 0, 0, a]
  {
    OneByteString(a);
    assert Init(strings + [[a]]) == strings;
  }

  lemma ThreeStrings(a: byte)
    requires a <= 253
    ensures EncodeStrings([[a], [a + 1], [a + 2]]) ==
            [] + [1, 0, 0, 0, 0, 0, 0, 0, a] + [1, 0, 0, 0, 0, 0, 0, 0, a + 1] + [1, 0, 0, 0, 0, 0, 0, 0, a + 2]
  {
    assert EncodeStrings([]) == [];
    hide EncodeStrings;
    OneMoreString([], a);
    OneMoreString([[a]], a + 1);
    OneMoreString([[a], [a + 1]], a + 2);
    assert [] + [[a]] == [[a]];
    assert [[a]] + [[a + 1]] == [[a], [a + 1]];
    assert [[a], [a + 1]] + [[a + 2]] == [[a], [a + 1], [a + 2]];
  }

  lemma {:induction false} StringsInParts(a: seq<Bytes>, b: seq<Bytes>)
    ensures EncodeStrings(a + b) == EncodeStrings(a) + EncodeStrings(b)
  {
    hide String;
    if b == [] {
      assert a + b == a;
    } else {
      StringsInParts(a, Init(b));
      assert Init(a + b) == a + Init(b) && Last(a + b) == Last(b);
      ConcatAssociates(EncodeStrings(a), EncodeStrings(Init(b)), String(Last(b)));
    }
  }

  /** The strings of a manifest's head, in their order: the model's eight and the session's name. */
  lemma SmallHead()
    ensures EncodeStrings(Small().model.Fields() + [Small().session]) ==
            ([] + [1, 0, 0, 0, 0, 0, 0, 0, 97] + [1, 0, 0, 0, 0, 0, 0, 0, 98] + [1, 0, 0, 0, 0, 0, 0, 0, 99]) +
            ([] + [1, 0, 0, 0, 0, 0, 0, 0, 100] + [1, 0, 0, 0, 0, 0, 0, 0, 101] + [1, 0, 0, 0, 0, 0, 0, 0, 102]) +
            ([] + [1, 0, 0, 0, 0, 0, 0, 0, 103] + [1, 0, 0, 0, 0, 0, 0, 0, 104] + [1, 0, 0, 0, 0, 0, 0, 0, 105])
  {
    hide EncodeStrings;
    ThreeStrings(97);
    ThreeStrings(100);
    ThreeStrings(103);
    StringsInParts([[97], [98], [99]], [[100], [101], [102]]);
    StringsInParts([[97], [98], [99]] + [[100], [101], [102]], [[103], [104], [105]]);
    assert Small().model.Fields() + [Small().session] ==
           [[97], [98], [99]] + [[100], [101], [102]] + [[103], [104], [105]];
  }

  /** A record, field by field. */
  lemma SmallRecord()
    ensures EncodeSegment(Small().segments[0]) ==
            [1, 0, 0, 0] + ([2, 0, 0, 0, 0, 0, 0, 0] + ([3, 0, 0, 0, 0, 0, 0, 0] +
              (([] + [1, 0, 0, 0, 0, 0, 0, 0, 106] + [1, 0, 0, 0, 0, 0, 0, 0, 107] + [1, 0, 0, 0, 0, 0, 0, 0, 108]) +
              ([4, 0, 0, 0] + ([5, 0, 0, 0, 0, 0, 0, 0] + ([6, 0, 0, 0, 0, 0, 0, 0] + [7, 0, 0, 0, 0, 0, 0, 0]))))))
  {
    hide EncodeStrings, LittleEndian;
    ThreeStrings(106);
    FourBytes(1, 0, 0, 0);
    FourBytes(4, 0, 0, 0);
    EightBytes(2);
    EightBytes(3);
    EightBytes(5);
    EightBytes(6);
    EightBytes(7);
  }

  /** The whole file: magic, version, schema, head, number of records, record. */
  lemma SmallManifest()
    ensures EncodeManifest(Small()) ==
            [49, 67, 77, 65] + ([1, 0, 0, 0] + ([7, 0, 0, 0] +
              (EncodeStrings(Small().model.Fields() + [Small().session]) +
              ([1, 0, 0, 0, 0, 0, 0, 0] + ([] + EncodeSegment(Small().segments[0]))))))
  {
    hide EncodeStrings, LittleEndian, EncodeSegment;
    FourBytes(49, 67, 77, 65);
    FourBytes(1, 0, 0, 0);
    FourBytes(7, 0, 0, 0);
    EightBytes(1);
    assert Init(Small().segments) == [];
  }
}
