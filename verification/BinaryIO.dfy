/** The byte encodings of the session and manifest files (binary_io.cpp): fixed-width
    little-endian integers, length-prefixed strings and vectors. */
module BinaryIO {
  import opened Basics

  const MAX_STRING_BYTES := 256 * 1024 * 1024
  const MAX_VECTOR_ITEMS := 16 * 1024 * 1024

  // ----- Encodings -----

  function Pow256(width: nat): nat {
    if width == 0 then 1 else 256 * Pow256(width - 1)
  }

  /** The `width` low bytes of `x`, least significant first. */
  function LittleEndian(x: int, width: nat): (bytes: Bytes)
    ensures |bytes| == width
    decreases width
  {
    if width == 0 then [] else [x % 256] + LittleEndian(x / 256, width - 1)
  }

  /** Four bytes are written least significant first, and numbers below 256 start with their only byte. */
  lemma FourBytes(a: byte, b: byte, c: byte, d: byte)
    ensures LittleEndian(a + 0x100 * b + 0x1_0000 * c + 0x100_0000 * d, 4) == [a, b, c, d]
  {
    assert LittleEndian(d, 1) == [d];
    assert LittleEndian(c + 0x100 * d, 2) == [c, d];
    assert LittleEndian(b + 0x100 * c + 0x1_0000 * d, 3) == [b, c, d];
  }

  lemma EightBytes(a: byte)
    ensures LittleEndian(a, 8) == [a, 0, 0, 0, 0, 0, 0, 0]
  {
    assert LittleEndian(0, 3) == [0, 0, 0] && LittleEndian(0, 7) == [0, 0, 0, 0, 0, 0, 0];
  }

  function Unsigned(bytes: Bytes): nat {
    if bytes == [] then 0 else bytes[0] + 256 * Unsigned(bytes[1..])
  }

  function Signed(bytes: Bytes): int {
    if 2 * Unsigned(bytes) < Pow256(|bytes|) then Unsigned(bytes) else Unsigned(bytes) - Pow256(|bytes|)
  }

  function U8(x: int): Bytes { LittleEndian(x, 1) }
  function U32(x: int): Bytes { LittleEndian(x, 4) }
  function U64(x: int): Bytes { LittleEndian(x, 8) }
  function I32(x: int): Bytes { LittleEndian(x, 4) }
  function I64(x: int): Bytes { LittleEndian(x, 8) }
  function Bool(b: bool): Bytes { U8(if b then 1 else 0) }
  function String(s: Bytes): Bytes { U64(|s|) + s }

  function I64s(values: seq<int>): Bytes {
    if values == [] then [] else I64(values[0]) + I64s(values[1..])
  }

  function I64Vector(values: seq<int>): Bytes { U64(|values|) + I64s(values) }

  lemma Flags()
    ensures Bool(true) == [1] && Bool(false) == [0]
  {
    assert LittleEndian(1, 1) == [1] && LittleEndian(0, 1) == [0];
  }

  lemma OneByteString(a: byte)
    ensures String([a]) == [1, 0, 0, 0, 0, 0, 0, 0, a]
  {
    hide LittleEndian;
    EightBytes(1);
  }

  lemma Pow256Values()
    ensures Pow256(1) == 0x100 && Pow256(4) == 0x1_0000_0000 && Pow256(8) == 0x1_0000_0000_0000_0000
  {
    assert Pow256(2) == 0x1_0000 && Pow256(3) == 0x100_0000;
    assert Pow256(4) == 0x1_0000_0000;
    assert Pow256(5) == 0x100_0000_0000;
    assert Pow256(6) == 0x1_0000_0000_0000;
    assert Pow256(7) == 0x100_0000_0000_0000;
  }

  lemma {:induction false} UnsignedRoundTrip(x: int, width: nat)
    requires 0 <= x < Pow256(width)
    ensures Unsigned(LittleEndian(x, width)) == x
  {
    if width > 0 {
      assert LittleEndian(x, width)[1..] == LittleEndian(x / 256, width - 1);
      UnsignedRoundTrip(x / 256, width - 1);
    }
  }

  /** A negative number is stored as its two's complement. */
  lemma {:induction false} LittleEndianWraps(x: int, width: nat)
    ensures LittleEndian(x, width) == LittleEndian(x + Pow256(width), width)
    decreases width
  {
    if width > 0 {
      assert (x + Pow256(width)) % 256 == x % 256;
      assert (x + Pow256(width)) / 256 == x / 256 + Pow256(width - 1);
      LittleEndianWraps(x / 256, width - 1);
    }
  }

  lemma SignedRoundTrip(x: int, width: nat)
    requires width > 0 && -2 * x <= Pow256(width) && 2 * x < Pow256(width)
    ensures Signed(LittleEndian(x, width)) == x
  {
    if x < 0 {
      LittleEndianWraps(x, width);
      UnsignedRoundTrip(x + Pow256(width), width);
    } else {
      UnsignedRoundTrip(x, width);
    }
  }

  lemma {:induction false} I64sLength(values: seq<int>)
    ensures |I64s(values)| == 8 * |values|
  {
    if values != [] {
      I64sLength(values[1..]);
    }
  }

  // ----- Parsers: what a reader makes of the bytes that remain -----

  /** A parsed value with the bytes after it; usable with `:-`. */
  datatype Parsed<+T> = Rejected | Parsed(value: T, rest: Bytes) {
    predicate IsFailure() {
      Rejected?
    }
    function PropagateFailure<U>(): Parsed<U>
      requires Rejected?
    {
      Rejected
    }
    function Extract(): (T, Bytes)
      requires Parsed?
    {
      (value, rest)
    }
  }

  function ParseBytes(input: Bytes, count: nat): Parsed<Bytes> {
    if count <= |input| then Parsed(input[..count], input[count..]) else Rejected
  }

  function ParseUnsigned(input: Bytes, width: nat): Parsed<nat> {
    var (raw, rest) :- ParseBytes(input, width);
    Parsed(Unsigned(raw), rest)
  }

  function ParseSigned(input: Bytes, width: nat): Parsed<int> {
    var (raw, rest) :- ParseBytes(input, width);
    Parsed(Signed(raw), rest)
  }

  function ParseBool(input: Bytes): Parsed<bool> {
    var (raw, rest) :- ParseUnsigned(input, 1);
    Parsed(raw != 0, rest)
  }

  function ParseString(input: Bytes): Parsed<Bytes> {
    var (size, rest) :- ParseUnsigned(input, 8);
    if size > MAX_STRING_BYTES then Rejected else ParseBytes(rest, size)
  }

  function ParseI64s(input: Bytes, count: nat): Parsed<seq<int>> {
    if count == 0 then Parsed([], input)
    else
      var (values, rest) :- ParseI64s(input, count - 1);
      var (value, rest') :- ParseSigned(rest, 8);
      Parsed(values + [value], rest')
  }

  function ParseI64Vector(input: Bytes): Parsed<seq<int>> {
    var (size, rest) :- ParseUnsigned(input, 8);
    if size > MAX_VECTOR_ITEMS then Rejected else ParseI64s(rest, size)
  }

  // ----- Reading back what was written -----

  lemma ConcatAssociates(a: Bytes, b: Bytes, c: Bytes)
    ensures (a + b) + c == a + (b + c)
  {
  }

  lemma ParseAppended(raw: Bytes, rest: Bytes)
    ensures ParseBytes(raw + rest, |raw|) == Parsed(raw, rest)
  {
  }

  lemma UnsignedReadsBack(x: int, width: nat, rest: Bytes)
    requires 0 <= x < Pow256(width)
    ensures ParseUnsigned(LittleEndian(x, width) + rest, width) == Parsed(x, rest)
  {
    ParseAppended(LittleEndian(x, width), rest);
    UnsignedRoundTrip(x, width);
  }

  lemma SignedReadsBack(x: int, width: nat, rest: Bytes)
    requires width > 0 && -2 * x <= Pow256(width) && 2 * x < Pow256(width)
    ensures ParseSigned(LittleEndian(x, width) + rest, width) == Parsed(x, rest)
  {
    ParseAppended(LittleEndian(x, width), rest);
    SignedRoundTrip(x, width);
  }

  lemma U32ReadsBack(x: int, rest: Bytes)
    requires 0 <= x < 0x1_0000_0000
    ensures ParseUnsigned(U32(x) + rest, 4) == Parsed(x, rest)
  {
    Pow256Values();
    UnsignedReadsBack(x, 4, rest);
  }

  lemma U64ReadsBack(x: int, rest: Bytes)
    requires 0 <= x <= UINT64_MAX
    ensures ParseUnsigned(U64(x) + rest, 8) == Parsed(x, rest)
  {
    Pow256Values();
    UnsignedReadsBack(x, 8, rest);
  }

  lemma I32ReadsBack(x: int, rest: Bytes)
    requires IsInt32(x)
    ensures ParseSigned(I32(x) + rest, 4) == Parsed(x, rest)
  {
    Pow256Values();
    SignedReadsBack(x, 4, rest);
  }

  lemma I64ReadsBack(x: int, rest: Bytes)
    requires IsInt64(x)
    ensures ParseSigned(I64(x) + rest, 8) == Parsed(x, rest)
  {
    Pow256Values();
    SignedReadsBack(x, 8, rest);
  }

  lemma BoolReadsBack(b: bool, rest: Bytes)
    ensures ParseBool(Bool(b) + rest) == Parsed(b, rest)
  {
    Pow256Values();
    UnsignedReadsBack(if b then 1 else 0, 1, rest);
  }

  /** The writer accepts any string; the reader refuses it exactly when it is too long. */
  lemma StringReadsBack(s: Bytes, rest: Bytes)
    requires |s| <= UINT64_MAX
    ensures ParseString(String(s) + rest) == if |s| <= MAX_STRING_BYTES then Parsed(s, rest) else Rejected
  {
    ConcatAssociates(U64(|s|), s, rest);
    U64ReadsBack(|s|, s + rest);
    ParseAppended(s, rest);
  }

  lemma {:induction false} I64sReadBack(values: seq<int>, rest: Bytes)
    requires forall v | v in values :: IsInt64(v)
    ensures ParseI64s(I64s(values) + rest, |values|) == Parsed(values, rest)
    decreases |values|
  {
    hide ParseSigned, LittleEndian;
    if values == [] {
      assert I64s(values) + rest == rest;
    } else {
      var front, v := Init(values), Last(values);
      assert I64s(values) == I64s(front) + I64(v) by {
        I64sAppend(front, v);
        assert front + [v] == values;
      }
      ConcatAssociates(I64s(front), I64(v), rest);
      I64sReadBack(front, I64(v) + rest);
      I64ReadsBack(v, rest);
      assert front + [v] == values;
    }
  }

  lemma {:induction false} I64sAppend(values: seq<int>, v: int)
    ensures I64s(values + [v]) == I64s(values) + I64(v)
  {
    if values == [] {
      assert I64s([v]) == I64(v) + I64s([]) == I64(v);
      assert I64s([]) + I64(v) == I64(v);
    } else {
      assert (values + [v])[1..] == values[1..] + [v];
      I64sAppend(values[1..], v);
      ConcatAssociates(I64(values[0]), I64s(values[1..]), I64(v));
    }
  }

  lemma I64VectorReadsBack(values: seq<int>, rest: Bytes)
    requires |values| <= UINT64_MAX && forall v | v in values :: IsInt64(v)
    ensures ParseI64Vector(I64Vector(values) + rest) == if |values| <= MAX_VECTOR_ITEMS then Parsed(values, rest) else Rejected
  {
    ConcatAssociates(U64(|values|), I64s(values), rest);
    U64ReadsBack(|values|, I64s(values) + rest);
    I64sReadBack(values, rest);
  }

  // ----- What is read was written so -----

  lemma {:induction false} BytesOfUnsigned(bytes: Bytes)
    ensures LittleEndian(Unsigned(bytes), |bytes|) == bytes
  {
    if bytes != [] {
      BytesOfUnsigned(bytes[1..]);
      assert Unsigned(bytes) % 256 == bytes[0] && Unsigned(bytes) / 256 == Unsigned(bytes[1..]);
    }
  }

  lemma UnsignedIsWritten(input: Bytes, width: nat)
    requires ParseUnsigned(input, width).Parsed?
    ensures var p := ParseUnsigned(input, width); input == LittleEndian(p.value, width) + p.rest
  {
    BytesOfUnsigned(input[..width]);
  }

  lemma SignedIsWritten(input: Bytes, width: nat)
    requires ParseSigned(input, width).Parsed?
    ensures var p := ParseSigned(input, width); input == LittleEndian(p.value, width) + p.rest
  {
    var raw := input[..width];
    BytesOfUnsigned(raw);
    if Signed(raw) != Unsigned(raw) {
      LittleEndianWraps(Signed(raw), width);
    }
  }

  /** A flag is written as 0 or 1; any other byte reads as true. */
  lemma BoolIsWritten(input: Bytes)
    requires ParseBool(input).Parsed?
    ensures var p := ParseBool(input); exists raw: byte :: (raw != 0 <==> p.value) && input == [raw] + p.rest
  {
    assert Unsigned(input[..1]) == input[0];
    assert input == [input[0]] + ParseBool(input).rest;
  }

  lemma StringIsWritten(input: Bytes)
    requires ParseString(input).Parsed?
    ensures var p := ParseString(input); input == String(p.value) + p.rest && |p.value| <= MAX_STRING_BYTES
  {
    hide LittleEndian, Unsigned;
    UnsignedIsWritten(input, 8);
    var size := ParseUnsigned(input, 8);
    var p := ParseString(input);
    assert size.rest == p.value + p.rest;
    ConcatAssociates(U64(size.value), p.value, p.rest);
  }

  lemma {:induction false} I64sAreWritten(input: Bytes, count: nat)
    requires ParseI64s(input, count).Parsed?
    ensures var p := ParseI64s(input, count); input == I64s(p.value) + p.rest && |p.value| == count
  {
    hide LittleEndian, Signed;
    if count > 0 {
      I64sAreWritten(input, count - 1);
      var front := ParseI64s(input, count - 1);
      SignedIsWritten(front.rest, 8);
      var last := ParseSigned(front.rest, 8);
      I64sAppend(front.value, last.value);
      ConcatAssociates(I64s(front.value), I64(last.value), last.rest);
    } else {
      assert I64s([]) + input == input;
    }
  }

  lemma I64VectorIsWritten(input: Bytes)
    requires ParseI64Vector(input).Parsed?
    ensures var p := ParseI64Vector(input); input == I64Vector(p.value) + p.rest && |p.value| <= MAX_VECTOR_ITEMS
  {
    hide LittleEndian, Unsigned, I64s;
    UnsignedIsWritten(input, 8);
    var size := ParseUnsigned(input, 8);
    I64sAreWritten(size.rest, size.value);
    ConcatAssociates(U64(size.value), I64s(ParseI64Vector(input).value), ParseI64Vector(input).rest);
  }

  // ----- Streams -----

  class OutputStream {
    var written: Bytes

    constructor ()
      ensures written == []
    {
      written := [];
    }

    method WriteBytes(data: Bytes)
      modifies this
      ensures written == old(written) + data
    {
      written := written + data;
    }

    /** An integer of `width` bytes. */
    method WritePod(x: int, width: nat)
      modifies this
      ensures written == old(written) + LittleEndian(x, width)
    {
      var k, left := 0, x;
      while k < width
        invariant k <= width
        invariant written + LittleEndian(left, width - k) == old(written) + LittleEndian(x, width)
      {
        assert LittleEndian(left, width - k) == [left % 256] + LittleEndian(left / 256, width - k - 1);
        WriteBytes([left % 256]);
        k, left := k + 1, left / 256;
      }
    }

    method WriteBool(value: bool)
      modifies this
      ensures written == old(written) + Bool(value)
    {
      WritePod(if value then 1 else 0, 1);
    }

    method WriteString(value: Bytes)
      modifies this
      ensures written == old(written) + String(value)
    {
      WritePod(|value|, 8);
      WriteBytes(value);
    }

    method WriteI64Vector(values: seq<int>)
      modifies this
      ensures written == old(written) + I64Vector(values)
    {
      WritePod(|values|, 8);
      ghost var header := written;
      for i := 0 to |values|
        invariant written == header + I64s(values[..i])
      {
        WritePod(values[i], 8);
        assert I64s(values[..i + 1]) == I64s(values[..i]) + I64(values[i]) by {
          I64sAppend(values[..i], values[i]);
          assert values[..i] + [values[i]] == values[..i + 1];
        }
        ConcatAssociates(header, I64s(values[..i]), I64(values[i]));
      }
      ConcatAssociates(old(written), U64(|values|), I64s(values));
      assert values[..|values|] == values;
    }
  }

  class InputStream {
    var rest: Bytes

    constructor (contents: Bytes)
      ensures rest == contents
    {
      rest := contents;
    }

    method ReadBytes(count: nat) returns (r: Parsed<Bytes>)
      modifies this
      ensures r == ParseBytes(old(rest), count)
      ensures r.Parsed? ==> rest == r.rest
    {
      if count > |rest| {
        rest := [];
        return Rejected;
      }
      r := Parsed(rest[..count], rest[count..]);
      rest := rest[count..];
    }

    method ReadUnsigned(width: nat) returns (r: Parsed<nat>)
      modifies this
      ensures r == ParseUnsigned(old(rest), width)
      ensures r.Parsed? ==> rest == r.rest
    {
      var raw :- ReadBytes(width);
      r := Parsed(Unsigned(raw.0), raw.1);
    }

    method ReadSigned(width: nat) returns (r: Parsed<int>)
      modifies this
      ensures r == ParseSigned(old(rest), width)
      ensures r.Parsed? ==> rest == r.rest
    {
      var raw :- ReadBytes(width);
      r := Parsed(Signed(raw.0), raw.1);
    }

    method ReadBool() returns (r: Parsed<bool>)
      modifies this
      ensures r == ParseBool(old(rest))
      ensures r.Parsed? ==> rest == r.rest
    {
      var raw :- ReadUnsigned(1);
      r := Parsed(raw.0 != 0, raw.1);
    }

    method ReadString() returns (r: Parsed<Bytes>)
      modifies this
      ensures r == ParseString(old(rest))
      ensures r.Parsed? ==> rest == r.rest
    {
      var size :- ReadUnsigned(8);
      if size.0 > MAX_STRING_BYTES {
        return Rejected;
      }
      r := ReadBytes(size.0);
    }

    method ReadI64Vector() returns (r: Parsed<seq<int>>)
      modifies this
      ensures r == ParseI64Vector(old(rest))
      ensures r.Parsed? ==> rest == r.rest
    {
      var size :- ReadUnsigned(8);
      if size.0 > MAX_VECTOR_ITEMS {
        return Rejected;
      }
      var values := [];
      for i := 0 to size.0
        invariant Parsed(values, rest) == ParseI64s(size.1, i)
      {
        var value := ReadSigned(8);
        if value.Rejected? {
          ParseI64sStops(size.1, i + 1, size.0);
          return Rejected;
        }
        values := values + [value.value];
      }
      r := Parsed(values, rest);
    }
  }

  lemma {:induction false} ParseI64sStops(input: Bytes, count: nat, total: nat)
    requires count <= total && ParseI64s(input, count).Rejected?
    ensures ParseI64s(input, total).Rejected?
  {
    if count < total {
      ParseI64sStops(input, count, total - 1);
    }
  }
}
