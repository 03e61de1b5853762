/** The hash that ties a cached KV state to the content of its segment
    (segment_kv_metadata.cpp). */
module ContentHash {
  import opened Basics
  import opened Persistent
  import opened SessionState
  import opened BinaryIO

  /** An unsigned 64-bit word; its arithmetic wraps around. */
  type Word = x: int | 0 <= x < WORD

  const FNV_SEED: Word := 1469598103934665603
  const FNV_PRIME: Word := 1099511628211

  /** Exclusive or, bit by bit. */
  function Xor(a: nat, b: nat, bits: nat): (x: nat) {
    if bits == 0 then 0 else (a + b) % 2 + 2 * Xor(a / 2, b / 2, bits - 1)
  }

  /** A byte only has to do with the lowest eight bits. */
  function XorByte(hash: Word, b: byte): nat {
    hash - hash % 256 + Xor(hash % 256, b, 8)
  }

  function Times(hash: nat): Word {
    hash * FNV_PRIME % WORD
  }

  function FnvStep(hash: Word, b: byte): Word {
    Times(XorByte(hash, b))
  }

  function Fnv(hash: Word, data: Bytes): Word {
    if data == [] then hash else FnvStep(Fnv(hash, Init(data)), Last(data))
  }

  lemma {:induction false} FnvOfConcat(hash: Word, a: Bytes, b: Bytes)
    ensures Fnv(hash, a + b) == Fnv(Fnv(hash, a), b)
    decreases |b|
  {
    hide FnvStep;
    if b == [] {
      assert a + b == a;
    } else {
      assert Init(a + b) == a + Init(b);
      FnvOfConcat(hash, a, Init(b));
    }
  }

  function HexDigit(d: int): byte
    requires 0 <= d < 16
  {
    if d < 10 then '0' as int + d else 'a' as int + (d - 10)
  }

  /** Sixteen lower-case hexadecimal digits, most significant first. */
  function Hex(hash: nat, digits: nat): Bytes {
    if digits == 0 then [] else Hex(hash / 16, digits - 1) + [HexDigit(hash % 16)]
  }

  // ----- The bytes that are hashed -----

  function HashedText(memories: seq<MemoryRecord>, idx: int): Bytes {
    match FindMemory(memories, idx)
    case Some(m) => String(m.text)
    case None => []
  }

  function HashedItems(memories: seq<MemoryRecord>, indices: seq<int>): Bytes {
    if indices == [] then []
    else (I64(indices[0]) + HashedText(memories, indices[0])) + HashedItems(memories, indices[1..])
  }

  function HashInput(store: SessionStore, indices: seq<int>): Bytes {
    String(store.system) + HashedItems(store.memories, indices)
  }

  function SegmentHash(store: SessionStore, indices: seq<int>): Bytes {
    Hex(Fnv(FNV_SEED, HashInput(store, indices)), 16)
  }

  method Update(hash: Word, data: Bytes) returns (updated: Word)
    ensures updated == Fnv(hash, data)
  {
    hide FnvStep;
    updated := hash;
    for i := 0 to |data|
      invariant updated == Fnv(hash, data[..i])
    {
      assert Init(data[..i + 1]) == data[..i];
      updated := FnvStep(updated, data[i]);
    }
    assert data[..|data|] == data;
  }

  method UpdateString(hash: Word, value: Bytes) returns (updated: Word)
    ensures updated == Fnv(hash, String(value))
  {
    FnvOfConcat(hash, U64(|value|), value);
    updated := Update(hash, U64(|value|));
    updated := Update(updated, value);
  }

  method SegmentKvContentHash(store: SessionStore, segment: Segment) returns (hash: Bytes)
    ensures hash == SegmentHash(store, segment.indices)
  {
    hide FnvStep, Hex;
    var h := UpdateString(FNV_SEED, store.system);
    ghost var system := h;
    for i := 0 to |segment.indices|
      invariant Fnv(h, HashedItems(store.memories, segment.indices[i..])) ==
                Fnv(system, HashedItems(store.memories, segment.indices))
    {
      var idx := segment.indices[i];
      ghost var item := I64(idx) + HashedText(store.memories, idx);
      FnvOfConcat(h, item, HashedItems(store.memories, segment.indices[i + 1..]));
      FnvOfConcat(h, I64(idx), HashedText(store.memories, idx));
      assert segment.indices[i..][1..] == segment.indices[i + 1..];
      h := Update(h, I64(idx));
      var memory := FindMemory(store.memories, idx);
      if memory.Some? {
        h := UpdateString(h, memory.value.text);
      }
    }
    FnvOfConcat(FNV_SEED, String(store.system), HashedItems(store.memories, segment.indices));
    hash := Hex(h, 16);
  }

  // ----- The hashed bytes determine the content -----

  predicate AllPresent(memories: seq<MemoryRecord>, indices: seq<int>) {
    forall i :: 0 <= i < |indices| ==> FindMemory(memories, indices[i]).Some?
  }

  /** The index fits 64 bits and the text has a 64-bit length, as every in-memory value does. */
  predicate Representable(memories: seq<MemoryRecord>, indices: seq<int>) {
    && (forall i :: 0 <= i < |indices| ==> IsInt64(indices[i]))
    && (forall m | m in memories :: |m.text| <= UINT64_MAX)
  }

  lemma StringIsPrefixFree(a: Bytes, restA: Bytes, b: Bytes, restB: Bytes)
    requires |a| <= UINT64_MAX && |b| <= UINT64_MAX
    requires String(a) + restA == String(b) + restB
    ensures a == b && restA == restB
  {
    ConcatAssociates(U64(|a|), a, restA);
    ConcatAssociates(U64(|b|), b, restB);
    U64ReadsBack(|a|, a + restA);
    U64ReadsBack(|b|, b + restB);
    ParseAppended(a, restA);
    ParseAppended(b, restB);
  }

  lemma FindMemoryIsStored(memories: seq<MemoryRecord>, idx: int)
    requires FindMemory(memories, idx).Some?
    ensures FindMemory(memories, idx).value in memories && FindMemory(memories, idx).value.idx == idx
  {
    FirstWithIdxFinds(memories, idx);
  }

  lemma ItemIsPrefixFree(a: seq<MemoryRecord>, x: int, restA: Bytes, b: seq<MemoryRecord>, y: int, restB: Bytes)
    requires FindMemory(a, x).Some? && FindMemory(b, y).Some? && IsInt64(x) && IsInt64(y)
    requires |FindMemory(a, x).value.text| <= UINT64_MAX && |FindMemory(b, y).value.text| <= UINT64_MAX
    requires (I64(x) + HashedText(a, x)) + restA == (I64(y) + HashedText(b, y)) + restB
    ensures x == y && FindMemory(a, x).value.text == FindMemory(b, y).value.text && restA == restB
  {
    ConcatAssociates(I64(x), HashedText(a, x), restA);
    ConcatAssociates(I64(y), HashedText(b, y), restB);
    I64ReadsBack(x, HashedText(a, x) + restA);
    I64ReadsBack(y, HashedText(b, y) + restB);
    StringIsPrefixFree(FindMemory(a, x).value.text, restA, FindMemory(b, y).value.text, restB);
  }

  lemma {:induction false} ItemsAreUnambiguous(a: seq<MemoryRecord>, x: seq<int>, b: seq<MemoryRecord>, y: seq<int>)
    requires AllPresent(a, x) && AllPresent(b, y) && Representable(a, x) && Representable(b, y)
    requires HashedItems(a, x) == HashedItems(b, y)
    ensures x == y && SegmentTexts(a, x) == SegmentTexts(b, y)
    decreases |x|
  {
    hide FindMemory, HashedText, SegmentTexts, I64, TextOf;
    ItemsHaveLength(a, x);
    ItemsHaveLength(b, y);
    if x != [] && y != [] {
      FindMemoryIsStored(a, x[0]);
      FindMemoryIsStored(b, y[0]);
      ItemIsPrefixFree(a, x[0], HashedItems(a, x[1..]), b, y[0], HashedItems(b, y[1..]));
      ItemsAreUnambiguous(a, x[1..], b, y[1..]);
      SegmentTextsFromFront(a, x);
      SegmentTextsFromFront(b, y);
      TextIsPresent(a, x[0]);
      TextIsPresent(b, y[0]);
      assert x == [x[0]] + x[1..] && y == [y[0]] + y[1..];
    } else {
      NoTexts(a);
      NoTexts(b);
    }
  }

  lemma {:induction false} ItemsHaveLength(memories: seq<MemoryRecord>, indices: seq<int>)
    ensures HashedItems(memories, indices) == [] <==> indices == []
  {
    hide HashedText;
  }

  lemma TextIsPresent(memories: seq<MemoryRecord>, idx: int)
    requires FindMemory(memories, idx).Some?
    ensures TextOf(memories, idx) == [FindMemory(memories, idx).value.text]
  {
  }

  lemma NoTexts(memories: seq<MemoryRecord>)
    ensures SegmentTexts(memories, []) == []
  {
  }

  lemma {:induction false} SegmentTextsFromFront(memories: seq<MemoryRecord>, indices: seq<int>)
    requires indices != []
    ensures SegmentTexts(memories, indices) == TextOf(memories, indices[0]) + SegmentTexts(memories, indices[1..])
  {
    hide TextOf;
    if |indices| == 1 {
      assert Init(indices) == [] && indices[1..] == [];
    } else {
      SegmentTextsFromFront(memories, Init(indices));
      assert Init(indices)[1..] == Init(indices[1..]);
      assert Last(indices) == Last(indices[1..]);
    }
  }

  /** Two segments whose memories are all present are hashed from the same bytes only when
      their system text, their memory indices and their texts are all the same. */
  lemma HashInputIsUnambiguous(a: SessionStore, x: seq<int>, b: SessionStore, y: seq<int>)
    requires AllPresent(a.memories, x) && AllPresent(b.memories, y)
    requires Representable(a.memories, x) && Representable(b.memories, y)
    requires |a.system| <= UINT64_MAX && |b.system| <= UINT64_MAX
    ensures HashInput(a, x) == HashInput(b, y) <==>
            a.system == b.system && x == y && SegmentTexts(a.memories, x) == SegmentTexts(b.memories, y)
  {
    if HashInput(a, x) == HashInput(b, y) {
      StringIsPrefixFree(a.system, HashedItems(a.memories, x), b.system, HashedItems(b.memories, y));
      ItemsAreUnambiguous(a.memories, x, b.memories, y);
    } else if a.system == b.system && x == y && SegmentTexts(a.memories, x) == SegmentTexts(b.memories, y) {
      SameContentSameItems(a.memories, b.memories, x);
      assert false;
    }
  }

  lemma {:induction false} SameContentSameItems(a: seq<MemoryRecord>, b: seq<MemoryRecord>, indices: seq<int>)
    requires AllPresent(a, indices) && AllPresent(b, indices)
    requires SegmentTexts(a, indices) == SegmentTexts(b, indices)
    ensures HashedItems(a, indices) == HashedItems(b, indices)
    decreases |indices|
  {
    if indices != [] {
      SegmentTextsFromFront(a, indices);
      SegmentTextsFromFront(b, indices);
      assert TextOf(a, indices[0]) == TextOf(b, indices[0]) by {
        assert (TextOf(a, indices[0]) + SegmentTexts(a, indices[1..]))[0] == (TextOf(b, indices[0]) + SegmentTexts(b, indices[1..]))[0];
      }
      assert SegmentTexts(a, indices[1..]) == SegmentTexts(b, indices[1..]) by {
        assert (TextOf(a, indices[0]) + SegmentTexts(a, indices[1..]))[1..] == SegmentTexts(a, indices[1..]);
        assert (TextOf(b, indices[0]) + SegmentTexts(b, indices[1..]))[1..] == SegmentTexts(b, indices[1..]);
      }
      SameContentSameItems(a, b, indices[1..]);
    }
  }

  // ----- The hash tells contents apart that differ in one byte -----

  /** The prime is odd: its inverse undoes the multiplication. */
  const FNV_INVERSE := 14886173955864302971
  const FNV_WRAPS := 887285111055

  lemma PrimeHasInverse()
    ensures FNV_PRIME * FNV_INVERSE == 1 + FNV_WRAPS * WORD
  {
  }

  lemma {:induction false} TimesIsInjective(a: Word, b: Word)
    requires Times(a) == Times(b)
    ensures a == b
  {
    var wraps := a * FNV_PRIME / WORD - b * FNV_PRIME / WORD;
    assert (a - b) * FNV_PRIME == wraps * WORD;
    PrimeHasInverse();
    assert a - b == (wraps * FNV_INVERSE - (a - b) * FNV_WRAPS) * WORD;
  }

  lemma {:induction false} XorIsInjective(a: nat, b: nat, c: nat, bits: nat)
    requires Xor(a, c, bits) == Xor(b, c, bits) && a < Power2(bits) && b < Power2(bits)
    ensures a == b
  {
    if bits > 0 {
      LowestBit((a + c) % 2, Xor(a / 2, c / 2, bits - 1), (b + c) % 2, Xor(b / 2, c / 2, bits - 1));
      XorIsInjective(a / 2, b / 2, c / 2, bits - 1);
      SameParity(a, b, c);
    }
  }

  lemma LowestBit(x: nat, a: nat, y: nat, b: nat)
    requires x < 2 && y < 2 && x + 2 * a == y + 2 * b
    ensures x == y && a == b
  {
  }

  lemma SameParity(a: nat, b: nat, c: nat)
    requires (a + c) % 2 == (b + c) % 2
    ensures a % 2 == b % 2
  {
  }

  function Power2(bits: nat): nat {
    if bits == 0 then 1 else 2 * Power2(bits - 1)
  }

  lemma {:induction false} XorCommutes(a: nat, b: nat, bits: nat)
    ensures Xor(a, b, bits) == Xor(b, a, bits) && Xor(a, b, bits) < Power2(bits)
  {
    if bits > 0 {
      XorCommutes(a / 2, b / 2, bits - 1);
    }
  }

  lemma ByteBits()
    ensures Power2(8) == 256
  {
    assert Power2(4) == 16;
  }

  lemma {:induction false} XorByteIsInjective(h: Word, g: Word, x: byte, y: byte)
    ensures XorByte(h, x) < WORD
    ensures XorByte(h, x) == XorByte(g, x) ==> h == g
    ensures XorByte(h, x) == XorByte(h, y) ==> x == y
  {
    hide Xor, Power2;
    ByteBits();
    XorCommutes(h % 256, x, 8);
    XorCommutes(g % 256, x, 8);
    XorCommutes(h % 256, y, 8);
    if XorByte(h, x) == XorByte(g, x) {
      XorIsInjective(h % 256, g % 256, x, 8);
    }
    if XorByte(h, x) == XorByte(h, y) {
      XorIsInjective(x, y, h % 256, 8);
    }
  }

  /** One step tells states apart, and bytes. */
  lemma {:induction false} StepIsInjective(h: Word, g: Word, x: byte, y: byte)
    ensures FnvStep(h, x) == FnvStep(g, x) ==> h == g
    ensures FnvStep(h, x) == FnvStep(h, y) ==> x == y
  {
    hide Times, XorByte;
    XorByteIsInjective(h, g, x, y);
    XorByteIsInjective(g, h, x, y);
    XorByteIsInjective(h, h, y, x);
    if FnvStep(h, x) == FnvStep(g, x) {
      TimesIsInjective(XorByte(h, x), XorByte(g, x));
    }
    if FnvStep(h, x) == FnvStep(h, y) {
      TimesIsInjective(XorByte(h, x), XorByte(h, y));
    }
  }

  lemma {:induction false} FnvIsInjective(h: Word, g: Word, data: Bytes)
    requires Fnv(h, data) == Fnv(g, data)
    ensures h == g
  {
    hide FnvStep;
    if data != [] {
      StepIsInjective(Fnv(h, Init(data)), Fnv(g, Init(data)), Last(data), 0);
      FnvIsInjective(h, g, Init(data));
    }
  }

  /** They differ in exactly one byte. */
  ghost predicate OneByteApart(a: Bytes, b: Bytes) {
    exists at: nat :: ApartAt(a, b, at)
  }

  ghost predicate ApartAt(a: Bytes, b: Bytes, at: nat) {
    && at < |a| == |b| && a[at] != b[at]
    && a[..at] == b[..at] && a[at + 1..] == b[at + 1..]
  }

  /** Streams that differ in exactly one byte never have the same hash. */
  lemma {:induction false} FnvTellsApart(hash: Word, a: Bytes, b: Bytes)
    requires OneByteApart(a, b)
    ensures Fnv(hash, a) != Fnv(hash, b)
  {
    hide FnvStep;
    var at: nat :| ApartAt(a, b, at);
    FnvThrough(hash, a, at);
    FnvThrough(hash, b, at);
    var before := Fnv(hash, a[..at]);
    if Fnv(hash, a) == Fnv(hash, b) {
      FnvIsInjective(FnvStep(before, a[at]), FnvStep(before, b[at]), a[at + 1..]);
      StepIsInjective(before, before, a[at], b[at]);
    }
  }

  lemma {:induction false} FnvThrough(hash: Word, data: Bytes, at: nat)
    requires at < |data|
    ensures Fnv(hash, data) == Fnv(FnvStep(Fnv(hash, data[..at]), data[at]), data[at + 1..])
  {
    hide FnvStep;
    assert data == data[..at + 1] + data[at + 1..];
    FnvOfConcat(hash, data[..at + 1], data[at + 1..]);
    assert Init(data[..at + 1]) == data[..at] && Last(data[..at + 1]) == data[at];
  }

  lemma DigitsAreDistinct(d: int, e: int)
    requires 0 <= d < 16 && 0 <= e < 16 && HexDigit(d) == HexDigit(e)
    ensures d == e
  {
  }

  lemma {:induction false} HexIsInjective(h: nat, g: nat, digits: nat)
    requires Hex(h, digits) == Hex(g, digits) && h < Power16(digits) && g < Power16(digits)
    ensures h == g
  {
    hide HexDigit;
    if digits > 0 {
      assert Init(Hex(h, digits)) == Hex(h / 16, digits - 1) && Last(Hex(h, digits)) == HexDigit(h % 16);
      assert Init(Hex(g, digits)) == Hex(g / 16, digits - 1) && Last(Hex(g, digits)) == HexDigit(g % 16);
      HexIsInjective(h / 16, g / 16, digits - 1);
      DigitsAreDistinct(h % 16, g % 16);
    }
  }

  function Power16(digits: nat): nat {
    if digits == 0 then 1 else 16 * Power16(digits - 1)
  }

  lemma WordDigits()
    ensures Power16(16) == WORD
  {
    assert Power16(8) == 0x1_0000_0000;
    assert Power16(12) == 0x1_0000_0000_0000;
  }

  /** Streams of which one is the other with one byte changed get different hashes. */
  lemma {:induction false} HexTellsApart(a: Bytes, b: Bytes)
    requires OneByteApart(a, b)
    ensures Hex(Fnv(FNV_SEED, a), 16) != Hex(Fnv(FNV_SEED, b), 16)
  {
    hide Hex, Power16;
    FnvTellsApart(FNV_SEED, a, b);
    WordDigits();
    if Hex(Fnv(FNV_SEED, a), 16) == Hex(Fnv(FNV_SEED, b), 16) {
      HexIsInjective(Fnv(FNV_SEED, a), Fnv(FNV_SEED, b), 16);
    }
  }

  lemma {:induction false} ApartInside(before: Bytes, a: Bytes, b: Bytes, after: Bytes)
    requires OneByteApart(a, b)
    ensures OneByteApart(before + a + after, before + b + after)
  {
    var at: nat :| ApartAt(a, b, at);
    var x, y, n := before + a + after, before + b + after, |before| + at;
    assert x[..n] == before + a[..at] && y[..n] == before + b[..at];
    assert x[n + 1..] == a[at + 1..] + after && y[n + 1..] == b[at + 1..] + after;
    assert ApartAt(x, y, n);
  }

  lemma {:induction false} StringsApart(a: Bytes, b: Bytes)
    requires OneByteApart(a, b)
    ensures OneByteApart(String(a), String(b))
  {
    ApartInside(U64(|a|), a, b, []);
    assert U64(|a|) + a + [] == String(a) && U64(|b|) + b + [] == String(b);
  }

  /** The texts that are hashed are the same, but for the one of index number `i`. */
  ghost predicate OneTextApart(a: seq<MemoryRecord>, b: seq<MemoryRecord>, indices: seq<int>, i: nat) {
    && i < |indices| && FindMemory(a, indices[i]).Some? && FindMemory(b, indices[i]).Some?
    && OneByteApart(FindMemory(a, indices[i]).value.text, FindMemory(b, indices[i]).value.text)
    && forall j :: 0 <= j < |indices| && j != i ==> HashedText(a, indices[j]) == HashedText(b, indices[j])
  }

  lemma {:induction false} SameItems(a: seq<MemoryRecord>, b: seq<MemoryRecord>, indices: seq<int>)
    requires forall j :: 0 <= j < |indices| ==> HashedText(a, indices[j]) == HashedText(b, indices[j])
    ensures HashedItems(a, indices) == HashedItems(b, indices)
    decreases |indices|
  {
    hide HashedText;
    if indices != [] {
      SameItems(a, b, indices[1..]);
    }
  }

  lemma {:induction false} ItemsApart(a: seq<MemoryRecord>, b: seq<MemoryRecord>, indices: seq<int>, i: nat)
    requires OneTextApart(a, b, indices, i)
    ensures OneByteApart(HashedItems(a, indices), HashedItems(b, indices))
    decreases |indices|
  {
    hide FindMemory, OneByteApart, I64, String;
    var rest := indices[1..];
    if i == 0 {
      StringsApart(FindMemory(a, indices[0]).value.text, FindMemory(b, indices[0]).value.text);
      SameItems(a, b, rest);
      ApartInside(I64(indices[0]), HashedText(a, indices[0]), HashedText(b, indices[0]), HashedItems(a, rest));
    } else {
      assert OneTextApart(a, b, rest, i - 1) by {
        assert forall j :: 0 <= j < |rest| ==> rest[j] == indices[j + 1];
      }
      ItemsApart(a, b, rest, i - 1);
      ApartInside(I64(indices[0]) + HashedText(a, indices[0]), HashedItems(a, rest), HashedItems(b, rest), []);
      NothingAfter(I64(indices[0]) + HashedText(a, indices[0]), HashedItems(a, rest));
      NothingAfter(I64(indices[0]) + HashedText(a, indices[0]), HashedItems(b, rest));
    }
  }

  lemma NothingAfter(a: Bytes, b: Bytes)
    ensures a + b + [] == a + b
  {
  }

  /** A segment with one byte of one of its texts changed, or of its system text, has another hash. */
  lemma {:induction false} SegmentHashTellsApart(a: SessionStore, b: SessionStore, indices: seq<int>, i: nat)
    requires || (a.system == b.system && OneTextApart(a.memories, b.memories, indices, i))
             || (OneByteApart(a.system, b.system) && HashedItems(a.memories, indices) == HashedItems(b.memories, indices))
    ensures SegmentHash(a, indices) != SegmentHash(b, indices)
  {
    hide OneTextApart, OneByteApart, HashedItems, String, Fnv, Hex;
    if a.system == b.system && OneTextApart(a.memories, b.memories, indices, i) {
      ItemsApart(a.memories, b.memories, indices, i);
      ApartInside(String(a.system), HashedItems(a.memories, indices), HashedItems(b.memories, indices), []);
      NothingAfter(String(a.system), HashedItems(a.memories, indices));
      NothingAfter(String(b.system), HashedItems(b.memories, indices));
    } else {
      StringsApart(a.system, b.system);
      ApartInside([], String(a.system), String(b.system), HashedItems(a.memories, indices));
      NothingBefore(String(a.system));
      NothingBefore(String(b.system));
    }
    HexTellsApart(HashInput(a, indices), HashInput(b, indices));
  }

  lemma NothingBefore(a: Bytes)
    ensures [] + a == a
  {
  }

  lemma HexStep(x: nat, digit: nat, digits: nat)
    requires digit < 16
    ensures Hex(16 * x + digit, digits + 1) == Hex(x, digits) + [HexDigit(digit)]
  {
    hide HexDigit;
    assert (16 * x + digit) / 16 == x && (16 * x + digit) % 16 == digit;
  }

  /** Digits are printed most significant first, those above nine in lower case. */
  lemma SomeHexDigits()
    ensures Hex(0x09af, 4) == ['0' as int, '9' as int, 'a' as int, 'f' as int]
  {
    assert Hex(0, 0) == [];
    hide Hex;
    HexStep(0, 0, 0);
    HexStep(0, 9, 1);
    HexStep(0x9, 10, 2);
    HexStep(0x9a, 15, 3);
  }

  /** The hash of the one byte "a", as the published algorithm with this seed gives it. */
  lemma HashOfOneByte()
    ensures Fnv(FNV_SEED, ['a' as int]) == 4953267810257967366
  {
    assert Init(['a' as int]) == [];
    assert FNV_SEED % 256 == 131 && 131 / 2 == 65;
    assert Xor(8, 6, 4) == 14 && Xor(131, 97, 8) == 226;
  }
}
