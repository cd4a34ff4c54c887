/** Bit-level signal extraction (src/catalog.c) against a reference reading of an
    eight-byte frame as a string of 64 bits. Shifts are repeated halving or doubling. */
module Bits {
  import opened Types

  type bit = x: int | 0 <= x < 2

  function Pow2(n: nat): (r: nat)
    ensures r >= 1
  {
    if n == 0 then 1 else 2 * Pow2(n - 1)
  }

  // ---- The code ----

  function Shl(v: nat, n: nat): nat {
    if n == 0 then v else 2 * Shl(v, n - 1)
  }

  function Shr(w: nat, n: nat): nat {
    if n == 0 then w else Shr(w / 2, n - 1)
  }

  /** The low n bits: `w & ((1 << n) - 1)`. */
  function Low(w: nat, n: nat): (r: nat)
    ensures r < Pow2(n)
  {
    if n == 0 then 0 else 2 * Low(w / 2, n - 1) + w % 2
  }

  function Word(b0: int, b1: int, b2: int, b3: int): int {
    b0 + 0x100 * b1 + 0x1_0000 * b2 + 0x100_0000 * b3
  }

  function ReadLe32(data: seq<byte>, at: nat): nat
    requires at + 4 <= |data|
  {
    Word(data[at], data[at + 1], data[at + 2], data[at + 3])
  }

  function ExtractPart(data: seq<byte>, p: Part): nat
    requires |data| == 8 && GoodPart(p)
  {
    Low(Shr(ReadLe32(data, p.word), 32 - p.offset - p.bits), p.bits)
  }

  /** The value accumulated over all parts, with no machine width. */
  function Raw(data: seq<byte>, parts: seq<Part>): nat
    requires |data| == 8 && GoodParts(parts)
  {
    if parts == [] then 0
    else
      var last := parts[|parts| - 1];
      Shl(Raw(data, parts[..|parts| - 1]), last.bits) + ExtractPart(data, last)
  }

  /** The accumulation loop on a 64-bit word: the shift drops what leaves the word.
      For parts of at most 64 bits in all nothing is ever dropped. */
  method DecodeSignalRaw(data: seq<byte>, parts: seq<Part>) returns (value: nat)
    requires |data| == 8 && GoodParts(parts) && PartBits(parts) <= 64
    ensures value == Raw(data, parts)
    ensures value < Pow2(PartBits(parts))
  {
    value := 0;
    var i := 0;
    while i < |parts|
      invariant 0 <= i <= |parts|
      invariant value == Raw(data, parts[..i])
    {
      RawStep(data, parts, i);
      value := Shl(value, parts[i].bits) % U64_LIMIT + ExtractPart(data, parts[i]);
      i := i + 1;
    }
    assert parts[..|parts|] == parts;
    RawBound(data, parts);
  }

  /** The numeric reading of `roadcast_decode_signal_physical`, before scaling.
      `raw & sign` is a bit test; `modulus - raw` is 64-bit subtraction. */
  function Reading(raw: nat, width: nat, isSigned: bool): int {
    if isSigned && width > 0 && Shr(raw, width - 1) % 2 == 1
    then -((Pow2(width) - raw) % U64_LIMIT)
    else raw
  }

  function Physical(cat: Catalog, d: SignalDef, raw: nat): nat {
    cat.convert(d, Reading(raw, d.width, d.isSigned))
  }

  // ---- The reference: a frame is a string of 64 bits ----

  /** The words at bytes 0 and 4, each most significant bit first. */
  function FrameBits(data: seq<byte>): (b: seq<bit>)
    requires |data| == 8
    ensures |b| == 64
  {
    WordBits(ReadLe32(data, 0)) + WordBits(ReadLe32(data, 4))
  }

  function WordBits(w: nat): (b: seq<bit>)
    ensures |b| == 32 && forall p :: 0 <= p < 32 ==> b[p] == Shr(w, 31 - p) % 2
  {
    seq(32, p requires 0 <= p < 32 => Shr(w, 31 - p) % 2)
  }

  function Range(lo: nat, n: nat): (s: seq<nat>)
    ensures |s| == n && forall j :: 0 <= j < n ==> s[j] == lo + j
  {
    seq(n, j requires 0 <= j < n => lo + j)
  }

  function PartPositions(p: Part): (s: seq<nat>)
    requires GoodPart(p)
    ensures |s| == p.bits
    ensures forall j :: 0 <= j < |s| ==> s[j] == 8 * p.word + p.offset + j && s[j] < 64
  {
    Range(8 * p.word + p.offset, p.bits)
  }

  /** The bits a signal names, most significant first. */
  function Positions(parts: seq<Part>): (s: seq<nat>)
    requires GoodParts(parts)
    ensures forall j :: 0 <= j < |s| ==> s[j] < 64
  {
    if parts == [] then []
    else Positions(parts[..|parts| - 1]) + PartPositions(parts[|parts| - 1])
  }

  predicate Within(at: seq<nat>, n: nat) {
    forall j :: 0 <= j < |at| ==> at[j] < n
  }

  /** The number whose binary digits are the first n bits named by `at`. */
  function Value(b: seq<bit>, at: seq<nat>, n: nat): nat
    requires n <= |at| && Within(at, |b|)
  {
    if n == 0 then 0 else 2 * Value(b, at, n - 1) + b[at[n - 1]]
  }

  function NamedValue(b: seq<bit>, at: seq<nat>): nat
    requires Within(at, |b|)
  {
    Value(b, at, |at|)
  }

  function ToBits(v: nat, n: nat): (b: seq<bit>)
    ensures |b| == n
  {
    if n == 0 then [] else ToBits(v / 2, n - 1) + [v % 2]
  }

  // ---- Shifts ----

  lemma {:induction false} Pow2Monotone(a: nat, b: nat)
    requires a <= b
    ensures Pow2(a) <= Pow2(b)
  {
    if a < b { Pow2Monotone(a, b - 1); }
  }

  lemma {:induction false} ShlOfPow2(m: nat, n: nat)
    ensures Shl(Pow2(m), n) == Pow2(m + n)
  {
    if n > 0 { ShlOfPow2(m, n - 1); }
  }

  lemma {:induction false} ShlNext(v: nat, n: nat)
    ensures Shl(v + 1, n) == Shl(v, n) + Pow2(n)
  {
    if n > 0 { ShlNext(v, n - 1); }
  }

  lemma {:induction false} ShlMonotone(v: nat, w: nat, n: nat)
    requires v <= w
    ensures Shl(v, n) <= Shl(w, n)
  {
    if n > 0 { ShlMonotone(v, w, n - 1); }
  }

  /** A shifted value with room for n more bits. */
  lemma ShlBound(v: nat, m: nat, n: nat, e: nat)
    requires v < Pow2(m) && e < Pow2(n)
    ensures Shl(v, n) + e < Pow2(m + n)
  {
    ShlNext(v, n);
    ShlMonotone(v + 1, Pow2(m), n);
    ShlOfPow2(m, n);
  }

  lemma {:induction false} ShrHalf(w: nat, n: nat)
    ensures Shr(w, n) / 2 == Shr(w, n + 1)
  {
    if n > 0 { ShrHalf(w / 2, n - 1); }
  }

  lemma {:induction false} ShrSmall(w: nat, n: nat)
    requires w < 2 * Pow2(n)
    ensures Shr(w, n) == if w < Pow2(n) then 0 else 1
  {
    if n > 0 { ShrSmall(w / 2, n - 1); }
  }

  lemma Pow2Of32()
    ensures Pow2(8) == 0x100 && Pow2(16) == 0x1_0000 && Pow2(24) == 0x100_0000
    ensures Pow2(32) == U32_LIMIT
  {
    Pow2Plus8(0);
    Pow2Plus8(8);
    Pow2Plus8(16);
    Pow2Plus8(24);
  }

  lemma Pow2Plus8(n: nat)
    ensures Pow2(n + 8) == 0x100 * Pow2(n)
  {
    assert Pow2(n + 2) == 4 * Pow2(n);
    assert Pow2(n + 4) == 4 * Pow2(n + 2);
    assert Pow2(n + 6) == 4 * Pow2(n + 4);
    assert Pow2(n + 8) == 4 * Pow2(n + 6);
  }

  lemma Pow2Of64()
    ensures Pow2(64) == U64_LIMIT
  {
    Pow2Of32();
    Pow2Plus8(32);
    Pow2Plus8(40);
    Pow2Plus8(48);
    Pow2Plus8(56);
  }

  // ---- Widths ----

  lemma {:induction false} PartBitsSplit(a: seq<Part>, b: seq<Part>)
    ensures PartBits(a + b) == PartBits(a) + PartBits(b)
  {
    if a == [] {
      assert a + b == b;
    } else {
      assert (a + b)[1..] == a[1..] + b;
      PartBitsSplit(a[1..], b);
    }
  }

  lemma PartBitsPrefix(parts: seq<Part>, n: nat)
    requires n <= |parts|
    ensures PartBits(parts[..n]) <= PartBits(parts)
  {
    assert parts == parts[..n] + parts[n..];
    PartBitsSplit(parts[..n], parts[n..]);
  }

  lemma PartBitsLast(parts: seq<Part>)
    requires parts != []
    ensures PartBits(parts) == PartBits(parts[..|parts| - 1]) + parts[|parts| - 1].bits
  {
    var n := |parts| - 1;
    assert parts == parts[..n] + [parts[n]];
    PartBitsSplit(parts[..n], [parts[n]]);
  }

  lemma {:induction false} RawBound(data: seq<byte>, parts: seq<Part>)
    requires |data| == 8 && GoodParts(parts)
    ensures Raw(data, parts) < Pow2(PartBits(parts))
  {
    if parts != [] {
      var n := |parts| - 1;
      RawBound(data, parts[..n]);
      PartBitsLast(parts);
      ShlBound(Raw(data, parts[..n]), PartBits(parts[..n]), parts[n].bits, ExtractPart(data, parts[n]));
    }
  }

  lemma RawFits(data: seq<byte>, parts: seq<Part>, n: nat)
    requires |data| == 8 && GoodParts(parts) && PartBits(parts) <= 64 && n <= |parts|
    ensures Raw(data, parts[..n]) < U64_LIMIT
  {
    RawBound(data, parts[..n]);
    PartBitsPrefix(parts, n);
    Pow2Monotone(PartBits(parts[..n]), 64);
    Pow2Of64();
  }

  /** One more part never overflows 64 bits. */
  lemma RawStep(data: seq<byte>, parts: seq<Part>, i: nat)
    requires |data| == 8 && GoodParts(parts) && PartBits(parts) <= 64 && i < |parts|
    ensures Raw(data, parts[..i + 1]) ==
            Shl(Raw(data, parts[..i]), parts[i].bits) % U64_LIMIT + ExtractPart(data, parts[i])
  {
    assert parts[..i + 1][..i] == parts[..i];
    RawFits(data, parts, i + 1);
  }

  // ---- Values of bit strings ----

  lemma {:induction false} ValuePrefix(b: seq<bit>, x: seq<nat>, y: seq<nat>, n: nat)
    requires n <= |x| && Within(x, |b|) && Within(y, |b|)
    ensures Value(b, x + y, n) == Value(b, x, n)
  {
    if n > 0 { ValuePrefix(b, x, y, n - 1); }
  }

  lemma {:induction false} ValueAppend(b: seq<bit>, x: seq<nat>, y: seq<nat>, m: nat)
    requires m <= |y| && Within(x, |b|) && Within(y, |b|)
    ensures Value(b, x + y, |x| + m) == Shl(NamedValue(b, x), m) + Value(b, y, m)
  {
    if m == 0 {
      ValuePrefix(b, x, y, |x|);
    } else {
      ValueAppend(b, x, y, m - 1);
    }
  }

  lemma {:induction false} ValueBound(b: seq<bit>, at: seq<nat>, n: nat)
    requires n <= |at| && Within(at, |b|)
    ensures Value(b, at, n) < Pow2(n)
  {
    if n > 0 { ValueBound(b, at, n - 1); }
  }

  lemma {:induction false} ValueCongruent(a: seq<bit>, b: seq<bit>, at: seq<nat>, n: nat)
    requires n <= |at| && |a| == |b| && Within(at, |b|)
    requires forall j :: 0 <= j < |at| ==> a[at[j]] == b[at[j]]
    ensures Value(a, at, n) == Value(b, at, n)
  {
    if n > 0 { ValueCongruent(a, b, at, n - 1); }
  }

  lemma {:induction false} ToBitsOfValue(b: seq<bit>, at: seq<nat>, n: nat, j: nat)
    requires j < n <= |at| && Within(at, |b|)
    ensures ToBits(Value(b, at, n), n)[j] == b[at[j]]
  {
    if j < n - 1 { ToBitsOfValue(b, at, n - 1, j); }
  }

  lemma {:induction false} ValueOfToBits(b: seq<bit>, at: seq<nat>, v: nat, n: nat)
    requires n <= |at| && v < Pow2(n) && Within(at, |b|)
    requires forall j :: 0 <= j < n ==> b[at[j]] == ToBits(v, n)[j]
    ensures Value(b, at, n) == v
  {
    if n > 0 {
      assert forall j :: 0 <= j < n - 1 ==> ToBits(v, n)[j] == ToBits(v / 2, n - 1)[j];
      ValueOfToBits(b, at, v / 2, n - 1);
      assert ToBits(v, n)[n - 1] == v % 2;
    }
  }

  /** A digit of a value is the bit it was read from. */
  lemma {:induction false} DigitOf(b: seq<bit>, at: seq<nat>, n: nat, k: nat)
    requires k < n <= |at| && Within(at, |b|)
    ensures Shr(Value(b, at, n), n - 1 - k) % 2 == b[at[k]]
  {
    if k < n - 1 {
      DigitOf(b, at, n - 1, k);
      assert Value(b, at, n) / 2 == Value(b, at, n - 1);
    }
  }

  // ---- Extraction is the reference reading ----

  lemma {:induction false} LowIsBits(w: nat, s: nat, n: nat, b: seq<bit>, at: seq<nat>)
    requires n <= |at| && Within(at, |b|)
    requires forall j :: 0 <= j < n ==> b[at[j]] == Shr(w, s + n - 1 - j) % 2
    ensures Low(Shr(w, s), n) == Value(b, at, n)
    decreases n
  {
    if n > 0 {
      LowIsBits(w, s + 1, n - 1, b, at);
      ShrHalf(w, s);
      assert b[at[n - 1]] == Shr(w, s) % 2;
    }
  }

  lemma WordPart(w: nat, o: nat, n: nat, b: seq<bit>, at: seq<nat>)
    requires o + n <= 32 && |at| == n && Within(at, |b|)
    requires forall j :: 0 <= j < n ==> b[at[j]] == WordBits(w)[o + j]
    ensures Low(Shr(w, 32 - o - n), n) == NamedValue(b, at)
  {
    LowIsBits(w, 32 - o - n, n, b, at);
  }

  lemma PartIsBits(data: seq<byte>, p: Part)
    requires |data| == 8 && GoodPart(p)
    ensures ExtractPart(data, p) == NamedValue(FrameBits(data), PartPositions(p))
  {
    WordPart(ReadLe32(data, p.word), p.offset, p.bits, FrameBits(data), PartPositions(p));
  }

  lemma AppendPart(b: seq<bit>, x: seq<nat>, p: Part, raw: nat, v: nat)
    requires |b| == 64 && GoodPart(p) && Within(x, 64)
    requires raw == NamedValue(b, x) && v == NamedValue(b, PartPositions(p))
    ensures Shl(raw, p.bits) + v == NamedValue(b, x + PartPositions(p))
  {
    ValueAppend(b, x, PartPositions(p), p.bits);
  }

  lemma {:induction false} RawFromParts(data: seq<byte>, parts: seq<Part>, b: seq<bit>)
    requires |data| == 8 && GoodParts(parts) && |b| == 64
    requires forall p :: p in parts ==> ExtractPart(data, p) == NamedValue(b, PartPositions(p))
    ensures Raw(data, parts) == NamedValue(b, Positions(parts))
  {
    if parts != [] {
      var n := |parts| - 1;
      var front, last := parts[..n], parts[n];
      assert last in parts && forall p :: p in front ==> p in parts;
      RawFromParts(data, front, b);
      AppendPart(b, Positions(front), last, Raw(data, front), ExtractPart(data, last));
    }
  }

  /** A signal's raw value is the number whose binary digits are the bits it names,
      most significant first. */
  lemma RawIsNamedBits(data: seq<byte>, parts: seq<Part>)
    requires |data| == 8 && GoodParts(parts)
    ensures Raw(data, parts) == NamedValue(FrameBits(data), Positions(parts))
  {
    forall p | p in parts
      ensures ExtractPart(data, p) == NamedValue(FrameBits(data), PartPositions(p))
    {
      PartIsBits(data, p);
    }
    RawFromParts(data, parts, FrameBits(data));
  }

  lemma {:induction false} PositionCount(parts: seq<Part>)
    requires GoodParts(parts)
    ensures |Positions(parts)| == PartBits(parts)
  {
    if parts != [] {
      PositionCount(parts[..|parts| - 1]);
      PartBitsLast(parts);
    }
  }

  /** It depends on no other bit. */
  lemma RawDependsOnNamedBits(a: seq<byte>, b: seq<byte>, parts: seq<Part>)
    requires |a| == 8 && |b| == 8 && GoodParts(parts)
    requires forall j :: 0 <= j < |Positions(parts)| ==>
               FrameBits(a)[Positions(parts)[j]] == FrameBits(b)[Positions(parts)[j]]
    ensures Raw(a, parts) == Raw(b, parts)
  {
    RawIsNamedBits(a, parts);
    RawIsNamedBits(b, parts);
    ValueCongruent(FrameBits(a), FrameBits(b), Positions(parts), |Positions(parts)|);
  }

  // ---- The inverse: writing a value into the named bits ----

  /** Where byte k's most significant bit sits: words are little-endian. */
  function ByteAt(k: nat): (q: nat)
    requires k < 8
    ensures q + 8 <= 64
  {
    32 * (k / 4) + 24 - 8 * (k % 4)
  }

  function ByteOf(b: seq<bit>, k: nat): byte
    requires |b| == 64 && k < 8
  {
    ValueBound(b, Range(ByteAt(k), 8), 8);
    Pow2Of32();
    NamedValue(b, Range(ByteAt(k), 8))
  }

  function BitsToFrame(b: seq<bit>): (data: seq<byte>)
    requires |b| == 64
    ensures |data| == 8 && forall k :: 0 <= k < 8 ==> data[k] == ByteOf(b, k)
  {
    seq(8, k requires 0 <= k < 8 => ByteOf(b, k))
  }

  lemma RangeSplit(b: seq<bit>, o: nat, n: nat)
    requires o + n + 8 <= |b|
    ensures NamedValue(b, Range(o, n + 8)) == 0x100 * NamedValue(b, Range(o, n)) + NamedValue(b, Range(o + n, 8))
  {
    ValueAppend(b, Range(o, n), Range(o + n, 8), 8);
    assert Range(o, n) + Range(o + n, 8) == Range(o, n + 8);
    Shl8(NamedValue(b, Range(o, n)));
  }

  lemma Shl8(v: nat)
    ensures Shl(v, 8) == 0x100 * v
  {
    assert Shl(v, 1) == 2 * v;
    assert Shl(v, 2) == 2 * Shl(v, 1);
    assert Shl(v, 4) == 4 * Shl(v, 2);
    assert Shl(v, 6) == 4 * Shl(v, 4);
    assert Shl(v, 8) == 4 * Shl(v, 6);
  }

  lemma WordOfBits(b: seq<bit>, w: nat)
    requires |b| == 64 && w < 2
    ensures ReadLe32(BitsToFrame(b), 4 * w) == NamedValue(b, Range(32 * w, 32))
  {
    var o := 32 * w;
    RangeSplit(b, o, 24);
    RangeSplit(b, o, 16);
    RangeSplit(b, o, 8);
    assert ByteAt(4 * w) == o + 24 && ByteAt(4 * w + 1) == o + 16;
    assert ByteAt(4 * w + 2) == o + 8 && ByteAt(4 * w + 3) == o;
  }

  lemma WordBitsOfValue(b: seq<bit>, o: nat)
    requires o + 32 <= |b|
    ensures WordBits(NamedValue(b, Range(o, 32))) == b[o..o + 32]
  {
    forall p | 0 <= p < 32
      ensures WordBits(NamedValue(b, Range(o, 32)))[p] == b[o + p]
    {
      DigitOf(b, Range(o, 32), 32, p);
    }
  }

  lemma FrameBitsOfBits(b: seq<bit>)
    requires |b| == 64
    ensures FrameBits(BitsToFrame(b)) == b
  {
    WordOfBits(b, 0);
    WordOfBits(b, 1);
    WordBitsOfValue(b, 0);
    WordBitsOfValue(b, 32);
    assert b == b[0..32] + b[32..64];
  }

  function BytePart(k: nat): (p: Part)
    requires k < 8
    ensures GoodPart(p) && 8 * p.word + p.offset == ByteAt(k) && p.bits == 8
  {
    Part(4 * (k / 4), 24 - 8 * (k % 4), 8)
  }

  lemma BitsOfFrameBits(data: seq<byte>)
    requires |data| == 8
    ensures BitsToFrame(FrameBits(data)) == data
  {
    forall k | 0 <= k < 8
      ensures ByteOf(FrameBits(data), k) == data[k]
    {
      PartIsBits(data, BytePart(k));
      ByteExtract(data, k);
    }
  }

  lemma ByteExtract(data: seq<byte>, k: nat)
    requires |data| == 8 && k < 8
    ensures ExtractPart(data, BytePart(k)) == data[k]
  {
    var w := 4 * (k / 4);
    var ds := data[w..w + 4];
    ByteIn(ds, k % 4);
    assert ds[k % 4] == data[k];
    assert LittleEndian(ds) == Word(ds[0], ds[1], ds[2], ds[3]) by {
      assert LittleEndian(ds[2..]) == ds[2] + 0x100 * LittleEndian(ds[3..]);
      assert ds[1..][1..] == ds[2..] && ds[2..][1..] == ds[3..] && ds[3..][1..] == [];
    }
  }

  function LittleEndian(ds: seq<byte>): nat {
    if ds == [] then 0 else ds[0] + 0x100 * LittleEndian(ds[1..])
  }

  lemma {:induction false} ByteIn(ds: seq<byte>, i: nat)
    requires i < |ds|
    ensures Low(Shr(LittleEndian(ds), 8 * i), 8) == ds[i]
  {
    var rest := LittleEndian(ds[1..]);
    Shl8(rest);
    Pow2Of32();
    if i == 0 {
      LowOf(ds[0], rest, 8);
    } else {
      ShrOf(ds[0], rest, 8, 8 * (i - 1));
      ByteIn(ds[1..], i - 1);
    }
  }

  lemma {:induction false} LowOf(d: nat, rest: nat, n: nat)
    requires d < Pow2(n)
    ensures Low(d + Shl(rest, n), n) == d
  {
    if n > 0 {
      LowOf(d / 2, rest, n - 1);
      assert (d + Shl(rest, n)) / 2 == d / 2 + Shl(rest, n - 1);
    }
  }

  lemma {:induction false} ShrOf(d: nat, rest: nat, n: nat, k: nat)
    requires d < Pow2(n)
    ensures Shr(d + Shl(rest, n), n + k) == Shr(rest, k)
  {
    if n > 0 {
      ShrOf(d / 2, rest, n - 1, k);
      assert (d + Shl(rest, n)) / 2 == d / 2 + Shl(rest, n - 1);
    }
  }

  function Overwrite(b: seq<bit>, at: seq<nat>, v: seq<bit>): (r: seq<bit>)
    requires |at| == |v| && Within(at, |b|)
    ensures |r| == |b|
  {
    if at == [] then b
    else
      var n := |at| - 1;
      Overwrite(b, at[..n], v[..n])[at[n] := v[n]]
  }

  predicate Distinct(at: seq<nat>) {
    forall i, j :: 0 <= i < j < |at| ==> at[i] != at[j]
  }

  lemma {:induction false} OverwriteReads(b: seq<bit>, at: seq<nat>, v: seq<bit>)
    requires |at| == |v| && Within(at, |b|) && Distinct(at)
    ensures forall j :: 0 <= j < |at| ==> Overwrite(b, at, v)[at[j]] == v[j]
    ensures forall q :: 0 <= q < |b| && q !in at ==> Overwrite(b, at, v)[q] == b[q]
  {
    if at != [] {
      var n := |at| - 1;
      OverwriteReads(b, at[..n], v[..n]);
      forall q | 0 <= q < |b| && q !in at
        ensures Overwrite(b, at, v)[q] == b[q]
      {
        assert q != at[n] && q !in at[..n];
      }
      forall j | 0 <= j < n
        ensures Overwrite(b, at, v)[at[j]] == v[j]
      {
        assert at[..n][j] == at[j] && v[..n][j] == v[j] && at[j] != at[n];
      }
    }
  }

  /** Write `v` into the bits that `parts` names. */
  function Inject(data: seq<byte>, parts: seq<Part>, v: nat): (r: seq<byte>)
    requires |data| == 8 && GoodParts(parts)
    ensures |r| == 8
  {
    var at := Positions(parts);
    BitsToFrame(Overwrite(FrameBits(data), at, ToBits(v, |at|)))
  }

  /** For parts that do not overlap, extraction undoes injection, every value of the
      signal's width can be stored, and no other bit of the frame moves. */
  lemma ExtractUndoesInject(data: seq<byte>, parts: seq<Part>, v: nat)
    requires |data| == 8 && GoodParts(parts) && Distinct(Positions(parts))
    requires v < Pow2(PartBits(parts))
    ensures Raw(Inject(data, parts, v), parts) == v
    ensures forall q :: 0 <= q < 64 && q !in Positions(parts) ==>
              FrameBits(Inject(data, parts, v))[q] == FrameBits(data)[q]
  {
    var at := Positions(parts);
    PositionCount(parts);
    var digits := ToBits(v, |at|);
    var b := Overwrite(FrameBits(data), at, digits);
    OverwriteReads(FrameBits(data), at, digits);
    FrameBitsOfBits(b);
    RawIsNamedBits(BitsToFrame(b), parts);
    ValueOfToBits(b, at, v, |at|);
  }

  /** Injecting a frame's own value gives the frame back. */
  lemma InjectUndoesExtract(data: seq<byte>, parts: seq<Part>)
    requires |data| == 8 && GoodParts(parts) && Distinct(Positions(parts))
    ensures Inject(data, parts, Raw(data, parts)) == data
  {
    RawIsNamedBits(data, parts);
    OverwriteSelf(FrameBits(data), Positions(parts));
    BitsOfFrameBits(data);
  }

  lemma OverwriteSelf(b: seq<bit>, at: seq<nat>)
    requires Within(at, |b|) && Distinct(at)
    ensures Overwrite(b, at, ToBits(NamedValue(b, at), |at|)) == b
  {
    var digits := ToBits(NamedValue(b, at), |at|);
    OverwriteReads(b, at, digits);
    var r := Overwrite(b, at, digits);
    forall q | 0 <= q < |b|
      ensures r[q] == b[q]
    {
      if q in at {
        var j :| 0 <= j < |at| && at[j] == q;
        ToBitsOfValue(b, at, |at|, j);
      }
    }
  }

  // ---- The signed reading ----

  /** The signed reading is the one two's complement value of the raw bits, for every
      width from 1 to 64, even though widths 63 and 64 reach the edges of a machine word. */
  lemma SignedReadingIsTwosComplement(raw: nat, width: nat, u: int)
    requires 1 <= width <= 64 && raw < Pow2(width)
    ensures var v, half: int := Reading(raw, width, true), Pow2(width - 1);
            && -half <= v < half
            && (v - raw) % Pow2(width) == 0
            && (-half <= u < half && (u - raw) % Pow2(width) == 0 ==> u == v)
  {
    var half: int := Pow2(width - 1);
    Pow2Monotone(width, 64);
    Pow2Of64();
    ShrSmall(raw, width - 1);
    var v := Reading(raw, width, true);
    if raw >= half {
      assert v == raw - 2 * half;
      MultipleOf(2 * half, -1);
    }
    if -half <= u < half && (u - raw) % (2 * half) == 0 {
      CongruentInRange(u, v, raw, half);
    }
  }

  lemma MultipleOf(m: int, k: int)
    requires m > 0
    ensures (m * k) % m == 0
  {
    var q, r := (m * k) / m, (m * k) % m;
    assert m * k == m * q + r;
    assert m * (k - q) == r;
    if k > q {
      AtLeast(m, k - q);
    } else if k < q {
      AtLeast(m, q - k);
    }
  }

  lemma AtLeast(d: int, k: int)
    requires d >= 0 && k >= 1
    ensures d * k >= d
  {
  }

  lemma CongruentInRange(u: int, v: int, raw: int, half: int)
    requires half > 0 && -half <= u < half && -half <= v < half
    requires (u - raw) % (2 * half) == 0 && (v - raw) % (2 * half) == 0
    ensures u == v
  {
    var m := 2 * half;
    var a, b := (u - raw) / m, (v - raw) / m;
    assert u - raw == m * a && v - raw == m * b;
    assert u - v == m * (a - b) && v - u == m * (b - a);
    if a > b {
      AtLeast(m, a - b);
    } else if a < b {
      AtLeast(m, b - a);
    }
  }
}
