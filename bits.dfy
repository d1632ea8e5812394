/**
  * The bit-stream helpers of the GNUID codec: bytes are spread into bits
  * least significant bit first, bits are packed back into bytes, and
  * fixed-width little-endian fields are read from and written into a bit
  * array.
  */
module Bits {
  import opened Common
  import opened Base64

  /** The source keeps bits as the numbers 0 and 1. */
  type Bit = b: int | 0 <= b <= 1

  /** Bit i of `value` as `(value >> i) & 1` yields it (two's complement for negative values). */
  function BitOfInt(value: int, i: nat): Bit {
    (value / Pow2(i)) % 2
  }

  /** The bits of `bytes`, byte by byte, least significant bit first. */
  function BitsOf(bytes: seq<byte>): (bits: seq<Bit>)
    ensures |bits| == 8 * |bytes|
  {
    seq(8 * |bytes|, i requires 0 <= i < 8 * |bytes| => BitOfInt(bytes[i / 8] as int, i % 8))
  }

  /** `bytesToBits`: pushes bit b of byte i for every i, then every b. */
  method BytesToBits(bytes: seq<byte>) returns (bits: seq<Bit>)
    ensures bits == BitsOf(bytes)
  {
    bits := [];
    var i := 0;
    while i < |bytes|
      invariant 0 <= i <= |bytes|
      invariant |bits| == 8 * i
      invariant forall j :: 0 <= j < |bits| ==> bits[j] == BitOfInt(bytes[j / 8] as int, j % 8)
    {
      var b := 0;
      while b < 8
        invariant 0 <= b <= 8
        invariant |bits| == 8 * i + b
        invariant forall j :: 0 <= j < |bits| ==> bits[j] == BitOfInt(bytes[j / 8] as int, j % 8)
      {
        DivMod8(i, b);
        bits := bits + [BitOfInt(bytes[i] as int, b)];
        b := b + 1;
      }
      i := i + 1;
    }
  }

  lemma DivMod8(i: nat, b: nat)
    requires b < 8
    ensures (8 * i + b) / 8 == i && (8 * i + b) % 8 == b
  {
  }

  // ── Little-endian bit fields ───────────────────────────────────────

  /** Bit p of `bits`; reading past the end gives `undefined`, which the source treats as 0. */
  function BitAt(bits: seq<Bit>, p: nat): Bit {
    if p < |bits| then bits[p] else 0
  }

  /** The value `extractBits(bits, start, count)` assembles: bit start+i weighs 2^i; bits past the end count 0. */
  function ExtractValue(bits: seq<Bit>, start: nat, count: nat): nat {
    if count == 0 then 0
    else ExtractValue(bits, start, count - 1) + BitAt(bits, start + count - 1) * Pow2(count - 1)
  }

  lemma {:induction false} ExtractBound(bits: seq<Bit>, start: nat, count: nat)
    ensures ExtractValue(bits, start, count) < Pow2(count)
  {
    if count > 0 {
      ExtractBound(bits, start, count - 1);
    }
  }

  /** `extractBits` */
  method ExtractBits(bits: seq<Bit>, start: nat, count: nat) returns (val: nat)
    ensures val == ExtractValue(bits, start, count)
  {
    val := 0;
    var i := 0;
    while i < count
      invariant 0 <= i <= count
      invariant val == ExtractValue(bits, start, i)
    {
      if start + i < |bits| {
        val := val + bits[start + i] * Pow2(i);
      }
      i := i + 1;
    }
  }

  lemma {:induction false} ExtractPastEnd(bits: seq<Bit>, start: nat, k: nat, count: nat)
    requires |bits| <= start + k && k <= count
    ensures ExtractValue(bits, start, count) == ExtractValue(bits, start, k)
  {
    if count > k {
      ExtractPastEnd(bits, start, k, count - 1);
    }
  }

  // ── Packing bits into bytes ────────────────────────────────────────

  /** `v | (b << pos)` for one bit b. */
  function OrBit(v: nat, b: Bit, pos: nat): nat {
    if b == 1 && BitOfInt(v, pos) == 0 then v + Pow2(pos) else v
  }

  lemma Pow2Eight()
    ensures Pow2(8) == 256
  {
    assert Pow2(4) == 16;
  }

  /** Byte j of `bitsToBytes(bits, n)`: bits 8j .. 8j+7, least significant first. */
  function PackedByte(bits: seq<Bit>, j: nat): byte {
    ExtractBound(bits, 8 * j, 8);
    Pow2Eight();
    ToByte(ExtractValue(bits, 8 * j, 8))
  }

  /** The n bytes `bitsToBytes(bits, n)` returns. */
  function PackedBytes(bits: seq<Bit>, n: nat): (bytes: seq<byte>)
    ensures |bytes| == n
  {
    seq(n, j requires 0 <= j < n => PackedByte(bits, j))
  }

  /** How many bits of byte j the loop has ORed in before bit i. */
  function Filled(i: nat, j: nat): (k: nat)
    ensures k <= 8
  {
    if i <= 8 * j then 0 else if i >= 8 * j + 8 then 8 else i - 8 * j
  }

  lemma DivSmall(v: int, m: int)
    requires 0 <= v < m
    ensures v / m == 0 && v % m == v
  {
  }

  /** ORing bit b of byte j into it extends the bits already there by one. */
  lemma PackStep(bits: seq<Bit>, j: nat, b: nat)
    requires b < 8 && 8 * j + b < |bits|
    ensures OrBit(ExtractValue(bits, 8 * j, b), bits[8 * j + b], b) == ExtractValue(bits, 8 * j, b + 1)
  {
    var v := ExtractValue(bits, 8 * j, b);
    ExtractBound(bits, 8 * j, b);
    DivSmall(v, Pow2(b));
  }

  /** `bitsToBytes`: bit i is ORed into byte i/8 at position i%8, for the bits that fit. */
  method BitsToBytes(bits: seq<Bit>, numBytes: nat) returns (bytes: seq<byte>)
    ensures bytes == PackedBytes(bits, numBytes)
  {
    var a := new nat[numBytes](_ => 0);
    var i := 0;
    while i < |bits| && i < numBytes * 8
      invariant 0 <= i <= numBytes * 8 && i <= |bits|
      invariant forall j :: 0 <= j < numBytes ==> a[j] == ExtractValue(bits, 8 * j, Filled(i, j))
    {
      var byteIdx := i / 8;
      var bitIdx := i % 8;
      assert i == 8 * byteIdx + bitIdx;
      PackStep(bits, byteIdx, bitIdx);
      assert Filled(i, byteIdx) == bitIdx && Filled(i + 1, byteIdx) == bitIdx + 1;
      assert forall j :: 0 <= j < numBytes && j != byteIdx ==> Filled(i + 1, j) == Filled(i, j);
      a[byteIdx] := OrBit(a[byteIdx], bits[i], bitIdx);
      i := i + 1;
    }
    forall j | 0 <= j < numBytes
      ensures a[j] == ExtractValue(bits, 8 * j, 8)
    {
      if Filled(i, j) < 8 {
        ExtractPastEnd(bits, 8 * j, Filled(i, j), 8);
      }
    }
    bytes := seq(numBytes, j requires 0 <= j < numBytes reads a => PackedByte(bits, j));
    assert forall j :: 0 <= j < numBytes ==> bytes[j] == PackedByte(bits, j);
  }

  lemma ModUnique(v: int, m: int, a: int, b: int)
    requires m > 0 && v == a * m + b && 0 <= b < m
    ensures v % m == b
  {
    var q := v / m;
    assert (a - q) * m == v % m - b;
    MulWithin(a - q, m);
  }

  lemma MulWithin(d: int, m: int)
    requires m > 0 && -m < d * m < m
    ensures d == 0
  {
    if d >= 1 {
      MulAtLeast(d, m);
    } else if d <= -1 {
      MulAtLeast(-d, m);
    }
  }

  lemma MulAtLeast(d: int, m: int)
    requires d >= 1 && m > 0
    ensures d * m >= m
  {
  }

  lemma ModPow2Step(v: int, n: nat)
    requires n >= 1
    ensures v % Pow2(n) == v % Pow2(n - 1) + BitOfInt(v, n - 1) * Pow2(n - 1)
  {
    var p := Pow2(n - 1);
    var q := v / p;
    var r := v % p;
    assert v == q * p + r;
    assert q == 2 * (q / 2) + q % 2;
    assert v == (q / 2) * (2 * p) + ((q % 2) * p + r);
    ModUnique(v, 2 * p, q / 2, (q % 2) * p + r);
  }

  /** A field whose bits are those of x holds x modulo 2^count. */
  lemma {:induction false} ExtractMatching(bits: seq<Bit>, start: nat, count: nat, x: int)
    requires forall m :: 0 <= m < count ==> BitAt(bits, start + m) == BitOfInt(x, m)
    ensures ExtractValue(bits, start, count) == x % Pow2(count)
  {
    if count > 0 {
      ExtractMatching(bits, start, count - 1, x);
      assert BitAt(bits, start + (count - 1)) == BitOfInt(x, count - 1);
      ModPow2Step(x, count);
    }
  }

  /** Packing the bits of some bytes gives the bytes back. */
  lemma PackBitsOf(bytes: seq<byte>)
    ensures PackedBytes(BitsOf(bytes), |bytes|) == bytes
  {
    forall j | 0 <= j < |bytes|
      ensures PackedBytes(BitsOf(bytes), |bytes|)[j] == bytes[j]
    {
      PackedByteOf(bytes, j);
    }
  }

  lemma PackedByteOf(bytes: seq<byte>, j: nat)
    requires j < |bytes|
    ensures PackedByte(BitsOf(bytes), j) == bytes[j]
  {
    var bits := BitsOf(bytes);
    var x := bytes[j] as int;
    Pow2Eight();
    forall m | 0 <= m < 8
      ensures BitAt(bits, 8 * j + m) == BitOfInt(x, m)
    {
      assert (8 * j + m) / 8 == j && (8 * j + m) % 8 == m;
    }
    ExtractMatching(bits, 8 * j, 8, x);
    DivSmall(x, 256);
    var p := PackedByte(bits, j);
    assert p as int == x;
    ByteOfInt(p);
    ByteOfInt(bytes[j]);
  }

  lemma Pow2Add(a: nat, b: nat)
    ensures Pow2(a + b) == Pow2(a) * Pow2(b)
  {
    if a > 0 {
      Pow2Add(a - 1, b);
    }
  }

  lemma ModAddMultiple(x: int, c: int, m: int)
    requires m > 0
    ensures (x + c * m) % m == x % m
  {
    ModUnique(x + c * m, m, x / m + c, x % m);
  }

  lemma MulRegroup(b: int, pm: int, pr: int)
    ensures b * (pm * pr) == (b * pr) * pm
  {
  }

  /** The low m bits of a field are the field's first m bits. */
  lemma {:induction false} ExtractModPrefix(bits: seq<Bit>, start: nat, count: nat, m: nat)
    requires m <= count
    ensures ExtractValue(bits, start, count) % Pow2(m) == ExtractValue(bits, start, m)
  {
    if count == m {
      ExtractBound(bits, start, m);
      DivSmall(ExtractValue(bits, start, m), Pow2(m));
    } else {
      ExtractModPrefix(bits, start, count - 1, m);
      var prev := ExtractValue(bits, start, count - 1);
      var b := BitAt(bits, start + count - 1);
      var pm, pr := Pow2(m), Pow2(count - 1 - m);
      Pow2Add(m, count - 1 - m);
      assert Pow2(count - 1) == pm * pr;
      MulRegroup(b, pm, pr);
      ModAddMultiple(prev, b * pr, pm);
    }
  }

  /** Bit m of a field value is the field's bit m. */
  lemma BitOfExtract(bits: seq<Bit>, start: nat, count: nat, m: nat)
    requires m < count
    ensures BitOfInt(ExtractValue(bits, start, count), m) == BitAt(bits, start + m)
  {
    var v := ExtractValue(bits, start, count);
    ExtractModPrefix(bits, start, count, m);
    ExtractModPrefix(bits, start, count, m + 1);
    ModPow2Step(v, m + 1);
  }

  lemma BitOfPackedByte(bits: seq<Bit>, j: nat, b: nat)
    requires b < 8
    ensures BitOfInt(PackedByte(bits, j) as int, b) == BitAt(bits, 8 * j + b)
  {
    PackedByteValue(bits, j);
    BitOfExtract(bits, 8 * j, 8, b);
  }

  lemma PackedByteValue(bits: seq<Bit>, j: nat)
    ensures PackedByte(bits, j) as int == ExtractValue(bits, 8 * j, 8)
  {
    Pow2Eight();
    ExtractBound(bits, 8 * j, 8);
  }

  /** Spreading packed bytes into bits gives back a bit stream that filled them exactly. */
  lemma BitsOfPacked(bits: seq<Bit>, n: nat)
    requires |bits| == 8 * n
    ensures BitsOf(PackedBytes(bits, n)) == bits
  {
    var r := BitsOf(PackedBytes(bits, n));
    Pow2Eight();
    forall i | 0 <= i < |bits|
      ensures r[i] == bits[i]
    {
      var j, b := i / 8, i % 8;
      assert i == 8 * j + b;
      BitOfPackedByte(bits, j, b);
    }
  }

  /** The bit array after `setBits(bits, start, count, value)`. */
  function WithBits(bits: seq<Bit>, start: nat, count: nat, value: int): (r: seq<Bit>)
    requires start + count <= |bits|
    ensures |r| == |bits|
  {
    seq(|bits|, k requires 0 <= k < |bits| => FieldBit(bits, start, count, value, k))
  }

  function FieldBit(bits: seq<Bit>, start: nat, count: nat, value: int, k: nat): Bit
    requires k < |bits|
  {
    if start <= k < start + count then BitOfInt(value, k - start) else bits[k]
  }

  /** `setBits` */
  method SetBits(bits: array<Bit>, start: nat, count: nat, value: int)
    requires start + count <= bits.Length
    modifies bits
    ensures bits[..] == WithBits(old(bits[..]), start, count, value)
  {
    var i := 0;
    while i < count
      invariant 0 <= i <= count
      invariant bits[..] == WithBits(old(bits[..]), start, i, value)
    {
      bits[start + i] := BitOfInt(value, i);
      i := i + 1;
    }
  }

  /** Reading a field back after writing it gives the value modulo 2^count. */
  lemma ExtractAfterSet(bits: seq<Bit>, start: nat, count: nat, value: int)
    requires start + count <= |bits|
    ensures ExtractValue(WithBits(bits, start, count, value), start, count) == value % Pow2(count)
    ensures 0 <= value < Pow2(count) ==> ExtractValue(WithBits(bits, start, count, value), start, count) == value
  {
    var w := WithBits(bits, start, count, value);
    forall m | 0 <= m < count
      ensures BitAt(w, start + m) == BitOfInt(value, m)
    {
    }
    ExtractMatching(w, start, count, value);
    if 0 <= value < Pow2(count) {
      DivSmall(value, Pow2(count));
    }
  }

  /** Writing one field leaves a field that does not overlap it as it was. */
  lemma {:induction false} ExtractDisjoint(bits: seq<Bit>, s1: nat, c1: nat, value: int, s2: nat, c2: nat)
    requires s1 + c1 <= |bits|
    requires s2 + c2 <= s1 || s1 + c1 <= s2
    ensures ExtractValue(WithBits(bits, s1, c1, value), s2, c2) == ExtractValue(bits, s2, c2)
  {
    if c2 > 0 {
      ExtractDisjoint(bits, s1, c1, value, s2, c2 - 1);
    }
  }
}
