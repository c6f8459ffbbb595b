/** Option, the stock "present or absent" wrapper; None stands for a NULL pointer or a missing result. */
module Wrappers {
  datatype Option<T> = None | Some(value: T)
}

/**
 * Big-endian field decoding over a byte buffer (src/ICCProfile.c:18-72).
 * Pointers are offsets into the buffer; every reader asks that the bytes it reads exist,
 * which is what the C code leaves to its callers.
 */
module Bytes {

  type byte = x: int | 0 <= x < 0x100
  type u16 = x: int | 0 <= x < 0x1_0000
  type u32 = x: int | 0 <= x < 0x1_0000_0000
  type i32 = x: int | -0x8000_0000 <= x < 0x8000_0000
  type u64 = x: int | 0 <= x < 0x1_0000_0000_0000_0000

  /** make_signature: four bytes packed most significant first. */
  function MakeSignature(a: byte, b: byte, c: byte, d: byte): u32
  {
    ((a as int * 0x100 + b) * 0x100 + c) * 0x100 + d
  }

  /** read_big_u16: the byte at off is the high byte, the next one the low byte. */
  function ReadBigU16(buf: seq<byte>, off: nat): u16
    requires off + 2 <= |buf|
  {
    buf[off] as int * 0x100 + buf[off + 1]
  }

  /** read_big_u32: the two u16 halves at off and off + 2, high half first. */
  function ReadBigU32(buf: seq<byte>, off: nat): u32
    requires off + 4 <= |buf|
  {
    ReadBigU16(buf, off) * 0x1_0000 + ReadBigU16(buf, off + 2)
  }

  /** read_big_i32: the u32 reinterpreted as two's complement. */
  function ReadBigI32(buf: seq<byte>, off: nat): i32
    requires off + 4 <= |buf|
  {
    var u := ReadBigU32(buf, off);
    if u < 0x8000_0000 then u else u - 0x1_0000_0000
  }

  /** read_big_u64: the u32 at off is the high half, the u32 at off + 4 the low half. */
  function ReadBigU64(buf: seq<byte>, off: nat): u64
    requires off + 8 <= |buf|
  {
    ReadBigU32(buf, off) * 0x1_0000_0000 + ReadBigU32(buf, off + 4)
  }

  /** Euclidean division by 2^8, 2^16 or 2^24 is unique: a quotient and a remainder below m are x / m and x % m. */
  lemma DivModOf(x: int, q: int, r: int, m: int)
    requires m == 0x100 || m == 0x1_0000 || m == 0x100_0000
    requires 0 <= r < m && x == q * m + r
    ensures x / m == q && x % m == r
  {
    if m == 0x100 {
      assert x == q * 0x100 + r;
    } else if m == 0x1_0000 {
      assert x == q * 0x1_0000 + r;
    } else {
      assert x == q * 0x100_0000 + r;
    }
  }

  /** Each byte of a signature can be read back from its place: the first is the most significant. */
  lemma MakeSignatureBytes(a: byte, b: byte, c: byte, d: byte)
    ensures MakeSignature(a, b, c, d) / 0x100_0000 == a
    ensures MakeSignature(a, b, c, d) / 0x1_0000 % 0x100 == b
    ensures MakeSignature(a, b, c, d) / 0x100 % 0x100 == c
    ensures MakeSignature(a, b, c, d) % 0x100 == d
  {
    var s := MakeSignature(a, b, c, d);
    DivModOf(s, a, b * 0x1_0000 + c * 0x100 + d, 0x100_0000);
    DivModOf(s, a * 0x100 + b, c * 0x100 + d, 0x1_0000);
    DivModOf(a * 0x100 + b, a, b, 0x100);
    DivModOf(s, (a * 0x100 + b) * 0x100 + c, d, 0x100);
    DivModOf((a * 0x100 + b) * 0x100 + c, a * 0x100 + b, c, 0x100);
  }

  /** The two bytes of a u16 are its quotient and remainder by 256. */
  lemma ReadBigU16Bytes(buf: seq<byte>, off: nat)
    requires off + 2 <= |buf|
    ensures ReadBigU16(buf, off) / 0x100 == buf[off] && ReadBigU16(buf, off) % 0x100 == buf[off + 1]
  {
  }

  /**
   * read_big_u32 packs its four bytes exactly as make_signature does, so comparing a read
   * signature against make_signature compares the bytes; its halves are the two u16 reads.
   */
  lemma ReadBigU32Layout(buf: seq<byte>, off: nat)
    requires off + 4 <= |buf|
    ensures ReadBigU32(buf, off) == MakeSignature(buf[off], buf[off + 1], buf[off + 2], buf[off + 3])
    ensures ReadBigU32(buf, off) / 0x1_0000 == ReadBigU16(buf, off)
    ensures ReadBigU32(buf, off) % 0x1_0000 == ReadBigU16(buf, off + 2)
  {
  }

  /** read_big_i32 is the one i32 congruent to the u32 modulo 2^32; it is negative iff the top bit is set. */
  lemma ReadBigI32TwosComplement(buf: seq<byte>, off: nat)
    requires off + 4 <= |buf|
    ensures (ReadBigI32(buf, off) - ReadBigU32(buf, off)) % 0x1_0000_0000 == 0
    ensures ReadBigI32(buf, off) < 0 <==> buf[off] >= 0x80
  {
  }

  lemma ReadBigU64Halves(buf: seq<byte>, off: nat)
    requires off + 8 <= |buf|
    ensures ReadBigU64(buf, off) / 0x1_0000_0000 == ReadBigU32(buf, off)
    ensures ReadBigU64(buf, off) % 0x1_0000_0000 == ReadBigU32(buf, off + 4)
  {
  }

  /**
   * read_big_fixed: an s15.16 value, the i32 scaled by 2^-16. The C code computes this in
   * single precision; the model keeps the exact rational value.
   */
  function ReadBigFixed(buf: seq<byte>, off: nat): (r: real)
    requires off + 4 <= |buf|
    ensures r * 65536.0 == ReadBigI32(buf, off) as real
    ensures -32768.0 <= r < 32768.0
  {
    ReadBigI32(buf, off) as real / 65536.0
  }

  /** skcms_ICCDateTime: six big-endian u16 fields. */
  datatype DateTime = DateTime(year: u16, month: u16, day: u16, hour: u16, minute: u16, second: u16)

  const ZeroDateTime := DateTime(0, 0, 0, 0, 0, 0)

  /** read_big_date_time: six consecutive u16 fields at offsets 0, 2, ..., 10. */
  function ReadBigDateTime(buf: seq<byte>, off: nat): DateTime
    requires off + 12 <= |buf|
  {
    DateTime(ReadBigU16(buf, off), ReadBigU16(buf, off + 2), ReadBigU16(buf, off + 4),
             ReadBigU16(buf, off + 6), ReadBigU16(buf, off + 8), ReadBigU16(buf, off + 10))
  }

  // Encoders: the writers that the readers above invert.

  function EncodeU16(v: u16): (s: seq<byte>)
    ensures |s| == 2 && ReadBigU16(s, 0) == v
  {
    [v / 0x100, v % 0x100]
  }

  function EncodeU32(v: u32): (s: seq<byte>)
    ensures |s| == 4 && ReadBigU32(s, 0) == v
  {
    var s := EncodeU16(v / 0x1_0000) + EncodeU16(v % 0x1_0000);
    assert ReadBigU16(s, 2) == v % 0x1_0000 by { assert s[2..] == EncodeU16(v % 0x1_0000); }
    s
  }

  /** The u32 with the same 32 bits as v: congruent modulo 2^32, with the top bit set exactly when v is negative. */
  function TwosComplement(v: i32): (u: u32)
    ensures (u - v) % 0x1_0000_0000 == 0
    ensures u >= 0x8000_0000 <==> v < 0
  {
    if v < 0 then v + 0x1_0000_0000 else v
  }

  /** Two's-complement encoding of a signed value. */
  function EncodeI32(v: i32): (s: seq<byte>)
    ensures |s| == 4 && ReadBigI32(s, 0) == v
  {
    EncodeU32(TwosComplement(v))
  }

  function EncodeU64(v: u64): (s: seq<byte>)
    ensures |s| == 8 && ReadBigU64(s, 0) == v
  {
    var s := EncodeU32(v / 0x1_0000_0000) + EncodeU32(v % 0x1_0000_0000);
    assert s[4..] == EncodeU32(v % 0x1_0000_0000);
    ReadAfterPrefixU32(EncodeU32(v / 0x1_0000_0000), EncodeU32(v % 0x1_0000_0000), 0);
    s
  }

  function EncodeDateTime(t: DateTime): (s: seq<byte>)
    ensures |s| == 12
  {
    EncodeU16(t.year) + EncodeU16(t.month) + EncodeU16(t.day)
      + EncodeU16(t.hour) + EncodeU16(t.minute) + EncodeU16(t.second)
  }

  /** A u16 read at an offset past a prefix is the u16 read in the suffix. */
  lemma ReadAfterPrefixU16(p: seq<byte>, s: seq<byte>, off: nat)
    requires off + 2 <= |s|
    ensures ReadBigU16(p + s, |p| + off) == ReadBigU16(s, off)
  {
    assert (p + s)[|p| + off] == s[off] && (p + s)[|p| + off + 1] == s[off + 1];
  }

  /** A u16 read inside a prefix does not see what follows it. */
  lemma ReadInPrefixU16(p: seq<byte>, s: seq<byte>, off: nat)
    requires off + 2 <= |p|
    ensures ReadBigU16(p + s, off) == ReadBigU16(p, off)
  {
    assert (p + s)[off] == p[off] && (p + s)[off + 1] == p[off + 1];
  }

  lemma ReadAfterPrefixU32(p: seq<byte>, s: seq<byte>, off: nat)
    requires off + 4 <= |s|
    ensures ReadBigU32(p + s, |p| + off) == ReadBigU32(s, off)
    ensures ReadBigI32(p + s, |p| + off) == ReadBigI32(s, off)
  {
    ReadAfterPrefixU16(p, s, off);
    ReadAfterPrefixU16(p, s, off + 2);
  }

  lemma ReadInPrefixU32(p: seq<byte>, s: seq<byte>, off: nat)
    requires off + 4 <= |p|
    ensures ReadBigU32(p + s, off) == ReadBigU32(p, off)
    ensures ReadBigI32(p + s, off) == ReadBigI32(p, off)
  {
    ReadInPrefixU16(p, s, off);
    ReadInPrefixU16(p, s, off + 2);
  }

  /** Consecutive big-endian u16 values, as in a curv table. */
  function EncodeU16s(vs: seq<u16>): (s: seq<byte>)
    ensures |s| == 2 * |vs|
  {
    if |vs| == 0 then [] else EncodeU16(vs[0]) + EncodeU16s(vs[1..])
  }

  /** Consecutive big-endian i32 values, as in para parameters. */
  function EncodeI32s(vs: seq<i32>): (s: seq<byte>)
    ensures |s| == 4 * |vs|
  {
    if |vs| == 0 then [] else EncodeI32(vs[0]) + EncodeI32s(vs[1..])
  }

  /** Consecutive big-endian u32 values, as in a header made of 4-byte fields. */
  function EncodeU32s(vs: seq<u32>): (s: seq<byte>)
    ensures |s| == 4 * |vs|
  {
    if |vs| == 0 then [] else EncodeU32(vs[0]) + EncodeU32s(vs[1..])
  }

  /** The k-th u16 of an encoded run reads back as the k-th value. */
  lemma {:induction false} ReadEncodedU16s(vs: seq<u16>, k: nat)
    requires k < |vs|
    ensures ReadBigU16(EncodeU16s(vs), 2 * k) == vs[k]
    decreases k
  {
    var head, rest := EncodeU16(vs[0]), EncodeU16s(vs[1..]);
    assert EncodeU16s(vs) == head + rest;
    if k == 0 {
      ReadInPrefixU16(head, rest, 0);
    } else {
      ReadEncodedU16s(vs[1..], k - 1);
      ReadAfterPrefixU16(head, rest, 2 * (k - 1));
    }
  }

  /** The k-th i32 of an encoded run reads back as the k-th value. */
  lemma {:induction false} ReadEncodedI32s(vs: seq<i32>, k: nat)
    requires k < |vs|
    ensures ReadBigI32(EncodeI32s(vs), 4 * k) == vs[k]
    decreases k
  {
    var head, rest := EncodeI32(vs[0]), EncodeI32s(vs[1..]);
    assert EncodeI32s(vs) == head + rest;
    if k == 0 {
      ReadInPrefixU32(head, rest, 0);
    } else {
      ReadEncodedI32s(vs[1..], k - 1);
      ReadAfterPrefixU32(head, rest, 4 * (k - 1));
    }
  }

  /** The k-th u32 of an encoded run reads back as the k-th value. */
  lemma {:induction false} ReadEncodedU32s(vs: seq<u32>, k: nat)
    requires k < |vs|
    ensures ReadBigU32(EncodeU32s(vs), 4 * k) == vs[k]
    decreases k
  {
    var head, rest := EncodeU32(vs[0]), EncodeU32s(vs[1..]);
    assert EncodeU32s(vs) == head + rest;
    if k == 0 {
      ReadInPrefixU32(head, rest, 0);
    } else {
      ReadEncodedU32s(vs[1..], k - 1);
      ReadAfterPrefixU32(head, rest, 4 * (k - 1));
    }
  }

  /** Decoding is injective on the bytes read: encoding the decoded value gives the bytes back. */
  lemma EncodeReadU16(buf: seq<byte>, off: nat)
    requires off + 2 <= |buf|
    ensures EncodeU16(ReadBigU16(buf, off)) == buf[off..off + 2]
  {
  }

  lemma EncodeReadU32(buf: seq<byte>, off: nat)
    requires off + 4 <= |buf|
    ensures EncodeU32(ReadBigU32(buf, off)) == buf[off..off + 4]
  {
    var v := ReadBigU32(buf, off);
    EncodeReadU16(buf, off);
    EncodeReadU16(buf, off + 2);
    assert buf[off..off + 4] == buf[off..off + 2] + buf[off + 2..off + 4];
  }

  lemma EncodeReadI32(buf: seq<byte>, off: nat)
    requires off + 4 <= |buf|
    ensures EncodeI32(ReadBigI32(buf, off)) == buf[off..off + 4]
  {
    EncodeReadU32(buf, off);
  }

  lemma EncodeReadU64(buf: seq<byte>, off: nat)
    requires off + 8 <= |buf|
    ensures EncodeU64(ReadBigU64(buf, off)) == buf[off..off + 8]
  {
    ReadBigU64Halves(buf, off);
    EncodeReadU32(buf, off);
    EncodeReadU32(buf, off + 4);
    assert buf[off..off + 8] == buf[off..off + 4] + buf[off + 4..off + 8];
  }

  /** read_big_date_time inverts the six-field encoding. */
  lemma {:induction false} DateTimeRoundTrip(t: DateTime)
    ensures ReadBigDateTime(EncodeDateTime(t), 0) == t
  {
    var s := EncodeDateTime(t);
    var fields := [t.year, t.month, t.day, t.hour, t.minute, t.second];
    forall k | 0 <= k < 6
      ensures ReadBigU16(s, 2 * k) == fields[k]
    {
      assert s[2 * k..2 * k + 2] == EncodeU16(fields[k]);
      assert s[2 * k] == EncodeU16(fields[k])[0] && s[2 * k + 1] == EncodeU16(fields[k])[1];
    }
    assert ReadBigU16(s, 0) == fields[0];
    assert ReadBigU16(s, 2) == fields[1];
    assert ReadBigU16(s, 4) == fields[2];
    assert ReadBigU16(s, 6) == fields[3];
    assert ReadBigU16(s, 8) == fields[4];
    assert ReadBigU16(s, 10) == fields[5];
  }
}
