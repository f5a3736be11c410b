/**
  Bytes and the little-endian integer fields of the injectors' frames.

  The injectors read an `int16` with `BitConverter.ToInt16` (C#) or through an
  `int16_t*` (C++), and the pad's button mask through a `uint32_t*`; on the
  little-endian Windows machines they run on, both read the low byte first,
  and a 16-bit value with its top bit set is negative (two's complement).
 */
module Bytes {
  newtype Byte = x: int | 0 <= x < 0x100

  type Int16 = x: int | -0x8000 <= x < 0x8000

  type UInt32 = x: int | 0 <= x < 0x1_0000_0000

  /** The signed 16-bit value whose two bytes, low first, start at `at`. */
  function Int16At(f: seq<Byte>, at: nat): (v: Int16)
    requires at + 2 <= |f|
    ensures (v < 0) == (f[at + 1] >= 0x80)
  {
    var u := f[at] as int + 0x100 * f[at + 1] as int;
    if u >= 0x8000 then u - 0x1_0000 else u
  }

  /** The unsigned 32-bit value whose four bytes, low first, start at `at`. */
  function UInt32At(f: seq<Byte>, at: nat): (v: UInt32)
    requires at + 4 <= |f|
  {
    f[at] as int + 0x100 * (f[at + 1] as int + 0x100 * (f[at + 2] as int + 0x100 * f[at + 3] as int))
  }

  /** The two bytes, low first, of a signed 16-bit value. */
  function Int16Bytes(v: Int16): (r: seq<Byte>)
    ensures |r| == 2
    ensures (v < 0) == (r[1] >= 0x80)
  {
    var u := if v < 0 then v + 0x1_0000 else v;
    [(u % 0x100) as Byte, (u / 0x100) as Byte]
  }

  /** The four bytes, low first, of an unsigned 32-bit value. */
  function UInt32Bytes(v: UInt32): (r: seq<Byte>)
    ensures |r| == 4
  {
    [(v % 0x100) as Byte, (v / 0x100 % 0x100) as Byte, (v / 0x1_0000 % 0x100) as Byte, (v / 0x100_0000) as Byte]
  }

  /** Writing a value and reading it back at the same place gives the value. */
  lemma Int16RoundTrip(v: Int16, pre: seq<Byte>, post: seq<Byte>)
    ensures Int16At(pre + Int16Bytes(v) + post, |pre|) == v
  {
    var f := pre + Int16Bytes(v) + post;
    assert f[|pre|] == Int16Bytes(v)[0] && f[|pre| + 1] == Int16Bytes(v)[1];
  }

  /** Reading two bytes and writing the value back gives the same two bytes. */
  lemma Int16Bytes16(f: seq<Byte>, at: nat)
    requires at + 2 <= |f|
    ensures Int16Bytes(Int16At(f, at)) == f[at..at + 2]
  {
  }

  lemma UInt32RoundTrip(v: UInt32, pre: seq<Byte>, post: seq<Byte>)
    ensures UInt32At(pre + UInt32Bytes(v) + post, |pre|) == v
  {
    var f := pre + UInt32Bytes(v) + post;
    var b := UInt32Bytes(v);
    assert f[|pre|] == b[0] && f[|pre| + 1] == b[1] && f[|pre| + 2] == b[2] && f[|pre| + 3] == b[3];
    var x := v as int;
    assert x == x % 0x100 + 0x100 * (x / 0x100);
    assert x / 0x100 == x / 0x100 % 0x100 + 0x100 * (x / 0x1_0000);
    assert x / 0x1_0000 == x / 0x1_0000 % 0x100 + 0x100 * (x / 0x100_0000);
  }

  lemma UInt32Bytes32(f: seq<Byte>, at: nat)
    requires at + 4 <= |f|
    ensures UInt32Bytes(UInt32At(f, at)) == f[at..at + 4]
  {
    var b0, b1, b2, b3 := f[at] as int, f[at + 1] as int, f[at + 2] as int, f[at + 3] as int;
    var v := UInt32At(f, at) as int;
    assert v == b0 + 0x100 * (b1 + 0x100 * (b2 + 0x100 * b3));
    assert v / 0x100 == b1 + 0x100 * (b2 + 0x100 * b3);
    assert v / 0x1_0000 == b2 + 0x100 * b3;
    assert v / 0x100_0000 == b3;
  }

  /** Each byte as the character with the same number: a byte string read
      as text one character per byte, as a `std::string` holds it. */
  function Chars(bs: seq<Byte>): (s: string)
    ensures |s| == |bs|
  {
    seq(|bs|, i requires 0 <= i < |bs| => bs[i] as int as char)
  }

  /** Bit `n` of a value, as `(v & (1u << n)) != 0` tests it. */
  predicate Bit(v: nat, n: nat)
  {
    if n == 0 then v % 2 == 1 else Bit(v / 2, n - 1)
  }

  function Pow2(n: nat): (p: nat)
    ensures p > 0
  {
    if n == 0 then 1 else 2 * Pow2(n - 1)
  }

  /** Adding a multiple of 2^k leaves every bit below `k` as it was. */
  lemma {:induction false} HighBits(m: nat, h: nat, k: nat, n: nat)
    requires n < k
    ensures Bit(m + Pow2(k) * h, n) == Bit(m, n)
  {
    var t := Pow2(k - 1) * h;
    assert Pow2(k) * h == 2 * t;
    assert (m + 2 * t) % 2 == m % 2 && (m + 2 * t) / 2 == m / 2 + t;
    if n > 0 {
      HighBits(m / 2, h, k - 1, n - 1);
    }
  }
}
