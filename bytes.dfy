/**
 * Bytes as the debugger stores and copies them: unsigned 8-bit values, multi-byte
 * integers laid out least significant byte first (the x86 memory order that a
 * `memcpy` of a C `int` produces), and 32-bit two's-complement wrap-around.
 */
module Bytes {

  /** An 8-bit unsigned value. */
  type byte = x: int | 0 <= x < 256

  /** Bits in a byte, the CHAR_BIT of the C headers. */
  const CharBit: nat := 8

  /**
   * `base` to the power n: with base 256 the number of values n bytes can hold,
   * with base 16 the number n hex digits can show, with base 2 the number n bits can.
   */
  function Pow(base: nat, n: nat): (r: nat)
    ensures base >= 1 ==> r >= 1
  {
    if n == 0 then 1 else base * Pow(base, n - 1)
  }

  /** The unsigned value of `bs` read least significant byte first. */
  function LittleEndian(bs: seq<byte>): (r: nat)
    ensures r < Pow(256, |bs|)
  {
    if bs == [] then 0
    else
      var rest := LittleEndian(bs[1..]);
      assert rest <= Pow(256, |bs| - 1) - 1;
      bs[0] + 256 * rest
  }

  /** The `n` low-order bytes of `u`, least significant first. */
  function ToLittleEndian(u: nat, n: nat): (bs: seq<byte>)
    ensures |bs| == n
  {
    if n == 0 then [] else [u % 256] + ToLittleEndian(u / 256, n - 1)
  }

  /** Writing a value that fits in `n` bytes and reading it back gives the value. */
  lemma {:induction false} LittleEndianRoundTrip(u: nat, n: nat)
    requires u < Pow(256, n)
    ensures LittleEndian(ToLittleEndian(u, n)) == u
  {
    if n > 0 {
      LittleEndianRoundTrip(u / 256, n - 1);
      var bs := ToLittleEndian(u, n);
      assert bs[1..] == ToLittleEndian(u / 256, n - 1);
    }
  }

  /** Reading bytes and writing the value back gives the same bytes. */
  lemma {:induction false} ToLittleEndianRoundTrip(bs: seq<byte>)
    ensures ToLittleEndian(LittleEndian(bs), |bs|) == bs
  {
    if bs != [] {
      ToLittleEndianRoundTrip(bs[1..]);
      var u := LittleEndian(bs);
      assert u % 256 == bs[0] && u / 256 == LittleEndian(bs[1..]);
    }
  }

  const Two32: int := 0x1_0000_0000

  /** The range of a C `int` (32-bit two's complement). */
  predicate IsInt32(v: int) {
    -0x8000_0000 <= v < 0x8000_0000
  }

  lemma Pow256Four()
    ensures Pow(256, 4) == Two32
  {
    assert Pow(256, 1) == 256;
    assert Pow(256, 2) == 0x1_0000;
    assert Pow(256, 3) == 0x100_0000;
  }

  /**
   * The four bytes a `memcpy` of the C `int` holding the low 32 bits of `v`
   * produces on a little-endian machine.
   */
  function EncodeInt32(v: int): (bs: seq<byte>)
    ensures |bs| == 4
  {
    ToLittleEndian(v % Two32, 4)
  }

  /** The C `int` whose four little-endian bytes are `bs`. */
  function DecodeInt32(bs: seq<byte>): (v: int)
    requires |bs| == 4
    ensures IsInt32(v)
  {
    Pow256Four();
    var u := LittleEndian(bs);
    if u >= 0x8000_0000 then u - Two32 else u
  }

  /** Every C `int` survives being copied to bytes and back. */
  lemma Int32RoundTrip(v: int)
    requires IsInt32(v)
    ensures DecodeInt32(EncodeInt32(v)) == v
  {
    Pow256Four();
    LittleEndianRoundTrip(v % Two32, 4);
  }

  /** Decoding then encoding four bytes reproduces them: the encoding is onto. */
  lemma Int32BytesRoundTrip(bs: seq<byte>)
    requires |bs| == 4
    ensures EncodeInt32(DecodeInt32(bs)) == bs
  {
    Pow256Four();
    ToLittleEndianRoundTrip(bs);
    var u := LittleEndian(bs);
    assert DecodeInt32(bs) % Two32 == u;
  }
}
