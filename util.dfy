/**
 * The debug helpers of the utility header that have no floating point in them:
 * filling a buffer with the 0xbad1bad1 marker, and the bit length of an object.
 */
module Util {
  import opened Bytes

  /** The marker byte for index i: 0xd1 at even and 0xba at odd positions. */
  function MarkerAt(i: nat): byte {
    if i % 2 == 1 then 0xba else 0xd1
  }

  /** `s` after its first `n` bytes are overwritten with the marker pattern. */
  function Marked(s: seq<byte>, n: nat): (r: seq<byte>)
    requires n <= |s|
    ensures |r| == |s|
    ensures forall i :: 0 <= i < n && i % 2 == 0 ==> r[i] == 0xd1
    ensures forall i :: 0 <= i < n && i % 2 == 1 ==> r[i] == 0xba
    ensures r[n..] == s[n..]
  {
    seq(|s|, i requires 0 <= i < |s| => if i < n then MarkerAt(i) else s[i])
  }

  /** Marking overwrites what it touches, so marking twice is marking once. */
  lemma MarkedIdempotent(s: seq<byte>, n: nat)
    requires n <= |s|
    ensures Marked(Marked(s, n), n) == Marked(s, n)
  {
  }

  /** The marked prefix does not depend on what the buffer held before. */
  lemma MarkedIgnoresOldContents(s: seq<byte>, t: seq<byte>, n: nat)
    requires n <= |s| && n <= |t|
    ensures Marked(s, n)[..n] == Marked(t, n)[..n]
  {
  }

  /** Read as little-endian 32-bit words, a marked buffer shows 0xbad1bad1. */
  lemma MarkedWord(s: seq<byte>, n: nat, k: nat)
    requires n <= |s| && 4 * k + 4 <= n
    ensures LittleEndian(Marked(s, n)[4 * k..4 * k + 4]) == 0xbad1bad1
  {
    var m, i := Marked(s, n), 4 * k;
    assert i % 2 == 0 && (i + 1) % 2 == 1 && (i + 2) % 2 == 0 && (i + 3) % 2 == 1;
    assert m[i] == 0xd1 && m[i + 1] == 0xba && m[i + 2] == 0xd1 && m[i + 3] == 0xba;
    var w := m[i..i + 4];
    assert w == [0xd1, 0xba, 0xd1, 0xba];
    assert w[1..][1..][1..] == [0xba];
    assert LittleEndian(w[1..][1..][1..]) == 0xba;
    assert LittleEndian(w[1..][1..]) == 0xbad1;
    assert LittleEndian(w[1..]) == 0xbad1ba;
  }

  /**
   * markMemory: fills the first `size` bytes of `memory` with the marker pattern
   * and leaves the rest of the buffer alone.
   */
  method MarkMemory(memory: array<byte>, size: nat)
    requires size <= memory.Length
    modifies memory
    ensures memory[..] == Marked(old(memory[..]), size)
  {
    var i := 0;
    while i < size
      invariant 0 <= i <= size
      invariant forall j :: 0 <= j < i ==> memory[j] == MarkerAt(j)
      invariant forall j :: i <= j < memory.Length ==> memory[j] == old(memory[j])
    {
      memory[i] := if i % 2 == 1 then 0xba else 0xd1;
      i := i + 1;
    }
  }

  /** BIT_LENGTH: the number of bits in an object of `sizeInBytes` bytes. */
  function BitLength(sizeInBytes: nat): (bits: nat)
    ensures bits % CharBit == 0 && bits / CharBit == sizeInBytes
  {
    CharBit * sizeInBytes
  }

  /** An object of n bytes has exactly as many values as BitLength(n) bits can hold. */
  lemma {:induction false} BitLengthCountsValues(n: nat)
    ensures Pow(2, BitLength(n)) == Pow(256, n)
  {
    if n > 0 {
      BitLengthCountsValues(n - 1);
      var b := BitLength(n - 1);
      assert BitLength(n) == b + 8;
      Pow2Add8(b);
    }
  }

  lemma {:induction false} Pow2Add8(b: nat)
    ensures Pow(2, b + 8) == 256 * Pow(2, b)
  {
    PowAdd(2, b, 8);
    assert Pow(2, 8) == 256;
  }

  lemma {:induction false} PowAdd(base: nat, b: nat, k: nat)
    ensures Pow(base, b + k) == Pow(base, k) * Pow(base, b)
  {
    if k > 0 {
      PowAdd(base, b, k - 1);
      calc {
        Pow(base, b + k);
        base * Pow(base, b + k - 1);
        base * (Pow(base, k - 1) * Pow(base, b));
        { MulAssoc(base, Pow(base, k - 1), Pow(base, b)); }
        (base * Pow(base, k - 1)) * Pow(base, b);
        Pow(base, k) * Pow(base, b);
      }
    }
  }

  lemma MulAssoc(a: nat, b: nat, c: nat)
    ensures a * (b * c) == (a * b) * c
  {
  }

  /** So every value stored in n bytes is below 2^BIT_LENGTH. */
  lemma BitLengthBoundsStoredValues(bs: seq<byte>)
    ensures LittleEndian(bs) < Pow(2, BitLength(|bs|))
  {
    BitLengthCountsValues(|bs|);
  }
}
