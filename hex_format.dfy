/**
 * Fixed-width lowercase hexadecimal text, as printf's `%0Nx` writes it for a
 * value that fits in N digits, and the reading of such text back into a number.
 */
module HexFormat {
  import opened Bytes

  const HexDigits: string := "0123456789abcdef"

  predicate IsHexDigit(c: char) {
    '0' <= c <= '9' || 'a' <= c <= 'f'
  }

  predicate IsHexText(s: string) {
    forall i :: 0 <= i < |s| ==> IsHexDigit(s[i])
  }

  function HexDigit(d: nat): (c: char)
    requires d < 16
    ensures IsHexDigit(c)
  {
    HexDigits[d]
  }

  function DigitValue(c: char): (d: nat)
    requires IsHexDigit(c)
    ensures d < 16
  {
    if c <= '9' then c as int - '0' as int else c as int - 'a' as int + 10
  }

  lemma DigitValueOfHexDigit(d: nat)
    requires d < 16
    ensures DigitValue(HexDigit(d)) == d
  {
  }

  /** The `width` low-order hex digits of `v`, most significant first. */
  function Hex(v: nat, width: nat): (s: string)
    ensures |s| == width && IsHexText(s)
  {
    if width == 0 then [] else Hex(v / 16, width - 1) + [HexDigit(v % 16)]
  }

  /** The value of a run of hex digits, most significant first. */
  function ParseHex(s: string): (v: nat)
    requires IsHexText(s)
    ensures v < Pow(16, |s|)
  {
    if s == [] then 0
    else
      var high := ParseHex(s[..|s| - 1]);
      assert high <= Pow(16, |s| - 1) - 1;
      16 * high + DigitValue(s[|s| - 1])
  }

  /** Reading back the digits of a value that fits in `width` digits gives the value. */
  lemma {:induction false} ParseHexOfHex(v: nat, width: nat)
    requires v < Pow(16, width)
    ensures ParseHex(Hex(v, width)) == v
  {
    if width > 0 {
      ParseHexOfHex(v / 16, width - 1);
      var s := Hex(v, width);
      assert s[..|s| - 1] == Hex(v / 16, width - 1);
      DigitValueOfHexDigit(v % 16);
    }
  }

  /** The value of a concatenation: the left digits shifted past the right ones. */
  lemma {:induction false} ParseHexAppend(a: string, b: string)
    requires IsHexText(a) && IsHexText(b)
    ensures IsHexText(a + b)
    ensures ParseHex(a + b) == ParseHex(a) * Pow(16, |b|) + ParseHex(b)
  {
    if b != [] {
      var b', d := b[..|b| - 1], DigitValue(b[|b| - 1]);
      ParseHexAppend(a, b');
      assert (a + b)[..|a + b| - 1] == a + b';
      assert (a + b)[|a + b| - 1] == b[|b| - 1];
      var pa, pb' := ParseHex(a), ParseHex(b');
      calc {
        ParseHex(a + b);
        16 * ParseHex(a + b') + d;
        16 * (pa * Pow(16, |b'|) + pb') + d;
        { MulShift(pa, Pow(16, |b'|)); }
        pa * Pow(16, |b|) + (16 * pb' + d);
        pa * Pow(16, |b|) + ParseHex(b);
      }
    } else {
      assert a + b == a;
    }
  }

  lemma MulShift(p: nat, q: nat)
    ensures 16 * (p * q) == p * (16 * q)
  {
  }
}
