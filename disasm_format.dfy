/**
 * Text the disassembly view shows for an address and for bytes the decoder
 * rejects: fixed-width lowercase hex addresses of a 32-bit debuggee, and the
 * `db`/`dw`/`dd`/`dq` data directives for undecodable instruction bytes.
 */
module DisasmFormat {
  import opened Bytes
  import opened HexFormat

  /** A 32-bit unsigned value. */
  type u32 = x: int | 0 <= x < 0x1_0000_0000

  /**
   * format_address for a 4-byte address: the high and low 16-bit halves as four
   * hex digits each ("%04x"), with a colon between them when the separator is on.
   */
  function FormatAddress32(address: u32, showSeparator: bool): (s: string)
    ensures |s| == (if showSeparator then 9 else 8)
    ensures showSeparator ==> s[4] == ':' && IsHexText(s[..4]) && IsHexText(s[5..])
    ensures !showSeparator ==> IsHexText(s)
  {
    var high := (address / 0x1_0000) % 0x1_0000;
    var low := address % 0x1_0000;
    if showSeparator then Hex(high, 4) + ":" + Hex(low, 4) else Hex(high, 4) + Hex(low, 4)
  }

  /** The hex digits of a formatted address: everything but the separator. */
  function AddressDigits(s: string, showSeparator: bool): string
    requires |s| == (if showSeparator then 9 else 8)
  {
    if showSeparator then s[..4] + s[5..] else s
  }

  /**
   * The text is nine characters with the separator (a colon at index 4) and
   * eight without, its digits are lowercase hex, and they read back as the address.
   */
  lemma FormatAddress32Spec(address: u32, showSeparator: bool)
    ensures var s := FormatAddress32(address, showSeparator);
      && |s| == (if showSeparator then 9 else 8)
      && (showSeparator ==> s[4] == ':')
      && IsHexText(AddressDigits(s, showSeparator))
      && ParseHex(AddressDigits(s, showSeparator)) == address
  {
    var s := FormatAddress32(address, showSeparator);
    var high, low := (address / 0x1_0000) % 0x1_0000, address % 0x1_0000;
    assert AddressDigits(s, showSeparator) == Hex(high, 4) + Hex(low, 4);
    HalvesDigitsValue(address);
  }

  /** The two 16-bit halves of a 32-bit value put back together give the value. */
  lemma HalvesRecombine(address: u32)
    ensures var high, low := (address / 0x1_0000) % 0x1_0000, address % 0x1_0000;
      high * 0x1_0000 + low == address
  {
    assert address / 0x1_0000 < 0x1_0000;
  }

  /** The eight digits of the two halves read back as the address. */
  lemma HalvesDigitsValue(address: u32)
    ensures var high, low := (address / 0x1_0000) % 0x1_0000, address % 0x1_0000;
      IsHexText(Hex(high, 4) + Hex(low, 4)) && ParseHex(Hex(high, 4) + Hex(low, 4)) == address
  {
    var high, low := (address / 0x1_0000) % 0x1_0000, address % 0x1_0000;
    HalvesRecombine(address);
    Pow16Four();
    ParseHexOfHex(high, 4);
    ParseHexOfHex(low, 4);
    ParseHexAppend(Hex(high, 4), Hex(low, 4));
  }

  lemma Pow16Four()
    ensures Pow(16, 4) == 0x1_0000
  {
    assert Pow(16, 2) == 256;
  }

  /** The separator only inserts a colon: removing it gives the text without one. */
  lemma FormatAddress32Separator(address: u32)
    ensures var s := FormatAddress32(address, true);
      s[..4] + s[5..] == FormatAddress32(address, false)
  {
  }

  /**
   * address_length: the number of characters an address takes on screen: two
   * hex digits per byte of a pointer, plus one for the separator.
   */
  function AddressLength(pointerSize: nat, showSeparator: bool): (n: nat)
    ensures n == 2 * pointerSize + (if showSeparator then 1 else 0)
  {
    pointerSize * CharBit / 4 + (if showSeparator then 1 else 0)
  }

  /** For a 32-bit debuggee the address column is exactly as wide as a formatted address. */
  lemma AddressLengthFitsFormat(address: u32, showSeparator: bool)
    ensures |FormatAddress32(address, showSeparator)| == AddressLength(4, showSeparator)
  {
    FormatAddress32Spec(address, showSeparator);
  }

  /** The assembler data directive for an item of `size` bytes, if there is one. */
  function DataDirective(size: nat): (d: string)
    requires size in {1, 2, 4, 8}
  {
    if size == 1 then "db" else if size == 2 then "dw" else if size == 4 then "dd" else "dq"
  }

  /** Each byte as two hex digits ("%02x"), from the last byte to the first. */
  function HexMostSignificantFirst(bytes: seq<byte>): (s: string)
    ensures |s| == 2 * |bytes| && IsHexText(s)
  {
    if bytes == [] then [] else HexMostSignificantFirst(bytes[1..]) + Hex(bytes[0], 2)
  }

  /** Those digits read back as the bytes' little-endian value. */
  lemma {:induction false} HexMostSignificantFirstValue(bytes: seq<byte>)
    ensures ParseHex(HexMostSignificantFirst(bytes)) == LittleEndian(bytes)
  {
    if bytes != [] {
      HexMostSignificantFirstValue(bytes[1..]);
      assert Pow(16, 2) == 256;
      ParseHexOfHex(bytes[0], 2);
      ParseHexAppend(HexMostSignificantFirst(bytes[1..]), Hex(bytes[0], 2));
    }
  }

  /**
   * format_invalid_instruction_bytes: the bytes of an instruction the decoder
   * rejected, shown as one data item when there are 1, 2, 4 or 8 of them, and
   * as "invalid" otherwise.
   */
  function InvalidInstructionText(bytes: seq<byte>): (s: string)
    ensures s == "invalid" <==> |bytes| !in {1, 2, 4, 8}
    ensures |bytes| in {1, 2, 4, 8} ==> |s| == 5 + 2 * |bytes| && s[2..5] == " 0x"
  {
    var n := |bytes|;
    if n == 1 || n == 2 || n == 4 || n == 8 then
      var text := DataDirective(n) + " 0x" + HexMostSignificantFirst(bytes);
      // every directive starts with 'd', so the text is never "invalid"
      assert text[0] == DataDirective(n)[0] == 'd';
      text
    else
      "invalid"
  }

  /**
   * For 1, 2, 4 or 8 bytes the text is the directive, " 0x", and 2n hex digits
   * whose value is the bytes read as a little-endian integer; any other count
   * gives "invalid".
   */
  lemma InvalidInstructionTextSpec(bytes: seq<byte>)
    ensures var n, s := |bytes|, InvalidInstructionText(bytes);
      if n in {1, 2, 4, 8} then
        && |s| == 5 + 2 * n
        && s[..5] == DataDirective(n) + " 0x"
        && IsHexText(s[5..])
        && ParseHex(s[5..]) == LittleEndian(bytes)
      else
        s == "invalid"
  {
    var n, s := |bytes|, InvalidInstructionText(bytes);
    if n in {1, 2, 4, 8} {
      assert s[5..] == HexMostSignificantFirst(bytes);
      HexMostSignificantFirstValue(bytes);
    }
  }

  /** The directive names the item's width: byte, word, double word, quad word. */
  lemma DataDirectiveNamesWidth()
    ensures DataDirective(1) == "db" && DataDirective(2) == "dw"
    ensures DataDirective(4) == "dd" && DataDirective(8) == "dq"
  {
  }
}
