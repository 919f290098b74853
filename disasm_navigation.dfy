/**
 * How the disassembly view moves through memory by instructions: stepping back
 * one instruction from a known instruction start, stepping forward a number of
 * instructions, and turning a mouse row into an address. The instruction
 * decoder and the debugger's memory reads are parameters (oracles): the model
 * says what is done with their answers, not what they answer.
 */
module DisasmNavigation {
  import opened Bytes
  import opened Wrappers

  /** What the decoder reports for a byte range: does it start with a valid instruction, and how long is it. */
  datatype Decoded = Decoded(valid: bool, size: nat)

  /** The longest instruction the decoder accepts (edb::Instruction::MAX_SIZE; 15 on x86). */
  const MaxInstructionSize: nat := 15

  /** A decoder never reports a valid instruction that is empty or longer than the bytes it was given. */
  ghost predicate SoundDecoder(decode: seq<byte> -> Decoded) {
    forall bs :: decode(bs).valid ==> 1 <= decode(bs).size <= |bs|
  }

  /** A memory read returns at most the number of bytes asked for. */
  ghost predicate SoundReader(read: (nat, nat) -> Option<seq<byte>>) {
    forall address, n :: read(address, n).Some? ==> |read(address, n).value| <= n
  }

  function Min(a: int, b: int): int {
    if a <= b then a else b
  }

  // ---------------------------------------------------------------------------
  // Stepping back one instruction (length_disasm_back)
  // ---------------------------------------------------------------------------

  /** Stage 1 candidate: the bytes from `offs` up to `cur` decode to one instruction ending exactly at `cur`. */
  ghost predicate EndsAt(decode: seq<byte> -> Decoded, buf: seq<byte>, offs: nat, cur: nat)
    requires offs <= cur <= |buf|
  {
    var inst := decode(buf[offs..cur]);
    inst.valid && offs + inst.size == cur
  }

  /**
   * Stage 2 candidate: an instruction starting at `offs`, then one more right
   * after it, end together exactly where the instruction at `cur` ends.
   */
  ghost predicate Realigns(decode: seq<byte> -> Decoded, buf: seq<byte>, offs: nat, cur: nat)
    requires offs <= cur <= |buf| && SoundDecoder(decode)
  {
    var previous := decode(buf[offs..cur]);
    previous.valid &&
    var next := decode(buf[offs + previous.size..]);
    next.valid && offs + previous.size + next.size == cur + decode(buf[cur..]).size
  }

  /** Stage 3 candidate: the bytes from `offs` on do not decode. */
  ghost predicate Undecodable(decode: seq<byte> -> Decoded, buf: seq<byte>, offs: nat)
    requires offs <= |buf|
  {
    !decode(buf[offs..]).valid
  }

  /** Stage 1 of length_disasm_back: the distance back to the lowest offset whose instruction ends exactly at `cur`, or 0. */
  method LongestEndingAt(decode: seq<byte> -> Decoded, buf: seq<byte>, cur: nat) returns (size: nat)
    requires cur <= |buf|
    ensures size <= cur
    ensures size == 0 <==> forall o :: 0 <= o < cur ==> !EndsAt(decode, buf, o, cur)
    ensures size != 0 ==>
      EndsAt(decode, buf, cur - size, cur) && forall o :: 0 <= o < cur - size ==> !EndsAt(decode, buf, o, cur)
  {
    size := 0;
    var offs: int := cur - 1;
    while offs >= 0
      invariant -1 <= offs < cur
      invariant size == 0 ==> forall o :: offs < o < cur ==> !EndsAt(decode, buf, o, cur)
      invariant size != 0 ==>
        && offs < cur - size && size <= cur && EndsAt(decode, buf, cur - size, cur)
        && forall o :: offs < o < cur - size ==> !EndsAt(decode, buf, o, cur)
    {
      var inst := decode(buf[offs..cur]);
      if inst.valid && offs + inst.size == cur {
        size := inst.size;
      }
      offs := offs - 1;
    }
  }

  /** Stage 2 of length_disasm_back: the distance back to the lowest offset after which decoding realigns, or 0. */
  method LongestRealigning(decode: seq<byte> -> Decoded, buf: seq<byte>, cur: nat) returns (size: nat)
    requires cur <= |buf| && SoundDecoder(decode)
    ensures size <= cur
    ensures size == 0 <==> forall o :: 0 <= o < cur ==> !Realigns(decode, buf, o, cur)
    ensures size != 0 ==>
      Realigns(decode, buf, cur - size, cur) && forall o :: 0 <= o < cur - size ==> !Realigns(decode, buf, o, cur)
  {
    var originalCurrent := decode(buf[cur..]);
    size := 0;
    var offs: int := cur - 1;
    while offs >= 0
      invariant -1 <= offs < cur
      invariant size == 0 ==> forall o :: offs < o < cur ==> !Realigns(decode, buf, o, cur)
      invariant size != 0 ==>
        && offs < cur - size && size <= cur && Realigns(decode, buf, cur - size, cur)
        && forall o :: offs < o < cur - size ==> !Realigns(decode, buf, o, cur)
    {
      var previous := decode(buf[offs..cur]);
      if previous.valid {
        var next := decode(buf[offs + previous.size..]);
        if next.valid && offs + previous.size + next.size == cur + originalCurrent.size {
          size := cur - offs;
        }
      }
      offs := offs - 1;
    }
  }

  /** Stage 3 of length_disasm_back: the distance back to the nearest offset whose bytes do not decode, or 0. */
  method NearestUndecodable(decode: seq<byte> -> Decoded, buf: seq<byte>, cur: nat) returns (size: nat)
    requires cur <= |buf|
    ensures size <= cur
    ensures size == 0 <==> forall o :: 0 <= o < cur ==> !Undecodable(decode, buf, o)
    ensures size != 0 ==>
      Undecodable(decode, buf, cur - size) && forall o :: cur - size < o < cur ==> !Undecodable(decode, buf, o)
  {
    var offs: int := cur - 1;
    while offs >= 0
      invariant -1 <= offs < cur
      invariant forall o :: offs < o < cur ==> !Undecodable(decode, buf, o)
    {
      if !decode(buf[offs..]).valid {
        assert Undecodable(decode, buf, cur - (cur - offs));
        return cur - offs;
      }
      offs := offs - 1;
    }
    return 0;
  }

  /**
   * length_disasm_back: how far before offset `cur` of `buf` the previous
   * instruction starts, or 0 when no guess can be made.
   * Stage 1 takes the longest instruction ending exactly at `cur`; failing that,
   * stage 2 the longest instruction after which decoding realigns with the end
   * of the instruction at `cur`; failing that, stage 3 the nearest offset whose
   * bytes do not decode (a one-line step over data).
   */
  method LengthDisasmBack(decode: seq<byte> -> Decoded, buf: seq<byte>, cur: nat) returns (r: nat)
    requires cur <= |buf| && SoundDecoder(decode)
    ensures r <= cur
    ensures (exists o :: 0 <= o < cur && EndsAt(decode, buf, o, cur)) ==>
      && 0 < r && EndsAt(decode, buf, cur - r, cur)
      && forall o :: 0 <= o < cur - r ==> !EndsAt(decode, buf, o, cur)
    ensures (forall o :: 0 <= o < cur ==> !EndsAt(decode, buf, o, cur)) &&
            (exists o :: 0 <= o < cur && Realigns(decode, buf, o, cur)) ==>
      && 0 < r && Realigns(decode, buf, cur - r, cur)
      && forall o :: 0 <= o < cur - r ==> !Realigns(decode, buf, o, cur)
    ensures (forall o :: 0 <= o < cur ==> !EndsAt(decode, buf, o, cur) && !Realigns(decode, buf, o, cur)) &&
            (exists o :: 0 <= o < cur && Undecodable(decode, buf, o)) ==>
      && 0 < r && Undecodable(decode, buf, cur - r)
      && forall o :: cur - r < o < cur ==> !Undecodable(decode, buf, o)
    ensures (forall o :: 0 <= o < cur ==>
               !EndsAt(decode, buf, o, cur) && !Realigns(decode, buf, o, cur) && !Undecodable(decode, buf, o)) ==>
      r == 0
  {
    r := LongestEndingAt(decode, buf, cur);
    if r != 0 {
      return;
    }
    r := LongestRealigning(decode, buf, cur);
    if r != 0 {
      return;
    }
    r := NearestUndecodable(decode, buf, cur);
  }

  // ---------------------------------------------------------------------------
  // Stepping forward (following_instructions)
  // ---------------------------------------------------------------------------

  /**
   * The read length following_instructions computes AS WRITTEN: the room
   * before the region end, measured from the region-relative `current`
   * address rather than from the absolute address that is read.
   */
  function FollowingReadSizeAsWritten(regionEnd: Option<nat>, current: nat): (n: nat)
    ensures n <= MaxInstructionSize + 1
    // the intended rule, applied to the region-relative address instead of the absolute one
    ensures n == FollowingReadSize(regionEnd, current)
  {
    match regionEnd
    case None => MaxInstructionSize + 1
    // an unsigned subtraction that would go below zero wraps, and the minimum is then the buffer size
    case Some(end) => if current <= end then Min(end - current, MaxInstructionSize + 1) else MaxInstructionSize + 1
  }

  /**
   * The read length following_instructions evidently intends: the longest read
   * of at most MAX_SIZE + 1 bytes that does not pass the region end, measured
   * from the absolute `address` that is read (as the paint code measures it).
   */
  function FollowingReadSize(regionEnd: Option<nat>, address: nat): (n: nat)
    ensures n <= MaxInstructionSize + 1
    ensures regionEnd.Some? && address <= regionEnd.value ==> address + n <= regionEnd.value
    ensures regionEnd.None? || address + MaxInstructionSize + 1 <= regionEnd.value ==> n == MaxInstructionSize + 1
    ensures regionEnd.Some? && address <= regionEnd.value && n < MaxInstructionSize + 1 ==> address + n == regionEnd.value
  {
    match regionEnd
    case None => MaxInstructionSize + 1
    case Some(end) => if address <= end then Min(end - address, MaxInstructionSize + 1) else MaxInstructionSize + 1
  }

  /** Which read length a forward step uses: the one the source computes, or the one it evidently intends. */
  datatype ReadRule = AsWritten | Corrected

  /** The length of the read at region-relative `current`, under `rule`. */
  function StepReadSize(rule: ReadRule, regionEnd: Option<nat>, offset: nat, current: nat): (n: nat)
    ensures n <= MaxInstructionSize + 1
  {
    match rule
    case AsWritten => FollowingReadSizeAsWritten(regionEnd, current)
    case Corrected => FollowingReadSize(regionEnd, offset + current)
  }

  /**
   * Where following_instructions ends up after `count` steps from `current`:
   * each step reads at offset + current and moves past the decoded instruction;
   * a failed read or undecodable bytes move one byte and stop.
   */
  function Following(read: (nat, nat) -> Option<seq<byte>>, decode: seq<byte> -> Decoded, rule: ReadRule,
                     regionEnd: Option<nat>, offset: nat, current: nat, count: int): (r: nat)
    decreases count
    ensures count <= 0 ==> r == current
    ensures r >= current
  {
    if count <= 0 then current
    else
      match read(offset + current, StepReadSize(rule, regionEnd, offset, current))
      case None => current + 1
      case Some(bytes) =>
        var inst := decode(bytes);
        if inst.valid then Following(read, decode, rule, regionEnd, offset, current + inst.size, count - 1)
        else current + 1
  }

  /**
   * Each step moves forward by at least one byte and by no more than the read
   * length: after count > 0 steps the address has moved by between 1 and
   * count * (MAX_SIZE + 1) bytes, under either read rule.
   */
  lemma {:induction false} FollowingBounds(read: (nat, nat) -> Option<seq<byte>>, decode: seq<byte> -> Decoded,
                                           rule: ReadRule, regionEnd: Option<nat>, offset: nat, current: nat,
                                           count: int)
    requires SoundReader(read) && SoundDecoder(decode)
    decreases count
    ensures var r := Following(read, decode, rule, regionEnd, offset, current, count);
      if count <= 0 then r == current
      else current < r <= current + count * (MaxInstructionSize + 1)
  {
    if count > 0 {
      StepsBound(count);
      var n := StepReadSize(rule, regionEnd, offset, current);
      match read(offset + current, n)
      case None =>
      case Some(bytes) =>
        var inst := decode(bytes);
        if inst.valid {
          assert 1 <= inst.size <= |bytes| <= n <= MaxInstructionSize + 1;
          FollowingBounds(read, decode, rule, regionEnd, offset, current + inst.size, count - 1);
        }
    }
  }

  /** count steps of at most MAX_SIZE + 1 bytes each: the bound for the first and the bound for the rest. */
  lemma StepsBound(count: int)
    requires count >= 1
    ensures count * (MaxInstructionSize + 1) == (count - 1) * (MaxInstructionSize + 1) + (MaxInstructionSize + 1)
    ensures (count - 1) * (MaxInstructionSize + 1) >= 0
  {
  }

  /**
   * With the corrected read length, stepping forward from inside the region
   * never moves past its end, except by the single byte a failed read or an
   * undecodable instruction moves at the very end.
   */
  lemma {:induction false} FollowingStaysInRegion(read: (nat, nat) -> Option<seq<byte>>, decode: seq<byte> -> Decoded,
                                                  end: nat, offset: nat, current: nat, count: int)
    requires SoundReader(read) && SoundDecoder(decode)
    requires offset + current <= end
    decreases count
    ensures offset + Following(read, decode, Corrected, Some(end), offset, current, count) <= end + 1
  {
    if count > 0 {
      var n := StepReadSize(Corrected, Some(end), offset, current);
      match read(offset + current, n)
      case None =>
      case Some(bytes) =>
        var inst := decode(bytes);
        if inst.valid {
          assert offset + current + inst.size <= offset + current + n <= end;
          FollowingStaysInRegion(read, decode, end, offset, current + inst.size, count - 1);
        }
    }
  }

  /**
   * The source's loop on a region from 0x1000 to 0x1010, 12 bytes in, with a
   * reader that returns every byte asked for and a decoder that takes them all
   * as one instruction: as written it reads 16 bytes and steps to 0x1c, 12
   * bytes past the region end; with the corrected length it reads the 4 bytes
   * left and stops exactly at the end.
   */
  lemma FollowingAsWrittenStepsPastRegionEnd()
    ensures var read: (nat, nat) -> Option<seq<byte>> := (address: nat, n: nat) => Some(seq(n, i => 0));
      var decode: seq<byte> -> Decoded := bs => Decoded(true, |bs|);
      var regionEnd, offset, current := 0x1010, 0x1000, 0xc;
      && offset + Following(read, decode, AsWritten, Some(regionEnd), offset, current, 1) == regionEnd + 12
      && offset + Following(read, decode, Corrected, Some(regionEnd), offset, current, 1) == regionEnd
  {
    var read: (nat, nat) -> Option<seq<byte>> := (address: nat, n: nat) => Some(seq(n, i => 0));
    var decode: seq<byte> -> Decoded := bs => Decoded(true, |bs|);
    assert StepReadSize(AsWritten, Some(0x1010), 0x1000, 0xc) == 16;
    assert StepReadSize(Corrected, Some(0x1010), 0x1000, 0xc) == 4;
    assert |read(0x100c, 16).value| == 16;
    assert |read(0x100c, 4).value| == 4;
  }

  /**
   * following_instructions: moves `count` instructions forward from `current`,
   * reading with the length `rule` gives (AsWritten is the source as it stands).
   */
  method FollowingInstructions(read: (nat, nat) -> Option<seq<byte>>, decode: seq<byte> -> Decoded, rule: ReadRule,
                               regionEnd: Option<nat>, offset: nat, current: nat, count: int)
    returns (address: nat)
    ensures address == Following(read, decode, rule, regionEnd, offset, current, count)
  {
    address := current;
    var i := 0;
    while i < count
      invariant 0 <= i <= (if count > 0 then count else 0)
      invariant Following(read, decode, rule, regionEnd, offset, address, count - i)
             == Following(read, decode, rule, regionEnd, offset, current, count)
    {
      var bytes := read(offset + address, StepReadSize(rule, regionEnd, offset, address));
      if bytes.None? {
        address := address + 1;
        break;
      }
      var inst := decode(bytes.value);
      if inst.valid {
        address := address + inst.size;
      } else {
        address := address + 1;
        break;
      }
      i := i + 1;
    }
  }

  // ---------------------------------------------------------------------------
  // Rows to addresses (get_instruction_size, address_from_coord)
  // ---------------------------------------------------------------------------

  /**
   * The read length get_instruction_size uses at `address`: MAX_SIZE, cut
   * short so as not to cross the region end (a region end of 0 means no limit).
   */
  function InstructionReadSize(regionEnd: nat, address: nat): (n: nat)
    ensures n <= MaxInstructionSize
    ensures regionEnd != 0 && address <= regionEnd ==> address + n <= regionEnd
    ensures regionEnd != 0 && address > regionEnd ==> n == 0
    ensures regionEnd == 0 || address + MaxInstructionSize <= regionEnd ==> n == MaxInstructionSize
    ensures regionEnd != 0 && address <= regionEnd && n < MaxInstructionSize ==> address + n == regionEnd
  {
    if regionEnd != 0 && address + MaxInstructionSize > regionEnd then
      (if address <= regionEnd then regionEnd - address else 0)
    else
      MaxInstructionSize
  }

  /**
   * get_instruction_size: the size the decoder gives the bytes read at
   * `address` (whether or not they decode), or None when the read fails.
   */
  function InstructionSize(read: (nat, nat) -> Option<seq<byte>>, decode: seq<byte> -> Decoded,
                           regionEnd: nat, address: nat): (r: Option<nat>)
    ensures r.None? <==> read(address, InstructionReadSize(regionEnd, address)).None?
    ensures r.Some? ==> r.value == decode(read(address, InstructionReadSize(regionEnd, address)).value).size
  {
    match read(address, InstructionReadSize(regionEnd, address))
    case None => None
    case Some(bytes) => Some(decode(bytes).size)
  }

  /**
   * A valid instruction found by get_instruction_size is at most MAX_SIZE
   * bytes long and, inside a region with a nonzero end, ends at or before it.
   */
  lemma InstructionSizeWithinRead(read: (nat, nat) -> Option<seq<byte>>, decode: seq<byte> -> Decoded,
                                  regionEnd: nat, address: nat)
    requires SoundReader(read) && SoundDecoder(decode)
    requires read(address, InstructionReadSize(regionEnd, address)).Some?
    requires decode(read(address, InstructionReadSize(regionEnd, address)).value).valid
    ensures var size := InstructionSize(read, decode, regionEnd, address).value;
      && 1 <= size <= MaxInstructionSize
      && (regionEnd != 0 && address <= regionEnd ==> address + size <= regionEnd)
  {
    var n := InstructionReadSize(regionEnd, address);
    var bytes := read(address, n).value;
    assert 1 <= decode(bytes).size <= |bytes| <= n;
  }

  /** How far address_from_coord moves for the row at `current`: the instruction's size, or 1 if that is 0 or unknown. */
  function RowStep(read: (nat, nat) -> Option<seq<byte>>, decode: seq<byte> -> Decoded,
                   regionEnd: nat, offset: nat, current: nat): (n: nat)
    ensures n >= 1
  {
    match InstructionSize(read, decode, regionEnd, offset + current)
    case None => 1
    case Some(size) => if size != 0 then size else 1
  }

  /** The address shown `rows` rows below the row showing `current`. */
  function AddressAtRow(read: (nat, nat) -> Option<seq<byte>>, decode: seq<byte> -> Decoded,
                        regionEnd: nat, offset: nat, current: nat, rows: int): nat
    decreases rows
  {
    if rows <= 0 then current
    else AddressAtRow(read, decode, regionEnd, offset, current + RowStep(read, decode, regionEnd, offset, current), rows - 1)
  }

  /** Every row holds at least one byte, so the address `rows` rows down is at least `rows` bytes further. */
  lemma {:induction false} AddressAtRowAdvances(read: (nat, nat) -> Option<seq<byte>>, decode: seq<byte> -> Decoded,
                                                regionEnd: nat, offset: nat, current: nat, rows: int)
    ensures AddressAtRow(read, decode, regionEnd, offset, current, rows) >= current + (if rows > 0 then rows else 0)
    decreases rows
  {
    if rows > 0 {
      AddressAtRowAdvances(read, decode, regionEnd, offset,
                           current + RowStep(read, decode, regionEnd, offset, current), rows - 1);
    }
  }

  /** Rows further down show addresses that are strictly further on. */
  lemma {:induction false} AddressAtRowMonotonic(read: (nat, nat) -> Option<seq<byte>>, decode: seq<byte> -> Decoded,
                                                 regionEnd: nat, offset: nat, current: nat, rows: int, more: int)
    requires 0 <= rows < more
    ensures AddressAtRow(read, decode, regionEnd, offset, current, rows)
          < AddressAtRow(read, decode, regionEnd, offset, current, more)
    decreases rows
  {
    var next := current + RowStep(read, decode, regionEnd, offset, current);
    if rows == 0 {
      AddressAtRowAdvances(read, decode, regionEnd, offset, next, more - 1);
    } else {
      AddressAtRowMonotonic(read, decode, regionEnd, offset, next, rows - 1, more - 1);
    }
  }

  /** Euclidean division of a non-negative number leaves a remainder below the divisor. */
  lemma DivisionBounds(a: nat, b: int)
    requires b > 0
    ensures 0 <= a / b && (a / b) * b <= a < (a / b) * b + b
  {
    assert a == b * (a / b) + a % b;
    assert b * (a / b) == (a / b) * b;
  }

  /** C's `/` on int: the quotient truncated toward zero. */
  function TruncatingDiv(a: int, b: int): (q: int)
    requires b > 0
    ensures a >= 0 ==> 0 <= q && q * b <= a < q * b + b
    ensures a < 0 ==> q <= 0 && a <= q * b < a + b
    ensures a < b ==> q <= 0
  {
    DivisionBounds(if a >= 0 then a else -a, b);
    if a >= 0 then a / b else -((-a) / b)
  }

  /**
   * address_from_coord: the address of the row at height `y`, counting rows of
   * `lineHeight` pixels down from the row at the scroll position (the x
   * coordinate is ignored).
   */
  method AddressFromCoord(read: (nat, nat) -> Option<seq<byte>>, decode: seq<byte> -> Decoded,
                          regionEnd: nat, offset: nat, scrollValue: nat, y: int, lineHeight: int)
    returns (address: nat)
    requires lineHeight > 0
    ensures address == AddressAtRow(read, decode, regionEnd, offset, scrollValue, TruncatingDiv(y, lineHeight))
    ensures y >= 0 ==> address >= scrollValue + TruncatingDiv(y, lineHeight)
    ensures y < lineHeight ==> address == scrollValue
  {
    var line := TruncatingDiv(y, lineHeight);
    address := scrollValue;
    var i := 0;
    while i < line
      invariant 0 <= i <= (if line > 0 then line else 0)
      invariant AddressAtRow(read, decode, regionEnd, offset, address, line - i)
             == AddressAtRow(read, decode, regionEnd, offset, scrollValue, line)
    {
      ghost var before := address;
      ghost var step := RowStep(read, decode, regionEnd, offset, address);
      var size := InstructionSize(read, decode, regionEnd, offset + address);
      if size.Some? {
        address := address + (if size.value != 0 then size.value else 1);
      } else {
        address := address + 1;
      }
      assert address == before + step;
      i := i + 1;
    }
    assert line - i <= 0;
    AddressAtRowAdvances(read, decode, regionEnd, offset, scrollValue, line);
  }
}
