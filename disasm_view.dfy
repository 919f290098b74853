/**
 * The disassembly widget's own state: where the three column dividers sit
 * (address | bytes | instruction | comment), how dragging them with the mouse
 * moves them, how their positions are saved to and restored from a 16-byte
 * record, the vertical scroll range, and the per-address comments.
 */
module DisasmView {
  import opened Bytes
  import opened Wrappers
  import DisasmFormat

  /** How many instruction bytes the bytes column is sized for before any drag (`default_byte_width`). */
  const DefaultByteWidth: int := 8

  /** A strictly positive pixel count (a row height). */
  type Positive = n: int | n > 0 witness 1

  /**
   * What the divider positions are computed from: the font's character width,
   * the breakpoint icon's width, the debuggee's pointer size in bytes, whether
   * addresses show a separator, and the widget's and scrollbar's widths.
   */
  datatype Geometry = Geometry(fontWidth: nat, iconWidth: nat, pointerSize: nat, showSeparator: bool,
                               width: int, scrollBarWidth: int)

  /** The stored divider positions, in pixels; 0 stands for "place automatically". */
  datatype Dividers = Dividers(line1: int, line2: int, line3: int)

  /** auto_line1: the first divider's automatic place, just past the address text and the breakpoint icon. */
  function AutoLine1(g: Geometry): (x: int)
    ensures x > DisasmFormat.AddressLength(g.pointerSize, g.showSeparator) * g.fontWidth + g.iconWidth
    ensures x <= (DisasmFormat.AddressLength(g.pointerSize, g.showSeparator) + 1) * g.fontWidth + g.iconWidth + 1
  {
    DisasmFormat.AddressLength(g.pointerSize, g.showSeparator) * g.fontWidth + g.fontWidth / 2 + g.iconWidth + 1
  }

  /** line1: where the first divider is drawn. */
  function Line1(g: Geometry, d: Dividers): (x: int)
    ensures d.line1 != 0 ==> x == d.line1
    ensures d.line1 == 0 ==> x > DisasmFormat.AddressLength(g.pointerSize, g.showSeparator) * g.fontWidth + g.iconWidth
  {
    if d.line1 == 0 then AutoLine1(g) else d.line1
  }

  /** line2: where the second divider is drawn; automatically, room for the default bytes after the first. */
  function Line2(g: Geometry, d: Dividers): (x: int)
    ensures d.line2 != 0 ==> x == d.line2
    ensures d.line2 == 0 ==> x - Line1(g, d) == 3 * DefaultByteWidth * g.fontWidth
  {
    if d.line2 == 0 then Line1(g, d) + (DefaultByteWidth * 3) * g.fontWidth else d.line2
  }

  /** line3: where the third divider is drawn; automatically, 50 characters after the second. */
  function Line3(g: Geometry, d: Dividers): (x: int)
    ensures d.line3 != 0 ==> x == d.line3
    ensures d.line3 == 0 ==> x - Line2(g, d) == 50 * g.fontWidth
  {
    if d.line3 == 0 then Line2(g, d) + 50 * g.fontWidth else d.line3
  }

  /** The dividers are drawn left to right in order, right of the widget's left edge. */
  predicate Ordered(g: Geometry, d: Dividers) {
    0 < Line1(g, d) < Line2(g, d) < Line3(g, d)
  }

  /**
   * With nothing stored, the columns get their default widths: three
   * characters per default byte for the bytes column and 50 characters for the
   * instruction column, and with a font of positive width they are in order.
   */
  lemma DefaultLayout(g: Geometry)
    ensures var d := Dividers(0, 0, 0);
      && Line1(g, d) == AutoLine1(g)
      && Line2(g, d) - Line1(g, d) == 3 * DefaultByteWidth * g.fontWidth
      && Line3(g, d) - Line2(g, d) == 50 * g.fontWidth
      && (g.fontWidth > 0 ==> Ordered(g, d))
  {
  }

  /** near_line: `x` is within 2 pixels of a divider at `lineX`. */
  function NearLine(x: int, lineX: int): (near: bool)
    ensures near <==> lineX - 3 < x < lineX + 3
  {
    (if x - lineX < 0 then lineX - x else x - lineX) < 3
  }

  /** What a left-button press grabs. */
  datatype Grab = GrabLine1 | GrabLine2 | GrabLine3 | SelectAddress

  /** The press handler's choice: the first divider (left to right) near `x`, otherwise address selection. */
  function PressGrab(g: Geometry, d: Dividers, x: int): (grab: Grab)
    ensures grab == GrabLine1 ==> NearLine(x, Line1(g, d))
    ensures grab == GrabLine2 ==> NearLine(x, Line2(g, d))
    ensures grab == GrabLine3 ==> NearLine(x, Line3(g, d))
    ensures grab == SelectAddress <==>
      !NearLine(x, Line1(g, d)) && !NearLine(x, Line2(g, d)) && !NearLine(x, Line3(g, d))
    ensures NearLine(x, Line1(g, d)) ==> grab == GrabLine1
    ensures !NearLine(x, Line1(g, d)) && NearLine(x, Line2(g, d)) ==> grab == GrabLine2
    ensures !NearLine(x, Line1(g, d)) && !NearLine(x, Line2(g, d)) && NearLine(x, Line3(g, d)) ==> grab == GrabLine3
  {
    if NearLine(x, Line1(g, d)) then GrabLine1
    else if NearLine(x, Line2(g, d)) then GrabLine2
    else if NearLine(x, Line3(g, d)) then GrabLine3
    else SelectAddress
  }

  /** When the dividers are at least 5 pixels apart, a press grabs exactly the divider it is near. */
  lemma PressGrabsTheNearDivider(g: Geometry, d: Dividers, x: int)
    requires Line2(g, d) - Line1(g, d) >= 5 && Line3(g, d) - Line2(g, d) >= 5
    ensures PressGrab(g, d, x) == GrabLine1 <==> NearLine(x, Line1(g, d))
    ensures PressGrab(g, d, x) == GrabLine2 <==> NearLine(x, Line2(g, d))
    ensures PressGrab(g, d, x) == GrabLine3 <==> NearLine(x, Line3(g, d))
  {
  }

  /**
   * Dragging the first divider to `x`: accepted when it stays right of its
   * automatic place and a character left of the second divider; the second
   * divider is pinned where it is drawn, so columns to the right do not move.
   */
  function DragLine1(g: Geometry, d: Dividers, x: int): (r: Dividers)
    ensures x >= AutoLine1(g) && x + g.fontWidth < Line2(g, d) ==>
      Line1(g, r) == x && Line2(g, r) == Line2(g, d) && Line3(g, r) == Line3(g, d)
    ensures !(x >= AutoLine1(g) && x + g.fontWidth < Line2(g, d)) ==> r == d
  {
    if x >= AutoLine1(g) && x + g.fontWidth < Line2(g, d) then
      Dividers(x, if d.line2 == 0 then Line2(g, d) else d.line2, d.line3)
    else
      d
  }

  /**
   * Dragging the second divider to `x`: accepted when it stays a character
   * right of the first and left of the third; the third is pinned. On a
   * layout whose first divider is right of the left edge, only the second
   * divider moves.
   */
  function DragLine2(g: Geometry, d: Dividers, x: int): (r: Dividers)
    ensures Line1(g, d) > 0 && Line1(g, d) + g.fontWidth < x && x + 1 < Line3(g, d) ==>
      Line1(g, r) == Line1(g, d) && Line2(g, r) == x && Line3(g, r) == Line3(g, d)
    ensures !(Line1(g, d) + g.fontWidth < x && x + 1 < Line3(g, d)) ==> r == d
  {
    if x > Line1(g, d) + g.fontWidth && x + 1 < Line3(g, d) then
      Dividers(d.line1, x, if d.line3 == 0 then Line3(g, d) else d.line3)
    else
      d
  }

  /**
   * Dragging the third divider to `x`: accepted when it stays a character
   * right of the second and clear of the vertical scrollbar.
   */
  function DragLine3(g: Geometry, d: Dividers, x: int): (r: Dividers)
    ensures Line2(g, d) >= 0 && Line2(g, d) + g.fontWidth < x && x + 1 < g.width - (g.scrollBarWidth + 3) ==>
      Line1(g, r) == Line1(g, d) && Line2(g, r) == Line2(g, d) && Line3(g, r) == x
    ensures !(Line2(g, d) + g.fontWidth < x && x + 1 < g.width - (g.scrollBarWidth + 3)) ==> r == d
  {
    if x > Line2(g, d) + g.fontWidth && x + 1 < g.width - (g.scrollBarWidth + 3) then
      Dividers(d.line1, d.line2, x)
    else
      d
  }

  /** The divider update of a mouse move: the divider being dragged, the first one in order when several are. */
  function MoveDividers(g: Geometry, d: Dividers, moving1: bool, moving2: bool, moving3: bool, x: int): (r: Dividers)
    // the first divider being dragged, in the order line1, line2, line3, is the one that moves
    ensures moving1 ==> r == DragLine1(g, d, x)
    ensures !moving1 && moving2 ==> r == DragLine2(g, d, x)
    ensures !moving1 && !moving2 && moving3 ==> r == DragLine3(g, d, x)
    ensures !moving1 && !moving2 && !moving3 ==> r == d
    // a drag stores at most the dragged divider and the one it pins
    ensures moving1 ==> r.line3 == d.line3
    ensures !moving1 && moving2 ==> r.line1 == d.line1
    ensures !moving1 && !moving2 && moving3 ==> r.line1 == d.line1 && r.line2 == d.line2
  {
    if moving1 then DragLine1(g, d, x)
    else if moving2 then DragLine2(g, d, x)
    else if moving3 then DragLine3(g, d, x)
    else d
  }

  /** No drag can put the dividers out of order or left of the widget's edge. */
  lemma DragsKeepOrder(g: Geometry, d: Dividers, moving1: bool, moving2: bool, moving3: bool, x: int)
    requires Ordered(g, d)
    ensures Ordered(g, MoveDividers(g, d, moving1, moving2, moving3, x))
  {
    if moving1 {
      var r := DragLine1(g, d, x);
      assert r == d || (Line1(g, r) == x >= AutoLine1(g) > 0 && x < Line2(g, r) == Line2(g, d) && Line3(g, r) == Line3(g, d));
    } else if moving2 {
      var r := DragLine2(g, d, x);
      assert r == d || (Line1(g, r) == Line1(g, d) && Line2(g, r) == x && Line3(g, r) == Line3(g, d));
    } else if moving3 {
      var r := DragLine3(g, d, x);
      assert r == d || (Line1(g, r) == Line1(g, d) && Line2(g, r) == Line2(g, d) && Line3(g, r) == x);
    }
  }

  // ---------------------------------------------------------------------------
  // Saved state (saveState / restoreState)
  // ---------------------------------------------------------------------------

  /** sizeof(WidgetState1): a version field and three divider positions, four C ints. */
  const StateSize: int := 16

  /** saveState: the record `{ version = sizeof(WidgetState1), line1, line2, line3 }` as the bytes memcpy produces. */
  function EncodeState(d: Dividers): (bs: seq<byte>)
    ensures |bs| == StateSize
    ensures DecodeInt32(bs[..4]) == StateSize
  {
    Int32RoundTrip(StateSize);
    var record := EncodeInt32(StateSize) + EncodeInt32(d.line1) + EncodeInt32(d.line2) + EncodeInt32(d.line3);
    assert record[..4] == EncodeInt32(StateSize);
    record
  }

  /**
   * What restoreState loads from `bs`: nothing when the buffer is shorter than
   * the record or the record's version is older than this record layout.
   */
  function DecodeState(bs: seq<byte>): (r: Option<Dividers>)
    ensures r.Some? <==> |bs| >= StateSize && DecodeInt32(bs[..4]) >= StateSize
    ensures r.Some? ==> IsInt32(r.value.line1) && IsInt32(r.value.line2) && IsInt32(r.value.line3)
  {
    if |bs| < StateSize then None
    else if DecodeInt32(bs[..4]) < StateSize then None
    else Some(Dividers(DecodeInt32(bs[4..8]), DecodeInt32(bs[8..12]), DecodeInt32(bs[12..16])))
  }

  /** Positions that fit in a C int survive a save followed by a restore. */
  lemma StateRoundTrip(d: Dividers)
    requires IsInt32(d.line1) && IsInt32(d.line2) && IsInt32(d.line3)
    ensures DecodeState(EncodeState(d)) == Some(d)
  {
    var bs := EncodeState(d);
    Int32RoundTrip(StateSize);
    Int32RoundTrip(d.line1);
    Int32RoundTrip(d.line2);
    Int32RoundTrip(d.line3);
    assert bs[..4] == EncodeInt32(StateSize);
    assert bs[4..8] == EncodeInt32(d.line1);
    assert bs[8..12] == EncodeInt32(d.line2);
    assert bs[12..16] == EncodeInt32(d.line3);
  }

  /** A saved record of exactly the current version is what saving the restored positions gives back. */
  lemma SavedRecordRoundTrip(bs: seq<byte>)
    requires |bs| == StateSize && DecodeInt32(bs[..4]) == StateSize
    ensures DecodeState(bs).Some? && EncodeState(DecodeState(bs).value) == bs
  {
    Int32BytesRoundTrip(bs[..4]);
    Int32BytesRoundTrip(bs[4..8]);
    Int32BytesRoundTrip(bs[8..12]);
    Int32BytesRoundTrip(bs[12..16]);
    assert bs == bs[..4] + bs[4..8] + bs[8..12] + bs[12..16];
  }

  /**
   * A record that is restored has its three positions read from bytes 4..16,
   * whatever version of 16 or more it carries.
   */
  lemma DecodeStateReadsFields(bs: seq<byte>)
    requires DecodeState(bs).Some?
    ensures EncodeState(DecodeState(bs).value)[4..] == bs[4..16]
  {
    Int32BytesRoundTrip(bs[4..8]);
    Int32BytesRoundTrip(bs[8..12]);
    Int32BytesRoundTrip(bs[12..16]);
    assert bs[4..16] == bs[4..8] + bs[8..12] + bs[12..16];
  }

  /** Bytes after the record (from a longer, newer record) are ignored. */
  lemma DecodeStateIgnoresTrailing(bs: seq<byte>, extra: seq<byte>)
    requires |bs| >= StateSize
    ensures DecodeState(bs + extra) == DecodeState(bs)
  {
    assert (bs + extra)[..4] == bs[..4];
    assert (bs + extra)[4..8] == bs[4..8];
    assert (bs + extra)[8..12] == bs[8..12];
    assert (bs + extra)[12..16] == bs[12..16];
  }

  // ---------------------------------------------------------------------------
  // Scroll range (updateScrollbars)
  // ---------------------------------------------------------------------------

  /**
   * The vertical scrollbar's maximum: one scroll step per byte of the region
   * (the region size cut to an unsigned 32-bit count), and no scrolling when
   * the region fits in the rows the viewport shows or there is no region.
   */
  function ScrollMaximum(regionSize: Option<nat>, viewportHeight: nat, lineHeight: Positive): (m: nat)
    ensures m < Two32
    ensures regionSize.None? ==> m == 0
    ensures regionSize.Some? && regionSize.value < Two32 ==>
      if regionSize.value > viewportHeight / lineHeight then m + 1 == regionSize.value else m == 0
  {
    match regionSize
    case None => 0
    case Some(size) =>
      var totalLines := size % Two32;
      var viewableLines := viewportHeight / lineHeight;
      if totalLines > viewableLines then totalLines - 1 else 0
  }

  /**
   * The region size is cut to an unsigned 32-bit count: every region is
   * scrolled as if it had only its size modulo 2^32 bytes, so a 4 GiB region
   * cannot be scrolled at all.
   */
  lemma ScrollMaximumTruncatesRegionSize(size: nat, viewportHeight: nat, lineHeight: Positive)
    ensures ScrollMaximum(Some(size), viewportHeight, lineHeight)
         == ScrollMaximum(Some(size % Two32), viewportHeight, lineHeight)
    ensures ScrollMaximum(Some(Two32), viewportHeight, lineHeight) == 0
  {
  }

  // ---------------------------------------------------------------------------
  // The widget
  // ---------------------------------------------------------------------------

  /** QDisassemblyView's divider, mouse, comment and scrollbar state. */
  class DisassemblyView {
    var geometry: Geometry
    var line1: int
    var line2: int
    var line3: int
    var movingLine1: bool
    var movingLine2: bool
    var movingLine3: bool
    var selectingAddress: bool
    /** Comments keyed by address. */
    var comments: map<nat, string>
    /** The size of the region shown, if any. */
    var regionSize: Option<nat>
    var viewportHeight: nat
    var lineHeight: Positive
    var scrollMaximum: nat

    /** The stored divider positions. */
    function Layout(): Dividers
      reads this
    {
      Dividers(line1, line2, line3)
    }

    /** A new view: dividers placed automatically, nothing dragged or selected, no comments, no region, addresses with separator. */
    constructor(fontWidth: nat, iconWidth: nat, pointerSize: nat, width: int, scrollBarWidth: int,
                viewportHeight: nat, lineHeight: Positive)
      ensures geometry == Geometry(fontWidth, iconWidth, pointerSize, true, width, scrollBarWidth)
      ensures Layout() == Dividers(0, 0, 0)
      ensures !movingLine1 && !movingLine2 && !movingLine3 && !selectingAddress
      ensures comments == map[] && regionSize.None?
      ensures this.viewportHeight == viewportHeight && this.lineHeight == lineHeight
      ensures scrollMaximum == 0
    {
      geometry := Geometry(fontWidth, iconWidth, pointerSize, true, width, scrollBarWidth);
      line1, line2, line3 := 0, 0, 0;
      movingLine1, movingLine2, movingLine3, selectingAddress := false, false, false, false;
      comments := map[];
      regionSize := None;
      this.viewportHeight := viewportHeight;
      this.lineHeight := lineHeight;
      scrollMaximum := 0;
    }

    /** setShowAddressSeparator. */
    method SetShowAddressSeparator(value: bool)
      modifies this`geometry
      ensures geometry == old(geometry).(showSeparator := value)
    {
      geometry := geometry.(showSeparator := value);
    }

    /** setRegion: shows a region (or none) and refits the scroll range to it. */
    method SetRegion(size: Option<nat>)
      modifies this`regionSize, this`scrollMaximum
      ensures regionSize == size
      ensures scrollMaximum == ScrollMaximum(size, viewportHeight, lineHeight)
    {
      regionSize := size;
      UpdateScrollbars();
    }

    /** updateScrollbars. */
    method UpdateScrollbars()
      modifies this`scrollMaximum
      ensures scrollMaximum == ScrollMaximum(regionSize, viewportHeight, lineHeight)
    {
      scrollMaximum := ScrollMaximum(regionSize, viewportHeight, lineHeight);
    }

    /**
     * mousePressEvent: with a region shown, a left-button press starts
     * dragging the divider it is near, or starts selecting addresses.
     */
    method MousePress(leftButton: bool, x: int)
      modifies this`movingLine1, this`movingLine2, this`movingLine3, this`selectingAddress
      ensures var pressed := regionSize.Some? && leftButton;
        var grab := PressGrab(geometry, Layout(), x);
        && movingLine1 == (old(movingLine1) || (pressed && grab == GrabLine1))
        && movingLine2 == (old(movingLine2) || (pressed && grab == GrabLine2))
        && movingLine3 == (old(movingLine3) || (pressed && grab == GrabLine3))
        && selectingAddress == (old(selectingAddress) || (pressed && grab == SelectAddress))
    {
      if regionSize.Some? && leftButton {
        var grab := PressGrab(geometry, Layout(), x);
        match grab
        case GrabLine1 => movingLine1 := true;
        case GrabLine2 => movingLine2 := true;
        case GrabLine3 => movingLine3 := true;
        case SelectAddress => selectingAddress := true;
      }
    }

    /** mouseMoveEvent: with a region shown, moves the divider being dragged. */
    method MouseMove(x: int)
      modifies this`line1, this`line2, this`line3
      ensures Layout() == if regionSize.Some?
        then MoveDividers(geometry, old(Layout()), movingLine1, movingLine2, movingLine3, x)
        else old(Layout())
    {
      if regionSize.Some? {
        var d := MoveDividers(geometry, Layout(), movingLine1, movingLine2, movingLine3, x);
        line1, line2, line3 := d.line1, d.line2, d.line3;
      }
    }

    /** mouseReleaseEvent: ends every drag and the address selection. */
    method MouseRelease()
      modifies this`movingLine1, this`movingLine2, this`movingLine3, this`selectingAddress
      ensures !movingLine1 && !movingLine2 && !movingLine3 && !selectingAddress
    {
      movingLine1, movingLine2, movingLine3, selectingAddress := false, false, false, false;
    }

    /** saveState: the record holding the stored divider positions. */
    method SaveState() returns (bs: seq<byte>)
      ensures bs == EncodeState(Layout())
      ensures |bs| == StateSize && DecodeInt32(bs[..4]) == StateSize
      ensures IsInt32(line1) && IsInt32(line2) && IsInt32(line3) ==> DecodeState(bs) == Some(Layout())
    {
      bs := EncodeState(Layout());
      if IsInt32(line1) && IsInt32(line2) && IsInt32(line3) {
        StateRoundTrip(Layout());
      }
    }

    /** restoreState: loads the divider positions from a record, or leaves them when it is short or too old. */
    method RestoreState(bs: seq<byte>)
      modifies this`line1, this`line2, this`line3
      ensures Layout() == match DecodeState(bs) case Some(d) => d case None => old(Layout())
    {
      match DecodeState(bs)
      case Some(d) =>
        line1, line2, line3 := d.line1, d.line2, d.line3;
      case None =>
    }

    /** add_comment: sets (or replaces) the comment at `address`. */
    method AddComment(address: nat, comment: string)
      modifies this`comments
      ensures comments == old(comments)[address := comment]
      ensures GetComment(address) == comment
    {
      comments := comments[address := comment];
    }

    /** remove_comment: drops the comment at `address` and says how many were dropped. */
    method RemoveComment(address: nat) returns (removed: int)
      modifies this`comments
      ensures comments == old(comments) - {address}
      ensures removed == if address in old(comments) then 1 else 0
      ensures GetComment(address) == ""
    {
      removed := if address in comments then 1 else 0;
      comments := comments - {address};
    }

    /** get_comment: the comment at `address`, or the empty string when there is none. */
    function GetComment(address: nat): (comment: string)
      reads this
      ensures address in comments ==> comment == comments[address]
      ensures address !in comments ==> comment == ""
    {
      if address in comments then comments[address] else ""
    }

    /** clear_comments. */
    method ClearComments()
      modifies this`comments
      ensures comments == map[]
      ensures forall address: nat :: GetComment(address) == ""
    {
      comments := map[];
    }
  }
}
