# edb disassembly view, graph node shapes and memory marking — a Dafny model

This project models three pieces of logic from the edb debugger and proves properties about them.

- **Graph node shapes** (`GraphNode::make_shape` and its two helpers). A Graphviz shape name is sorted into one of four outcomes: the regular-polygon family, the ellipse family, `"none"`, or unsupported.
  - A polygon-family node becomes a closed polygon through its transformed layout vertices.
  - An ellipse-family node becomes one ellipse ring per periphery.
  - A periphery count other than 1 draws a warning, and so does an unknown name.
  - Points are integer pairs, and the graph's layout-to-scene transform `gToQ` is a function parameter. A `QPainterPath` is modelled as a class holding a sequence of sub-paths. `qWarning` is modelled as an appended log of warnings.
- **The disassembly view** (`QDisassemblyView`):
  - fixed-width hex formatting of 32-bit addresses and the width of the address column;
  - the `db`/`dw`/`dd`/`dq` text shown for bytes that do not decode;
  - the three column dividers: automatic placement when a stored position is 0, how mouse presses, drags and releases move them, and a 16-byte save/restore record for their positions;
  - the vertical scroll range;
  - the per-address comment map;
  - the loops that step one instruction back (`length_disasm_back`) or several instructions forward (`following_instructions`), and that turn a mouse row into an address (`address_from_coord`, `get_instruction_size`).

  The instruction decoder and the debugger's memory reads are function parameters (oracles). The model says what the view does with their answers.
- **Memory marking** (`util::markMemory`, `BIT_LENGTH`). A buffer is filled in place with the alternating `0xd1`/`0xba` pattern.

Modules, one per file:

- `Wrappers`: `Option`.
- `Bytes`: bytes, little-endian integers and C `int` encoding.
- `HexFormat`: fixed-width lower-case hex and its parser.
- `Util`: `markMemory` and `BIT_LENGTH`.
- `GraphNode`.
- `DisasmFormat`: address and invalid-byte text.
- `DisasmNavigation`: instruction stepping.
- `DisasmView`: dividers, saved state, scroll range, comments and the widget class.

Assumptions the model makes explicit:

- `edb::Instruction::MAX_SIZE` is not defined in the files modelled. It is taken as 15, the x86 maximum (`DisasmNavigation.MaxInstructionSize`).
- `saveState` copies a struct of four C `int`s with `memcpy`. The model fixes that layout as little-endian, as on the x86 hosts edb runs on.
- The divider positions are unbounded integers. The record stores their low 32 bits.
- `following_instructions` takes a read rule (`DisasmNavigation.ReadRule`). `AsWritten` reproduces the read length the source computes at line 353. `Corrected` is the length the source evidently intends (see "## Findings"). Both are modelled, and `FollowingBounds` holds for both.
- Both shape helpers index `polygon[0]`, and the ellipse helper also `polygon[1]`. So they require at least 1 (polygon) or 2 (ellipse) vertices. The model states these as preconditions (`GraphNode.ShapeDataFits`).

## Model

| member | source | states |
|---|---|---|
| GraphNode.Classify | src/graph/GraphNode.cpp:142-169 | a name is in the polygon family iff it is one of the 18 polygon names, in the ellipse family iff it is one of the four ellipse names, and "none" iff it is exactly "none" |
| GraphNode.ShapeNameClasses | src/graph/GraphNode.cpp:142-165 | the polygon names are 18 distinct names and the ellipse names 4; the two sets are disjoint and neither holds "none" |
| GraphNode.ClassifyIsExact | src/graph/GraphNode.cpp:142-169 | matching is exact and case-sensitive: "Box", "box ", "Ellipse", "mcircle", "None" and "" are all unsupported |
| GraphNode.TransformVertices | src/graph/GraphNode.cpp:94-97 | the loop yields max(sides, 0) points, point k being gToQ(vertices[k]), in layout order |
| GraphNode.ClosedPolygonShape | src/graph/GraphNode.cpp:94-100 | the polygon has sides + 1 points: the transformed vertices in order, then the first point again |
| GraphNode.MakePolygonHelper | src/graph/GraphNode.cpp:84-101 | appends exactly the closed polygon to the path and exactly the periphery warning (one iff peripheries != 1) to the log |
| GraphNode.PeripheryWarnings | src/graph/GraphNode.cpp:87-89 | one warning carrying the count iff peripheries != 1, otherwise none |
| GraphNode.RingsShape | src/graph/GraphNode.cpp:124-126 | max(peripheries, 0) ellipses; ellipse i has the box (left - 2i, top + 2i, right + 2i, bottom - 2i) |
| GraphNode.RingGeometry | src/graph/GraphNode.cpp:125 | ring 0 is the bounding box itself; each further ring is 4 wider and 4 shorter than the one before |
| GraphNode.MakeEllipseHelper | src/graph/GraphNode.cpp:107-127 | appends exactly the rings of the box from the first to the second transformed vertex, and exactly the periphery warning |
| GraphNode.MakeShape | src/graph/GraphNode.cpp:133-172 | returns a fresh path holding exactly the figures ShapePath gives and adds exactly the warnings ShapeWarnings gives |
| GraphNode.PolygonShapeResult | src/graph/GraphNode.cpp:142-162 | a polygon-family name gives a single closed polygon whatever the periphery count, with one warning iff the count is not 1 |
| GraphNode.EllipseShapeResult | src/graph/GraphNode.cpp:163-164 | an ellipse-family name gives max(peripheries, 0) rings, the first being the transformed bounding box, plus the periphery warning |
| GraphNode.NoneShapeResult | src/graph/GraphNode.cpp:165-166 | "none" gives an empty path and no warning |
| GraphNode.UnsupportedShapeResult | src/graph/GraphNode.cpp:167-169 | an unrecognised name gives an empty path and exactly one warning, whose text ends with the name |
| GraphNode.Message | src/graph/GraphNode.cpp:168 | the unsupported-shape message ends with the shape name |
| GraphNode.PainterPath.AddPolygon | src/graph/GraphNode.cpp:100 | appends one polygon sub-path |
| GraphNode.PainterPath.AddEllipse | src/graph/GraphNode.cpp:125 | appends one ellipse sub-path |
| GraphNode.WarningLog.Warn | src/graph/GraphNode.cpp:88 | appends one warning |
| Util.Marked | include/Util.h:63-69 | same length; bytes at even indices below n are 0xd1, at odd indices below n are 0xba; bytes from n on are unchanged |
| Util.MarkMemory | include/Util.h:63-69 | the buffer afterwards is Marked(its old contents, size), so the marking effects above hold for it |
| Util.MarkedIdempotent | include/Util.h:63-69 | marking twice is marking once |
| Util.MarkedIgnoresOldContents | include/Util.h:63-69 | the marked prefix does not depend on the previous contents |
| Util.MarkedWord | include/Util.h:66-68 | each aligned 4-byte word of the marked prefix reads 0xbad1bad1 as a little-endian word, as the comment promises |
| Util.BitLength | include/Util.h:73 | the bit count is a whole number of 8-bit bytes, exactly sizeof many |
| Util.BitLengthCountsValues | include/Util.h:73 | 2^BIT_LENGTH(n bytes) is the number of values n bytes hold |
| Util.BitLengthBoundsStoredValues | include/Util.h:73 | every value stored in n bytes is below 2^BIT_LENGTH |
| HexFormat.ParseHexOfHex | src/widgets/QDisassemblyView.cpp:82 | a value below 16^width printed with `%0<width>x` parses back to itself |
| DisasmFormat.FormatAddress32 | src/widgets/QDisassemblyView.cpp:78-90 | format_address for 32-bit addresses: 9 characters, two groups of 4 hex digits around a colon at index 4, with the separator; 8 hex digits without (FormatAddress32Spec gives the value) |
| DisasmFormat.FormatAddress32Spec | src/widgets/QDisassemblyView.cpp:78-90 | 9 characters with a colon at index 4 when the separator is shown, otherwise 8; the digits are lower-case hex and parse back to the address |
| DisasmFormat.FormatAddress32Separator | src/widgets/QDisassemblyView.cpp:80-90 | removing the character after the high 16 bits of the separated form gives the unseparated form |
| DisasmFormat.AddressLength | src/widgets/QDisassemblyView.cpp:1060-1063 | two hex digits per pointer byte, plus one for the separator |
| DisasmFormat.AddressLengthFitsFormat | src/widgets/QDisassemblyView.cpp:1060-1063 | with 4-byte pointers, address_length equals the formatted address's length |
| DisasmFormat.HexMostSignificantFirst | src/widgets/QDisassemblyView.cpp:651-660 | two lower-case hex digits per byte |
| DisasmFormat.HexMostSignificantFirstValue | src/widgets/QDisassemblyView.cpp:651-660 | the digits (last byte first) parse to the little-endian value of the bytes |
| DisasmFormat.InvalidInstructionText | src/widgets/QDisassemblyView.cpp:645-671 | the text is "invalid" iff the byte count is not 1, 2, 4 or 8; otherwise it is 5 + 2 * count characters with " 0x" after the two-letter directive (InvalidInstructionTextSpec gives the digits' value) |
| DisasmFormat.InvalidInstructionTextSpec | src/widgets/QDisassemblyView.cpp:645-671 | for sizes 1, 2, 4 and 8: the directive, " 0x", then 2 * size hex digits holding the bytes' little-endian value; for any other size: "invalid" |
| DisasmFormat.DataDirectiveNamesWidth | src/widgets/QDisassemblyView.cpp:650-660 | sizes 1, 2, 4 and 8 are written db, dw, dd and dq |
| DisasmNavigation.LongestEndingAt | src/widgets/QDisassemblyView.cpp:137-145 | stage 1 finds the lowest offset whose instruction ends exactly at the current one, or reports that none does |
| DisasmNavigation.LongestRealigning | src/widgets/QDisassemblyView.cpp:147-160 | stage 2 finds the lowest offset whose instruction, followed by one more, ends where the current instruction ends, or reports that none does |
| DisasmNavigation.NearestUndecodable | src/widgets/QDisassemblyView.cpp:162-167 | stage 3 finds the highest offset below the current one whose bytes do not decode, or reports that none exists |
| DisasmNavigation.LengthDisasmBack | src/widgets/QDisassemblyView.cpp:135-170 | the result is at most curInstOffset (so 0 when it is 0); when stage 1 applies it is curInstOffset minus the lowest offset ending exactly there; otherwise stage 2's, otherwise stage 3's; 0 when no stage applies |
| DisasmNavigation.FollowingReadSize | src/widgets/QDisassemblyView.cpp:350-354 | the longest read that does not pass the region end: at most MAX_SIZE + 1 bytes, never past the end, the full length when the region leaves room, and a read cut short ends exactly at the region end |
| DisasmNavigation.FollowingReadSizeAsWritten | src/widgets/QDisassemblyView.cpp:351-354 | the read length as the source computes it: the intended rule applied to the region-relative address instead of the absolute one; never more than MAX_SIZE + 1 bytes |
| DisasmNavigation.StepReadSize | src/widgets/QDisassemblyView.cpp:351-354 | under either rule (AsWritten is line 353 as it stands, Corrected the intended length), a step reads at most MAX_SIZE + 1 bytes |
| DisasmNavigation.Following | src/widgets/QDisassemblyView.cpp:344-372 | following_instructions as a function: count <= 0 steps stay put and no step moves backward (FollowingBounds gives the full bounds) |
| DisasmNavigation.FollowingInstructions | src/widgets/QDisassemblyView.cpp:344-372 | the loop ends at Following(...) for the read rule it is given: each step moves past the decoded instruction, and a failed read or undecodable bytes move one byte and stop; with rule AsWritten it is the source as it stands |
| DisasmNavigation.FollowingBounds | src/widgets/QDisassemblyView.cpp:344-372 | under either read rule, count > 0 steps move forward by at least 1 and at most count * (MAX_SIZE + 1) bytes; a count <= 0 does not move |
| DisasmNavigation.FollowingStaysInRegion | src/widgets/QDisassemblyView.cpp:350-354 | with the corrected read length, stepping forward from inside the region never passes its end, except by the final one-byte step of a failed read or undecodable bytes |
| DisasmNavigation.FollowingAsWrittenStepsPastRegionEnd | src/widgets/QDisassemblyView.cpp:353 | on a 16-byte region entered 12 bytes in, the loop as written steps to 12 bytes past the region end, while the corrected loop stops exactly at the end |
| DisasmNavigation.InstructionReadSize | src/widgets/QDisassemblyView.cpp:1108-1123 | the longest read that does not cross a nonzero region end: at most MAX_SIZE bytes, never past the end, 0 past the end, MAX_SIZE when there is room, and a read cut short ends exactly at the region end |
| DisasmNavigation.InstructionSize | src/widgets/QDisassemblyView.cpp:1084-1126 | None iff the read of InstructionReadSize bytes at the address fails; otherwise the decoder's size for the bytes read |
| DisasmNavigation.InstructionSizeWithinRead | src/widgets/QDisassemblyView.cpp:1084-1126 | a valid instruction found there is 1 to MAX_SIZE bytes long and, within a region with a nonzero end, ends at or before that end |
| DisasmNavigation.RowStep | src/widgets/QDisassemblyView.cpp:1141-1146 | every row advances at least one byte |
| DisasmNavigation.AddressAtRowAdvances | src/widgets/QDisassemblyView.cpp:1138-1150 | the address n rows down is at least n bytes further on |
| DisasmNavigation.AddressAtRowMonotonic | src/widgets/QDisassemblyView.cpp:1138-1150 | lower rows map to strictly higher addresses |
| DisasmNavigation.TruncatingDiv | src/widgets/QDisassemblyView.cpp:1135 | C's int division: truncates toward zero for either sign |
| DisasmNavigation.AddressFromCoord | src/widgets/QDisassemblyView.cpp:1132-1151 | the result is the address AddressAtRow gives for row y / line_height; it is at least that many bytes past the scroll value; a y above the second row (y < line height) gives the scroll value |
| DisasmView.AutoLine1 | src/widgets/QDisassemblyView.cpp:1015-1018 | the automatic first divider lies past the address text and the breakpoint icon, by at most one character width plus one pixel |
| DisasmView.Line1 | src/widgets/QDisassemblyView.cpp:1024-1030 | a stored nonzero position is drawn as stored; 0 places the first divider automatically, past the address text and the breakpoint icon |
| DisasmView.Line2 | src/widgets/QDisassemblyView.cpp:1036-1042 | a stored nonzero position is drawn as stored; 0 places the second divider 3 * 8 character widths right of the first |
| DisasmView.Line3 | src/widgets/QDisassemblyView.cpp:1048-1054 | a stored nonzero position is drawn as stored; 0 places the third divider 50 character widths right of the second |
| DisasmView.DefaultLayout | src/widgets/QDisassemblyView.cpp:1024-1054 | with nothing stored, line1 is auto_line1, the bytes column is 3 * 8 characters wide, the instruction column 50 characters, and the dividers are in order for a font of positive width |
| DisasmView.NearLine | src/widgets/QDisassemblyView.cpp:118-120 | near iff x is strictly within 3 pixels of the divider |
| DisasmView.PressGrab | src/widgets/QDisassemblyView.cpp:1249-1260 | the first divider in the order line1, line2, line3 that the press is near is grabbed; address selection iff the press is near none |
| DisasmView.PressGrabsTheNearDivider | src/widgets/QDisassemblyView.cpp:1249-1260 | with dividers at least 5 pixels apart, a press grabs a divider iff it is near that divider |
| DisasmView.DragLine1 | src/widgets/QDisassemblyView.cpp:1275-1282 | accepted iff x >= auto_line1 and x + font width < line2; then line1 is x and line2/line3 keep their positions (line2 is pinned); a rejected drag changes nothing |
| DisasmView.DragLine2 | src/widgets/QDisassemblyView.cpp:1283-1289 | accepted iff line1 + font width < x and x + 1 < line3; then line2 is x and line1/line3 keep their positions (line3 is pinned); a rejected drag changes nothing |
| DisasmView.DragLine3 | src/widgets/QDisassemblyView.cpp:1290-1295 | accepted iff x > line2 + font width and x + 1 < width - (scrollbar width + 3); then line3 is x and line1/line2 keep their positions; a rejected drag changes nothing |
| DisasmView.MoveDividers | src/widgets/QDisassemblyView.cpp:1275-1295 | the first divider being dragged, in the order line1, line2, line3, moves as DragLine1/2/3 says; dragging line1 leaves the stored line3 alone, line2 the stored line1, line3 the stored line1 and line2; with no drag nothing changes (DragsKeepOrder keeps the order) |
| DisasmView.DragsKeepOrder | src/widgets/QDisassemblyView.cpp:1270-1307 | from an ordered layout, every drag leaves the dividers in strict left-to-right order |
| DisasmView.EncodeState | src/widgets/QDisassemblyView.cpp:1391-1404 | the saved record is 16 bytes and its version field reads 16, sizeof(WidgetState1) |
| DisasmView.DecodeState | src/widgets/QDisassemblyView.cpp:1410-1423 | positions are loaded iff the buffer holds at least 16 bytes and the version field is at least 16; loaded positions are C ints |
| DisasmView.StateRoundTrip | src/widgets/QDisassemblyView.cpp:1391-1423 | restoring a saved record gives back the stored positions exactly |
| DisasmView.SavedRecordRoundTrip | src/widgets/QDisassemblyView.cpp:1391-1423 | a 16-byte record of the current version is exactly what saving its restored positions produces |
| DisasmView.DecodeStateReadsFields | src/widgets/QDisassemblyView.cpp:1414-1421 | a record of any version of 16 or more is restored from its bytes 4..16: re-encoding the restored positions gives back exactly those bytes |
| DisasmView.DecodeStateIgnoresTrailing | src/widgets/QDisassemblyView.cpp:1414-1421 | bytes after the first 16 do not affect what is restored |
| DisasmView.ScrollMaximum | src/widgets/QDisassemblyView.cpp:999-1009 | below 2^32; 0 without a region or when the region fits on screen; otherwise the region size minus one |
| DisasmView.ScrollMaximumTruncatesRegionSize | src/widgets/QDisassemblyView.cpp:1001 | for every region size, the scroll range is that of the size modulo 2^32 (the cut to unsigned 32 bits); so a 4 GiB region cannot be scrolled |
| DisasmView.DisassemblyView.constructor | src/widgets/QDisassemblyView.cpp:196-220 | automatic dividers, no drag or selection, no comments, no region, separator shown, and a scroll maximum of 0 |
| DisasmView.DisassemblyView.SetShowAddressSeparator | src/widgets/QDisassemblyView.cpp:459-461 | only the separator flag changes |
| DisasmView.DisassemblyView.SetRegion | src/widgets/QDisassemblyView.cpp:503-518 | the region is replaced and the scroll range refitted to it |
| DisasmView.DisassemblyView.UpdateScrollbars | src/widgets/QDisassemblyView.cpp:999-1009 | the scrollbar maximum becomes ScrollMaximum of the region, viewport height and line height |
| DisasmView.DisassemblyView.MousePress | src/widgets/QDisassemblyView.cpp:1246-1264 | with a region and the left button, sets the flag of the grabbed divider, or the selecting flag; otherwise no flag changes |
| DisasmView.DisassemblyView.MouseMove | src/widgets/QDisassemblyView.cpp:1270-1307 | with a region, the stored positions become MoveDividers of the old ones (the first divider being dragged moves); otherwise they are unchanged |
| DisasmView.DisassemblyView.MouseRelease | src/widgets/QDisassemblyView.cpp:1218-1229 | every drag flag and the selecting flag are cleared |
| DisasmView.DisassemblyView.SaveState | src/widgets/QDisassemblyView.cpp:1391-1404 | exactly the record EncodeState gives for the stored positions: 16 bytes, version 16, from which restoreState recovers the positions |
| DisasmView.DisassemblyView.RestoreState | src/widgets/QDisassemblyView.cpp:1410-1423 | the positions become the decoded ones, or stay as they were when the record is short or too old |
| DisasmView.DisassemblyView.AddComment | src/widgets/QDisassemblyView.cpp:1359-1361 | the map gains or replaces the entry at the address, others unchanged; get_comment then returns it |
| DisasmView.DisassemblyView.RemoveComment | src/widgets/QDisassemblyView.cpp:1367-1369 | the entry is dropped, others unchanged; returns 1 if it was there and 0 otherwise; get_comment then returns "" |
| DisasmView.DisassemblyView.GetComment | src/widgets/QDisassemblyView.cpp:1375-1377 | the stored comment, or "" when there is none |
| DisasmView.DisassemblyView.ClearComments | src/widgets/QDisassemblyView.cpp:1383-1385 | the map is empty and every lookup gives "" |

## Left out

- `GraphNode::draw_label` and `GraphNode::paint`: font matching, metrics and picture recording are Qt library calls.
- Floating-point coordinates. Points are integer pairs, and `gToQ` is an arbitrary function supplied by the caller.
- The C `int` overflow of shape arithmetic (`2 * i`, ring bounds). Integers in the model are unbounded.
- `util::percentage` and `util::toString`: floating-point arithmetic and stream formatting.
- The 64-bit branch of `format_address`. It relies on `value32`/`value64::toHexString`, which is not part of this model.
- Painting and event plumbing: `paintEvent`, `draw_instruction`, `draw_function_markers`, `draw_rich_text`, `wheelEvent`, `keyPressEvent`, `scrollbar_action_triggered`, tool tips, `setFont`, cursor shapes and `update()` signals. These are Qt rendering with no state the model tracks.
- The address selection (`updateSelectedAddress`, `setSelectedAddress`) during presses and moves. It updates the selected-instruction fields, which lie outside the divider, mouse-flag, comment and scroll state modelled here. The model keeps only the selecting flag.
- The pen colour in `format_invalid_instruction_bytes`, and the translation of "invalid" (`tr`). These are presentation only.
- `edb::v1::get_instruction_bytes` and the `edb::Instruction` decoder. They are oracles (function parameters). The model states only that a valid decode is non-empty and no longer than its bytes, and that a read returns no more than it was asked for.
- `previous_instructions`. It is outside the modelled operations: its analyzer branch walks the analyzer's basic blocks, and its fallback branch only reads bytes and feeds them to `length_disasm_back`, which is modelled.
- `DisasmView.DisassemblyView.SetRegion`: does not model the `compare` test that skips an unchanged region: the model always replaces the region and refits the scroll range.
- `DisasmNavigation.InstructionSize`: for bytes that do not decode, the decoder's size is taken as it comes. The model bounds only the size of a valid instruction (`InstructionSizeWithinRead`).
- `DisasmView.DragLine2`: the "other dividers keep their positions" clause is stated only when line1 is right of the widget's left edge. After a restore of a negative line1, a drag to x = 0 stores 0, which means "automatic".
- `DisasmView.DragLine3`: likewise, that clause is stated only when line2 is at or right of the left edge.
- `DisasmView.ScrollMaximum`: the conversion of the unsigned maximum to the scrollbar's `int` (for regions above 2^31 bytes) is not modelled.
- The 32-bit wrap of divider arithmetic (`line1() + 24 * font_width_` and the like) and the 64-bit wrap of `address_t` sums are not modelled. Integers in the model are unbounded.
- `plugins/References/References.h` and `src/DialogThreads.h`: declarations with no logic.

## Findings

| source | as written | input that shows it | evidently intended | confidence | as-written member | corrected member |
|---|---|---|---|---|---|---|
| src/widgets/QDisassemblyView.cpp:353 | the read length is clamped to `region_->end() - current_address`, where `current_address` is relative to the region start but `end()` is absolute, so the clamp almost never applies | region 0x1000..0x1010, `address_offset_` 0x1000, `current_address` 0xc: 16 bytes are read at 0x100c, 12 past the region end, where only 4 remain | measure the room from the absolute address read, `address_offset_ + current_address`, as `paintEvent` and `get_instruction_size` do, so the read stops at the region end | medium; not executed | DisasmNavigation.FollowingAsWrittenStepsPastRegionEnd | DisasmNavigation.FollowingStaysInRegion |
