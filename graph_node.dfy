/**
 * Shape synthesis for a node of a laid-out graph: the node's shape name picks a
 * construction (closed polygon, concentric ellipses, nothing), the node's layout
 * vertices are mapped to display space by the graph widget's transform (`gToQ`,
 * a parameter here), and every unsupported request is reported as a warning
 * while a best-effort path is still produced.
 */
module GraphNode {

  /** A point in display space (the model keeps coordinates integral). */
  datatype Point = Point(x: int, y: int)

  /** A rectangle given by its left, top, right and bottom edges, as a QRectF. */
  datatype Rect = Rect(left: int, top: int, right: int, bottom: int)

  /** The rectangle with the given top-left and bottom-right corners. */
  function RectFromCorners(topLeft: Point, bottomRight: Point): Rect {
    Rect(topLeft.x, topLeft.y, bottomRight.x, bottomRight.y)
  }

  /** QRectF::adjusted: each edge moved by its own offset. */
  function Adjusted(r: Rect, dx1: int, dy1: int, dx2: int, dy2: int): Rect {
    Rect(r.left + dx1, r.top + dy1, r.right + dx2, r.bottom + dy2)
  }

  /** One figure of a painter path. */
  datatype SubPath = Polygon(points: seq<Point>) | Ellipse(bounds: Rect)

  /** The non-fatal diagnostics the shape code reports. */
  datatype Warning = UnsupportedPeripheries(count: int) | UnsupportedShape(name: string)

  /**
   * The shape data the layout engine attaches to a node: the number of sides,
   * the vertices in layout space (of type V) and the number of peripheries.
   */
  datatype ShapeInfo<V> = ShapeInfo(sides: int, vertices: seq<V>, peripheries: int)

  /** The four ways a shape name can be handled. */
  datatype ShapeClass = RegularPolygon | EllipseFamily | NoShape | Unsupported

  /** The names drawn as a closed polygon through the node's vertices. */
  const PolygonShapes: set<string> := {
    "invhouse", "invtrapezium", "invtriangle", "box", "polygon", "triangle",
    "diamond", "trapezium", "parallelogram", "house", "pentagon", "hexagon",
    "septagon", "octagon", "rect", "rectangle", "Msquare", "Mdiamond"
  }

  /** The names drawn as ellipses inside the node's bounding box. */
  const EllipseShapes: set<string> := {"ellipse", "circle", "point", "Mcircle"}

  /** Matches a shape name, exactly and case-sensitively, in the order the names are tested. */
  function Classify(name: string): (c: ShapeClass)
    ensures c == RegularPolygon <==> name in PolygonShapes
    ensures c == EllipseFamily <==> name in EllipseShapes
    ensures c == NoShape <==> name == "none"
  {
    if name == "invhouse" || name == "invtrapezium" || name == "invtriangle" ||
       name == "box" || name == "polygon" || name == "triangle" ||
       name == "diamond" || name == "trapezium" || name == "parallelogram" ||
       name == "house" || name == "pentagon" || name == "hexagon" ||
       name == "septagon" || name == "octagon" || name == "rect" ||
       name == "rectangle" || name == "Msquare" || name == "Mdiamond"
    then RegularPolygon
    else if name == "ellipse" || name == "circle" || name == "point" || name == "Mcircle"
    then EllipseFamily
    else if name == "none" then NoShape
    else Unsupported
  }

  /** Eighteen polygon names, four ellipse names and "none": three disjoint classes. */
  lemma ShapeNameClasses()
    ensures |PolygonShapes| == 18 && |EllipseShapes| == 4
    ensures PolygonShapes !! EllipseShapes
    ensures "none" !in PolygonShapes && "none" !in EllipseShapes
  {
    PolygonShapeCount();
    NotAPolygonShape("ellipse");
    NotAPolygonShape("circle");
    NotAPolygonShape("point");
    NotAPolygonShape("Mcircle");
    NotAPolygonShape("none");
  }

  lemma PolygonShapeCount()
    ensures |PolygonShapes| == 18
  {
    var front := {"invhouse", "invtrapezium", "invtriangle", "box", "polygon", "triangle",
                  "diamond", "trapezium", "parallelogram"};
    var back := {"house", "pentagon", "hexagon", "septagon", "octagon", "rect",
                 "rectangle", "Msquare", "Mdiamond"};
    FrontPolygonShapes();
    BackPolygonShapes();
    PolygonShapeHalvesDisjoint();
    DisjointUnionSize(front, back);
    assert PolygonShapes == front + back;
  }

  lemma FrontPolygonShapes()
    ensures |{"invhouse", "invtrapezium", "invtriangle", "box", "polygon", "triangle",
              "diamond", "trapezium", "parallelogram"}| == 9
  {
    var a := {"invhouse", "invtrapezium", "invtriangle"};
    var b := {"box", "polygon", "triangle"};
    var c := {"diamond", "trapezium", "parallelogram"};
    DisjointUnionSize(a, b);
    DisjointUnionSize(a + b, c);
    assert a + b + c == {"invhouse", "invtrapezium", "invtriangle", "box", "polygon", "triangle",
                         "diamond", "trapezium", "parallelogram"};
  }

  lemma BackPolygonShapes()
    ensures |{"house", "pentagon", "hexagon", "septagon", "octagon", "rect",
              "rectangle", "Msquare", "Mdiamond"}| == 9
  {
    var d := {"house", "pentagon", "hexagon"};
    var e := {"septagon", "octagon", "rect"};
    var f := {"rectangle", "Msquare", "Mdiamond"};
    DisjointUnionSize(d, e);
    DisjointUnionSize(d + e, f);
    assert d + e + f == {"house", "pentagon", "hexagon", "septagon", "octagon", "rect",
                         "rectangle", "Msquare", "Mdiamond"};
  }

  lemma PolygonShapeHalvesDisjoint()
    ensures {"invhouse", "invtrapezium", "invtriangle", "box", "polygon", "triangle",
             "diamond", "trapezium", "parallelogram"} !!
            {"house", "pentagon", "hexagon", "septagon", "octagon", "rect",
             "rectangle", "Msquare", "Mdiamond"}
  {
  }

  lemma NotAPolygonShape(name: string)
    requires name in {"ellipse", "circle", "point", "Mcircle", "none"}
    ensures name !in PolygonShapes
  {
  }

  lemma DisjointUnionSize(x: set<string>, y: set<string>)
    requires x !! y
    ensures |x + y| == |x| + |y|
  {
  }

  /** Matching is exact: a change of case or a stray space makes a name unsupported. */
  lemma ClassifyIsExact()
    ensures Classify("Box") == Unsupported && Classify("box ") == Unsupported
    ensures Classify("Ellipse") == Unsupported && Classify("mcircle") == Unsupported
    ensures Classify("None") == Unsupported && Classify("") == Unsupported
  {
  }

  /** A painter path under construction: the figures added so far, in order. */
  class PainterPath {
    var elements: seq<SubPath>

    constructor ()
      ensures elements == []
    {
      elements := [];
    }

    method AddPolygon(points: seq<Point>)
      modifies this
      ensures elements == old(elements) + [Polygon(points)]
    {
      elements := elements + [Polygon(points)];
    }

    method AddEllipse(bounds: Rect)
      modifies this
      ensures elements == old(elements) + [Ellipse(bounds)]
    {
      elements := elements + [Ellipse(bounds)];
    }
  }

  /** The warning channel: every warning reported so far, oldest first. */
  class WarningLog {
    var warnings: seq<Warning>

    constructor ()
      ensures warnings == []
    {
      warnings := [];
    }

    method Warn(w: Warning)
      modifies this
      ensures warnings == old(warnings) + [w]
    {
      warnings := warnings + [w];
    }
  }

  /** Decimal text of an integer, as `%d` prints it. */
  function Decimal(v: int): (s: string)
    ensures |s| >= 1
  {
    if v < 0 then "-" + Digits(-v) else Digits(v)
  }

  function Digits(n: nat): (s: string)
    ensures |s| >= 1
  {
    if n < 10 then ["0123456789"[n]] else Digits(n / 10) + ["0123456789"[n % 10]]
  }

  /** The text a warning is reported with. */
  function Message(w: Warning): (m: string)
    ensures w.UnsupportedShape? ==> |m| >= |w.name| && m[|m| - |w.name|..] == w.name
  {
    match w
    case UnsupportedPeripheries(count) => "unsupported number of peripheries " + Decimal(count)
    case UnsupportedShape(name) => "unsupported shape " + name
  }

  /** Both helpers warn once, before drawing, about any periphery count other than 1. */
  function PeripheryWarnings(peripheries: int): (ws: seq<Warning>)
    ensures |ws| == (if peripheries != 1 then 1 else 0)
    ensures forall k :: 0 <= k < |ws| ==> ws[k] == UnsupportedPeripheries(peripheries)
  {
    if peripheries != 1 then [UnsupportedPeripheries(peripheries)] else []
  }

  /** The first `sides` vertices mapped to display space, in their layout order. */
  function Outline<V>(gToQ: V -> Point, info: ShapeInfo<V>): (ps: seq<Point>)
    requires 0 <= info.sides <= |info.vertices|
  {
    seq(info.sides, k requires 0 <= k < info.sides => gToQ(info.vertices[k]))
  }

  /** The polygon the polygon helper adds: the outline closed by its first point. */
  function ClosedPolygon<V>(gToQ: V -> Point, info: ShapeInfo<V>): (ps: seq<Point>)
    requires 1 <= info.sides <= |info.vertices|
  {
    var outline := Outline(gToQ, info);
    outline + [outline[0]]
  }

  /** The bounding box of an ellipse shape: from the first transformed vertex to the second. */
  function EllipseBounds<V>(gToQ: V -> Point, info: ShapeInfo<V>): Rect
    requires 2 <= info.sides <= |info.vertices|
  {
    RectFromCorners(gToQ(info.vertices[0]), gToQ(info.vertices[1]))
  }

  /** Ring i of an ellipse shape: the box widened by 2i on each side and shortened by 2i at top and bottom. */
  function Ring(bounds: Rect, i: nat): Rect {
    Adjusted(bounds, -2 * i, 2 * i, 2 * i, -2 * i)
  }

  /** The ellipses the ellipse helper adds for `count` peripheries: rings 0 .. count - 1. */
  function Rings(bounds: Rect, count: int): (rs: seq<SubPath>)
  {
    if count <= 0 then [] else Rings(bounds, count - 1) + [Ellipse(Ring(bounds, count - 1))]
  }

  /** The shape data a name's construction reads must be there: a vertex for a polygon, two for an ellipse. */
  predicate ShapeDataFits<V>(name: string, info: ShapeInfo<V>) {
    match Classify(name)
    case RegularPolygon => 1 <= info.sides <= |info.vertices|
    case EllipseFamily => 2 <= info.sides <= |info.vertices|
    case _ => true
  }

  /** The figures make_shape returns for a node named `name` with shape data `info`. */
  function ShapePath<V>(name: string, info: ShapeInfo<V>, gToQ: V -> Point): seq<SubPath>
    requires ShapeDataFits(name, info)
  {
    match Classify(name)
    case RegularPolygon => [Polygon(ClosedPolygon(gToQ, info))]
    case EllipseFamily => Rings(EllipseBounds(gToQ, info), info.peripheries)
    case _ => []
  }

  /** The warnings make_shape reports for a node named `name` with shape data `info`. */
  function ShapeWarnings<V>(name: string, info: ShapeInfo<V>): seq<Warning> {
    match Classify(name)
    case RegularPolygon => PeripheryWarnings(info.peripheries)
    case EllipseFamily => PeripheryWarnings(info.peripheries)
    case NoShape => []
    case Unsupported => [UnsupportedShape(name)]
  }

  /** A polygon has sides + 1 points: the transformed vertices in order, then the first again. */
  lemma ClosedPolygonShape<V>(gToQ: V -> Point, info: ShapeInfo<V>)
    requires 1 <= info.sides <= |info.vertices|
    ensures var ps := ClosedPolygon(gToQ, info);
      && |ps| == info.sides + 1
      && (forall k :: 0 <= k < info.sides ==> ps[k] == gToQ(info.vertices[k]))
      && ps[info.sides] == ps[0] == gToQ(info.vertices[0])
  {
  }

  /** There is one ring per periphery (none for a count below 1), ring i as Ring describes. */
  lemma {:induction false} RingsShape(bounds: Rect, count: int)
    ensures |Rings(bounds, count)| == (if count > 0 then count else 0)
    ensures forall i :: 0 <= i < |Rings(bounds, count)| ==>
      Rings(bounds, count)[i] == Ellipse(Rect(bounds.left - 2 * i, bounds.top + 2 * i,
                                              bounds.right + 2 * i, bounds.bottom - 2 * i))
  {
    if count > 0 {
      RingsShape(bounds, count - 1);
    }
  }

  /** Ring 0 is the bounding box itself; each further ring is 4 wider and 4 shorter than the one before. */
  lemma RingGeometry(bounds: Rect, i: nat)
    ensures Ring(bounds, 0) == bounds
    ensures var r, s := Ring(bounds, i), Ring(bounds, i + 1);
      s.right - s.left == r.right - r.left + 4 && s.bottom - s.top == r.bottom - r.top - 4
  {
  }

  /** A polygon-family name gives one closed polygon whatever the periphery count, and warns iff it is not 1. */
  lemma PolygonShapeResult<V>(name: string, info: ShapeInfo<V>, gToQ: V -> Point, p: int)
    requires name in PolygonShapes && 1 <= info.sides <= |info.vertices|
    ensures ShapePath(name, info, gToQ) == [Polygon(ClosedPolygon(gToQ, info))]
    ensures ShapePath(name, info, gToQ) == ShapePath(name, info.(peripheries := p), gToQ)
    ensures |ShapeWarnings(name, info)| == (if info.peripheries != 1 then 1 else 0)
  {
  }

  /** An ellipse-family name gives max(peripheries, 0) rings around the transformed box, and warns iff the count is not 1. */
  lemma EllipseShapeResult<V>(name: string, info: ShapeInfo<V>, gToQ: V -> Point)
    requires name in EllipseShapes && 2 <= info.sides <= |info.vertices|
    ensures var path := ShapePath(name, info, gToQ);
      && |path| == (if info.peripheries > 0 then info.peripheries else 0)
      && (info.peripheries > 0 ==> path[0] == Ellipse(EllipseBounds(gToQ, info)))
    ensures ShapeWarnings(name, info) == PeripheryWarnings(info.peripheries)
  {
    RingsShape(EllipseBounds(gToQ, info), info.peripheries);
  }

  /** "none" draws nothing and reports nothing, whatever the shape data. */
  lemma NoneShapeResult<V>(info: ShapeInfo<V>, gToQ: V -> Point)
    ensures ShapePath("none", info, gToQ) == [] && ShapeWarnings("none", info) == []
  {
  }

  /** An unrecognised name draws nothing and reports exactly one warning, naming it. */
  lemma UnsupportedShapeResult<V>(name: string, info: ShapeInfo<V>, gToQ: V -> Point)
    requires Classify(name) == Unsupported
    ensures ShapePath(name, info, gToQ) == []
    ensures ShapeWarnings(name, info) == [UnsupportedShape(name)]
    ensures var m := Message(ShapeWarnings(name, info)[0]); m[|m| - |name|..] == name
  {
  }

  /**
   * The loop both helpers start with: the first `sides` layout vertices mapped
   * to display space and appended in order (none when `sides` is not positive).
   */
  method TransformVertices<V>(gToQ: V -> Point, vertices: seq<V>, sides: int) returns (polygon: seq<Point>)
    requires sides <= |vertices|
    ensures |polygon| == (if sides > 0 then sides else 0)
    ensures forall k :: 0 <= k < |polygon| ==> polygon[k] == gToQ(vertices[k])
  {
    polygon := [];
    var side := 0;
    while side < sides
      invariant 0 <= side <= (if sides > 0 then sides else 0)
      invariant |polygon| == side
      invariant forall k :: 0 <= k < side ==> polygon[k] == gToQ(vertices[k])
    {
      polygon := polygon + [gToQ(vertices[side])];
      side := side + 1;
    }
  }

  /** make_polygon_helper: warns about the periphery count, then adds the closed polygon. */
  method MakePolygonHelper<V>(info: ShapeInfo<V>, gToQ: V -> Point, path: PainterPath, log: WarningLog)
    requires 1 <= info.sides <= |info.vertices|
    modifies path, log
    ensures path.elements == old(path.elements) + [Polygon(ClosedPolygon(gToQ, info))]
    ensures log.warnings == old(log.warnings) + PeripheryWarnings(info.peripheries)
  {
    if info.peripheries != 1 {
      log.Warn(UnsupportedPeripheries(info.peripheries));
    }
    var polygon := TransformVertices(gToQ, info.vertices, info.sides);
    assert polygon == Outline(gToQ, info);
    polygon := polygon + [polygon[0]];
    path.AddPolygon(polygon);
  }

  /** make_ellipse_helper: warns about the periphery count, then adds one ring per periphery. */
  method MakeEllipseHelper<V>(info: ShapeInfo<V>, gToQ: V -> Point, path: PainterPath, log: WarningLog)
    requires 2 <= info.sides <= |info.vertices|
    modifies path, log
    ensures path.elements == old(path.elements) + Rings(EllipseBounds(gToQ, info), info.peripheries)
    ensures log.warnings == old(log.warnings) + PeripheryWarnings(info.peripheries)
  {
    if info.peripheries != 1 {
      log.Warn(UnsupportedPeripheries(info.peripheries));
    }
    var polygon := TransformVertices(gToQ, info.vertices, info.sides);
    var bounds := RectFromCorners(polygon[0], polygon[1]);
    var i := 0;
    while i < info.peripheries
      invariant 0 <= i <= (if info.peripheries > 0 then info.peripheries else 0)
      invariant path.elements == old(path.elements) + Rings(bounds, i)
      invariant log.warnings == old(log.warnings) + PeripheryWarnings(info.peripheries)
    {
      path.AddEllipse(Adjusted(bounds, -2 * i, 2 * i, 2 * i, -2 * i));
      i := i + 1;
    }
    assert bounds == EllipseBounds(gToQ, info);
    assert Rings(bounds, i) == Rings(bounds, info.peripheries);
  }

  /** make_shape: dispatches on the shape name and returns the path built. */
  method MakeShape<V>(name: string, info: ShapeInfo<V>, gToQ: V -> Point, log: WarningLog)
    returns (path: PainterPath)
    requires ShapeDataFits(name, info)
    modifies log
    ensures fresh(path)
    ensures path.elements == ShapePath(name, info, gToQ)
    ensures log.warnings == old(log.warnings) + ShapeWarnings(name, info)
  {
    path := new PainterPath();
    var shape := Classify(name);
    if shape == RegularPolygon {
      MakePolygonHelper(info, gToQ, path, log);
    } else if shape == EllipseFamily {
      MakeEllipseHelper(info, gToQ, path, log);
    } else if shape == NoShape {
      // nothing to draw
    } else {
      log.Warn(UnsupportedShape(name));
    }
  }
}
