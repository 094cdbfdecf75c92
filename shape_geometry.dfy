/**
 * The clip boundary generated from the shape name, size, anchor position and
 * custom path of an image clipper. The CSS text that ImageClipper's
 * generateClipPath builds is replaced by a descriptor value; all quantities are percentages of the
 * clipped element.
 */
module ShapeGeometry {
  import opened Wrappers
  import opened JsMath

  /** A polygon vertex, in percent of the element's width and height. */
  datatype Point = Point(x: real, y: real)

  /** The boundary description handed to the renderer. */
  datatype ClipPath =
    | Circle(radius: real, cx: real, cy: real)
    | Ellipse(rx: real, ry: real, cx: real, cy: real)
    | Inset(top: real, right: real, bottom: real, left: real)
    | Polygon(points: seq<Point>)
    | Opaque(text: string)

  /** The "none" boundary: no clipping at all. */
  const NONE: ClipPath := Opaque("none")

  /** The shapes drawn by scaling a fixed template around the anchor. */
  const TEMPLATE_SHAPES: set<string> := {"diamond", "hexagon", "star", "heart"}

  /** Every shape name that yields a real boundary (not "none"). */
  const DRAWN_SHAPES: set<string> :=
    {"circle", "ellipse", "rectangle", "inset", "triangle"} + TEMPLATE_SHAPES

  const DIAMOND: seq<Point> := [
    Point(0.5, 0.0), Point(1.0, 0.5), Point(0.5, 1.0), Point(0.0, 0.5)
  ]

  const HEXAGON: seq<Point> := [
    Point(0.25, 0.0), Point(0.75, 0.0), Point(1.0, 0.5),
    Point(0.75, 1.0), Point(0.25, 1.0), Point(0.0, 0.5)
  ]

  /** Outer points and inner corners of a five-pointed star, alternating. */
  const STAR: seq<Point> := [
    Point(0.5, 0.0), Point(0.61, 0.35), Point(0.98, 0.35), Point(0.68, 0.57),
    Point(0.79, 0.91), Point(0.5, 0.70), Point(0.21, 0.91), Point(0.32, 0.57),
    Point(0.02, 0.35), Point(0.39, 0.35)
  ]

  /** A heart approximated by a polygon; vertex 7 repeats vertex 5 on purpose. */
  const HEART: seq<Point> := [
    Point(0.5, 0.2), Point(0.7, 0.05), Point(0.9, 0.05), Point(0.95, 0.15),
    Point(0.9, 0.3), Point(0.5, 0.7), Point(0.5, 0.95), Point(0.5, 0.7),
    Point(0.1, 0.3), Point(0.05, 0.15), Point(0.1, 0.05), Point(0.3, 0.05)
  ]

  predicate InUnitSquare(p: Point) {
    0.0 <= p.x <= 1.0 && 0.0 <= p.y <= 1.0
  }

  predicate InBox(p: Point) {
    0.0 <= p.x <= 100.0 && 0.0 <= p.y <= 100.0
  }

  /** The number of vertices each template shape has. */
  function VertexCount(shape: string): nat
    requires shape in TEMPLATE_SHAPES
  {
    if shape == "diamond" then 4
    else if shape == "hexagon" then 6
    else if shape == "star" then 10
    else 12
  }

  /** The template of a template shape, in normalized 0..1 coordinates. */
  function TemplateOf(shape: string): (t: seq<Point>)
    requires shape in TEMPLATE_SHAPES
    ensures |t| == VertexCount(shape)
    ensures forall i :: 0 <= i < |t| ==> InUnitSquare(t[i])
  {
    if shape == "diamond" then DIAMOND
    else if shape == "hexagon" then HEXAGON
    else if shape == "star" then STAR
    else HEART
  }

  /**
   * One template vertex scaled by size and moved to the anchor (x, y):
   * anchor + (t - 0.5) * size on each axis, clamped to [0,100] on each axis
   * separately. The computation follows generateClipPath, which works in
   * fractions (value / 100) and multiplies back by 100.
   */
  function Place(t: Point, size: real, x: real, y: real): (p: Point)
    ensures p.x == ClampPercent(x + (t.x - 0.5) * size)
    ensures p.y == ClampPercent(y + (t.y - 0.5) * size)
    ensures InBox(p)
  {
    var sizeFrac := size / 100.0;
    var scaledX := x / 100.0 + (t.x - 0.5) * sizeFrac;
    var scaledY := y / 100.0 + (t.y - 0.5) * sizeFrac;
    assert scaledX * 100.0 == x + (t.x - 0.5) * size;
    assert scaledY * 100.0 == y + (t.y - 0.5) * size;
    Point(ClampPercent(scaledX * 100.0), ClampPercent(scaledY * 100.0))
  }

  /** The template mapped vertex by vertex through Place, in template order. */
  function ScaleTemplate(template: seq<Point>, size: real, x: real, y: real): (pts: seq<Point>)
    ensures |pts| == |template|
    ensures forall i :: 0 <= i < |pts| ==> InBox(pts[i])
  {
    seq(|template|, i requires 0 <= i < |template| => Place(template[i], size, x, y))
  }

  /** The triangle: apex above the anchor, base below it, three coordinates clamped. */
  function TrianglePoints(size: real, x: real, y: real): (pts: seq<Point>)
    ensures |pts| == 3
    ensures pts[0].x == x && 0.0 <= pts[0].y
    ensures 0.0 <= pts[1].x && pts[2].x <= 100.0
    ensures pts[1].y == pts[2].y <= 100.0
  {
    [ Point(x, Max(0.0, y - size)),
      Point(Max(0.0, x - size), Min(100.0, y + size)),
      Point(Min(100.0, x + size), Min(100.0, y + size)) ]
  }

  /**
   * generateClipPath: the boundary for the given options. Total: an unknown
   * shape name, or a custom shape without a path, yields "none". The kind of
   * boundary depends on the shape name alone.
   */
  function GenerateClipPath(shape: string, size: real, x: real, y: real, customPath: Option<string>): (c: ClipPath)
    ensures c.Circle? <==> shape == "circle"
    ensures c.Ellipse? <==> shape == "ellipse"
    ensures c.Inset? <==> shape == "rectangle" || shape == "inset"
    ensures c.Polygon? <==> shape == "triangle" || shape in TEMPLATE_SHAPES
    ensures c.Opaque? <==> shape !in DRAWN_SHAPES
  {
    if shape == "circle" then
      Circle(size, x, y)
    else if shape == "ellipse" then
      Ellipse(size, size * 0.7, x, y)
    else if shape == "rectangle" || shape == "inset" then
      var inset := (100.0 - size) / 2.0;
      Inset(inset, inset, inset, inset)
    else if shape == "triangle" then
      Polygon(TrianglePoints(size, x, y))
    else if shape in TEMPLATE_SHAPES then
      Polygon(ScaleTemplate(TemplateOf(shape), size, x, y))
    else if shape == "custom" then
      if customPath.Some? && customPath.value != "" then Opaque(customPath.value) else NONE
    else
      NONE
  }

  /**
   * Diamond, hexagon, star and heart: a polygon with 4, 6, 10 and 12 vertices,
   * each the placed template vertex of the same index, every one inside
   * [0,100] x [0,100] whatever the size and anchor.
   */
  lemma TemplatePolygon(shape: string, size: real, x: real, y: real, customPath: Option<string>)
    requires shape in TEMPLATE_SHAPES
    ensures var c := GenerateClipPath(shape, size, x, y, customPath);
      && c.Polygon?
      && |c.points| == VertexCount(shape)
      && (forall i :: 0 <= i < |c.points| ==> c.points[i] == Place(TemplateOf(shape)[i], size, x, y))
      && (forall i :: 0 <= i < |c.points| ==> InBox(c.points[i]))
  {
  }

  /**
   * When the template's bounding square fits inside the element, no vertex is
   * clamped: each is exactly anchor + (t - 0.5) * size.
   */
  lemma TemplateUnclampedWhenFits(shape: string, size: real, x: real, y: real, customPath: Option<string>)
    requires shape in TEMPLATE_SHAPES
    requires 0.0 <= size
    requires size / 2.0 <= x <= 100.0 - size / 2.0
    requires size / 2.0 <= y <= 100.0 - size / 2.0
    ensures var c := GenerateClipPath(shape, size, x, y, customPath);
      && c.Polygon?
      && forall i :: 0 <= i < |c.points| ==>
           c.points[i] == Exact(TemplateOf(shape)[i], size, x, y)
  {
    var template := TemplateOf(shape);
    var pts := ScaleTemplate(template, size, x, y);
    forall i | 0 <= i < |pts|
      ensures pts[i] == Exact(template[i], size, x, y)
    {
      PlaceExactWhenFits(template[i], size, x, y);
    }
  }

  /** A template vertex scaled and moved with no clamping. */
  function Exact(t: Point, size: real, x: real, y: real): Point {
    Point(x + (t.x - 0.5) * size, y + (t.y - 0.5) * size)
  }

  lemma PlaceExactWhenFits(t: Point, size: real, x: real, y: real)
    requires InUnitSquare(t)
    requires 0.0 <= size
    requires size / 2.0 <= x <= 100.0 - size / 2.0
    requires size / 2.0 <= y <= 100.0 - size / 2.0
    ensures Place(t, size, x, y) == Exact(t, size, x, y)
  {
    var p := Place(t, size, x, y);
    var ex, ey := x + (t.x - 0.5) * size, y + (t.y - 0.5) * size;
    HalfOffsetBound(t.x, size);
    assert 0.0 <= ex <= 100.0;
    assert p.x == ex;
    HalfOffsetBound(t.y, size);
    assert 0.0 <= ey <= 100.0;
    assert p.y == ey;
  }

  /** For a unit coordinate t, the offset (t - 0.5) * size stays within size / 2. */
  lemma HalfOffsetBound(t: real, size: real)
    requires 0.0 <= t <= 1.0 && 0.0 <= size
    ensures -size / 2.0 <= (t - 0.5) * size <= size / 2.0
  {
    assert (t - 0.5) * size == t * size - size / 2.0;
    assert 0.0 <= t * size <= size by {
      assert (1.0 - t) * size >= 0.0;
    }
  }

  /** The worked diamond: size 60 anchored at the centre. */
  lemma DiamondSample()
    ensures GenerateClipPath("diamond", 60.0, 50.0, 50.0, None)
         == Polygon([Point(50.0, 20.0), Point(80.0, 50.0), Point(50.0, 80.0), Point(20.0, 50.0)])
  {
  }

  /** The heart's repeated bottom approach vertex (a pseudo-cusp) survives scaling. */
  lemma HeartPseudoCusp(size: real, x: real, y: real, customPath: Option<string>)
    ensures var c := GenerateClipPath("heart", size, x, y, customPath);
      c.Polygon? && |c.points| == 12 && c.points[5] == c.points[7]
  {
  }

  /**
   * Triangle with size, x and y in [0,100]: three vertices inside the box,
   * the apex on the anchor's vertical, both base vertices on the line
   * y = min(100, y + size).
   */
  lemma TriangleInBox(size: real, x: real, y: real, customPath: Option<string>)
    requires 0.0 <= size <= 100.0 && 0.0 <= x <= 100.0 && 0.0 <= y <= 100.0
    ensures var c := GenerateClipPath("triangle", size, x, y, customPath);
      && c.Polygon?
      && |c.points| == 3
      && (forall i :: 0 <= i < 3 ==> InBox(c.points[i]))
      && c.points[0].x == x
      && c.points[1].y == c.points[2].y == Min(100.0, y + size)
  {
  }

  /**
   * Rectangle and inset: the same box, all four edges at (100 - size) / 2,
   * whatever the anchor, so the box spans exactly size percent.
   */
  lemma InsetBox(size: real, x: real, y: real, x': real, y': real, customPath: Option<string>)
    ensures GenerateClipPath("rectangle", size, x, y, customPath)
         == GenerateClipPath("inset", size, x', y', customPath)
    ensures var c := GenerateClipPath("rectangle", size, x, y, customPath);
      && c.Inset?
      && c.top == c.right == c.bottom == c.left == (100.0 - size) / 2.0
      && 100.0 - c.left - c.right == size
  {
  }

  /** The two ends of the inset range. */
  lemma InsetEnds(x: real, y: real, customPath: Option<string>)
    ensures GenerateClipPath("rectangle", 100.0, x, y, customPath) == Inset(0.0, 0.0, 0.0, 0.0)
    ensures GenerateClipPath("rectangle", 0.0, x, y, customPath) == Inset(50.0, 50.0, 50.0, 50.0)
  {
  }

  /** Circle and ellipse pass size and anchor through unclamped; the ellipse is squashed to 0.7. */
  lemma RoundShapes(size: real, x: real, y: real, customPath: Option<string>)
    ensures GenerateClipPath("circle", size, x, y, customPath) == Circle(size, x, y)
    ensures var e := GenerateClipPath("ellipse", size, x, y, customPath);
      e.Ellipse? && e.rx == size && e.ry == 0.7 * e.rx && e.cx == x && e.cy == y
  {
  }

  /**
   * A custom shape yields its path when one is set and non-empty, otherwise
   * "none"; any name outside the known ones yields "none".
   */
  lemma OpaqueShapes(shape: string, size: real, x: real, y: real, customPath: Option<string>)
    ensures GenerateClipPath("custom", size, x, y, customPath)
         == if customPath.Some? && customPath.value != "" then Opaque(customPath.value) else NONE
    ensures shape != "custom" && shape !in DRAWN_SHAPES ==> GenerateClipPath(shape, size, x, y, customPath) == NONE
  {
  }
}
