/**
 * Mouse-coordinate mapping, bounds and hit-testing of the annotation editor
 * (src/App.tsx): the pure computational geometry that selection, focus
 * filtering and the selection outline rely on.
 *
 * `Math.hypot(dx, dy) <= t` is written `NearSq(dx*dx + dy*dy, t)`, which is
 * the same test for every threshold `t` (a hypotenuse is never negative).
 */
module Geometry {
  import opened Wrappers
  import opened Annotations
  import Strings

  function Min(a: real, b: real): real { if a <= b then a else b }
  function Max(a: real, b: real): real { if a >= b then a else b }
  function Abs(a: real): real { if a >= 0.0 then a else -a }

  // ---------------------------------------------------------------------
  // Mouse-coordinate mapping
  // ---------------------------------------------------------------------

  /**
   * What a mouse handler reads from the canvas element: its on-screen bounding
   * rectangle and its intrinsic pixel size.
   */
  datatype CanvasView = CanvasView(left: real, top: real, rectWidth: real, rectHeight: real,
                                   canvasWidth: real, canvasHeight: real)

  /** The handlers divide by the on-screen size and have no guard against zero. */
  predicate ShownView(v: CanvasView)
  {
    v.rectWidth > 0.0 && v.rectHeight > 0.0
  }

  /** `(client - rect.left) * (canvas.width / rect.width)`, and the same for y. */
  function ToCanvas(v: CanvasView, clientX: real, clientY: real): (p: Point)
    requires ShownView(v)
    ensures p.x * v.rectWidth == (clientX - v.left) * v.canvasWidth
    ensures p.y * v.rectHeight == (clientY - v.top) * v.canvasHeight
  {
    Point((clientX - v.left) * (v.canvasWidth / v.rectWidth),
          (clientY - v.top) * (v.canvasHeight / v.rectHeight))
  }

  /** The inverse transform: from image pixels back to viewport coordinates. */
  function ToViewport(v: CanvasView, p: Point): Point
    requires v.canvasWidth > 0.0 && v.canvasHeight > 0.0
  {
    Point(p.x * (v.rectWidth / v.canvasWidth) + v.left, p.y * (v.rectHeight / v.canvasHeight) + v.top)
  }

  /** Mapping a viewport point into the image and back gives the point again. */
  lemma ToCanvasRoundTrip(v: CanvasView, clientX: real, clientY: real)
    requires ShownView(v) && v.canvasWidth > 0.0 && v.canvasHeight > 0.0
    ensures ToViewport(v, ToCanvas(v, clientX, clientY)) == Point(clientX, clientY)
  {
    var p := ToCanvas(v, clientX, clientY);
    assert (v.canvasWidth / v.rectWidth) * (v.rectWidth / v.canvasWidth) == 1.0;
    assert (v.canvasHeight / v.rectHeight) * (v.rectHeight / v.canvasHeight) == 1.0;
    assert p.x * (v.rectWidth / v.canvasWidth) == (clientX - v.left) * ((v.canvasWidth / v.rectWidth) * (v.rectWidth / v.canvasWidth));
    assert p.y * (v.rectHeight / v.canvasHeight) == (clientY - v.top) * ((v.canvasHeight / v.rectHeight) * (v.rectHeight / v.canvasHeight));
  }

  /** getRelativeCoords: offset from the container's corner plus the scroll offset. */
  function RelativeCoords(left: real, top: real, scroll: Point, clientX: real, clientY: real): (p: Point)
    ensures p.x - scroll.x == clientX - left && p.y - scroll.y == clientY - top
  {
    Point(clientX - left + scroll.x, clientY - top + scroll.y)
  }

  /** With no scroll and an unscaled canvas the two mappings agree. */
  lemma MappingsAgreeUnscaled(v: CanvasView, clientX: real, clientY: real)
    requires ShownView(v) && v.canvasWidth == v.rectWidth && v.canvasHeight == v.rectHeight
    ensures ToCanvas(v, clientX, clientY) == RelativeCoords(v.left, v.top, Point(0.0, 0.0), clientX, clientY)
  {
  }

  // ---------------------------------------------------------------------
  // Bounds
  // ---------------------------------------------------------------------

  /** `{minX, maxX, minY, maxY}` of calculatePointsBounds. */
  datatype Extent = Extent(minX: real, maxX: real, minY: real, maxY: real)

  /** Every point lies in the extent. */
  predicate Covers(e: Extent, pts: seq<Point>)
  {
    forall i :: 0 <= i < |pts| ==> e.minX <= pts[i].x <= e.maxX && e.minY <= pts[i].y <= e.maxY
  }

  /** Each of the four extremes is reached by some point. */
  predicate Attained(e: Extent, pts: seq<Point>)
  {
    && (exists i :: 0 <= i < |pts| && pts[i].x == e.minX)
    && (exists i :: 0 <= i < |pts| && pts[i].x == e.maxX)
    && (exists i :: 0 <= i < |pts| && pts[i].y == e.minY)
    && (exists i :: 0 <= i < |pts| && pts[i].y == e.maxY)
  }

  /**
   * calculatePointsBounds: a running min/max over the points, null for none.
   * The result is the smallest box holding every point.
   */
  function PointsBounds(pts: seq<Point>): (r: Option<Extent>)
    ensures r.None? <==> pts == []
    ensures r.Some? ==> Covers(r.value, pts) && Attained(r.value, pts)
  {
    if pts == [] then None
    else if |pts| == 1 then Some(Extent(pts[0].x, pts[0].x, pts[0].y, pts[0].y))
    else
      var init := pts[..|pts| - 1];
      var e := PointsBounds(init).value;
      var p := pts[|pts| - 1];
      var r := Extent(Min(e.minX, p.x), Max(e.maxX, p.x), Min(e.minY, p.y), Max(e.maxY, p.y));
      assert forall i :: 0 <= i < |init| ==> pts[i] == init[i];
      Some(r)
  }

  /** The extent grown by `full / 2` on every side, as a box. */
  function Grow(e: Extent, full: real): Rect
  {
    Rect(e.minX - full / 2.0, e.minY - full / 2.0, e.maxX - e.minX + full, e.maxY - e.minY + full)
  }

  /** Character width and line height of the no-canvas text estimate. */
  function ApproxCharWidth(s: PenSize): real
  {
    match s
    case S => 8.0
    case M => 10.0
    case L => 14.0
  }

  function ApproxLineHeight(s: PenSize): real
  {
    match s
    case S => 14.0
    case M => 18.0
    case L => 28.0
  }

  /** `Math.max(...lines.map(line => line.length))` over a non-empty list of lines. */
  function LongestLine(lines: seq<string>): (r: nat)
    requires |lines| >= 1
    ensures forall i :: 0 <= i < |lines| ==> |lines[i]| <= r
    ensures exists i :: 0 <= i < |lines| && |lines[i]| == r
  {
    if |lines| == 1 then |lines[0]|
    else
      var rest := LongestLine(lines[1..]);
      assert forall i :: 1 <= i < |lines| ==> lines[i] == lines[1..][i - 1];
      if |lines[0]| >= rest then |lines[0]| else rest
  }

  /**
   * getTextBounds without a rendering context: the widest line times a per-size
   * character width, and one line height per line, starting 0.8 line heights
   * above the baseline.
   */
  function TextBounds(content: string, x: real, y: real, size: PenSize): (r: Rect)
    ensures r.x == x && r.y == y - ApproxLineHeight(size) * 0.8
    ensures r.height == (Strings.Count(content, '\n') + 1) as real * ApproxLineHeight(size)
    ensures var lines := Strings.Split(content, {'\n'});
      && (forall i :: 0 <= i < |lines| ==> |lines[i]| as real * ApproxCharWidth(size) <= r.width)
      && (exists i :: 0 <= i < |lines| && |lines[i]| as real * ApproxCharWidth(size) == r.width)
  {
    var lines := Strings.Split(content, {'\n'});
    Strings.SplitCount(content, '\n');
    var longest := LongestLine(lines);
    assert forall i :: 0 <= i < |lines| ==> |lines[i]| as real * ApproxCharWidth(size) <= longest as real * ApproxCharWidth(size);
    Rect(x, y - ApproxLineHeight(size) * 0.8, longest as real * ApproxCharWidth(size),
         |lines| as real * ApproxLineHeight(size))
  }

  /** The spot-blur brush when none is stored: 10. */
  function BrushOrDefault(b: Option<real>): real
  {
    if b.Some? then b.value else 10.0
  }

  /**
   * getAnnotationBounds. Strokes are their points' box grown by half the stroke
   * width (half the brush for a spot blur); shapes are grown by half the line
   * width; a step is the square around its circle; a focus rectangle is itself.
   * Text uses the no-canvas estimate.
   */
  function AnnotationBounds(a: Annotation): (r: Option<Rect>)
    ensures r.None? <==> (a.Pen? || a.Highlighter? || a.SpotBlur?) && a.points == []
  {
    match a
    case Pen(_, pts, _, w, _) =>
      if pts == [] then None else Some(Grow(PointsBounds(pts).value, w))
    case Highlighter(_, pts, _, w, _) =>
      if pts == [] then None else Some(Grow(PointsBounds(pts).value, w))
    case Arrow(_, sx, sy, ex, ey, _, w, _) =>
      Some(Rect(Min(sx, ex) - w / 2.0, Min(sy, ey) - w / 2.0, Abs(sx - ex) + w, Abs(sy - ey) + w))
    case Text(_, x, y, content, _, _, size) =>
      Some(TextBounds(content, x, y, size))
    case Rectangle(_, x, y, w, h, _, lw, _) =>
      Some(Rect(x - lw / 2.0, y - lw / 2.0, w + lw, h + lw))
    case Ellipse(_, cx, cy, rx, ry, _, lw, _) =>
      Some(Rect(cx - rx - lw / 2.0, cy - ry - lw / 2.0, (rx + lw / 2.0) * 2.0, (ry + lw / 2.0) * 2.0))
    case Step(_, cx, cy, radius, _, _, _, _) =>
      Some(Rect(cx - radius, cy - radius, radius * 2.0, radius * 2.0))
    case SpotBlur(_, pts, b) =>
      if pts == [] then None else Some(Grow(PointsBounds(pts).value, BrushOrDefault(b)))
    case FocusRect(_, x, y, w, h) =>
      Some(Rect(x, y, w, h))
  }

  /** `p` lies in `r` at least `margin` away from each side. */
  predicate EnclosesWithMargin(r: Rect, p: Point, margin: real)
  {
    r.x + margin <= p.x <= r.x + r.width - margin && r.y + margin <= p.y <= r.y + r.height - margin
  }

  /** The stroke width of a stroke annotation; the brush for a spot blur. */
  function StrokeWidth(a: Annotation): real
    requires a.Pen? || a.Highlighter? || a.SpotBlur?
  {
    if a.SpotBlur? then BrushOrDefault(a.brushSize) else a.width
  }

  /**
   * A stroke's box holds every recorded point with half the stroke width to
   * spare on each side, and is no larger: each side is reached.
   */
  lemma StrokeBounds(a: Annotation)
    requires a.Pen? || a.Highlighter? || a.SpotBlur?
    requires a.points != []
    ensures AnnotationBounds(a).Some?
    ensures var r := AnnotationBounds(a).value; var m := StrokeWidth(a) / 2.0;
      && (forall i :: 0 <= i < |a.points| ==> EnclosesWithMargin(r, a.points[i], m))
      && (exists i :: 0 <= i < |a.points| && a.points[i].x - m == r.x)
      && (exists i :: 0 <= i < |a.points| && a.points[i].x + m == r.x + r.width)
      && (exists i :: 0 <= i < |a.points| && a.points[i].y - m == r.y)
      && (exists i :: 0 <= i < |a.points| && a.points[i].y + m == r.y + r.height)
  {
    var e := PointsBounds(a.points).value;
    assert AnnotationBounds(a) == Some(Grow(e, StrokeWidth(a)));
  }

  /** A step's box is the square of side 2·radius centred on the step. */
  lemma StepBounds(a: Annotation)
    requires a.Step?
    ensures var r := AnnotationBounds(a).value;
      r.x + r.width / 2.0 == a.cx && r.y + r.height / 2.0 == a.cy && r.width == r.height == 2.0 * a.radius
  {
  }

  /**
   * A rectangle's or an ellipse's box encloses its outline with half the line
   * width to spare; a focus rectangle's box is the rectangle itself.
   */
  lemma ShapeBounds(a: Annotation)
    requires a.Rectangle? || a.Ellipse? || a.FocusRect?
    requires WellFormed(a)
    ensures var r := AnnotationBounds(a).value;
      && (a.Rectangle? ==> EnclosesWithMargin(r, Point(a.x, a.y), a.lineWidth / 2.0)
                           && EnclosesWithMargin(r, Point(a.x + a.width, a.y + a.height), a.lineWidth / 2.0)
                           && r.width == a.width + a.lineWidth && r.height == a.height + a.lineWidth)
      && (a.Ellipse? ==> r.x + r.width / 2.0 == a.cx && r.y + r.height / 2.0 == a.cy
                         && r.width == 2.0 * a.rx + a.lineWidth && r.height == 2.0 * a.ry + a.lineWidth)
      && (a.FocusRect? ==> r == Rect(a.x, a.y, a.width, a.height))
  {
  }

  // ---------------------------------------------------------------------
  // Real arithmetic
  // ---------------------------------------------------------------------

  // The solver proves facts about products and quotients most reliably on
  // plain arithmetic, so the facts below are stated first about plain terms
  // and then carried over to `Sq` and `Ratio` by a calculation.

  function Sq(d: real): real { d * d }

  function Ratio(a: real, q: real): real
    requires q != 0.0
  {
    a / q
  }

  lemma ProductNonNeg(d: real)
    ensures d * d >= 0.0
  {
  }

  lemma ProductPos(d: real)
    requires d != 0.0
    ensures d * d > 0.0
  {
  }

  lemma SqNonNeg(d: real)
    ensures Sq(d) >= 0.0
  {
    calc {
      Sq(d);
      d * d;
    >= { ProductNonNeg(d); }
      0.0;
    }
  }

  lemma SqPos(d: real)
    requires d != 0.0
    ensures Sq(d) > 0.0
  {
    calc {
      Sq(d);
      d * d;
    > { ProductPos(d); }
      0.0;
    }
  }

  lemma QuotientNonNeg(a: real, q: real)
    requires a >= 0.0 && q > 0.0
    ensures a / q >= 0.0
  {
  }

  lemma RatioNonNeg(a: real, q: real)
    requires a >= 0.0 && q > 0.0
    ensures Ratio(a, q) >= 0.0
  {
    calc {
      Ratio(a, q);
      a / q;
    >= { QuotientNonNeg(a, q); }
      0.0;
    }
  }

  lemma QuotientZero(q: real)
    requires q != 0.0
    ensures 0.0 / q == 0.0
  {
  }

  lemma QuotientAtMostOne(a: real, q: real)
    requires q > 0.0 && a / q <= 1.0
    ensures a <= q
  {
    assert a == (a / q) * q;
  }

  lemma RatioAtMostOne(a: real, q: real)
    requires q > 0.0 && Ratio(a, q) <= 1.0
    ensures a <= q
  {
    assert a / q <= 1.0;
    QuotientAtMostOne(a, q);
  }

  lemma ProductBound(d: real, r: real)
    requires r > 0.0 && d * d <= r * r
    ensures -r <= d <= r
  {
    assert (r - d) * (r + d) >= 0.0;
  }

  lemma SqBound(d: real, r: real)
    requires r > 0.0 && Sq(d) <= Sq(r)
    ensures -r <= d <= r
  {
    assert d * d <= r * r by {
      assert Sq(d) == d * d && Sq(r) == r * r;
    }
    ProductBound(d, r);
  }

  lemma SquareMonotone(a: real, b: real)
    requires 0.0 <= a <= b
    ensures a * a <= b * b
  {
    assert b * b - a * a == (b - a) * (b + a);
    assert (b - a) * (b + a) >= 0.0;
  }

  lemma SqMonotone(a: real, b: real)
    requires 0.0 <= a <= b
    ensures Sq(a) <= Sq(b)
  {
    calc {
      Sq(a);
      a * a;
    <= { SquareMonotone(a, b); }
      b * b;
      Sq(b);
    }
  }

  /** Projecting the point `s` along the segment back onto it gives `s`. */
  lemma ProjectionOfScaled(dx: real, dy: real, s: real)
    requires dx * dx + dy * dy != 0.0
    ensures ((s * dx) * dx + (s * dy) * dy) / (dx * dx + dy * dy) == s
  {
    assert (s * dx) * dx + (s * dy) * dy == s * (dx * dx + dy * dy);
  }

  // ---------------------------------------------------------------------
  // Hit-testing
  // ---------------------------------------------------------------------

  /** isPointInsideRect: the closed box. */
  predicate InsideRect(p: Point, x: real, y: real, w: real, h: real)
  {
    p.x >= x && p.x <= x + w && p.y >= y && p.y <= y + h
  }

  /** `Math.hypot(..) <= t`, given the squared distance. */
  predicate NearSq(d2: real, t: real)
  {
    t >= 0.0 && d2 <= Sq(t)
  }

  /** Squared length of the vector (dx, dy). */
  function SqLen(dx: real, dy: real): real
  {
    Sq(dx) + Sq(dy)
  }

  lemma SqLenPositive(dx: real, dy: real)
    requires dx != 0.0 || dy != 0.0
    ensures SqLen(dx, dy) > 0.0
  {
    SqNonNeg(dx);
    SqNonNeg(dy);
    if dx != 0.0 {
      SqPos(dx);
    } else {
      SqPos(dy);
    }
  }

  function DistSq(p: Point, x: real, y: real): real
  {
    SqLen(p.x - x, p.y - y)
  }

  /**
   * Where isPointNearLine measures from: the projection parameter of `p` on
   * the line through the segment, `((p - a) . d) / |d|^2`.
   */
  function Projection(p: Point, x1: real, y1: real, dx: real, dy: real): real
    requires dx != 0.0 || dy != 0.0
  {
    SqLenPositive(dx, dy);
    Ratio((p.x - x1) * dx + (p.y - y1) * dy, SqLen(dx, dy))
  }

  /**
   * The point of the segment closest to `p`: the projection clamped to [0, 1];
   * the start point when the segment has zero length.
   */
  function Closest(p: Point, x1: real, y1: real, x2: real, y2: real): Point
  {
    var dx := x2 - x1;
    var dy := y2 - y1;
    if dx == 0.0 && dy == 0.0 then Point(x1, y1)
    else
      var u := Projection(p, x1, y1, dx, dy);
      if u < 0.0 then Point(x1, y1)
      else if u > 1.0 then Point(x2, y2)
      else Point(x1 + u * dx, y1 + u * dy)
  }

  /** isPointNearLine: the distance from `p` to the closest point of the segment is at most `t`. */
  predicate NearLine(p: Point, x1: real, y1: real, x2: real, y2: real, t: real)
  {
    var c := Closest(p, x1, y1, x2, y2);
    NearSq(DistSq(p, c.x, c.y), t)
  }

  /** A point at distance zero is near for every threshold t >= 0. */
  lemma ZeroDistanceNear(t: real)
    requires t >= 0.0
    ensures NearSq(0.0, t)
  {
    SqNonNeg(t);
  }

  /** The point at parameter `s` along the segment from (x1, y1) to (x2, y2). */
  function SegmentPoint(x1: real, y1: real, x2: real, y2: real, s: real): Point
  {
    Point(x1 + s * (x2 - x1), y1 + s * (y2 - y1))
  }

  /** A point of a non-degenerate segment projects back to its own parameter. */
  lemma ProjectionOfSegmentPoint(x1: real, y1: real, x2: real, y2: real, s: real)
    requires x2 - x1 != 0.0 || y2 - y1 != 0.0
    ensures Projection(SegmentPoint(x1, y1, x2, y2, s), x1, y1, x2 - x1, y2 - y1) == s
  {
    // Products are written out in full rather than through local names, so
    // that the solver sees the same terms everywhere.
    SqLenPositive(x2 - x1, y2 - y1);
    assert SegmentPoint(x1, y1, x2, y2, s) == Point(x1 + s * (x2 - x1), y1 + s * (y2 - y1));
    calc {
      Projection(Point(x1 + s * (x2 - x1), y1 + s * (y2 - y1)), x1, y1, x2 - x1, y2 - y1);
      Ratio((s * (x2 - x1)) * (x2 - x1) + (s * (y2 - y1)) * (y2 - y1), SqLen(x2 - x1, y2 - y1));
      { assert SqLen(x2 - x1, y2 - y1) == (x2 - x1) * (x2 - x1) + (y2 - y1) * (y2 - y1); }
      ((s * (x2 - x1)) * (x2 - x1) + (s * (y2 - y1)) * (y2 - y1))
        / ((x2 - x1) * (x2 - x1) + (y2 - y1) * (y2 - y1));
      { ProjectionOfScaled(x2 - x1, y2 - y1, s); }
      s;
    }
  }

  /** The closest point of a segment to one of its own points is that point. */
  lemma ClosestOnSegment(x1: real, y1: real, x2: real, y2: real, s: real)
    requires 0.0 <= s <= 1.0
    ensures Closest(SegmentPoint(x1, y1, x2, y2, s), x1, y1, x2, y2) == SegmentPoint(x1, y1, x2, y2, s)
  {
    if x2 - x1 != 0.0 || y2 - y1 != 0.0 {
      ProjectionOfSegmentPoint(x1, y1, x2, y2, s);
    }
  }

  /** Every point of a segment is near it, for every threshold t >= 0. */
  lemma OnSegmentIsNear(x1: real, y1: real, x2: real, y2: real, s: real, t: real)
    requires 0.0 <= s <= 1.0 && t >= 0.0
    ensures NearLine(SegmentPoint(x1, y1, x2, y2, s), x1, y1, x2, y2, t)
  {
    var p := SegmentPoint(x1, y1, x2, y2, s);
    ClosestOnSegment(x1, y1, x2, y2, s);
    assert DistSq(p, p.x, p.y) == 0.0;
    ZeroDistanceNear(t);
  }

  /** Raising the threshold never loses a point. */
  lemma NearSqMonotone(d2: real, t: real, t': real)
    requires NearSq(d2, t) && t <= t'
    ensures NearSq(d2, t')
  {
    SqMonotone(t, t');
  }

  lemma NearLineMonotone(p: Point, x1: real, y1: real, x2: real, y2: real, t: real, t': real)
    requires NearLine(p, x1, y1, x2, y2, t) && t <= t'
    ensures NearLine(p, x1, y1, x2, y2, t')
  {
    var c := Closest(p, x1, y1, x2, y2);
    NearSqMonotone(DistSq(p, c.x, c.y), t, t');
  }

  /** Segment `i` of a polyline is near the point. */
  predicate NearSegment(p: Point, pts: seq<Point>, i: int, t: real)
    requires 0 <= i < |pts| - 1
  {
    NearLine(p, pts[i].x, pts[i].y, pts[i + 1].x, pts[i + 1].y, t)
  }

  /** isPointNearPolyline: false for fewer than two points, else some segment is near. */
  predicate NearPolyline(p: Point, pts: seq<Point>, t: real)
  {
    |pts| >= 2 && exists i :: 0 <= i < |pts| - 1 && NearSegment(p, pts, i, t)
  }

  /**
   * The loop of isPointNearPolyline: scan the segments in order and stop at
   * the first near one.
   */
  method ScanPolyline(p: Point, pts: seq<Point>, t: real) returns (near: bool)
    ensures near == NearPolyline(p, pts, t)
  {
    if |pts| < 2 {
      return false;
    }
    var i := 0;
    while i < |pts| - 1
      invariant 0 <= i <= |pts| - 1
      invariant forall j :: 0 <= j < i ==> !NearSegment(p, pts, j, t)
    {
      if NearLine(p, pts[i].x, pts[i].y, pts[i + 1].x, pts[i + 1].y, t) {
        assert NearSegment(p, pts, i, t);
        return true;
      }
      i := i + 1;
    }
    return false;
  }

  /** The stroke test: near the polyline by max(threshold, width/2). */
  predicate StrokeHit(p: Point, pts: seq<Point>, width: real, t: real)
  {
    NearPolyline(p, pts, Max(t, width / 2.0))
  }

  /** The rectangle test: inside, or in a band of half-width max(t, lw/2) about an edge. */
  predicate RectangleHit(p: Point, x: real, y: real, w: real, h: real, lw: real, t: real)
  {
    if InsideRect(p, x, y, w, h) then true
    else
      var hw := Max(t, lw / 2.0);
      (((p.y >= y - hw && p.y <= y + hw) || (p.y >= y + h - hw && p.y <= y + h + hw))
       && p.x >= x - hw && p.x <= x + w + hw)
      || (((p.x >= x - hw && p.x <= x + hw) || (p.x >= x + w - hw && p.x <= x + w + hw))
          && p.y >= y - hw && p.y <= y + h + hw)
  }

  /** `dx²/rx² + dy²/ry²`: at most 1 exactly inside the ellipse of radii rx, ry. */
  function EllipseNorm(dx: real, dy: real, rx: real, ry: real): real
    requires rx != 0.0 && ry != 0.0
  {
    SqPos(rx);
    SqPos(ry);
    Ratio(Sq(dx), Sq(rx)) + Ratio(Sq(dy), Sq(ry))
  }

  /**
   * The ellipse test: inside, or in the ring between the ellipse grown and the
   * ellipse shrunk by max(t, lw/2). When a shrunk radius reaches 0 the ring
   * has no inner edge.
   */
  predicate EllipseHit(p: Point, cx: real, cy: real, rx: real, ry: real, lw: real, t: real)
    requires rx > 0.0 && ry > 0.0 && lw >= 0.0
  {
    var dx := p.x - cx;
    var dy := p.y - cy;
    if EllipseNorm(dx, dy, rx, ry) <= 1.0 then true
    else
      var hw := Max(t, lw / 2.0);
      var innerRx := Max(0.0, rx - hw);
      var innerRy := Max(0.0, ry - hw);
      EllipseNorm(dx, dy, rx + hw, ry + hw) <= 1.0
      && (innerRx <= 0.0 || innerRy <= 0.0 || EllipseNorm(dx, dy, innerRx, innerRy) >= 1.0)
  }

  /** An ellipse can be hit-tested when its radii are positive and its line width is not negative. */
  predicate Measurable(a: Annotation)
  {
    a.Ellipse? ==> a.rx > 0.0 && a.ry > 0.0 && a.lineWidth >= 0.0
  }

  lemma WellFormedMeasurable(a: Annotation)
    requires WellFormed(a)
    ensures Measurable(a)
  {
  }

  /**
   * isPointInsideAnnotation: per-variant hit test with a selection threshold.
   * Strokes and arrows: near the polyline or segment by max(threshold,
   * width/2). Step: within radius + threshold of the centre. Text and focus
   * rectangle: inside their box.
   */
  predicate HitTest(p: Point, a: Annotation, t: real)
    requires Measurable(a)
  {
    match a
    case Pen(_, pts, _, w, _) => StrokeHit(p, pts, w, t)
    case Highlighter(_, pts, _, w, _) => StrokeHit(p, pts, w, t)
    case Arrow(_, sx, sy, ex, ey, _, w, _) => NearLine(p, sx, sy, ex, ey, Max(t, w / 2.0))
    case Text(_, x, y, content, _, _, size) =>
      var b := TextBounds(content, x, y, size);
      InsideRect(p, b.x, b.y, b.width, b.height)
    case Rectangle(_, x, y, w, h, _, lw, _) => RectangleHit(p, x, y, w, h, lw, t)
    case Ellipse(_, cx, cy, rx, ry, _, lw, _) => EllipseHit(p, cx, cy, rx, ry, lw, t)
    case Step(_, cx, cy, radius, _, _, _, _) => DistSq(p, cx, cy) <= Sq(radius + t)
    case SpotBlur(_, pts, b) => StrokeHit(p, pts, BrushOrDefault(b), t)
    case FocusRect(_, x, y, w, h) => InsideRect(p, x, y, w, h)
  }

  /** Every point of every segment of a polyline is near it. */
  lemma OnPolylineIsNear(pts: seq<Point>, i: int, s: real, t: real)
    requires 0 <= i < |pts| - 1 && 0.0 <= s <= 1.0 && t >= 0.0
    ensures NearPolyline(SegmentPoint(pts[i].x, pts[i].y, pts[i + 1].x, pts[i + 1].y, s), pts, t)
  {
    OnSegmentIsNear(pts[i].x, pts[i].y, pts[i + 1].x, pts[i + 1].y, s, t);
    assert NearSegment(SegmentPoint(pts[i].x, pts[i].y, pts[i + 1].x, pts[i + 1].y, s), pts, i, t);
  }

  /** Every point on every segment of a stroke hits it, for any threshold >= 0. */
  lemma StrokeHitOnPolyline(a: Annotation, i: int, s: real, t: real)
    requires a.Pen? || a.Highlighter? || a.SpotBlur?
    requires 0 <= i < |a.points| - 1 && 0.0 <= s <= 1.0 && t >= 0.0
    ensures HitTest(SegmentPoint(a.points[i].x, a.points[i].y, a.points[i + 1].x, a.points[i + 1].y, s), a, t)
  {
    OnPolylineIsNear(a.points, i, s, Max(t, StrokeWidth(a) / 2.0));
  }

  /** A larger selection threshold never loses a stroke or an arrow. */
  lemma StrokeHitMonotone(p: Point, a: Annotation, t: real, t': real)
    requires a.Pen? || a.Highlighter? || a.SpotBlur? || a.Arrow?
    requires HitTest(p, a, t) && t <= t'
    ensures HitTest(p, a, t')
  {
    if a.Arrow? {
      NearLineMonotone(p, a.startX, a.startY, a.endX, a.endY, Max(t, a.width / 2.0), Max(t', a.width / 2.0));
    } else {
      var w := StrokeWidth(a);
      assert StrokeHit(p, a.points, w, t);
      var i :| 0 <= i < |a.points| - 1 && NearSegment(p, a.points, i, Max(t, w / 2.0));
      NearLineMonotone(p, a.points[i].x, a.points[i].y, a.points[i + 1].x, a.points[i + 1].y,
                       Max(t, w / 2.0), Max(t', w / 2.0));
      assert NearSegment(p, a.points, i, Max(t', w / 2.0));
      assert StrokeHit(p, a.points, w, t');
    }
  }

  /**
   * The rectangle's hit region is exactly its box grown by max(threshold,
   * lineWidth/2) on every side: the edge bands fill the whole margin.
   */
  lemma RectangleHitRegion(p: Point, a: Annotation, t: real)
    requires a.Rectangle? && a.width >= 0.0 && a.height >= 0.0 && Max(t, a.lineWidth / 2.0) >= 0.0
    ensures var hw := Max(t, a.lineWidth / 2.0);
      HitTest(p, a, t) <==> InsideRect(p, a.x - hw, a.y - hw, a.width + 2.0 * hw, a.height + 2.0 * hw)
  {
    assert HitTest(p, a, t) == RectangleHit(p, a.x, a.y, a.width, a.height, a.lineWidth, t);
  }

  /** A step is hit exactly within distance radius + threshold of its centre. */
  lemma StepHitRegion(p: Point, a: Annotation, t: real)
    requires a.Step? && a.radius + t >= 0.0
    ensures HitTest(p, a, t) <==> NearSq(DistSq(p, a.cx, a.cy), a.radius + t)
  {
  }

  /** An ellipse's centre always hits it. */
  lemma EllipseCentreHits(a: Annotation, t: real)
    requires a.Ellipse? && Measurable(a)
    ensures HitTest(Point(a.cx, a.cy), a, t)
  {
    SqPos(a.rx);
    SqPos(a.ry);
    assert Sq(0.0) == 0.0;
    calc {
      Ratio(0.0, Sq(a.rx));
      0.0 / Sq(a.rx);
      { QuotientZero(Sq(a.rx)); }
      0.0;
    }
    calc {
      Ratio(0.0, Sq(a.ry));
      0.0 / Sq(a.ry);
      { QuotientZero(Sq(a.ry)); }
      0.0;
    }
    assert EllipseNorm(0.0, 0.0, a.rx, a.ry) == 0.0;
    assert a.cx - a.cx == 0.0 && a.cy - a.cy == 0.0;
  }

  /** Inside the ellipse of radii rx, ry each coordinate offset is within its radius. */
  lemma EllipseNormBound(dx: real, dy: real, rx: real, ry: real)
    requires rx > 0.0 && ry > 0.0 && EllipseNorm(dx, dy, rx, ry) <= 1.0
    ensures -rx <= dx <= rx && -ry <= dy <= ry
  {
    SqPos(rx);
    SqPos(ry);
    SqNonNeg(dx);
    SqNonNeg(dy);
    RatioNonNeg(Sq(dx), Sq(rx));
    RatioNonNeg(Sq(dy), Sq(ry));
    RatioAtMostOne(Sq(dx), Sq(rx));
    RatioAtMostOne(Sq(dy), Sq(ry));
    SqBound(dx, rx);
    SqBound(dy, ry);
  }

  /**
   * Nothing outside the ellipse's box grown by max(threshold, lineWidth/2)
   * hits it: the hit region lies within the outer ellipse.
   */
  lemma EllipseHitWithinGrownBox(p: Point, a: Annotation, t: real)
    requires a.Ellipse? && Measurable(a)
    requires HitTest(p, a, t)
    ensures var hw := Max(t, a.lineWidth / 2.0);
      InsideRect(p, a.cx - a.rx - hw, a.cy - a.ry - hw, 2.0 * (a.rx + hw), 2.0 * (a.ry + hw))
  {
    var hw := Max(t, a.lineWidth / 2.0);
    var dx := p.x - a.cx;
    var dy := p.y - a.cy;
    assert EllipseHit(p, a.cx, a.cy, a.rx, a.ry, a.lineWidth, t);
    if EllipseNorm(dx, dy, a.rx, a.ry) <= 1.0 {
      EllipseNormBound(dx, dy, a.rx, a.ry);
    } else {
      EllipseNormBound(dx, dy, a.rx + hw, a.ry + hw);
    }
  }

  // ---------------------------------------------------------------------
  // Select tool
  // ---------------------------------------------------------------------

  /**
   * The topmost non-focus annotation hit by `p` among `anns`: the search of
   * handleSelectToolClick over the reversed list with focus rectangles removed.
   */
  function TopmostHit(anns: seq<Annotation>, p: Point, t: real): (r: Option<nat>)
    requires forall i :: 0 <= i < |anns| ==> Measurable(anns[i])
    ensures r.Some? ==> r.value < |anns| && !anns[r.value].FocusRect? && HitTest(p, anns[r.value], t)
    ensures r.Some? ==> forall j :: r.value < j < |anns| ==> anns[j].FocusRect? || !HitTest(p, anns[j], t)
    ensures r.None? ==> forall j :: 0 <= j < |anns| ==> anns[j].FocusRect? || !HitTest(p, anns[j], t)
  {
    if anns == [] then None
    else
      var last := anns[|anns| - 1];
      if !last.FocusRect? && HitTest(p, last, t) then Some(|anns| - 1)
      else
        var init := anns[..|anns| - 1];
        assert forall i :: 0 <= i < |init| ==> init[i] == anns[i];
        TopmostHit(init, p, t)
  }

  /** Outcome of a click with the select tool. */
  datatype SelectOutcome =
    | NotSelecting                                  // another tool is active: nothing happens
    | Selected(id: Id, dragOffset: Option<Point>)   // select it and start dragging
    | Cleared                                       // nothing hit: selection cleared

  /**
   * handleSelectToolClick with the default threshold of 5: the topmost hit
   * annotation is selected, and the drag offset is the click's offset from
   * the corner of its bounds (left unset when it has none).
   */
  function SelectToolClick(tool: Tool, anns: seq<Annotation>, p: Point): (r: SelectOutcome)
    requires forall i :: 0 <= i < |anns| ==> Measurable(anns[i])
    ensures tool != SelectTool <==> r.NotSelecting?
    ensures tool == SelectTool ==> (r.Cleared? <==> TopmostHit(anns, p, 5.0).None?)
    ensures r.Selected? ==>
              && TopmostHit(anns, p, 5.0).Some?
              && var a := anns[TopmostHit(anns, p, 5.0).value];
              && r.id == a.id
              && (r.dragOffset.Some? <==> AnnotationBounds(a).Some?)
              && (r.dragOffset.Some? ==> AnnotationBounds(a).value.x + r.dragOffset.value.x == p.x
                                         && AnnotationBounds(a).value.y + r.dragOffset.value.y == p.y)
    ensures r.Selected? ==> exists i :: 0 <= i < |anns| && anns[i].id == r.id
                                        && !anns[i].FocusRect? && HitTest(p, anns[i], 5.0)
    ensures r.Cleared? ==> forall j :: 0 <= j < |anns| ==> anns[j].FocusRect? || !HitTest(p, anns[j], 5.0)
  {
    if tool != SelectTool then NotSelecting
    else
      match TopmostHit(anns, p, 5.0)
      case None => Cleared
      case Some(i) =>
        var b := AnnotationBounds(anns[i]);
        Selected(anns[i].id, if b.Some? then Some(Point(p.x - b.value.x, p.y - b.value.y)) else None)
  }
}
