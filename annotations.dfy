/**
 * The annotation data model of the screenshot editor: the tagged union of
 * annotation kinds, the tools and sizes that produce them, and the pixel-size
 * tables that turn an abstract size into a stroke width or a font size.
 * Coordinates live in the captured image's pixel space and are real numbers.
 */
module Annotations {
  import opened Wrappers

  datatype Point = Point(x: real, y: real)

  /** An axis-aligned box `{x, y, width, height}`. */
  datatype Rect = Rect(x: real, y: real, width: real, height: real)

  /**
   * Annotation ids are `<kind>_<Date.now()>`: a kind tag and a millisecond stamp
   * that the caller supplies. Nothing makes two stamps differ.
   */
  datatype Id = Id(tag: string, stamp: nat)

  datatype PenSize = S | M | L

  datatype BlurMode = Spot | Focus

  datatype Tool =
    | PenTool | ArrowTool | TextTool | BlurTool | HighlighterTool | RectangleTool
    | EllipseTool | StepTool | SelectTool | MoveTool | NoTool | TextDraggingTool | BlurDraggingTool

  /**
   * One variant per annotation kind. A spot blur's `points` is optional in the
   * application's types; an absent list behaves exactly like an empty one for
   * bounds and hit-testing, so it is a plain sequence here. Its `brushSize` is
   * optional and read as 10 when absent.
   */
  datatype Annotation =
    | Text(id: Id, x: real, y: real, content: string, color: string, font: string, size: PenSize)
    | Pen(id: Id, points: seq<Point>, color: string, width: real, size: PenSize)
    | Arrow(id: Id, startX: real, startY: real, endX: real, endY: real, color: string, width: real, size: PenSize)
    | SpotBlur(id: Id, points: seq<Point>, brushSize: Option<real>)
    | Highlighter(id: Id, points: seq<Point>, color: string, width: real, size: PenSize)
    | Rectangle(id: Id, x: real, y: real, width: real, height: real, color: string, lineWidth: real, size: PenSize)
    | Ellipse(id: Id, cx: real, cy: real, rx: real, ry: real, color: string, lineWidth: real, size: PenSize)
    | Step(id: Id, cx: real, cy: real, radius: real, number: int, color: string, fontSize: real, size: PenSize)
    | FocusRect(id: Id, x: real, y: real, width: real, height: real)

  /** Pen stroke widths in pixels: s 2, m 5, l 10. */
  function PenSizeValue(s: PenSize): real
  {
    match s
    case S => 2.0
    case M => 5.0
    case L => 10.0
  }

  /** Text font sizes in pixels: s 12, m 16, l 24. */
  function TextSizeValue(s: PenSize): real
  {
    match s
    case S => 12.0
    case M => 16.0
    case L => 24.0
  }

  /** Highlighter widths in pixels: s 8, m 16, l 24. */
  function HighlighterSizeValue(s: PenSize): real
  {
    match s
    case S => 8.0
    case M => 16.0
    case L => 24.0
  }

  /**
   * What every annotation the editor creates satisfies: strokes have at least
   * their first point and a positive width, shapes are larger than the commit
   * thresholds, steps have a positive radius. Hit-testing an ellipse divides by
   * its radii, so it relies on this.
   */
  predicate WellFormed(a: Annotation)
  {
    match a
    case Text(_, _, _, _, _, _, _) => true
    case Pen(_, pts, _, w, _) => |pts| >= 1 && w > 0.0
    case Arrow(_, _, _, _, _, _, w, _) => w > 0.0
    case SpotBlur(_, pts, b) => |pts| >= 1 && (b.Some? ==> b.value > 0.0)
    case Highlighter(_, pts, _, w, _) => |pts| >= 1 && w > 0.0
    case Rectangle(_, _, _, w, h, _, lw, _) => w > 5.0 && h > 5.0 && lw > 0.0
    case Ellipse(_, _, _, rx, ry, _, lw, _) => rx > 5.0 && ry > 5.0 && lw > 0.0
    case Step(_, _, _, r, _, _, _, _) => r > 0.0
    case FocusRect(_, _, _, w, h) => w > 10.0 && h > 10.0
  }

  predicate AllWellFormed(anns: seq<Annotation>)
  {
    forall i :: 0 <= i < |anns| ==> WellFormed(anns[i])
  }
}
