/**
 * The region-selection window (src/capture.tsx): the user drags a rectangle
 * over a screenshot; releasing the mouse reports the rectangle, or a cancel
 * when it has no area, and Escape always reports a cancel. Coordinates are
 * client pixels, modelled as reals.
 */
module Capture {
  import opened Wrappers
  import opened Annotations
  import opened Geometry

  /** What the window sends back: a cancel, or the selected rectangle. */
  datatype SelectionResult = Cancelled | Region(bounds: Rect)

  /**
   * getSelectionBounds: none unless both corners are known, otherwise the
   * rectangle spanned by the two corners.
   */
  function SelectionBounds(start: Option<Point>, end: Option<Point>): (r: Option<Rect>)
    ensures r.Some? <==> start.Some? && end.Some?
    ensures r.Some? ==>
      && r.value.x == Min(start.value.x, end.value.x) && r.value.x + r.value.width == Max(start.value.x, end.value.x)
      && r.value.y == Min(start.value.y, end.value.y) && r.value.y + r.value.height == Max(start.value.y, end.value.y)
      && r.value.width >= 0.0 && r.value.height >= 0.0
  {
    if start.None? || end.None? then None
    else
      var a := start.value;
      var b := end.value;
      Some(Rect(Min(a.x, b.x), Min(a.y, b.y), Abs(a.x - b.x), Abs(a.y - b.y)))
  }

  /** The rectangle does not depend on which corner was pressed first. */
  lemma BoundsSymmetric(a: Point, b: Point)
    ensures SelectionBounds(Some(a), Some(b)) == SelectionBounds(Some(b), Some(a))
  {
  }

  /** Both corners lie on the rectangle's edges: it is the smallest box holding them. */
  lemma BoundsHoldCorners(a: Point, b: Point)
    ensures var r := SelectionBounds(Some(a), Some(b)).value;
      && r.x <= a.x <= r.x + r.width && r.x <= b.x <= r.x + r.width
      && r.y <= a.y <= r.y + r.height && r.y <= b.y <= r.y + r.height
      && (r.x == a.x || r.x == b.x) && (r.y == a.y || r.y == b.y)
  {
  }

  /** The message a release sends: the rectangle when it has area, else a cancel. */
  function ReleaseResult(bounds: Option<Rect>): (r: SelectionResult)
    ensures r.Region? <==> bounds.Some? && bounds.value.width > 0.0 && bounds.value.height > 0.0
    ensures r.Region? ==> r.bounds == bounds.value
  {
    if bounds.Some? && bounds.value.width > 0.0 && bounds.value.height > 0.0 then Region(bounds.value)
    else Cancelled
  }

  /** Pressing and releasing at one point selects nothing: a plain click cancels. */
  lemma ClickCancels(p: Point)
    ensures ReleaseResult(SelectionBounds(Some(p), Some(p))) == Cancelled
  {
  }

  /** A drag that moves in both directions selects a rectangle of positive area. */
  lemma DragSelects(a: Point, b: Point)
    requires a.x != b.x && a.y != b.y
    ensures ReleaseResult(SelectionBounds(Some(a), Some(b))).Region?
  {
  }

  /** A drag along one axis only is a cancel. */
  lemma FlatDragCancels(a: Point, b: Point)
    requires a.x == b.x || a.y == b.y
    ensures ReleaseResult(SelectionBounds(Some(a), Some(b))) == Cancelled
  {
  }

  /** The selection window's state: whether a drag is in progress and its two corners. */
  class SelectionWindow {
    var isSelecting: bool
    var startPoint: Option<Point>
    var endPoint: Option<Point>

    /** While a drag is in progress both corners are known. */
    ghost predicate Valid()
      reads this
    {
      isSelecting ==> startPoint.Some? && endPoint.Some?
    }

    constructor ()
      ensures !isSelecting && startPoint.None? && endPoint.None? && Valid()
    {
      isSelecting := false;
      startPoint := None;
      endPoint := None;
    }

    /** handleMouseDown: a drag starts, both corners at the mouse position. */
    method MouseDown(p: Point)
      modifies this
      ensures isSelecting && startPoint == Some(p) && endPoint == Some(p)
      ensures Valid()
    {
      isSelecting := true;
      startPoint := Some(p);
      endPoint := Some(p);
    }

    /** handleMouseMove: during a drag the moving corner follows the mouse; otherwise nothing happens. */
    method MouseMove(p: Point)
      requires Valid()
      modifies this
      ensures old(isSelecting) ==> endPoint == Some(p)
      ensures !old(isSelecting) ==> endPoint == old(endPoint)
      ensures isSelecting == old(isSelecting) && startPoint == old(startPoint)
      ensures Valid()
    {
      if isSelecting {
        endPoint := Some(p);
      }
    }

    /**
     * handleMouseUp: ends a drag and sends the rectangle, or a cancel when it
     * has no area; with no drag in progress nothing happens and nothing is sent.
     */
    method MouseUp() returns (sent: Option<SelectionResult>)
      requires Valid()
      modifies this
      ensures old(isSelecting) ==> sent == Some(ReleaseResult(SelectionBounds(startPoint, endPoint)))
      ensures !old(isSelecting) ==> sent.None?
      ensures !isSelecting && startPoint == old(startPoint) && endPoint == old(endPoint)
      ensures Valid()
    {
      if !isSelecting {
        return None;
      }
      isSelecting := false;
      var bounds := SelectionBounds(startPoint, endPoint);
      if bounds.Some? && bounds.value.width > 0.0 && bounds.value.height > 0.0 {
        sent := Some(Region(bounds.value));
      } else {
        sent := Some(Cancelled);
      }
    }

    /** The key handler: Escape sends a cancel whatever the state; other keys send nothing. */
    method KeyDown(key: string) returns (sent: Option<SelectionResult>)
      ensures sent == (if key == "Escape" then Some(Cancelled) else None)
    {
      if key == "Escape" {
        sent := Some(Cancelled);
      } else {
        sent := None;
      }
    }
  }

  /**
   * A whole drag on a fresh window: press at `a`, move to `b`, release. The
   * window sends the rectangle spanned by the two points, or a cancel.
   */
  method Drag(a: Point, b: Point) returns (sent: Option<SelectionResult>)
    ensures sent == Some(ReleaseResult(SelectionBounds(Some(a), Some(b))))
    ensures a == b ==> sent == Some(Cancelled)
  {
    var w := new SelectionWindow();
    w.MouseDown(a);
    w.MouseMove(b);
    sent := w.MouseUp();
    if a == b {
      ClickCancels(a);
    }
  }
}
