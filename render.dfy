/**
 * Which annotations a redraw of the editor canvas paints, in which order, and
 * which one gets the dashed selection outline (redrawCanvas in src/App.tsx).
 * The pixel work itself (image, clip paths, blur filter, strokes) is not
 * modelled: a redraw is described by the list of annotations it paints.
 */
module Render {
  import opened Wrappers
  import opened Annotations
  import opened Geometry
  import Seqs

  predicate IsFocusRect(a: Annotation) { a.FocusRect? }

  predicate IsSpotBlur(a: Annotation) { a.SpotBlur? }

  /** The focus rectangles of the list, in order. */
  function FocusRects(anns: seq<Annotation>): seq<Annotation>
  {
    Seqs.Filter(anns, IsFocusRect)
  }

  /** The box `b` lies inside focus rectangle `f` (edges may touch). */
  predicate WithinFocus(b: Rect, f: Annotation)
    requires f.FocusRect?
  {
    b.x >= f.x && b.x + b.width <= f.x + f.width && b.y >= f.y && b.y + b.height <= f.y + f.height
  }

  /**
   * The first filter of the redraw: focus rectangles are never painted; when
   * some exist, an annotation is painted only if it has bounds lying wholly
   * inside one of them.
   */
  predicate Visible(a: Annotation, focus: seq<Annotation>)
    requires forall j :: 0 <= j < |focus| ==> focus[j].FocusRect?
  {
    && !a.FocusRect?
    && (focus != [] ==>
          AnnotationBounds(a).Some?
          && exists j :: 0 <= j < |focus| && WithinFocus(AnnotationBounds(a).value, focus[j]))
  }

  /** annotationsToRenderStep1. */
  function Step1(anns: seq<Annotation>): seq<Annotation>
  {
    var focus := FocusRects(anns);
    Seqs.Filter(anns, a => Visible(a, focus))
  }

  /** Everything painted in the first pass (all but spot blurs), in list order. */
  function Others(anns: seq<Annotation>): seq<Annotation>
  {
    Seqs.Filter(Step1(anns), a => !IsSpotBlur(a))
  }

  /** The spot blurs, painted in a second pass, in list order. */
  function SpotBlurs(anns: seq<Annotation>): seq<Annotation>
  {
    Seqs.Filter(Step1(anns), IsSpotBlur)
  }

  /** The paint order of a redraw. */
  function PaintOrder(anns: seq<Annotation>): seq<Annotation>
  {
    Others(anns) + SpotBlurs(anns)
  }

  /** An annotation is painted exactly when it passes the first filter. */
  lemma PaintedIffVisible(anns: seq<Annotation>, a: Annotation)
    ensures a in PaintOrder(anns) <==> a in anns && Visible(a, FocusRects(anns))
  {
    var focus := FocusRects(anns);
    var s1 := Step1(anns);
    if a in anns && Visible(a, focus) {
      var i :| 0 <= i < |anns| && anns[i] == a;
      assert a in s1;
      var k :| 0 <= k < |s1| && s1[k] == a;
      if IsSpotBlur(a) {
        assert a in SpotBlurs(anns);
      } else {
        assert a in Others(anns);
      }
    }
    if a in PaintOrder(anns) {
      assert a in Others(anns) || a in SpotBlurs(anns);
      var o := Others(anns);
      var b := SpotBlurs(anns);
      if a in o {
        var k :| 0 <= k < |o| && o[k] == a;
      } else {
        var k :| 0 <= k < |b| && b[k] == a;
      }
      assert a in s1;
      var k :| 0 <= k < |s1| && s1[k] == a;
    }
  }

  /** Focus rectangles are never painted. */
  lemma FocusRectsNeverPainted(anns: seq<Annotation>)
    ensures forall i :: 0 <= i < |PaintOrder(anns)| ==> !PaintOrder(anns)[i].FocusRect?
  {
    forall i | 0 <= i < |PaintOrder(anns)|
      ensures !PaintOrder(anns)[i].FocusRect?
    {
      PaintedIffVisible(anns, PaintOrder(anns)[i]);
    }
  }

  /**
   * When the list holds a focus rectangle, every painted annotation has
   * bounds, and those lie inside some focus rectangle of the list.
   */
  lemma PaintedInsideFocus(anns: seq<Annotation>, i: int)
    requires exists j :: 0 <= j < |anns| && anns[j].FocusRect?
    requires 0 <= i < |PaintOrder(anns)|
    ensures AnnotationBounds(PaintOrder(anns)[i]).Some?
    ensures exists f :: f in anns && f.FocusRect? && WithinFocus(AnnotationBounds(PaintOrder(anns)[i]).value, f)
  {
    var focus := FocusRects(anns);
    var j :| 0 <= j < |anns| && anns[j].FocusRect?;
    assert IsFocusRect(anns[j]);
    assert anns[j] in focus;
    var a := PaintOrder(anns)[i];
    PaintedIffVisible(anns, a);
    var k :| 0 <= k < |focus| && WithinFocus(AnnotationBounds(a).value, focus[k]);
    assert focus[k] in anns;
  }

  /** Without focus rectangles every annotation is painted. */
  lemma NoFocusPaintsAll(anns: seq<Annotation>)
    requires forall j :: 0 <= j < |anns| ==> !anns[j].FocusRect?
    ensures Step1(anns) == anns
  {
    var focus := FocusRects(anns);
    Seqs.FilterKeepsNone(anns, IsFocusRect);
    Seqs.FilterKeepsAll(anns, a => Visible(a, focus));
  }

  /**
   * Spot blurs are painted after everything else: the paint order is a run of
   * non-blurs followed by a run of blurs, each in list order, and together
   * they are exactly the annotations that pass the first filter.
   */
  lemma SpotBlursLast(anns: seq<Annotation>)
    ensures var k := |Others(anns)|;
      && (forall i :: 0 <= i < k ==> !PaintOrder(anns)[i].SpotBlur?)
      && (forall i :: k <= i < |PaintOrder(anns)| ==> PaintOrder(anns)[i].SpotBlur?)
    ensures Seqs.IsSubsequence(Others(anns), anns) && Seqs.IsSubsequence(SpotBlurs(anns), anns)
    ensures multiset(PaintOrder(anns)) == multiset(Step1(anns))
  {
    var focus := FocusRects(anns);
    var visible := a => Visible(a, focus);
    var o, b := Others(anns), SpotBlurs(anns);
    Seqs.ConcatParts(o, b, (a: Annotation) => !IsSpotBlur(a), IsSpotBlur);
    assert Seqs.IsSubsequence(o, anns) by {
      Seqs.FilterFilter(anns, visible, (a: Annotation) => !IsSpotBlur(a), a => Visible(a, focus) && !IsSpotBlur(a));
      Seqs.FilterIsSubsequence(anns, a => Visible(a, focus) && !IsSpotBlur(a));
    }
    assert Seqs.IsSubsequence(b, anns) by {
      Seqs.FilterFilter(anns, visible, IsSpotBlur, a => Visible(a, focus) && IsSpotBlur(a));
      Seqs.FilterIsSubsequence(anns, a => Visible(a, focus) && IsSpotBlur(a));
    }
    assert multiset(PaintOrder(anns)) == multiset(Step1(anns)) by {
      Seqs.FilterPartition(Step1(anns), (a: Annotation) => !IsSpotBlur(a), IsSpotBlur);
    }
  }

  // ---------------------------------------------------------------------
  // Selection outline
  // ---------------------------------------------------------------------

  /** Some annotation of the list has the id. */
  predicate HasId(s: seq<Annotation>, id: Id)
  {
    exists i :: 0 <= i < |s| && s[i].id == id
  }

  /** `a` is the first annotation of the list with the id. */
  predicate FirstWithId(s: seq<Annotation>, id: Id, a: Annotation)
  {
    exists i :: 0 <= i < |s| && s[i] == a && a.id == id && forall j :: 0 <= j < i ==> s[j].id != id
  }

  /**
   * The annotation that gets the selection outline: the first one with the
   * selected id among the first pass, else among the spot blurs. With no
   * selection, none.
   */
  function Outlined(anns: seq<Annotation>, selected: Option<Id>): (r: Option<Annotation>)
    ensures selected.None? ==> r.None?
    ensures selected.Some? && HasId(Others(anns), selected.value) ==>
              r.Some? && FirstWithId(Others(anns), selected.value, r.value)
    ensures selected.Some? && !HasId(Others(anns), selected.value) ==>
              if HasId(SpotBlurs(anns), selected.value)
              then r.Some? && FirstWithId(SpotBlurs(anns), selected.value, r.value)
              else r.None?
  {
    if selected.None? then None
    else
      var fromOthers := Seqs.Find(Others(anns), (a: Annotation) => a.id == selected.value);
      if fromOthers.Some? then fromOthers
      else Seqs.Find(SpotBlurs(anns), (a: Annotation) => a.id == selected.value)
  }

  /** The outlined annotation is one that is painted; with none, no painted annotation has the id. */
  lemma OutlinedIsPainted(anns: seq<Annotation>, selected: Option<Id>)
    ensures Outlined(anns, selected).Some? ==> Outlined(anns, selected).value in PaintOrder(anns)
    ensures Outlined(anns, selected).None? && selected.Some? ==>
              forall i :: 0 <= i < |PaintOrder(anns)| ==> PaintOrder(anns)[i].id != selected.value
  {
    var o := Others(anns);
    var b := SpotBlurs(anns);
    if Outlined(anns, selected).Some? {
      Seqs.ConcatMember(o, b, Outlined(anns, selected).value);
    } else if selected.Some? {
      Seqs.ConcatAll(o, b, (a: Annotation) => a.id != selected.value);
    }
  }

  /**
   * The dashed outline: the outlined annotation's bounds grown by 3 on every
   * side; no outline for text (it shows its own caret) or for an annotation
   * without bounds.
   */
  function SelectionOutline(anns: seq<Annotation>, selected: Option<Id>): (r: Option<Rect>)
    ensures r.Some? ==>
      && Outlined(anns, selected).Some?
      && var a := Outlined(anns, selected).value;
      && !a.Text? && AnnotationBounds(a).Some?
      && var b := AnnotationBounds(a).value;
         r.value.x == b.x - 3.0 && r.value.y == b.y - 3.0
         && r.value.x + r.value.width == b.x + b.width + 3.0
         && r.value.y + r.value.height == b.y + b.height + 3.0
    ensures r.None? <==> Outlined(anns, selected).None? || Outlined(anns, selected).value.Text?
                          || AnnotationBounds(Outlined(anns, selected).value).None?
  {
    match Outlined(anns, selected)
    case None => None
    case Some(a) =>
      if a.Text? then None
      else
        match AnnotationBounds(a)
        case None => None
        case Some(b) => Some(Rect(b.x - 3.0, b.y - 3.0, b.width + 6.0, b.height + 6.0))
  }

  /** Selecting a text annotation never draws an outline. */
  lemma TextNeverOutlined(anns: seq<Annotation>, selected: Option<Id>)
    requires Outlined(anns, selected).Some? && Outlined(anns, selected).value.Text?
    ensures SelectionOutline(anns, selected).None?
  {
  }
}
