/**
 * The editor's annotation state and the handlers that change it
 * (src/App.tsx): the mouse gesture state machine, undo and clear, the reset on
 * a new capture, and the keyboard handler that types into a text annotation.
 *
 * Each handler is specified by a pure transition function over `State`
 * (AfterDown, AfterMove, AfterUp, ...); the class `Editor` holds the same
 * fields and its methods are proved to perform exactly those transitions.
 * The properties of the editor are lemmas about the transition functions.
 */
module Editor {
  import opened Wrappers
  import opened Annotations
  import opened Geometry

  /** The toolbar choices the handlers read. */
  datatype Options = Options(
    tool: Tool, blurMode: BlurMode,
    penColor: string, penSize: PenSize,
    highlighterColor: string, highlighterSize: PenSize,
    textColor: string, textSize: PenSize,
    stepColor: string, stepSize: PenSize)

  /** The choices the editor starts with: the pen, spot blur, red, size m. */
  function DefaultOptions(): Options
  {
    Options(PenTool, Spot, "#FF0000", M, "#FF0000", M, "#FF0000", M, "#FF0000", M)
  }

  /**
   * The editor state the handlers read and write: the annotation list, the
   * undo history (a stack of whole lists), the next step number, whether a
   * gesture is in progress and where it started, and the text being edited.
   */
  datatype State = State(
    annotations: seq<Annotation>,
    history: seq<seq<Annotation>>,
    stepCounter: int,
    isDrawing: bool,
    startPos: Option<Point>,
    selectedId: Option<Id>,
    isEditing: bool,
    options: Options)

  function Initial(): State
  {
    State([], [], 1, false, None, None, false, DefaultOptions())
  }

  /**
   * What every reachable state satisfies: all annotations, current and in the
   * history, are well formed; step numbers start at 1; a gesture in progress
   * has a start position; text editing has a selected id.
   */
  predicate Valid(s: State)
  {
    && AllWellFormed(s.annotations)
    && (forall k :: 0 <= k < |s.history| ==> AllWellFormed(s.history[k]))
    && s.stepCounter >= 1
    && (s.isDrawing ==> s.startPos.Some?)
    && (s.isEditing ==> s.selectedId.Some?)
  }

  lemma InitialValid()
    ensures Valid(Initial())
  {
  }

  function OptionToSeq<T>(o: Option<T>): (r: seq<T>)
    ensures o.None? ==> r == []
    ensures o.Some? ==> r == [o.value]
  {
    if o.Some? then [o.value] else []
  }

  // ---------------------------------------------------------------------
  // Mouse down
  // ---------------------------------------------------------------------

  /** The font string of a text annotation: `<size>px sans-serif`. */
  function FontSpec(s: PenSize): string
  {
    match s
    case S => "12px sans-serif"
    case M => "16px sans-serif"
    case L => "24px sans-serif"
  }

  /** The tools for which mouse-down starts a gesture (everything but the step tool and the unwired ones). */
  predicate StartsGesture(o: Options)
  {
    o.tool in {PenTool, HighlighterTool, BlurTool, TextTool, ArrowTool, RectangleTool, EllipseTool}
  }

  /** The points of a stroke annotation, [] for the other kinds. */
  function StrokePoints(a: Annotation): seq<Point>
  {
    match a
    case Pen(_, pts, _, _, _) => pts
    case Highlighter(_, pts, _, _, _) => pts
    case SpotBlur(_, pts, _) => pts
    case _ => []
  }

  /**
   * What mouse-down at `p` appends: a pen, highlighter or spot-blur stroke
   * holding just `p`, or a numbered step centred on `p`; nothing for the
   * other tools.
   */
  function Started(o: Options, p: Point, stamp: nat, counter: int): (r: Option<Annotation>)
    ensures r.Some? <==> o.tool in {PenTool, HighlighterTool, StepTool} || (o.tool == BlurTool && o.blurMode == Spot)
    ensures r.Some? ==> WellFormed(r.value) && r.value.id.stamp == stamp
    ensures r.Some? && o.tool != StepTool ==> StrokePoints(r.value) == [p]
    ensures r.Some? && o.tool == StepTool ==>
              && r.value.Step? && r.value.cx == p.x && r.value.cy == p.y
              && r.value.number == counter
              && r.value.fontSize == TextSizeValue(o.stepSize)
              && r.value.radius == 0.8 * r.value.fontSize
  {
    match o.tool
    case PenTool =>
      Some(Pen(Id("pen", stamp), [p], o.penColor, PenSizeValue(o.penSize), o.penSize))
    case HighlighterTool =>
      Some(Highlighter(Id("highlighter", stamp), [p], o.highlighterColor,
                       HighlighterSizeValue(o.highlighterSize), o.highlighterSize))
    case BlurTool =>
      if o.blurMode == Spot then Some(SpotBlur(Id("blur", stamp), [p], Some(PenSizeValue(o.penSize))))
      else None
    case StepTool =>
      var fontSize := TextSizeValue(o.stepSize);
      Some(Step(Id("step", stamp), p.x, p.y, fontSize * 0.8, counter, o.stepColor, fontSize, o.stepSize))
    case _ => None
  }

  /** handleMouseDown on the canvas point `p`. */
  function AfterDown(s: State, p: Point, stamp: nat): (r: State)
    ensures Valid(s) ==> Valid(r)
    ensures r.startPos == Some(p)
    ensures r.isDrawing <==> StartsGesture(s.options) || s.isDrawing
  {
    var o := s.options;
    s.(startPos := Some(p),
       isDrawing := if StartsGesture(o) then true else s.isDrawing,
       annotations := s.annotations + OptionToSeq(Started(o, p, stamp, s.stepCounter)),
       stepCounter := if o.tool == StepTool then s.stepCounter + 1 else s.stepCounter)
  }

  /**
   * A step click appends exactly one step, numbered with the current counter,
   * and advances the counter by exactly one; nothing else changes.
   */
  lemma StepClick(s: State, p: Point, stamp: nat)
    requires s.options.tool == StepTool
    ensures var r := AfterDown(s, p, stamp);
      && |r.annotations| == |s.annotations| + 1
      && r.annotations[..|s.annotations|] == s.annotations
      && (var a := r.annotations[|s.annotations|];
          a.Step? && a.number == s.stepCounter && a.cx == p.x && a.cy == p.y
          && a.radius == 0.8 * TextSizeValue(s.options.stepSize))
      && r.stepCounter == s.stepCounter + 1
      && r.isDrawing == s.isDrawing && r.history == s.history
  {
    var r := AfterDown(s, p, stamp);
    var st := Started(s.options, p, stamp, s.stepCounter);
    assert r.annotations == s.annotations + [st.value];
  }

  // ---------------------------------------------------------------------
  // Mouse move
  // ---------------------------------------------------------------------

  /** The last annotation is a stroke of the kind the current tool extends. */
  predicate Extends(o: Options, a: Annotation)
  {
    || (o.tool == PenTool && a.Pen?)
    || (o.tool == HighlighterTool && a.Highlighter?)
    || (o.tool == BlurTool && o.blurMode == Spot && a.SpotBlur?)
  }

  /**
   * Pushes `p` onto the points of the last annotation when it is a stroke of
   * the current tool's kind; every other annotation, and every other field of
   * the last one, stays as it was.
   */
  function Extend(anns: seq<Annotation>, o: Options, p: Point): (r: seq<Annotation>)
    ensures |r| == |anns|
    ensures forall i :: 0 <= i < |anns| - 1 ==> r[i] == anns[i]
    ensures |anns| > 0 && Extends(o, anns[|anns| - 1]) ==>
              var last := anns[|anns| - 1];
              r[|r| - 1] == last.(points := last.points + [p])
    ensures !(|anns| > 0 && Extends(o, anns[|anns| - 1])) ==> r == anns
  {
    if |anns| > 0 && Extends(o, anns[|anns| - 1]) then
      var last := anns[|anns| - 1];
      anns[..|anns| - 1] + [last.(points := last.points + [p])]
    else anns
  }

  /** handleMouseMove: only extends a stroke, and only during a gesture. */
  function AfterMove(s: State, p: Point): (r: State)
    ensures Valid(s) ==> Valid(r)
    ensures r == s.(annotations := r.annotations)
    ensures !s.isDrawing ==> r == s
  {
    if s.isDrawing then s.(annotations := Extend(s.annotations, s.options, p)) else s
  }

  /**
   * A pen stroke grows by one point per move: after a pen mouse-down and `n`
   * further moves, the last annotation is a pen stroke whose points are the
   * down point followed by the move points, in order.
   */
  function Moves(s: State, ps: seq<Point>): State
  {
    if ps == [] then s else AfterMove(Moves(s, ps[..|ps| - 1]), ps[|ps| - 1])
  }

  lemma {:induction false} PenStrokeRecordsPath(s: State, p: Point, stamp: nat, ps: seq<Point>)
    requires s.options.tool == PenTool
    ensures var r := Moves(AfterDown(s, p, stamp), ps);
      && |r.annotations| == |s.annotations| + 1
      && r.annotations[..|s.annotations|] == s.annotations
      && r.annotations[|s.annotations|].Pen?
      && r.annotations[|s.annotations|].points == [p] + ps
  {
    var d := AfterDown(s, p, stamp);
    if ps == [] {
      assert d.annotations == s.annotations + [Started(s.options, p, stamp, s.stepCounter).value];
    } else {
      PenStrokeRecordsPath(s, p, stamp, ps[..|ps| - 1]);
      var m := Moves(d, ps[..|ps| - 1]);
      assert m.isDrawing && m.options == s.options by {
        MovesKeepsGesture(d, ps[..|ps| - 1]);
      }
      var r := AfterMove(m, ps[|ps| - 1]);
      assert r.annotations[..|s.annotations|] == m.annotations[..|s.annotations|];
      assert [p] + ps[..|ps| - 1] + [ps[|ps| - 1]] == [p] + ps;
    }
  }

  /** Moves change nothing but the annotation list. */
  lemma {:induction false} MovesKeepsGesture(s: State, ps: seq<Point>)
    ensures Moves(s, ps) == s.(annotations := Moves(s, ps).annotations)
  {
    if ps != [] {
      MovesKeepsGesture(s, ps[..|ps| - 1]);
    }
  }

  // ---------------------------------------------------------------------
  // Mouse up
  // ---------------------------------------------------------------------

  /** The dragged box, normalised: its edges are the smaller and larger coordinates of the two corners. */
  function DragBox(a: Point, b: Point): (r: Rect)
    ensures r.x == Min(a.x, b.x) && r.x + r.width == Max(a.x, b.x)
    ensures r.y == Min(a.y, b.y) && r.y + r.height == Max(a.y, b.y)
    ensures r.width >= 0.0 && r.height >= 0.0
  {
    Rect(Min(a.x, b.x), Min(a.y, b.y), Abs(b.x - a.x), Abs(b.y - a.y))
  }

  /** The commit condition of each tool, with the thresholds the handler uses. */
  predicate Commits(o: Options, start: Point, end: Point)
  {
    var w := Abs(end.x - start.x);
    var h := Abs(end.y - start.y);
    match o.tool
    case ArrowTool => true
    case RectangleTool => w > 5.0 && h > 5.0
    case EllipseTool => w / 2.0 > 5.0 && h / 2.0 > 5.0
    case TextTool => w > 30.0 && h > 20.0
    case BlurTool => o.blurMode == Focus && w > 10.0 && h > 10.0
    case _ => false
  }

  /**
   * What mouse-up commits for a gesture from `start` to `end`: an arrow
   * always, a rectangle, ellipse, empty text box or focus rectangle only when
   * the drag is large enough; nothing for the stroke tools, whose annotation
   * already exists.
   */
  function Commit(o: Options, start: Point, end: Point, stamp: nat): (r: Option<Annotation>)
    ensures r.Some? <==> Commits(o, start, end)
    ensures r.Some? ==> WellFormed(r.value) && r.value.id.stamp == stamp
    ensures r.Some? && r.value.Arrow? ==>
              r.value.startX == start.x && r.value.startY == start.y && r.value.endX == end.x && r.value.endY == end.y
    ensures r.Some? && (r.value.Rectangle? || r.value.FocusRect?) ==>
              Rect(r.value.x, r.value.y, r.value.width, r.value.height) == DragBox(start, end)
    ensures r.Some? && r.value.Text? ==>
              var b := DragBox(start, end);
              && r.value.content == ""
              && r.value.x == b.x + 5.0
              && r.value.y == b.y + TextSizeValue(o.textSize) + 5.0
              && r.value.font == FontSpec(o.textSize)
  {
    var b := DragBox(start, end);
    match o.tool
    case ArrowTool =>
      Some(Arrow(Id("arrow", stamp), start.x, start.y, end.x, end.y, o.penColor, PenSizeValue(o.penSize), o.penSize))
    case RectangleTool =>
      if b.width > 5.0 && b.height > 5.0 then
        Some(Rectangle(Id("rectangle", stamp), b.x, b.y, b.width, b.height, o.penColor, PenSizeValue(o.penSize), o.penSize))
      else None
    case EllipseTool =>
      var rx := Abs(end.x - start.x) / 2.0;
      var ry := Abs(end.y - start.y) / 2.0;
      if rx > 5.0 && ry > 5.0 then
        Some(Ellipse(Id("ellipse", stamp), (start.x + end.x) / 2.0, (start.y + end.y) / 2.0, rx, ry,
                     o.penColor, PenSizeValue(o.penSize), o.penSize))
      else None
    case TextTool =>
      if b.width > 30.0 && b.height > 20.0 then
        var fontSize := TextSizeValue(o.textSize);
        Some(Text(Id("text", stamp), b.x + 5.0, b.y + fontSize + 5.0, "", o.textColor, FontSpec(o.textSize), o.textSize))
      else None
    case BlurTool =>
      if o.blurMode == Focus && b.width > 10.0 && b.height > 10.0 then
        Some(FocusRect(Id("focusRect", stamp), b.x, b.y, b.width, b.height))
      else None
    case _ => None
  }

  /** A committed ellipse is inscribed in the dragged box. */
  lemma EllipseInscribed(o: Options, start: Point, end: Point, stamp: nat)
    requires o.tool == EllipseTool && Commits(o, start, end)
    ensures var e := Commit(o, start, end, stamp).value;
      var b := DragBox(start, end);
      && e.Ellipse?
      && e.cx - e.rx == b.x && e.cx + e.rx == b.x + b.width
      && e.cy - e.ry == b.y && e.cy + e.ry == b.y + b.height
  {
  }

  /** The box does not depend on the direction of the drag. */
  lemma DragBoxSymmetric(a: Point, b: Point)
    ensures DragBox(a, b) == DragBox(b, a)
  {
    assert Abs(b.x - a.x) == Abs(a.x - b.x);
    assert Abs(b.y - a.y) == Abs(a.y - b.y);
  }

  /**
   * handleMouseUp (also the canvas's mouse-leave handler): outside a gesture
   * nothing happens; otherwise the commit is appended, a committed text box
   * becomes the edited, selected annotation, and the gesture ends.
   */
  function AfterUp(s: State, p: Point, stamp: nat): (r: State)
    ensures Valid(s) ==> Valid(r)
    ensures !s.isDrawing ==> r == s
    ensures s.isDrawing ==>
              && !r.isDrawing && r.startPos.None?
              && r.history == s.history && r.stepCounter == s.stepCounter && r.options == s.options
  {
    if !s.isDrawing then s
    else
      var committed := if s.startPos.Some? then Commit(s.options, s.startPos.value, p, stamp) else None;
      var editText := committed.Some? && committed.value.Text?;
      s.(annotations := s.annotations + OptionToSeq(committed),
         selectedId := if editText then Some(committed.value.id) else s.selectedId,
         isEditing := if editText then true else s.isEditing,
         startPos := None,
         isDrawing := false)
  }

  /**
   * A drag with a shape tool adds exactly the commit to the list, and adds
   * nothing when the drag is below the tool's threshold.
   */
  lemma DragCommits(s: State, start: Point, end: Point, stamp: nat)
    requires s.options.tool in {ArrowTool, RectangleTool, EllipseTool, TextTool} || (s.options.tool == BlurTool && s.options.blurMode == Focus)
    ensures var r := AfterUp(AfterDown(s, start, stamp), end, stamp);
      && (Commits(s.options, start, end) ==>
            r.annotations == s.annotations + [Commit(s.options, start, end, stamp).value])
      && (!Commits(s.options, start, end) ==> r.annotations == s.annotations)
      && !r.isDrawing && r.stepCounter == s.stepCounter && r.history == s.history
  {
    var d := AfterDown(s, start, stamp);
    assert d.annotations == s.annotations;
  }

  /** Committing a text box starts editing it. */
  lemma TextBoxStartsEditing(s: State, start: Point, end: Point, stamp: nat)
    requires s.options.tool == TextTool && Commits(s.options, start, end)
    ensures var r := AfterUp(AfterDown(s, start, stamp), end, stamp);
      && r.isEditing && r.selectedId == Some(Id("text", stamp))
      && r.annotations[|r.annotations| - 1].Text? && r.annotations[|r.annotations| - 1].id == Id("text", stamp)
  {
  }

  // ---------------------------------------------------------------------
  // Undo, clear, new capture
  // ---------------------------------------------------------------------

  /** Clear: the list is pushed onto the history, emptied, and step numbering restarts at 1. */
  function AfterClear(s: State): (r: State)
    ensures Valid(s) ==> Valid(r)
    ensures r.annotations == [] && r.stepCounter == 1
    ensures |r.history| == |s.history| + 1 && r.history[|s.history|] == s.annotations
  {
    s.(history := s.history + [s.annotations], annotations := [], stepCounter := 1)
  }

  /** Undo: with history, the last snapshot becomes the list and is popped; without, nothing. */
  function AfterUndo(s: State): (r: State)
    ensures Valid(s) ==> Valid(r)
    ensures s.history == [] ==> r == s
    ensures s.history != [] ==> r.history + [r.annotations] == s.history
    ensures r.stepCounter == s.stepCounter
  {
    if |s.history| > 0 then
      s.(annotations := s.history[|s.history| - 1], history := s.history[..|s.history| - 1])
    else s
  }

  /** A new capture empties the list and the history and restarts step numbering. */
  function AfterNewCapture(s: State): (r: State)
    ensures Valid(s) ==> Valid(r)
    ensures r.annotations == [] && r.history == [] && r.stepCounter == 1
  {
    s.(annotations := [], history := [], stepCounter := 1)
  }

  /** Undo `n` times. */
  function Undos(s: State, n: nat): State
    decreases n
  {
    if n == 0 then s else Undos(AfterUndo(s), n - 1)
  }

  /** Clear `n` times. */
  function Clears(s: State, n: nat): State
  {
    if n == 0 then s else AfterClear(Clears(s, n - 1))
  }

  /** Undo leaves the step counter alone. */
  lemma {:induction false} UndosIgnoreCounter(s: State, c: int, n: nat)
    ensures Undos(s.(stepCounter := c), n) == Undos(s, n).(stepCounter := c)
    decreases n
  {
    if n > 0 {
      assert AfterUndo(s.(stepCounter := c)) == AfterUndo(s).(stepCounter := c);
      UndosIgnoreCounter(AfterUndo(s), c, n - 1);
    }
  }

  /**
   * `n` clears followed by `n` undos give back the list and the history;
   * only the step counter stays reset.
   */
  lemma {:induction false} ClearsThenUndos(s: State, n: nat)
    ensures Undos(Clears(s, n), n) == if n == 0 then s else s.(stepCounter := 1)
  {
    if n > 0 {
      var t := Clears(s, n - 1);
      calc {
        Undos(Clears(s, n), n);
        Undos(AfterUndo(AfterClear(t)), n - 1);
        { UndoAfterClear(t); }
        Undos(t.(stepCounter := 1), n - 1);
        { UndosIgnoreCounter(t, 1, n - 1); }
        Undos(t, n - 1).(stepCounter := 1);
        { ClearsThenUndos(s, n - 1);
          assert Undos(t, n - 1) == s || Undos(t, n - 1) == s.(stepCounter := 1); }
        s.(stepCounter := 1);
      }
    }
  }

  /** An undo right after a clear restores the list and the history, but not the step counter. */
  lemma UndoAfterClear(t: State)
    ensures AfterUndo(AfterClear(t)) == t.(stepCounter := 1)
  {
    assert (t.history + [t.annotations])[..|t.history|] == t.history;
  }

  /**
   * `n` undos pop exactly `n` snapshots, and the list becomes the `n`-th
   * snapshot from the top; undos beyond the history are no-ops.
   */
  lemma {:induction false} UndosPop(s: State, n: nat)
    requires n <= |s.history|
    ensures Undos(s, n).history == s.history[..|s.history| - n]
    ensures n > 0 ==> Undos(s, n).annotations == s.history[|s.history| - n]
    ensures Undos(s, n).stepCounter == s.stepCounter
    decreases n
  {
    if n > 0 {
      var u := AfterUndo(s);
      UndosPop(u, n - 1);
      assert u.history == s.history[..|s.history| - 1];
      assert u.history[..|u.history| - (n - 1)] == s.history[..|s.history| - n];
      if n > 1 {
        assert u.history[|u.history| - (n - 1)] == s.history[|s.history| - n];
      }
    }
  }

  // ---------------------------------------------------------------------
  // Typing into a text annotation
  // ---------------------------------------------------------------------

  /** The two edits a key can make to the text: delete the last character, or type one. */
  datatype Edit = DeleteLast | Type(c: char)

  /** `slice(0, -1)`: the content without its last character ("" stays ""). */
  function ApplyEdit(e: Edit, content: string): (r: string)
    ensures e.DeleteLast? ==> (content == [] ==> r == []) && (content != [] ==> r + [content[|content| - 1]] == content)
    ensures e.Type? ==> r == content + [e.c]
  {
    match e
    case DeleteLast => if |content| == 0 then content else content[..|content| - 1]
    case Type(c) => content + [c]
  }

  predicate IsEdited(a: Annotation, id: Id)
  {
    a.Text? && a.id == id
  }

  /** Applies the edit to every text annotation with the id and leaves every other annotation as it was. */
  function EditTexts(anns: seq<Annotation>, id: Id, e: Edit): (r: seq<Annotation>)
    ensures |r| == |anns|
    ensures forall i :: 0 <= i < |anns| && IsEdited(anns[i], id) ==>
              r[i] == anns[i].(content := ApplyEdit(e, anns[i].content))
    ensures forall i :: 0 <= i < |anns| && !IsEdited(anns[i], id) ==> r[i] == anns[i]
  {
    if anns == [] then []
    else
      var a := anns[0];
      var head := if IsEdited(a, id) then a.(content := ApplyEdit(e, a.content)) else a;
      [head] + EditTexts(anns[1..], id, e)
  }

  /** Editing is active: editing is on and the selected id names a text annotation in the list. */
  predicate TextEditing(s: State)
  {
    s.isEditing && s.selectedId.Some?
    && exists i :: 0 <= i < |s.annotations| && IsEdited(s.annotations[i], s.selectedId.value)
  }

  /**
   * The keydown handler: while editing, Backspace deletes the last character,
   * Enter or Escape end editing and drop the selection, and a single-character
   * key without Ctrl or Meta is typed; any other key, and every key while not
   * editing, changes nothing.
   */
  function AfterKey(s: State, key: string, ctrl: bool, meta: bool): (r: State)
    ensures Valid(s) ==> Valid(r)
    ensures !TextEditing(s) ==> r == s
    ensures r.history == s.history && r.stepCounter == s.stepCounter && r.isDrawing == s.isDrawing
    ensures TextEditing(s) && key == "Backspace" ==>
              r == s.(annotations := EditTexts(s.annotations, s.selectedId.value, DeleteLast))
    ensures TextEditing(s) && |key| == 1 && !ctrl && !meta ==>
              r == s.(annotations := EditTexts(s.annotations, s.selectedId.value, Type(key[0])))
    ensures (TextEditing(s) && key != "Backspace" && key != "Enter" && key != "Escape"
             && (|key| != 1 || ctrl || meta)) ==> r == s
  {
    if !TextEditing(s) then s
    else if key == "Backspace" then
      s.(annotations := EditTexts(s.annotations, s.selectedId.value, DeleteLast))
    else if key == "Enter" || key == "Escape" then
      s.(isEditing := false, selectedId := None)
    else if |key| == 1 && !ctrl && !meta then
      s.(annotations := EditTexts(s.annotations, s.selectedId.value, Type(key[0])))
    else s
  }

  /** EditTexts keeps the list well formed. */
  lemma EditTextsWellFormed(anns: seq<Annotation>, id: Id, e: Edit)
    requires AllWellFormed(anns)
    ensures AllWellFormed(EditTexts(anns, id, e))
  {
    var r := EditTexts(anns, id, e);
    forall i | 0 <= i < |r|
      ensures WellFormed(r[i])
    {
      assert WellFormed(anns[i]);
    }
  }

  /** Enter and Escape end editing and clear the selection, keeping the list. */
  lemma EnterEndsEditing(s: State, key: string, ctrl: bool, meta: bool)
    requires TextEditing(s) && (key == "Enter" || key == "Escape")
    ensures var r := AfterKey(s, key, ctrl, meta);
      !r.isEditing && r.selectedId.None? && r.annotations == s.annotations && !TextEditing(r)
  {
  }

  /** Typing a character into the texts with an id and deleting it again gives back the list. */
  lemma TypeThenDelete(anns: seq<Annotation>, id: Id, c: char)
    ensures EditTexts(EditTexts(anns, id, Type(c)), id, DeleteLast) == anns
  {
    var typed := EditTexts(anns, id, Type(c));
    var back := EditTexts(typed, id, DeleteLast);
    forall j | 0 <= j < |anns|
      ensures back[j] == anns[j]
    {
      if IsEdited(anns[j], id) {
        var t := anns[j].content;
        assert typed[j].content == t + [c];
        assert (t + [c])[..|t + [c]| - 1] == t;
      }
    }
  }

  /**
   * Typing a character and then pressing Backspace gives back the state
   * typing started from.
   */
  lemma TypeThenBackspace(s: State, c: char, ctrl: bool, meta: bool)
    requires TextEditing(s) && !ctrl && !meta
    ensures AfterKey(AfterKey(s, [c], ctrl, meta), "Backspace", ctrl, meta) == s
  {
    var id := s.selectedId.value;
    assert |[c]| == 1 && |"Backspace"| != 1 && |"Enter"| != 1 && |"Escape"| != 1;
    var typed := AfterKey(s, [c], ctrl, meta);
    assert typed == s.(annotations := EditTexts(s.annotations, id, Type(c)));
    var i :| 0 <= i < |s.annotations| && IsEdited(s.annotations[i], id);
    assert IsEdited(typed.annotations[i], id);
    assert TextEditing(typed);
    var back := AfterKey(typed, "Backspace", ctrl, meta);
    assert back == typed.(annotations := EditTexts(typed.annotations, id, DeleteLast));
    TypeThenDelete(s.annotations, id, c);
  }

  // ---------------------------------------------------------------------
  // The editor component's state
  // ---------------------------------------------------------------------

  class Editor {
    var annotations: seq<Annotation>
    var history: seq<seq<Annotation>>
    var stepCounter: int
    var isDrawing: bool
    var startPos: Option<Point>
    var selectedId: Option<Id>
    var isEditing: bool
    var options: Options

    function Snapshot(): State
      reads this
    {
      State(annotations, history, stepCounter, isDrawing, startPos, selectedId, isEditing, options)
    }

    constructor ()
      ensures Snapshot() == Initial() && Valid(Snapshot())
    {
      annotations := [];
      history := [];
      stepCounter := 1;
      isDrawing := false;
      startPos := None;
      selectedId := None;
      isEditing := false;
      options := DefaultOptions();
    }

    /** A toolbar change: only the options change. */
    method Choose(o: Options)
      requires Valid(Snapshot())
      modifies this
      ensures Snapshot() == old(Snapshot()).(options := o) && Valid(Snapshot())
    {
      options := o;
    }

    method MouseDown(v: CanvasView, clientX: real, clientY: real, stamp: nat)
      requires ShownView(v) && Valid(Snapshot())
      modifies this
      ensures Snapshot() == AfterDown(old(Snapshot()), ToCanvas(v, clientX, clientY), stamp)
      ensures Valid(Snapshot())
    {
      ghost var s0 := Snapshot();
      var p := ToCanvas(v, clientX, clientY);
      startPos := Some(p);
      var started := Started(options, p, stamp, stepCounter);
      if StartsGesture(options) {
        isDrawing := true;
      }
      if started.Some? {
        annotations := annotations + [started.value];
      }
      if options.tool == StepTool {
        stepCounter := stepCounter + 1;
      }
      assert Snapshot() == AfterDown(s0, p, stamp);
    }

    method MouseMove(v: CanvasView, clientX: real, clientY: real)
      requires ShownView(v) && Valid(Snapshot())
      modifies this
      ensures Snapshot() == AfterMove(old(Snapshot()), ToCanvas(v, clientX, clientY))
      ensures Valid(Snapshot())
    {
      if !isDrawing {
        return;
      }
      var p := ToCanvas(v, clientX, clientY);
      if |annotations| > 0 && Extends(options, annotations[|annotations| - 1]) {
        var last := annotations[|annotations| - 1];
        annotations := annotations[..|annotations| - 1] + [last.(points := last.points + [p])];
      }
    }

    /** Also bound to mouse-leave. */
    method MouseUp(v: CanvasView, clientX: real, clientY: real, stamp: nat)
      requires ShownView(v) && Valid(Snapshot())
      modifies this
      ensures Snapshot() == AfterUp(old(Snapshot()), ToCanvas(v, clientX, clientY), stamp)
      ensures Valid(Snapshot())
    {
      if !isDrawing {
        return;
      }
      var p := ToCanvas(v, clientX, clientY);
      if startPos.Some? {
        var committed := Commit(options, startPos.value, p, stamp);
        if committed.Some? {
          annotations := annotations + [committed.value];
          if committed.value.Text? {
            selectedId := Some(committed.value.id);
            isEditing := true;
          }
        }
      }
      startPos := None;
      isDrawing := false;
    }

    method Undo()
      requires Valid(Snapshot())
      modifies this
      ensures Snapshot() == AfterUndo(old(Snapshot())) && Valid(Snapshot())
    {
      if |history| > 0 {
        annotations := history[|history| - 1];
        history := history[..|history| - 1];
      }
    }

    method Clear()
      requires Valid(Snapshot())
      modifies this
      ensures Snapshot() == AfterClear(old(Snapshot())) && Valid(Snapshot())
    {
      history := history + [annotations];
      annotations := [];
      stepCounter := 1;
    }

    method NewCapture()
      requires Valid(Snapshot())
      modifies this
      ensures Snapshot() == AfterNewCapture(old(Snapshot())) && Valid(Snapshot())
    {
      annotations := [];
      history := [];
      stepCounter := 1;
    }

    method KeyDown(key: string, ctrl: bool, meta: bool)
      requires Valid(Snapshot())
      modifies this
      ensures Snapshot() == AfterKey(old(Snapshot()), key, ctrl, meta) && Valid(Snapshot())
    {
      if !(isEditing && selectedId.Some?
           && exists i :: 0 <= i < |annotations| && IsEdited(annotations[i], selectedId.value)) {
        return;
      }
      if key == "Backspace" {
        annotations := EditTexts(annotations, selectedId.value, DeleteLast);
      } else if key == "Enter" || key == "Escape" {
        isEditing := false;
        selectedId := None;
      } else if |key| == 1 && !ctrl && !meta {
        annotations := EditTexts(annotations, selectedId.value, Type(key[0]));
      }
    }
  }
}
