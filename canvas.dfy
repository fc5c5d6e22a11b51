/**
 * The drawing canvas (src/components/whiteboard/Canvas.tsx): the pointer
 * gesture that builds `currentPath` while the button is down, the shape
 * record emitted on release, and the live preview drawn meanwhile. The tool,
 * colour, width and fill flag are read from the drawing settings slice.
 */
module Canvas {
  import opened Wrappers
  import opened DrawingSlice

  /** A JavaScript number: a value or NaN. Reading past the end of
      `currentPath` yields `undefined`, which every operation used here
      (`Math.min`, subtraction, `Math.abs`, `Math.pow`) turns into NaN, so
      both are represented by `NaN`. */
  datatype JsNumber = Num(value: real) | NaN

  /** `Math.min(a, b)` */
  function JsMin(a: JsNumber, b: JsNumber): JsNumber {
    if a.Num? && b.Num? then Num(if a.value <= b.value then a.value else b.value) else NaN
  }

  function JsSub(a: JsNumber, b: JsNumber): JsNumber {
    if a.Num? && b.Num? then Num(a.value - b.value) else NaN
  }

  function JsAdd(a: JsNumber, b: JsNumber): JsNumber {
    if a.Num? && b.Num? then Num(a.value + b.value) else NaN
  }

  /** `Math.abs(a)` */
  function JsAbs(a: JsNumber): JsNumber {
    if a.Num? then Num(if a.value < 0.0 then -a.value else a.value) else NaN
  }

  function Square(r: real): real {
    r * r
  }

  /** `Math.pow(a, 2)` */
  function JsSquare(a: JsNumber): JsNumber {
    if a.Num? then Num(Square(a.value)) else NaN
  }

  /** `path[i]`, `undefined` (here NaN) past the end. */
  function At(path: seq<JsNumber>, i: nat): JsNumber {
    if i < |path| then path[i] else NaN
  }

  /** A pointer position on the stage. */
  datatype Point = Point(x: real, y: real)

  /** Pen and eraser collect every point; the other tools keep two corners. */
  predicate IsFreehand(t: DrawingTool) {
    t == Pen || t == Eraser
  }

  /** The shape part of a `DrawingElement`: `points` for pen, eraser and
      line; `x`, `y`, `width`, `height` for a rectangle; `x`, `y` and the
      radius for a circle, which is kept here as its square. */
  datatype Figure = Figure(
    kind: DrawingTool,
    points: Option<seq<JsNumber>>,
    x: Option<JsNumber>,
    y: Option<JsNumber>,
    width: Option<JsNumber>,
    height: Option<JsNumber>,
    radiusSquared: Option<JsNumber>,
    color: string,
    strokeWidth: real,
    fill: Option<string>)

  datatype DrawingElement = DrawingElement(id: string, figure: Figure)

  const EraserColor := "#FFFFFF"

  // ---------------------------------------------------------------------
  // Path updates
  // ---------------------------------------------------------------------

  /** The path set on mouse-down at `p`: the point once for pen and eraser,
      twice (both corners) for the other tools. */
  function PressPath(t: DrawingTool, p: Point): (path: seq<JsNumber>)
    ensures IsFreehand(t) ==> path == [Num(p.x), Num(p.y)]
    ensures !IsFreehand(t) ==> path == [Num(p.x), Num(p.y), Num(p.x), Num(p.y)]
  {
    match t
    case Pen => [Num(p.x), Num(p.y)]
    case Eraser => [Num(p.x), Num(p.y)]
    case Rectangle => [Num(p.x), Num(p.y), Num(p.x), Num(p.y)]
    case Circle => [Num(p.x), Num(p.y), Num(p.x), Num(p.y)]
    case Line => [Num(p.x), Num(p.y), Num(p.x), Num(p.y)]
  }

  /** The path after a move to `p`: pen and eraser append the point and keep
      the old path as a prefix; the other tools keep the first point and
      replace the second, so the path has exactly four entries. */
  function DragPath(t: DrawingTool, path: seq<JsNumber>, p: Point): (r: seq<JsNumber>)
    ensures IsFreehand(t) ==> |r| == |path| + 2 && r[..|path|] == path && r[|path|..] == [Num(p.x), Num(p.y)]
    ensures !IsFreehand(t) ==> |r| == 4 && r[2..] == [Num(p.x), Num(p.y)]
    ensures !IsFreehand(t) && |path| >= 2 ==> r[..2] == path[..2]
    ensures !IsFreehand(t) && |path| == 1 ==> r[0] == path[0] && r[1] == NaN
    ensures !IsFreehand(t) && |path| == 0 ==> r[0] == NaN && r[1] == NaN
  {
    if IsFreehand(t) then path + [Num(p.x), Num(p.y)]
    else [At(path, 0), At(path, 1), Num(p.x), Num(p.y)]
  }

  /** The path after a run of moves. */
  function DragAll(t: DrawingTool, path: seq<JsNumber>, moves: seq<Point>): seq<JsNumber>
    decreases |moves|
  {
    if moves == [] then path else DragAll(t, DragPath(t, path, moves[0]), moves[1..])
  }

  /** `[x0, y0, x1, y1, ...]` for a run of points. */
  function Coordinates(points: seq<Point>): (r: seq<JsNumber>)
    ensures |r| == 2 * |points|
  {
    if points == [] then [] else [Num(points[0].x), Num(points[0].y)] + Coordinates(points[1..])
  }

  /** A freehand stroke records every point of the gesture in order. */
  lemma {:induction false} FreehandKeepsEveryPoint(t: DrawingTool, path: seq<JsNumber>, moves: seq<Point>)
    requires IsFreehand(t)
    ensures DragAll(t, path, moves) == path + Coordinates(moves)
    decreases |moves|
  {
    if moves != [] {
      FreehandKeepsEveryPoint(t, DragPath(t, path, moves[0]), moves[1..]);
      assert Coordinates(moves) == [Num(moves[0].x), Num(moves[0].y)] + Coordinates(moves[1..]);
    }
  }

  /** A two-point gesture keeps the press point and the latest point only. */
  lemma {:induction false} TwoPointKeepsPressAndLast(t: DrawingTool, press: Point, path: seq<JsNumber>, moves: seq<Point>)
    requires !IsFreehand(t) && moves != []
    requires |path| >= 2 && path[..2] == [Num(press.x), Num(press.y)]
    ensures DragAll(t, path, moves) == [Num(press.x), Num(press.y), Num(moves[|moves| - 1].x), Num(moves[|moves| - 1].y)]
    decreases |moves|
  {
    var next := DragPath(t, path, moves[0]);
    if |moves| > 1 {
      TwoPointKeepsPressAndLast(t, press, next, moves[1..]);
    }
  }

  /** What a whole gesture (press, then moves) leaves in `currentPath`. */
  lemma GesturePath(t: DrawingTool, press: Point, moves: seq<Point>)
    ensures IsFreehand(t) ==> DragAll(t, PressPath(t, press), moves) == Coordinates([press] + moves)
    ensures !IsFreehand(t) && moves != [] ==>
      DragAll(t, PressPath(t, press), moves) == [Num(press.x), Num(press.y), Num(moves[|moves| - 1].x), Num(moves[|moves| - 1].y)]
  {
    if IsFreehand(t) {
      FreehandKeepsEveryPoint(t, PressPath(t, press), moves);
      assert ([press] + moves)[1..] == moves;
    } else if moves != [] {
      TwoPointKeepsPressAndLast(t, press, PressPath(t, press), moves);
    }
  }

  // ---------------------------------------------------------------------
  // The emitted shape
  // ---------------------------------------------------------------------

  function FillFor(s: DrawingState): Option<string> {
    if s.fill then Some(s.selectedColor) else None
  }

  /** The shape built on mouse-up (and drawn as the preview) from the
      settings and the path. Only its first four entries matter to a
      rectangle or a circle. */
  function FigureFor(s: DrawingState, path: seq<JsNumber>): (f: Figure)
    ensures f.kind == s.selectedTool && f.strokeWidth == s.strokeWidth
    ensures f.color == if s.selectedTool == Eraser then EraserColor else s.selectedColor
    ensures f.fill == if (s.selectedTool == Rectangle || s.selectedTool == Circle) && s.fill then Some(s.selectedColor) else None
    ensures f.points == if s.selectedTool == Rectangle || s.selectedTool == Circle then None else Some(path)
    ensures (f.width.Some? <==> s.selectedTool == Rectangle) && (f.radiusSquared.Some? <==> s.selectedTool == Circle)
  {
    var x1, y1, x2, y2 := At(path, 0), At(path, 1), At(path, 2), At(path, 3);
    match s.selectedTool
    case Pen =>
      Figure(Pen, Some(path), None, None, None, None, None, s.selectedColor, s.strokeWidth, None)
    case Eraser =>
      Figure(Eraser, Some(path), None, None, None, None, None, EraserColor, s.strokeWidth, None)
    case Rectangle =>
      Figure(Rectangle, None, Some(JsMin(x1, x2)), Some(JsMin(y1, y2)),
             Some(JsAbs(JsSub(x2, x1))), Some(JsAbs(JsSub(y2, y1))), None,
             s.selectedColor, s.strokeWidth, FillFor(s))
    case Circle =>
      Figure(Circle, None, Some(x1), Some(y1), None, None,
             Some(JsAdd(JsSquare(JsSub(x2, x1)), JsSquare(JsSub(y2, y1)))),
             s.selectedColor, s.strokeWidth, FillFor(s))
    case Line =>
      Figure(Line, Some(path), None, None, None, None, None, s.selectedColor, s.strokeWidth, None)
  }

  /** A rectangle is normalised: its corner is the smaller coordinate, its
      size the absolute difference, so it covers the two corners exactly
      whichever way it was dragged. */
  lemma RectangleNormalised(s: DrawingState, x1: real, y1: real, x2: real, y2: real)
    requires s.selectedTool == Rectangle
    ensures var f := FigureFor(s, [Num(x1), Num(y1), Num(x2), Num(y2)]);
      && f.x.Some? && f.x.value.Num? && f.width.Some? && f.width.value.Num?
      && f.y.Some? && f.y.value.Num? && f.height.Some? && f.height.value.Num?
      && f.width.value.value >= 0.0 && f.height.value.value >= 0.0
      && f.x.value.value <= x1 && f.x.value.value <= x2
      && f.x.value.value + f.width.value.value == (if x1 <= x2 then x2 else x1)
      && f.y.value.value <= y1 && f.y.value.value <= y2
      && f.y.value.value + f.height.value.value == (if y1 <= y2 then y2 else y1)
    ensures FigureFor(s, [Num(x2), Num(y2), Num(x1), Num(y1)]) == FigureFor(s, [Num(x1), Num(y1), Num(x2), Num(y2)])
    ensures FigureFor(s, [Num(x1), Num(y2), Num(x2), Num(y1)]) == FigureFor(s, [Num(x1), Num(y1), Num(x2), Num(y2)])
  {
  }

  /** A circle is centred on the press point; its squared radius is the
      squared distance to the release point. */
  lemma CircleCentredOnPress(s: DrawingState, x1: real, y1: real, x2: real, y2: real)
    requires s.selectedTool == Circle
    ensures var f := FigureFor(s, [Num(x1), Num(y1), Num(x2), Num(y2)]);
      && f.x == Some(Num(x1)) && f.y == Some(Num(y1))
      && f.radiusSquared == Some(Num(Square(x2 - x1) + Square(y2 - y1)))
      && f.radiusSquared.value.value >= 0.0
  {
    var path := [Num(x1), Num(y1), Num(x2), Num(y2)];
    assert At(path, 0) == Num(x1) && At(path, 1) == Num(y1);
    assert At(path, 2) == Num(x2) && At(path, 3) == Num(y2);
    SquareNonNegative(x2 - x1);
    SquareNonNegative(y2 - y1);
  }

  lemma SquareNonNegative(r: real)
    ensures Square(r) >= 0.0
  {
    if r < 0.0 {
      assert Square(r) == (-r) * (-r);
    }
  }

  /** A rectangle released before any corner was recorded (mouse-down with
      no pointer position) has NaN geometry. */
  lemma RectangleWithoutCorners(s: DrawingState, path: seq<JsNumber>)
    requires s.selectedTool == Rectangle && |path| < 2
    ensures FigureFor(s, path).y == Some(NaN) && FigureFor(s, path).height == Some(NaN)
  {
  }

  /** `renderCurrentDrawing`: nothing unless a gesture is under way with at
      least one point; otherwise the shape mouse-up would emit now. */
  function RenderCurrentDrawing(isDrawing: bool, path: seq<JsNumber>, s: DrawingState): (preview: Option<Figure>)
    ensures preview.Some? <==> isDrawing && |path| >= 2
    ensures preview.Some? ==> preview.value == FigureFor(s, path)
  {
    if !isDrawing || |path| < 2 then None else Some(FigureFor(s, path))
  }

  // ---------------------------------------------------------------------
  // The gesture state: isDrawing and currentPath
  // ---------------------------------------------------------------------

  class PointerGesture {
    var isDrawing: bool
    var currentPath: seq<JsNumber>

    constructor ()
      ensures !isDrawing && currentPath == []
    {
      isDrawing, currentPath := false, [];
    }

    /** Drawing starts even when the stage reports no pointer position; the
        path is then left as it was. */
    method HandleMouseDown(s: DrawingState, pos: Option<Point>)
      modifies this
      ensures isDrawing
      ensures currentPath == if pos.Some? then PressPath(s.selectedTool, pos.value) else old(currentPath)
    {
      isDrawing := true;
      if pos.None? {
        return;
      }
      currentPath := PressPath(s.selectedTool, pos.value);
    }

    /** Outside a gesture, or without a pointer position, a move changes
        nothing. */
    method HandleMouseMove(s: DrawingState, pos: Option<Point>)
      modifies this
      ensures isDrawing == old(isDrawing)
      ensures currentPath == if old(isDrawing) && pos.Some? then DragPath(s.selectedTool, old(currentPath), pos.value) else old(currentPath)
    {
      if !isDrawing {
        return;
      }
      if pos.None? {
        return;
      }
      currentPath := DragPath(s.selectedTool, currentPath, pos.value);
    }

    /** Ends a gesture: exactly one drawing is emitted, with the fresh `id`,
        and the path is cleared. Outside a gesture nothing happens. */
    method HandleMouseUp(s: DrawingState, id: string) returns (emitted: Option<DrawingElement>)
      modifies this
      ensures !old(isDrawing) ==> emitted == None && !isDrawing && currentPath == old(currentPath)
      ensures old(isDrawing) ==> !isDrawing && currentPath == []
      ensures old(isDrawing) ==> emitted == Some(DrawingElement(id, FigureFor(s, old(currentPath))))
    {
      if !isDrawing {
        return None;
      }
      isDrawing := false;
      emitted := Some(DrawingElement(id, FigureFor(s, currentPath)));
      currentPath := [];
    }
  }
}
