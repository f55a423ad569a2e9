/** The drawing page (src/pages/CreativeSpace.tsx): a canvas filled white on
    mount, a pen that strokes one segment per mouse or touch move while pressed, an
    eraser that strokes under destination-out, a palette, brush sizes, and a
    Clear button. */
module CreativeSpace {
  import opened Common
  import opened Canvas

  const Colors: seq<string> := [
    "#000000", "#FF0000", "#00FF00", "#0000FF", "#FFFF00",
    "#FF00FF", "#00FFFF", "#FFA500", "#800080", "#FFC0CB",
    "#A52A2A", "#808080", "#90EE90", "#FFE4B5", "#DDA0DD"
  ]

  const BrushSizes: seq<int> := [2, 5, 10, 15, 20]

  const InitialColor := "#000000"
  const InitialBrushSize := 5
  const White := Solid("#FFFFFF")

  /** What the canvas shows right after mounting: white all over, nothing drawn. */
  const WhitePicture := Picture(Painted(White), [])

  /** The React mouse and touch events the canvas listens to: a mouse event carries one
      viewport point, a touch event the list of current touches. */
  datatype ClientEvent = Mouse(client: Point) | Touch(touches: seq<Point>)

  predicate HasPoint(e: ClientEvent)
  {
    e.Mouse? || |e.touches| > 0
  }

  /** The viewport point the handlers read: the mouse position, or the first touch. */
  function ClientPoint(e: ClientEvent): Point
    requires HasPoint(e)
  {
    if e.Mouse? then e.client else e.touches[0]
  }

  /** The mount effect on a canvas with a context: the bitmap takes the
      element's rendered size (a non-negative CSS length, truncated to whole
      pixels) and is filled white under the default operator. */
  function Mounted(s: Surface, rect: Rect): (r: Surface)
    requires s.hasContext && rect.width >= 0.0 && rect.height >= 0.0
    ensures r.width == rect.width.Floor && r.height == rect.height.Floor
    ensures r.hasContext && r.composite == SourceOver
    ensures Render(r.ops) == WhitePicture
  {
    FilledWith(Resized(s, rect.width.Floor as nat, rect.height.Floor as nat), White)
  }

  /** The segment `draw` strokes from `from` to `to`: round caps and joins,
      `brushSize` wide; the eraser strokes under destination-out and leaves the
      stroke colour alone, the pen strokes under source-over in `color`. */
  function Segment(from: Point, to: Point, brushSize: int, erasing: bool, color: string): (op: Op)
    ensures op.StrokeLine? && op.from == from && op.to == to && op.width == brushSize
    ensures op.cap == RoundCap && op.join == RoundJoin
    ensures erasing ==> op.mode == DestinationOut && op.strokeStyle == None
    ensures !erasing ==> op.mode == SourceOver && op.strokeStyle == Some(color)
  {
    if erasing then StrokeLine(from, to, brushSize, RoundCap, RoundJoin, DestinationOut, None)
    else StrokeLine(from, to, brushSize, RoundCap, RoundJoin, SourceOver, Some(color))
  }

  /** `clearCanvas` as written: `fillRect` with white under whatever operator
      the context holds. After an eraser stroke that is destination-out, and the
      fill then erases every pixel instead of painting it white. */
  function ClearAsWritten(s: Surface): (r: Surface)
    ensures r.width == s.width && r.height == s.height && r.hasContext == s.hasContext
    ensures Render(r.ops) == if s.composite == SourceOver then WhitePicture else Blank
  {
    FilledWith(s, White)
  }

  /** `clearCanvas` as intended: the operator is set back to source-over before
      the white fill, so the canvas shows exactly what it showed after mounting,
      at the same size, whatever was drawn or erased before. */
  function Cleared(s: Surface): (r: Surface)
    ensures r.width == s.width && r.height == s.height && r.hasContext == s.hasContext
    ensures r.composite == SourceOver
    ensures Render(r.ops) == WhitePicture
  {
    FilledWith(s.(composite := SourceOver), White)
  }

  /** The two definitions differ exactly when the last stroke was an eraser stroke. */
  lemma ClearAsWrittenMissesWhiteAfterErasing(s: Surface)
    ensures Render(ClearAsWritten(s).ops) == Render(Cleared(s).ops) <==> s.composite == SourceOver
  {
    if s.composite == DestinationOut {
      assert Render(ClearAsWritten(s).ops).backdrop == Transparent;
    }
  }

  class DrawingBoard {
    /** The canvas element behind `canvasRef`, if it is mounted. */
    var canvas: Option<Surface>
    var isDrawing: bool
    var currentColor: string
    var brushSize: int
    var isErasing: bool
    var lastPos: Point

    /** The pen colour is a palette colour and the brush one of the five sizes. */
    ghost predicate Valid()
      reads this
    {
      currentColor in Colors && brushSize in BrushSizes
    }

    /** First render plus the mount effect: with no element or no 2D context the
        canvas is left as it is; otherwise it is sized to `rect` and white. */
    constructor (element: Option<Surface>, rect: Rect)
      requires rect.width >= 0.0 && rect.height >= 0.0
      ensures Valid()
      ensures canvas == if element.Some? && element.value.hasContext then Some(Mounted(element.value, rect)) else element
      ensures !isDrawing && !isErasing && currentColor == InitialColor && brushSize == InitialBrushSize
      ensures lastPos == Point(0.0, 0.0)
    {
      isDrawing := false;
      currentColor := InitialColor;
      brushSize := InitialBrushSize;
      isErasing := false;
      lastPos := Point(0.0, 0.0);
      if element.Some? && element.value.hasContext {
        canvas := Some(Mounted(element.value, rect));
      } else {
        canvas := element;
      }
    }

    /** `startDrawing` with `rect` the canvas's bounding rectangle: the pen is
        down even without a canvas; the last point moves to the event's local
        point only when there is a canvas to measure. */
    method StartDrawing(e: ClientEvent, rect: Rect)
      requires Valid() && (canvas.Some? ==> HasPoint(e))
      modifies this
      ensures Valid() && isDrawing
      ensures canvas == old(canvas) && currentColor == old(currentColor)
      ensures lastPos == if canvas.Some? then ToLocal(ClientPoint(e), rect) else old(lastPos)
      ensures brushSize == old(brushSize) && isErasing == old(isErasing)
    {
      isDrawing := true;
      if canvas.None? {
        return;
      }
      lastPos := ToLocal(ClientPoint(e), rect);
    }

    /** `draw`: with the pen up, or without a canvas and context, nothing
        changes; otherwise exactly one segment from the last point to the event's
        local point is stroked over what the canvas shows, and that local point
        becomes the last point. */
    method Draw(e: ClientEvent, rect: Rect)
      requires Valid() && (isDrawing && canvas.Some? && canvas.value.hasContext ==> HasPoint(e))
      modifies this
      ensures Valid()
      ensures isDrawing == old(isDrawing) && currentColor == old(currentColor)
      ensures brushSize == old(brushSize) && isErasing == old(isErasing)
      ensures !(old(isDrawing) && old(canvas).Some? && old(canvas).value.hasContext) ==>
        canvas == old(canvas) && lastPos == old(lastPos)
      ensures old(isDrawing) && old(canvas).Some? && old(canvas).value.hasContext ==>
        var p := ToLocal(ClientPoint(e), rect);
        var before := Render(old(canvas).value.ops);
        && lastPos == p
        && canvas.Some? && canvas.value.width == old(canvas).value.width
        && canvas.value.height == old(canvas).value.height && canvas.value.hasContext
        && canvas.value.composite == (if isErasing then DestinationOut else SourceOver)
        && Render(canvas.value.ops) ==
             Picture(before.backdrop, before.marks + [Segment(old(lastPos), p, brushSize, isErasing, currentColor)])
    {
      if !isDrawing {
        return;
      }
      if canvas.None? || !canvas.value.hasContext {
        return;
      }
      var p := ToLocal(ClientPoint(e), rect);
      var mode := if isErasing then DestinationOut else SourceOver;
      var color := if isErasing then None else Some(currentColor);
      canvas := Some(Stroked(canvas.value, lastPos, p, brushSize, RoundCap, RoundJoin, mode, color));
      lastPos := p;
    }

    /** `stopDrawing`: the pen is up, nothing else changes (so a second call
        changes nothing at all). */
    method StopDrawing()
      requires Valid()
      modifies this
      ensures Valid() && !isDrawing
      ensures canvas == old(canvas) && lastPos == old(lastPos) && currentColor == old(currentColor)
      ensures brushSize == old(brushSize) && isErasing == old(isErasing)
    {
      isDrawing := false;
    }

    /** The Clear button as written (see `ClearAsWritten`). */
    method ClearCanvasAsWritten()
      requires Valid()
      modifies this
      ensures Valid()
      ensures canvas == if old(canvas).Some? && old(canvas).value.hasContext then Some(ClearAsWritten(old(canvas).value)) else old(canvas)
      ensures isDrawing == old(isDrawing) && lastPos == old(lastPos) && currentColor == old(currentColor)
      ensures brushSize == old(brushSize) && isErasing == old(isErasing)
    {
      if canvas.None? || !canvas.value.hasContext {
        return;
      }
      canvas := Some(ClearAsWritten(canvas.value));
    }

    /** The Clear button: without a canvas and context nothing changes;
        otherwise the canvas, at its unchanged size, shows the white page it
        showed after mounting. No pen or tool state changes. */
    method ClearCanvas()
      requires Valid()
      modifies this
      ensures Valid()
      ensures !(old(canvas).Some? && old(canvas).value.hasContext) ==> canvas == old(canvas)
      ensures old(canvas).Some? && old(canvas).value.hasContext ==>
        && canvas.Some? && canvas.value.hasContext && Render(canvas.value.ops) == WhitePicture
        && canvas.value.width == old(canvas).value.width && canvas.value.height == old(canvas).value.height
      ensures isDrawing == old(isDrawing) && lastPos == old(lastPos) && currentColor == old(currentColor)
      ensures brushSize == old(brushSize) && isErasing == old(isErasing)
    {
      if canvas.None? || !canvas.value.hasContext {
        return;
      }
      canvas := Some(Cleared(canvas.value));
    }

    /** A palette swatch: that colour becomes the pen colour and the pen tool is selected. */
    method SelectColor(c: string)
      requires Valid() && c in Colors
      modifies this
      ensures Valid() && currentColor == c && !isErasing
      ensures canvas == old(canvas) && isDrawing == old(isDrawing) && lastPos == old(lastPos)
      ensures brushSize == old(brushSize)
    {
      currentColor := c;
      isErasing := false;
    }

    /** A brush-size button. */
    method SelectBrushSize(size: int)
      requires Valid() && size in BrushSizes
      modifies this
      ensures Valid() && brushSize == size
      ensures canvas == old(canvas) && isDrawing == old(isDrawing) && lastPos == old(lastPos)
      ensures currentColor == old(currentColor) && isErasing == old(isErasing)
    {
      brushSize := size;
    }

    /** The Draw (`erasing` false) and Erase (`erasing` true) tool buttons. */
    method SelectTool(erasing: bool)
      requires Valid()
      modifies this
      ensures Valid() && isErasing == erasing
      ensures canvas == old(canvas) && isDrawing == old(isDrawing) && lastPos == old(lastPos)
      ensures currentColor == old(currentColor) && brushSize == old(brushSize)
    {
      isErasing := erasing;
    }

    /** The canvas's listeners: press starts the pen, move draws, and
        mouse-up, mouse-leave and touch-end all lift it. */
    method Dispatch(ev: CanvasEvent, rect: Rect)
      requires Valid() && (ev.MouseDown? || ev.MouseMove? || ev.TouchStart? || ev.TouchMove? ==> HasPoint(ev.e))
      modifies this
      ensures Valid()
      ensures currentColor == old(currentColor) && brushSize == old(brushSize) && isErasing == old(isErasing)
      ensures ev.MouseUp? || ev.MouseLeave? || ev.TouchEnd? ==>
        !isDrawing && canvas == old(canvas) && lastPos == old(lastPos)
      ensures ev.MouseDown? || ev.TouchStart? ==>
        && isDrawing && canvas == old(canvas)
        && lastPos == if canvas.Some? then ToLocal(ClientPoint(ev.e), rect) else old(lastPos)
      ensures ev.MouseMove? || ev.TouchMove? ==> isDrawing == old(isDrawing)
      ensures (ev.MouseMove? || ev.TouchMove?) && !(old(isDrawing) && old(canvas).Some? && old(canvas).value.hasContext) ==>
        canvas == old(canvas) && lastPos == old(lastPos)
      ensures (ev.MouseMove? || ev.TouchMove?) && old(isDrawing) && old(canvas).Some? && old(canvas).value.hasContext ==>
        var p := ToLocal(ClientPoint(ev.e), rect);
        var before := Render(old(canvas).value.ops);
        && lastPos == p && canvas.Some?
        && Render(canvas.value.ops) ==
             Picture(before.backdrop, before.marks + [Segment(old(lastPos), p, brushSize, isErasing, currentColor)])
    {
      match ev
      case MouseDown(e) => StartDrawing(e, rect);
      case TouchStart(e) => StartDrawing(e, rect);
      case MouseMove(e) => Draw(e, rect);
      case TouchMove(e) => Draw(e, rect);
      case MouseUp => StopDrawing();
      case MouseLeave => StopDrawing();
      case TouchEnd => StopDrawing();
    }
  }

  datatype CanvasEvent =
    | MouseDown(e: ClientEvent) | MouseMove(e: ClientEvent) | MouseUp | MouseLeave
    | TouchStart(e: ClientEvent) | TouchMove(e: ClientEvent) | TouchEnd

  /** A mouse moving over the canvas without a press leaves it as mounted. */
  method MoveWithoutPress(w: real, h: real) returns (shown: Picture, drawing: bool)
    requires w >= 0.0 && h >= 0.0
    ensures shown == WhitePicture && !drawing
  {
    var rect := Rect(10.0, 120.0, w, h);
    var board := new DrawingBoard(Some(Surface(300, 150, true, SourceOver, [])), rect);
    board.Dispatch(MouseMove(Mouse(Point(50.0, 160.0))), rect);
    board.Dispatch(TouchMove(Touch([Point(60.0, 170.0)])), rect);
    shown := Render(board.canvas.value.ops);
    drawing := board.isDrawing;
  }

  /** Drawing a red line and erasing across it, then pressing Clear, leaves the
      white page at the mounted size. */
  method DrawEraseClear(w: real, h: real) returns (shown: Picture, width: int, height: int)
    requires w >= 0.0 && h >= 0.0
    ensures shown == WhitePicture && width == w.Floor && height == h.Floor
  {
    var rect := Rect(10.0, 120.0, w, h);
    var board := new DrawingBoard(Some(Surface(300, 150, true, SourceOver, [])), rect);
    board.SelectColor("#FF0000");
    board.StartDrawing(Mouse(Point(20.0, 130.0)), rect);
    board.Draw(Mouse(Point(40.0, 150.0)), rect);
    board.StopDrawing();
    board.SelectTool(true);
    board.StartDrawing(Touch([Point(20.0, 150.0)]), rect);
    board.Draw(Touch([Point(40.0, 130.0)]), rect);
    board.StopDrawing();
    assert board.canvas.Some? && board.canvas.value.hasContext;
    assert board.canvas.value.width == w.Floor && board.canvas.value.height == h.Floor;
    board.ClearCanvas();
    shown := Render(board.canvas.value.ops);
    width := board.canvas.value.width;
    height := board.canvas.value.height;
  }

  /** The same session with the Clear button as written: after the eraser
      stroke the page ends up transparent, not white. */
  method EraseThenClearAsWritten(w: real, h: real) returns (shown: Picture)
    requires w >= 0.0 && h >= 0.0
    ensures shown == Blank && shown != WhitePicture
  {
    var rect := Rect(10.0, 120.0, w, h);
    var board := new DrawingBoard(Some(Surface(300, 150, true, SourceOver, [])), rect);
    board.SelectTool(true);
    board.StartDrawing(Mouse(Point(20.0, 150.0)), rect);
    board.Draw(Mouse(Point(40.0, 130.0)), rect);
    board.StopDrawing();
    assert board.canvas.Some? && board.canvas.value.composite == DestinationOut;
    board.ClearCanvasAsWritten();
    shown := Render(board.canvas.value.ops);
  }
}
