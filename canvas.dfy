/** An abstract HTML canvas element with its 2D context. Pixels are not
    modelled: the bitmap is a log of the painting operations issued since it was
    last reset, and `Render` abstracts a log to what it shows (a backdrop laid
    down by the last full-canvas fill plus the marks painted over it). */
module Canvas {
  import opened Common

  /** A point in CSS pixels. */
  datatype Point = Point(x: real, y: real)

  /** What `getBoundingClientRect()` reports: the element's viewport origin and rendered size. */
  datatype Rect = Rect(left: real, top: real, width: real, height: real)

  /** The context's `globalCompositeOperation` values the pages use. */
  datatype Composite = SourceOver | DestinationOut

  datatype LineCap = ButtCap | RoundCap
  datatype LineJoin = MiterJoin | RoundJoin

  /** Opaque fill styles: a CSS colour, or the silver linear gradient of the scratch overlay. */
  datatype Paint = Solid(color: string) | SilverGradient

  datatype Op =
    /** `fillRect(0, 0, width, height)` */
    | FillAll(paint: Paint, mode: Composite)
    /** `fillText(caption, at.x, at.y)` */
    | FillText(caption: string, at: Point, color: string)
    /** `beginPath(); moveTo(from); lineTo(to); stroke()`; `strokeStyle` is None when the
        call leaves `strokeStyle` as it was (it does not matter under destination-out) */
    | StrokeLine(from: Point, to: Point, width: int, cap: LineCap, join: LineJoin, mode: Composite, strokeStyle: Option<string>)
    /** `beginPath(); arc(center, radius, 0, 2 * PI); fill()` */
    | FillDisc(center: Point, radius: int, mode: Composite)

  /** A canvas element: bitmap size, whether `getContext("2d")` yields a context,
      the context's current compositing operator, and the painting log. */
  datatype Surface = Surface(width: nat, height: nat, hasContext: bool, composite: Composite, ops: seq<Op>)

  /** What a bitmap shows: transparent, or covered by an opaque paint. */
  datatype Backdrop = Transparent | Painted(paint: Paint)

  datatype Picture = Picture(backdrop: Backdrop, marks: seq<Op>)

  const Blank := Picture(Transparent, [])

  /** The effect of one operation on what the bitmap shows. A full-canvas fill
      with an opaque paint covers every pixel under source-over and clears every
      pixel under destination-out, so nothing painted before it remains. */
  function Apply(p: Picture, op: Op): Picture
  {
    match op
    case FillAll(paint, SourceOver) => Picture(Painted(paint), [])
    case FillAll(_, DestinationOut) => Blank
    case _ => Picture(p.backdrop, p.marks + [op])
  }

  function Render(ops: seq<Op>): Picture
  {
    if ops == [] then Blank else Apply(Render(ops[..|ops| - 1]), ops[|ops| - 1])
  }

  lemma RenderAppend(ops: seq<Op>, op: Op)
    ensures Render(ops + [op]) == Apply(Render(ops), op)
  {
    assert (ops + [op])[..|ops|] == ops;
  }

  /** Surface-local coordinates of a viewport point, from the bounding rectangle
      read at the time of the event: the element's origin plus the local point
      gives back the viewport point. */
  function ToLocal(client: Point, rect: Rect): (p: Point)
    ensures p.x + rect.left == client.x && p.y + rect.top == client.y
  {
    Point(client.x - rect.left, client.y - rect.top)
  }

  /** Assigning `canvas.width` and `canvas.height`: a new, transparent bitmap of
      that size and a context back in its default state. */
  function Resized(s: Surface, w: nat, h: nat): (r: Surface)
    ensures r.width == w && r.height == h && r.hasContext == s.hasContext
    ensures r.composite == SourceOver
    ensures Render(r.ops) == Blank
  {
    Surface(w, h, s.hasContext, SourceOver, [])
  }

  /** `fillRect(0, 0, width, height)` under the current compositing operator:
      whatever was drawn before is gone, and the canvas is covered by `paint`
      only if that operator is source-over. */
  function FilledWith(s: Surface, paint: Paint): (r: Surface)
    ensures r.width == s.width && r.height == s.height && r.hasContext == s.hasContext
    ensures r.composite == s.composite
    ensures Render(r.ops) == if s.composite == SourceOver then Picture(Painted(paint), []) else Blank
  {
    RenderAppend(s.ops, FillAll(paint, s.composite));
    s.(ops := s.ops + [FillAll(paint, s.composite)])
  }

  /** `fillText`: one more mark over the current picture. */
  function WithText(s: Surface, caption: string, at: Point, color: string): (r: Surface)
    ensures r.width == s.width && r.height == s.height && r.hasContext == s.hasContext
    ensures r.composite == s.composite
    ensures Render(r.ops) == Picture(Render(s.ops).backdrop, Render(s.ops).marks + [FillText(caption, at, color)])
  {
    RenderAppend(s.ops, FillText(caption, at, color));
    s.(ops := s.ops + [FillText(caption, at, color)])
  }

  /** One stroked segment under operator `mode`, which stays the context's
      operator afterwards: exactly one mark more, the backdrop untouched. */
  function Stroked(s: Surface, from: Point, to: Point, width: int, cap: LineCap, join: LineJoin,
                   mode: Composite, color: Option<string>): (r: Surface)
    ensures r.width == s.width && r.height == s.height && r.hasContext == s.hasContext
    ensures r.composite == mode
    ensures Render(r.ops) ==
      Picture(Render(s.ops).backdrop, Render(s.ops).marks + [StrokeLine(from, to, width, cap, join, mode, color)])
  {
    var op := StrokeLine(from, to, width, cap, join, mode, color);
    RenderAppend(s.ops, op);
    s.(composite := mode, ops := s.ops + [op])
  }

  /** A filled circle under destination-out, which stays the context's operator:
      exactly one erased disc more, the backdrop untouched. */
  function ErasedDisc(s: Surface, center: Point, radius: int): (r: Surface)
    ensures r.width == s.width && r.height == s.height && r.hasContext == s.hasContext
    ensures r.composite == DestinationOut
    ensures Render(r.ops) ==
      Picture(Render(s.ops).backdrop, Render(s.ops).marks + [FillDisc(center, radius, DestinationOut)])
  {
    var op := FillDisc(center, radius, DestinationOut);
    RenderAppend(s.ops, op);
    s.(composite := DestinationOut, ops := s.ops + [op])
  }
}
