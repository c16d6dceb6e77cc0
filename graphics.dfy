/**
  The part of CoreGraphics the brush engine talks to.

  A `CGContext` is modelled by the commands issued to it, in order (`Context.log`).
  What those commands put on the canvas is given by an interpreter, `Run`, over a
  `Surface`: the current graphics state, the stack of saved states, the current path,
  and the marks drawn so far. Every mark records the transform, blend mode and alpha
  in effect when it was drawn; a line or a fill also records its colour, and a texture
  tile its image. Pixels are not modelled.
*/
module Graphics {

  datatype Point = Point(x: real, y: real)

  /** `CGRect(x:y:width:height:)`, origin and size exactly as given. */
  datatype Rect = Rect(x: real, y: real, width: real, height: real) {
    /** The rectangle's point set, for rectangles of positive size. */
    predicate Contains(p: Point) {
      x <= p.x < x + width && y <= p.y < y + height
    }

    function Center(): Point {
      Point(x + width / 2.0, y + height / 2.0)
    }
  }

  /** An RGBA colour; SwiftUI `Color`, `UIColor` and `CGColor` are one type here. */
  datatype Color = Rgba(red: real, green: real, blue: real, alpha: real) {
    /** `UIColor.withAlphaComponent(_:)`: same colour, alpha replaced. */
    function WithAlphaComponent(a: real): (c: Color)
      ensures c.alpha == a
      ensures c.red == red && c.green == green && c.blue == blue
    {
      Rgba(red, green, blue, a)
    }
  }

  const Black: Color := Rgba(0.0, 0.0, 0.0, 1.0)
  const White: Color := Rgba(1.0, 1.0, 1.0, 1.0)
  /** `UIColor.systemGray` (#8E8E93). */
  const SystemGray: Color := Rgba(142.0 / 255.0, 142.0 / 255.0, 147.0 / 255.0, 1.0)

  /** The `CGBlendMode` cases the application offers. */
  datatype BlendMode = Normal | Multiply | Screen | Overlay | SoftLight | HardLight

  datatype LineCap = ButtCap | RoundCap | SquareCap
  datatype LineJoin = MiterJoin | RoundJoin | BevelJoin

  /** A decoded bitmap (`CGImage`), identified by an opaque handle. */
  datatype Image = Image(handle: nat)

  /** One step of the current transformation matrix, kept symbolically. */
  datatype Transform = Translate(dx: real, dy: real) | Rotate(angle: real)

  /** The `CGContext` calls the engine makes. */
  datatype Command =
    | SetBlendMode(mode: BlendMode)
    | SetAlpha(alpha: real)
    | SetFillColor(color: Color)
    | SetStrokeColor(color: Color)
    | SetLineWidth(width: real)
    | SetLineCap(cap: LineCap)
    | SetLineJoin(join: LineJoin)
    | MoveTo(p: Point)
    | AddLineTo(p: Point)
    | StrokePath
    | SaveGState
    | RestoreGState
    | TranslateBy(dx: real, dy: real)
    | RotateBy(angle: real)
    | DrawImage(image: Image, rect: Rect)
    | FillEllipse(rect: Rect)
    | FillRect(rect: Rect)

  /** The graphics state that `saveGState` / `restoreGState` save and restore. */
  datatype GState = GState(
    blend: BlendMode,
    alpha: real,
    fill: Color,
    stroke: Color,
    lineWidth: real,
    cap: LineCap,
    join: LineJoin,
    ctm: seq<Transform>)

  /** CoreGraphics' initial graphics state. */
  const InitialGState: GState := GState(Normal, 1.0, Black, Black, 1.0, ButtCap, MiterJoin, [])

  datatype PathElement = MovePt(to: Point) | LinePt(to: Point)

  /** A primitive on the canvas, with the state it was drawn in. */
  datatype Mark =
    | Stroked(path: seq<PathElement>, width: real, color: Color, cap: LineCap, join: LineJoin,
              ctm: seq<Transform>, blend: BlendMode, alpha: real)
    | ImageDrawn(image: Image, rect: Rect, ctm: seq<Transform>, blend: BlendMode, alpha: real)
    | EllipseFilled(rect: Rect, color: Color, ctm: seq<Transform>, blend: BlendMode, alpha: real)
    | RectFilled(rect: Rect, color: Color, ctm: seq<Transform>, blend: BlendMode, alpha: real)

  /** Everything a context holds. The current path is not part of the saved state. */
  datatype Surface = Surface(gs: GState, saved: seq<GState>, path: seq<PathElement>, marks: seq<Mark>)

  const BlankSurface: Surface := Surface(InitialGState, [], [], [])

  /** The effect of one command on a surface. */
  function Step(s: Surface, c: Command): Surface {
    match c
    case SetBlendMode(m) => s.(gs := s.gs.(blend := m))
    case SetAlpha(a) => s.(gs := s.gs.(alpha := a))
    case SetFillColor(col) => s.(gs := s.gs.(fill := col))
    case SetStrokeColor(col) => s.(gs := s.gs.(stroke := col))
    case SetLineWidth(w) => s.(gs := s.gs.(lineWidth := w))
    case SetLineCap(cap) => s.(gs := s.gs.(cap := cap))
    case SetLineJoin(join) => s.(gs := s.gs.(join := join))
    case MoveTo(p) => s.(path := s.path + [MovePt(p)])
    // without a current point CoreGraphics ignores the call
    case AddLineTo(p) => if s.path == [] then s else s.(path := s.path + [LinePt(p)])
    case StrokePath =>
      if s.path == [] then s
      else s.(path := [], marks := s.marks + [Stroked(s.path, s.gs.lineWidth, s.gs.stroke,
                                                      s.gs.cap, s.gs.join, s.gs.ctm, s.gs.blend, s.gs.alpha)])
    case SaveGState => s.(saved := s.saved + [s.gs])
    // an unbalanced restore is ignored
    case RestoreGState =>
      if s.saved == [] then s else s.(gs := s.saved[|s.saved| - 1], saved := s.saved[..|s.saved| - 1])
    case TranslateBy(dx, dy) => s.(gs := s.gs.(ctm := s.gs.ctm + [Translate(dx, dy)]))
    case RotateBy(a) => s.(gs := s.gs.(ctm := s.gs.ctm + [Rotate(a)]))
    case DrawImage(img, r) => s.(marks := s.marks + [ImageDrawn(img, r, s.gs.ctm, s.gs.blend, s.gs.alpha)])
    case FillEllipse(r) => s.(marks := s.marks + [EllipseFilled(r, s.gs.fill, s.gs.ctm, s.gs.blend, s.gs.alpha)])
    case FillRect(r) => s.(marks := s.marks + [RectFilled(r, s.gs.fill, s.gs.ctm, s.gs.blend, s.gs.alpha)])
  }

  /** The surface after executing `cmds` in order from `s`. */
  function Run(cmds: seq<Command>, s: Surface): Surface
    decreases |cmds|
  {
    if cmds == [] then s else Step(Run(cmds[..|cmds| - 1], s), cmds[|cmds| - 1])
  }

  /**
    Only the four drawing calls add a mark, and each adds exactly one, after the marks
    already there; a stroke with no path pending draws nothing. Only `saveGState` and
    `restoreGState` touch the saved-state stack.
  */
  lemma StepMarks(s: Surface, c: Command)
    ensures (c.StrokePath? && s.path != []) || c.DrawImage? || c.FillEllipse? || c.FillRect? ==>
      Step(s, c).marks == s.marks + [Step(s, c).marks[|s.marks|]]
    ensures (c.StrokePath? && s.path == []) || (!c.StrokePath? && !c.DrawImage? && !c.FillEllipse? && !c.FillRect?) ==>
      Step(s, c).marks == s.marks
    ensures !c.SaveGState? && !c.RestoreGState? ==> Step(s, c).saved == s.saved
  {
  }

  /** Executing two logs one after the other is executing their concatenation. */
  lemma {:induction false} RunAppend(a: seq<Command>, b: seq<Command>, s: Surface)
    ensures Run(a + b, s) == Run(b, Run(a, s))
    decreases |b|
  {
    if b == [] {
      assert a + b == a;
    } else {
      var b' := b[..|b| - 1];
      assert (a + b)[..|a + b| - 1] == a + b';
      RunAppend(a, b', s);
    }
  }

  /**
    Drawing only ever adds marks: what is on the canvas stays there, and a log adds at
    most one mark per command.
  */
  lemma {:induction false} RunKeepsMarks(cmds: seq<Command>, s: Surface)
    ensures |s.marks| <= |Run(cmds, s).marks| <= |s.marks| + |cmds|
    ensures Run(cmds, s).marks[..|s.marks|] == s.marks
    decreases |cmds|
  {
    if cmds != [] {
      var init := cmds[..|cmds| - 1];
      RunKeepsMarks(init, s);
      StepMarks(Run(init, s), cmds[|cmds| - 1]);
    }
  }

  /** A `CGContext` seen as the log of commands issued to it. */
  class Context {
    var log: seq<Command>

    constructor ()
      ensures log == []
    {
      log := [];
    }

    /** Issues one call to the context. */
    method Issue(c: Command)
      modifies this
      ensures log == old(log) + [c]
    {
      log := log + [c];
    }
  }
}
