/**
  What a stroke leaves on the canvas: the surface that executing the engine's commands
  produces, tool kind by tool kind, and the geometry of stamps and pixel cells.

  Every run lemma states the whole resulting surface, so it also says what a stroke
  does not change.
*/
module BrushProperties {
  import opened Wrappers
  import opened Graphics
  import opened DrawingTools
  import opened BrushEngine

  // Unfolding helpers for `Run` on short logs. They state nothing about the engine;
  // the properties of segments, stamps and strokes are the lemmas that use them.

  /** Executing one more command is one more step. */
  lemma RunSnoc(cmds: seq<Command>, c: Command, s: Surface)
    ensures Run(cmds + [c], s) == Step(Run(cmds, s), c)
  {
    assert (cmds + [c])[..|cmds|] == cmds;
  }

  /** Executing `a` and then `b` is executing `a + b`, stated on the surfaces they reach. */
  lemma {:induction false} RunThen(a: seq<Command>, b: seq<Command>, s: Surface, m: Surface, r: Surface)
    requires Run(a, s) == m && Run(b, m) == r
    ensures Run(a + b, s) == r
  {
    RunAppend(a, b, s);
  }

  /** Two commands, one step at a time. */
  lemma {:induction false} RunTwo(c: seq<Command>, s: Surface)
    requires |c| == 2
    ensures Run(c, s) == Step(Step(s, c[0]), c[1])
  {
    RunSnoc([], c[0], s);
    RunSnoc([c[0]], c[1], s);
    assert c == [c[0]] + [c[1]];
  }

  /** Seven commands, one step at a time. */
  lemma {:induction false} RunSeven(c: seq<Command>, s: Surface)
    requires |c| == 7
    ensures Run(c, s) == Step(Step(Step(Step(Step(Step(Step(s, c[0]), c[1]), c[2]), c[3]), c[4]), c[5]), c[6])
  {
    RunSnoc([], c[0], s);
    assert [c[0]] == c[..1];
    RunSnoc(c[..1], c[1], s);
    assert c[..2] == c[..1] + [c[1]];
    RunSnoc(c[..2], c[2], s);
    assert c[..3] == c[..2] + [c[2]];
    RunSnoc(c[..3], c[3], s);
    assert c[..4] == c[..3] + [c[3]];
    RunSnoc(c[..4], c[4], s);
    assert c[..5] == c[..4] + [c[4]];
    RunSnoc(c[..5], c[5], s);
    assert c[..6] == c[..5] + [c[5]];
    RunSnoc(c[..6], c[6], s);
    assert c == c[..6] + [c[6]];
  }

  // ---------------------------------------------------------------------------
  // One plain segment

  /** The mark a plain segment leaves: a two-point path stroked in the given state. */
  function LineMark(start: Point, end: Point, width: real, color: Color, gs: GState): Mark {
    Stroked([MovePt(start), LinePt(end)], width, color, RoundCap, RoundJoin, gs.ctm, gs.blend, gs.alpha)
  }

  /** The stroke settings a plain segment leaves in the graphics state. */
  function LineState(gs: GState, width: real, color: Color): GState {
    gs.(stroke := color, lineWidth := width, cap := RoundCap, join := RoundJoin)
  }

  /**
    A plain segment, drawn with no path pending, strokes exactly the line from `start`
    to `end` in the current blend mode and alpha, and leaves no path behind; apart from
    the stroke settings nothing else changes.
  */
  lemma {:induction false} PlainSegmentRun(start: Point, end: Point, width: real, color: Color, s: Surface)
    requires s.path == []
    ensures Run(PlainSegmentCommands(start, end, width, color), s) ==
      s.(gs := LineState(s.gs, width, color),
         marks := s.marks + [LineMark(start, end, width, color, s.gs)])
  {
    var c := PlainSegmentCommands(start, end, width, color);
    RunSeven(c, s);
    var s4 := s.(gs := LineState(s.gs, width, color));
    assert Step(Step(Step(Step(s, c[0]), c[1]), c[2]), c[3]) == s4;
    var s6 := s4.(path := [MovePt(start), LinePt(end)]);
    assert Step(Step(s4, c[4]), c[5]) == s6;
  }

  // ---------------------------------------------------------------------------
  // One stamp

  /**
    The mark a stamp leaves in graphics state `gs`: the texture tile drawn with the
    multiply blend and the current transform followed by a rotation by `tilt` about the
    stamp's centre; without a texture, a dot of the tool's colour in the current blend.
  */
  function StampMark(p: Point, width: real, tilt: real, image: Option<Image>, color: Color, gs: GState): Mark {
    match image
    case Some(img) =>
      ImageDrawn(img, StampRect(p, width), gs.ctm + [Translate(p.x, p.y), Rotate(tilt), Translate(-p.x, -p.y)],
                 Multiply, gs.alpha)
    case None => EllipseFilled(StampRect(p, width), color, gs.ctm, gs.blend, gs.alpha)
  }

  /**
    The graphics state after `count` stamps: textured stamps restore what they found,
    dots leave the fill colour set.
  */
  function AfterStamps(gs: GState, image: Option<Image>, color: Color, count: nat): GState {
    if image.None? && count > 0 then gs.(fill := color) else gs
  }

  /**
    A stamp adds its one mark. A textured stamp restores the graphics state it found
    (its multiply blend and rotation do not leak into the rest of the stroke); a dot
    changes only the fill colour.
  */
  lemma {:induction false} StampRun(p: Point, width: real, tilt: real, image: Option<Image>, color: Color, s: Surface)
    ensures Run(StampCommands(p, width, tilt, image, color), s) ==
      s.(gs := AfterStamps(s.gs, image, color, 1), marks := s.marks + [StampMark(p, width, tilt, image, color, s.gs)])
  {
    if image.Some? {
      TexturedStampRun(p, width, tilt, image.value, s);
      assert StampCommands(p, width, tilt, image, color) == StampCommands(p, width, tilt, image, Black);
    } else {
      RunTwo(StampCommands(p, width, tilt, image, color), s);
    }
  }

  /** A textured stamp, step by step: save, rotate about the centre, multiply the tile in, restore. */
  lemma {:induction false} TexturedStampRun(p: Point, width: real, tilt: real, img: Image, s: Surface)
    ensures Run(StampCommands(p, width, tilt, Some(img), Black), s) ==
      s.(marks := s.marks + [StampMark(p, width, tilt, Some(img), Black, s.gs)])
  {
    var c := StampCommands(p, width, tilt, Some(img), Black);
    var ctm := s.gs.ctm + [Translate(p.x, p.y), Rotate(tilt), Translate(-p.x, -p.y)];
    var s3 := s.(gs := s.gs.(ctm := ctm), saved := s.saved + [s.gs]);
    assert Step(Step(Step(Step(s, c[0]), c[1]), c[2]), c[3]) == s3;
    var s5 := s3.(gs := s3.gs.(blend := Multiply));
    var s6 := s5.(marks := s.marks + [StampMark(p, width, tilt, Some(img), Black, s.gs)]);
    assert Step(Step(s3, c[4]), c[5]) == s6;
    assert (s.saved + [s.gs])[..|s.saved|] == s.saved;
    assert Step(s6, c[6]) == s.(marks := s6.marks);
    RunSeven(c, s);
  }

  // ---------------------------------------------------------------------------
  // One textured segment

  /** The marks of a stamp at each of `ps`, in state `gs`. */
  function StampMarks(ps: seq<Point>, width: real, tilt: real, image: Option<Image>, color: Color, gs: GState):
    (m: seq<Mark>)
    ensures |m| == |ps|
    decreases |ps|
  {
    if ps == [] then []
    else StampMarks(ps[..|ps| - 1], width, tilt, image, color, gs) + [StampMark(ps[|ps| - 1], width, tilt, image, color, gs)]
  }

  /** Mark `j` of a row of stamps is the stamp at `ps[j]`. */
  lemma {:induction false} StampMarksAt(ps: seq<Point>, width: real, tilt: real, image: Option<Image>, color: Color,
                                        gs: GState, j: nat)
    requires j < |ps|
    ensures StampMarks(ps, width, tilt, image, color, gs)[j] == StampMark(ps[j], width, tilt, image, color, gs)
    decreases |ps|
  {
    if j < |ps| - 1 {
      StampMarksAt(ps[..|ps| - 1], width, tilt, image, color, gs, j);
    }
  }

  /** Stamp marks depend on the graphics state only through transform, blend mode and alpha. */
  lemma {:induction false} StampMarksInState(ps: seq<Point>, width: real, tilt: real, image: Option<Image>,
                                             color: Color, g: GState, h: GState)
    requires g.ctm == h.ctm && g.blend == h.blend && g.alpha == h.alpha
    ensures StampMarks(ps, width, tilt, image, color, g) == StampMarks(ps, width, tilt, image, color, h)
    decreases |ps|
  {
    if ps != [] {
      StampMarksInState(ps[..|ps| - 1], width, tilt, image, color, g, h);
    }
  }

  /** Stamping at `ps` adds one mark per point, all in the state the segment started in. */
  lemma {:induction false} StampsRun(ps: seq<Point>, width: real, tilt: real, image: Option<Image>, color: Color,
                                     s: Surface)
    ensures Run(Stamps(ps, width, tilt, image, color), s) ==
      s.(gs := AfterStamps(s.gs, image, color, |ps|), marks := s.marks + StampMarks(ps, width, tilt, image, color, s.gs))
    decreases |ps|
  {
    if ps != [] {
      var init := ps[..|ps| - 1];
      var p := ps[|ps| - 1];
      var before := Stamps(init, width, tilt, image, color);
      var stamp := StampCommands(p, width, tilt, image, color);
      StampsRun(init, width, tilt, image, color, s);
      var mid := Run(before, s);
      RunAppend(before, stamp, s);
      StampRun(p, width, tilt, image, color, mid);
      assert StampMark(p, width, tilt, image, color, mid.gs) == StampMark(p, width, tilt, image, color, s.gs);
    }
  }

  /** Stamps drawn after earlier stamps of the same stroke continue them. */
  lemma {:induction false} StampsAfter(before: seq<Command>, ps: seq<Point>, width: real, tilt: real,
                                       image: Option<Image>, color: Color, count: nat, marks0: seq<Mark>, s: Surface)
    requires Run(before, s) == s.(gs := AfterStamps(s.gs, image, color, count), marks := s.marks + marks0)
    ensures Run(before + Stamps(ps, width, tilt, image, color), s) ==
      s.(gs := AfterStamps(s.gs, image, color, count + |ps|),
         marks := s.marks + (marks0 + StampMarks(ps, width, tilt, image, color, s.gs)))
  {
    var stamps := Stamps(ps, width, tilt, image, color);
    var mid := s.(gs := AfterStamps(s.gs, image, color, count), marks := s.marks + marks0);
    var added := StampMarks(ps, width, tilt, image, color, s.gs);
    StampsRun(ps, width, tilt, image, color, mid);
    StampMarksInState(ps, width, tilt, image, color, mid.gs, s.gs);
    MarksAssociate(s.marks, marks0, added);
    RunThen(before, stamps, s, mid, s.(gs := AfterStamps(s.gs, image, color, count + |ps|), marks := s.marks + (marks0 + added)));
  }

  /** Regrouping marks drawn by consecutive runs. */
  lemma MarksAssociate(a: seq<Mark>, b: seq<Mark>, c: seq<Mark>)
    ensures (a + b) + c == a + (b + c)
  {
  }

  // ---------------------------------------------------------------------------
  // The segments of a stroke: lines

  /** Tools that draw plain lines: every kind but the two effect erasers and the custom brush. */
  predicate IsPlainKind(k: ToolType) {
    k != BlurEraser && k != PixelateEraser && k != CustomBrush
  }

  /** The commands of the first `n` segments of a tool that draws lines. */
  function LineCommands(points: seq<Point>, pressures: seq<real>, tool: Tool, n: nat): seq<Command>
    requires n < |points|
  {
    if n == 0 then []
    else LineCommands(points, pressures, tool, n - 1) +
         PlainSegmentCommands(points[n - 1], points[n], SegmentWidth(tool, pressures, n - 1), tool.color)
  }

  /** Every tool but the custom brush draws its segments as lines. */
  lemma {:induction false} SegmentsAreLines(points: seq<Point>, pressures: seq<real>, tilts: seq<real>, tool: Tool,
                                            platform: Platform, n: nat)
    requires n < |points| && tool.kind != CustomBrush
    ensures SegmentsUpTo(points, pressures, tilts, tool, platform, n) == LineCommands(points, pressures, tool, n)
  {
    if n > 0 {
      SegmentsAreLines(points, pressures, tilts, tool, platform, n - 1);
    }
  }

  /** The lines of the first `n` plain segments, drawn in state `gs`. */
  function LineMarks(points: seq<Point>, pressures: seq<real>, tool: Tool, n: nat, gs: GState): (m: seq<Mark>)
    requires n < |points|
    ensures |m| == n
  {
    if n == 0 then []
    else LineMarks(points, pressures, tool, n - 1, gs) +
         [LineMark(points[n - 1], points[n], SegmentWidth(tool, pressures, n - 1), tool.color, gs)]
  }

  /** Line `i` runs from sample `i` to sample `i + 1`, at the width of sample `i`. */
  lemma {:induction false} LineMarksAt(points: seq<Point>, pressures: seq<real>, tool: Tool, n: nat, gs: GState,
                                       i: nat)
    requires i < n < |points|
    ensures LineMarks(points, pressures, tool, n, gs)[i] ==
      LineMark(points[i], points[i + 1], SegmentWidth(tool, pressures, i), tool.color, gs)
  {
    if i < n - 1 {
      LineMarksAt(points, pressures, tool, n - 1, gs, i);
    }
  }

  /**
    The first `n` segments drawn as lines leave one stroked line each; the stroke
    settings are those of the last segment.
  */
  lemma {:induction false} LinesRun(points: seq<Point>, pressures: seq<real>, tool: Tool, n: nat, s: Surface)
    requires 0 < n < |points| && s.path == []
    ensures Run(LineCommands(points, pressures, tool, n), s) ==
      s.(gs := LineState(s.gs, SegmentWidth(tool, pressures, n - 1), tool.color),
         marks := s.marks + LineMarks(points, pressures, tool, n, s.gs))
  {
    var before := LineCommands(points, pressures, tool, n - 1);
    var segment := PlainSegmentCommands(points[n - 1], points[n], SegmentWidth(tool, pressures, n - 1), tool.color);
    if n == 1 {
      assert LineCommands(points, pressures, tool, n) == segment;
      PlainSegmentRun(points[0], points[1], SegmentWidth(tool, pressures, 0), tool.color, s);
    } else {
      LinesRun(points, pressures, tool, n - 1, s);
      var earlier := LineMarks(points, pressures, tool, n - 1, s.gs);
      var mid := s.(gs := LineState(s.gs, SegmentWidth(tool, pressures, n - 2), tool.color), marks := s.marks + earlier);
      var line := LineMark(points[n - 1], points[n], SegmentWidth(tool, pressures, n - 1), tool.color, s.gs);
      PlainSegmentRun(points[n - 1], points[n], SegmentWidth(tool, pressures, n - 1), tool.color, mid);
      assert (s.marks + earlier) + [line] == s.marks + (earlier + [line]);
      RunThen(before, segment, s, mid, s.(gs := LineState(s.gs, SegmentWidth(tool, pressures, n - 1), tool.color),
                                         marks := s.marks + (earlier + [line])));
    }
  }

  // ---------------------------------------------------------------------------
  // The segments of a stroke: rows of stamps

  /** The stamp points of the segment from sample `i` to sample `i + 1`. */
  function SegmentStampPoints(points: seq<Point>, platform: Platform, i: nat): (ps: seq<Point>)
    requires i + 1 < |points|
    ensures |ps| == SegmentSteps(points, platform, i) + 1
  {
    StampPoints(points[i], points[i + 1], SegmentSteps(points, platform, i))
  }

  /** The stamp points of the first `n` segments of a custom-brush stroke, one row per segment. */
  function Layout(points: seq<Point>, platform: Platform, n: nat): (rows: seq<seq<Point>>)
    requires n < |points|
    ensures |rows| == n
  {
    if n == 0 then [] else Layout(points, platform, n - 1) + [SegmentStampPoints(points, platform, n - 1)]
  }

  /** Row `i` of the layout is the stamp points of segment `i`. */
  lemma {:induction false} LayoutAt(points: seq<Point>, platform: Platform, n: nat, i: nat)
    requires i < n < |points|
    ensures Layout(points, platform, n)[i] == SegmentStampPoints(points, platform, i)
  {
    if i < n - 1 {
      LayoutAt(points, platform, n - 1, i);
    }
  }

  /** The layout of fewer segments is a prefix. */
  lemma {:induction false} LayoutPrefix(points: seq<Point>, platform: Platform, i: nat, n: nat)
    requires i <= n < |points|
    ensures Layout(points, platform, n)[..i] == Layout(points, platform, i)
  {
    if i < n {
      LayoutPrefix(points, platform, i, n - 1);
      assert Layout(points, platform, n)[..n - 1] == Layout(points, platform, n - 1);
      assert Layout(points, platform, n)[..i] == Layout(points, platform, n)[..n - 1][..i];
    }
  }

  /** The number of stamps in a layout. */
  function TotalStamps(rows: seq<seq<Point>>): nat {
    if rows == [] then 0 else TotalStamps(rows[..|rows| - 1]) + |rows[|rows| - 1]|
  }

  /** A prefix of the rows has no more stamps than all of them. */
  lemma {:induction false} TotalStampsPrefix(rows: seq<seq<Point>>, i: nat)
    requires i < |rows|
    ensures TotalStamps(rows[..i]) + |rows[i]| <= TotalStamps(rows)
  {
    if i < |rows| - 1 {
      TotalStampsPrefix(rows[..|rows| - 1], i);
      assert rows[..|rows| - 1][..i] == rows[..i];
    } else {
      assert rows[..|rows| - 1] == rows[..i];
    }
  }

  /** The stamps of the first `n` segments are the stamps of their layout. */
  lemma {:induction false} StampCountIsTotal(points: seq<Point>, platform: Platform, n: nat)
    requires n < |points|
    ensures StampCount(points, platform, n) == TotalStamps(Layout(points, platform, n))
  {
    if n > 0 {
      StampCountIsTotal(points, platform, n - 1);
      assert Layout(points, platform, n)[..n - 1] == Layout(points, platform, n - 1);
    }
  }

  /** The commands that stamp each row with its segment's width and tilt. */
  function RowCommands(rows: seq<seq<Point>>, pressures: seq<real>, tilts: seq<real>, tool: Tool,
                       image: Option<Image>): seq<Command>
  {
    if rows == [] then []
    else RowCommands(rows[..|rows| - 1], pressures, tilts, tool, image) +
         Stamps(rows[|rows| - 1], SegmentWidth(tool, pressures, |rows| - 1), TiltAt(tilts, |rows| - 1), image, tool.color)
  }

  /** The marks of each row's stamps, in state `gs`. */
  function RowMarks(rows: seq<seq<Point>>, pressures: seq<real>, tilts: seq<real>, tool: Tool,
                    image: Option<Image>, gs: GState): (m: seq<Mark>)
    ensures |m| == TotalStamps(rows)
  {
    if rows == [] then []
    else RowMarks(rows[..|rows| - 1], pressures, tilts, tool, image, gs) +
         StampMarks(rows[|rows| - 1], SegmentWidth(tool, pressures, |rows| - 1), TiltAt(tilts, |rows| - 1), image,
                    tool.color, gs)
  }

  /** One more row is one more segment's stamps. */
  lemma {:induction false} RowCommandsSnoc(rows: seq<seq<Point>>, row: seq<Point>, pressures: seq<real>,
                                           tilts: seq<real>, tool: Tool, image: Option<Image>)
    ensures RowCommands(rows + [row], pressures, tilts, tool, image) ==
      RowCommands(rows, pressures, tilts, tool, image) +
      Stamps(row, SegmentWidth(tool, pressures, |rows|), TiltAt(tilts, |rows|), image, tool.color)
  {
    assert (rows + [row])[..|rows|] == rows;
  }

  /** A custom brush's segment is the row of stamps at its stamp points. */
  lemma SegmentIsRow(points: seq<Point>, pressures: seq<real>, tilts: seq<real>, tool: Tool, platform: Platform,
                     i: nat)
    requires i + 1 < |points| && tool.kind == CustomBrush
    ensures SegmentCommands(points, pressures, tilts, tool, platform, i) ==
      Stamps(SegmentStampPoints(points, platform, i), SegmentWidth(tool, pressures, i), TiltAt(tilts, i),
             ResolveTexture(tool.texture, platform.loadAsset), tool.color)
  {
  }

  /** A custom brush stamps its segments' rows in order. */
  lemma {:induction false} SegmentsAreRows(points: seq<Point>, pressures: seq<real>, tilts: seq<real>, tool: Tool,
                                           platform: Platform, n: nat)
    requires n < |points| && tool.kind == CustomBrush
    ensures SegmentsUpTo(points, pressures, tilts, tool, platform, n) ==
      RowCommands(Layout(points, platform, n), pressures, tilts, tool, ResolveTexture(tool.texture, platform.loadAsset))
  {
    if n > 0 {
      SegmentsAreRows(points, pressures, tilts, tool, platform, n - 1);
      OneMoreRow(points, pressures, tilts, tool, platform, n);
    }
  }

  /** The induction step of `SegmentsAreRows`: segment `n - 1` adds row `n - 1`. */
  lemma {:induction false} OneMoreRow(points: seq<Point>, pressures: seq<real>, tilts: seq<real>, tool: Tool,
                                      platform: Platform, n: nat)
    requires 0 < n < |points| && tool.kind == CustomBrush
    requires SegmentsUpTo(points, pressures, tilts, tool, platform, n - 1) ==
      RowCommands(Layout(points, platform, n - 1), pressures, tilts, tool, ResolveTexture(tool.texture, platform.loadAsset))
    ensures SegmentsUpTo(points, pressures, tilts, tool, platform, n) ==
      RowCommands(Layout(points, platform, n), pressures, tilts, tool, ResolveTexture(tool.texture, platform.loadAsset))
  {
    var image := ResolveTexture(tool.texture, platform.loadAsset);
    var rows := Layout(points, platform, n - 1);
    var row := SegmentStampPoints(points, platform, n - 1);
    SegmentIsRow(points, pressures, tilts, tool, platform, n - 1);
    RowCommandsSnoc(rows, row, pressures, tilts, tool, image);
    assert Layout(points, platform, n) == rows + [row];
  }

  /** Rows of stamps leave their stamps one after the other, all in the state they started in. */
  lemma {:induction false} RowsRun(rows: seq<seq<Point>>, pressures: seq<real>, tilts: seq<real>, tool: Tool,
                                   image: Option<Image>, s: Surface)
    ensures Run(RowCommands(rows, pressures, tilts, tool, image), s) ==
      s.(gs := AfterStamps(s.gs, image, tool.color, TotalStamps(rows)),
         marks := s.marks + RowMarks(rows, pressures, tilts, tool, image, s.gs))
    decreases |rows|
  {
    if rows == [] {
      assert s.marks + [] == s.marks;
    } else {
      var init := rows[..|rows| - 1];
      RowsRun(init, pressures, tilts, tool, image, s);
      StampsAfter(RowCommands(init, pressures, tilts, tool, image), rows[|rows| - 1],
                  SegmentWidth(tool, pressures, |rows| - 1), TiltAt(tilts, |rows| - 1), image, tool.color,
                  TotalStamps(init), RowMarks(init, pressures, tilts, tool, image, s.gs), s);
    }
  }

  /**
    Stamp `k` of row `i` is mark number `TotalStamps(rows[..i]) + k`: the stamp at that
    point, with the width and tilt of segment `i`.
  */
  lemma {:induction false} RowMarksAt(rows: seq<seq<Point>>, pressures: seq<real>, tilts: seq<real>, tool: Tool,
                                      image: Option<Image>, gs: GState, i: nat, k: nat)
    requires i < |rows| && k < |rows[i]|
    ensures TotalStamps(rows[..i]) + k < TotalStamps(rows)
    ensures RowMarks(rows, pressures, tilts, tool, image, gs)[TotalStamps(rows[..i]) + k] ==
      StampMark(rows[i][k], SegmentWidth(tool, pressures, i), TiltAt(tilts, i), image, tool.color, gs)
    decreases |rows|
  {
    TotalStampsPrefix(rows, i);
    var init := rows[..|rows| - 1];
    var earlier := RowMarks(init, pressures, tilts, tool, image, gs);
    var last := StampMarks(rows[|rows| - 1], SegmentWidth(tool, pressures, |rows| - 1), TiltAt(tilts, |rows| - 1),
                           image, tool.color, gs);
    assert RowMarks(rows, pressures, tilts, tool, image, gs) == earlier + last;
    var j := TotalStamps(rows[..i]) + k;
    if i < |rows| - 1 {
      assert init[..i] == rows[..i];
      RowMarksAt(init, pressures, tilts, tool, image, gs, i, k);
      assert (earlier + last)[j] == earlier[j];
    } else {
      assert init == rows[..i];
      StampMarksAt(rows[i], SegmentWidth(tool, pressures, i), TiltAt(tilts, i), image, tool.color, gs, k);
      assert (earlier + last)[j] == last[k];
    }
  }

  /**
    In the stamps of the first `n` segments of a custom brush, stamp `k` of segment `i`
    comes after the `StampCount(i)` stamps of the segments before it: the stamp at point
    `k` of that segment, with the segment's width and tilt.
  */
  lemma {:induction false} TexturedMarksAt(points: seq<Point>, pressures: seq<real>, tilts: seq<real>, tool: Tool,
                                           platform: Platform, n: nat, gs: GState, i: nat, k: nat)
    requires i < n < |points| && k <= SegmentSteps(points, platform, i)
    ensures StampCount(points, platform, i) + k < StampCount(points, platform, n)
    ensures TotalStamps(Layout(points, platform, n)) == StampCount(points, platform, n)
    ensures var image := ResolveTexture(tool.texture, platform.loadAsset);
      RowMarks(Layout(points, platform, n), pressures, tilts, tool, image, gs)[StampCount(points, platform, i) + k] ==
      StampMark(SegmentStampPoints(points, platform, i)[k], SegmentWidth(tool, pressures, i), TiltAt(tilts, i),
                image, tool.color, gs)
  {
    var rows := Layout(points, platform, n);
    LayoutPrefix(points, platform, i, n);
    LayoutAt(points, platform, n, i);
    StampCountIsTotal(points, platform, i);
    StampCountIsTotal(points, platform, n);
    RowMarksAt(rows, pressures, tilts, tool, ResolveTexture(tool.texture, platform.loadAsset), gs, i, k);
  }

  /** Two pressure and tilt recordings agree on their first `n` samples. */
  predicate SamplesAgree(p1: seq<real>, t1: seq<real>, p2: seq<real>, t2: seq<real>, n: nat) {
    (forall i :: 0 <= i < n ==> PressureAt(p1, i) == PressureAt(p2, i)) &&
    (forall i :: 0 <= i < n ==> TiltAt(t1, i) == TiltAt(t2, i))
  }

  /** Segment `i` uses the pressure and tilt of sample `i` only. */
  lemma {:induction false} SegmentsUseEarlierSamples(points: seq<Point>, p1: seq<real>, t1: seq<real>,
                                                     p2: seq<real>, t2: seq<real>, tool: Tool, platform: Platform,
                                                     n: nat)
    requires n < |points|
    requires SamplesAgree(p1, t1, p2, t2, n)
    ensures SegmentsUpTo(points, p1, t1, tool, platform, n) == SegmentsUpTo(points, p2, t2, tool, platform, n)
  {
    if tool.kind == CustomBrush {
      var rows := Layout(points, platform, n);
      var image := ResolveTexture(tool.texture, platform.loadAsset);
      SegmentsAreRows(points, p1, t1, tool, platform, n);
      SegmentsAreRows(points, p2, t2, tool, platform, n);
      RowsUseEarlierSamples(rows, p1, t1, p2, t2, tool, image);
    } else {
      SegmentsAreLines(points, p1, t1, tool, platform, n);
      SegmentsAreLines(points, p2, t2, tool, platform, n);
      LinesUseEarlierSamples(points, p1, p2, tool, n);
    }
  }

  /** The lines of the first `n` segments depend on the first `n` pressures only. */
  lemma {:induction false} LinesUseEarlierSamples(points: seq<Point>, p1: seq<real>, p2: seq<real>, tool: Tool, n: nat)
    requires n < |points|
    requires forall i :: 0 <= i < n ==> PressureAt(p1, i) == PressureAt(p2, i)
    ensures LineCommands(points, p1, tool, n) == LineCommands(points, p2, tool, n)
  {
    if n > 0 {
      LinesUseEarlierSamples(points, p1, p2, tool, n - 1);
      assert SegmentWidth(tool, p1, n - 1) == SegmentWidth(tool, p2, n - 1);
    }
  }

  /** Row `i` depends on the pressure and tilt of sample `i` only. */
  lemma {:induction false} RowsUseEarlierSamples(rows: seq<seq<Point>>, p1: seq<real>, t1: seq<real>,
                                                 p2: seq<real>, t2: seq<real>, tool: Tool, image: Option<Image>)
    requires SamplesAgree(p1, t1, p2, t2, |rows|)
    ensures RowCommands(rows, p1, t1, tool, image) == RowCommands(rows, p2, t2, tool, image)
    decreases |rows|
  {
    if rows != [] {
      RowsUseEarlierSamples(rows[..|rows| - 1], p1, t1, p2, t2, tool, image);
      assert SegmentWidth(tool, p1, |rows| - 1) == SegmentWidth(tool, p2, |rows| - 1);
      assert TiltAt(t1, |rows| - 1) == TiltAt(t2, |rows| - 1);
    }
  }

  /**
    The pressure and tilt of a stroke's last sample are never used: strokes whose
    samples agree on all the others draw the same.
  */
  lemma {:induction false} StrokeIgnoresLastSample(points: seq<Point>, p1: seq<real>, t1: seq<real>,
                                                   p2: seq<real>, t2: seq<real>, tool: Tool, platform: Platform)
    requires |points| >= 1 ==> SamplesAgree(p1, t1, p2, t2, |points| - 1)
    ensures StrokeCommands(points, p1, t1, tool, platform) == StrokeCommands(points, p2, t2, tool, platform)
  {
    if |points| >= 2 {
      SegmentsUseEarlierSamples(points, p1, t1, p2, t2, tool, platform, |points| - 1);
      StrokeFromSegments(points, p1, t1, p2, t2, tool, platform);
    }
  }

  /** Strokes with the same segments draw the same. */
  lemma StrokeFromSegments(points: seq<Point>, p1: seq<real>, t1: seq<real>,
                           p2: seq<real>, t2: seq<real>, tool: Tool, platform: Platform)
    requires |points| >= 2
    requires SegmentsUpTo(points, p1, t1, tool, platform, |points| - 1) ==
             SegmentsUpTo(points, p2, t2, tool, platform, |points| - 1)
    ensures StrokeCommands(points, p1, t1, tool, platform) == StrokeCommands(points, p2, t2, tool, platform)
  {
    assert StrokeBody(points, p1, t1, tool, platform) == StrokeBody(points, p2, t2, tool, platform);
  }

  // ---------------------------------------------------------------------------
  // The effect erasers

  /** The discs of the first `n` samples' blur, drawn in state `gs`. */
  function BlurMarks(points: seq<Point>, n: nat, gs: GState): (m: seq<Mark>)
    requires n <= |points|
    ensures |m| == n
  {
    if n == 0 then []
    else BlurMarks(points, n - 1, gs) + [EllipseFilled(BlurRect(points[n - 1]), BlurTint, gs.ctm, gs.blend, gs.alpha)]
  }

  /** Disc `i` is centred on sample `i`. */
  lemma {:induction false} BlurMarksAt(points: seq<Point>, n: nat, gs: GState, i: nat)
    requires i < n <= |points|
    ensures BlurMarks(points, n, gs)[i] == EllipseFilled(BlurRect(points[i]), BlurTint, gs.ctm, gs.blend, gs.alpha)
  {
    if i < n - 1 {
      BlurMarksAt(points, n - 1, gs, i);
    }
  }

  /** The blur of the first `n` samples leaves one translucent white disc per sample. */
  lemma {:induction false} BlurRun(points: seq<Point>, n: nat, s: Surface)
    requires 0 < n <= |points|
    ensures Run(BlurUpTo(points, n), s) ==
      s.(gs := s.gs.(fill := BlurTint), marks := s.marks + BlurMarks(points, n, s.gs))
  {
    var before := BlurUpTo(points, n - 1);
    var cell := [SetFillColor(BlurTint), FillEllipse(BlurRect(points[n - 1]))];
    var mid := Run(before, s);
    if n > 1 {
      BlurRun(points, n - 1, s);
    } else {
      assert mid == s;
    }
    RunAppend(before, cell, s);
    RunTwo(cell, mid);
  }

  /** The cells of the first `n` samples' pixelation, drawn in state `gs`. */
  function PixelateMarks(points: seq<Point>, n: nat, gs: GState): (m: seq<Mark>)
    requires n <= |points|
    ensures |m| == n
  {
    if n == 0 then []
    else PixelateMarks(points, n - 1, gs) + [RectFilled(PixelCell(points[n - 1]), SystemGray, gs.ctm, gs.blend, gs.alpha)]
  }

  /** Cell `i` is the grid cell of sample `i`. */
  lemma {:induction false} PixelateMarksAt(points: seq<Point>, n: nat, gs: GState, i: nat)
    requires i < n <= |points|
    ensures PixelateMarks(points, n, gs)[i] == RectFilled(PixelCell(points[i]), SystemGray, gs.ctm, gs.blend, gs.alpha)
  {
    if i < n - 1 {
      PixelateMarksAt(points, n - 1, gs, i);
    }
  }

  /** The pixelation of the first `n` samples leaves one grey grid cell per sample. */
  lemma {:induction false} PixelateRun(points: seq<Point>, n: nat, s: Surface)
    requires 0 < n <= |points|
    ensures Run(PixelateUpTo(points, n), s) ==
      s.(gs := s.gs.(fill := SystemGray), marks := s.marks + PixelateMarks(points, n, s.gs))
  {
    var before := PixelateUpTo(points, n - 1);
    var cell := [SetFillColor(SystemGray), FillRect(PixelCell(points[n - 1]))];
    var mid := Run(before, s);
    if n > 1 {
      PixelateRun(points, n - 1, s);
    } else {
      assert mid == s;
    }
    RunAppend(before, cell, s);
    RunTwo(cell, mid);
  }

  // ---------------------------------------------------------------------------
  // Whole strokes

  /** The graphics state a stroke draws in: the tool's blend mode and opacity. */
  function StrokeState(gs: GState, tool: Tool): GState {
    gs.(blend := tool.blendMode, alpha := tool.opacity)
  }

  /** A stroke of two or more samples is its setup followed by its body. */
  lemma {:induction false} StrokeRunsBody(points: seq<Point>, pressures: seq<real>, tilts: seq<real>, tool: Tool,
                                          platform: Platform, s: Surface)
    requires |points| >= 2
    ensures Run(StrokeCommands(points, pressures, tilts, tool, platform), s) ==
      Run(StrokeBody(points, pressures, tilts, tool, platform), s.(gs := StrokeState(s.gs, tool)))
  {
    var setup := [SetBlendMode(tool.blendMode), SetAlpha(tool.opacity)];
    RunAppend(setup, StrokeBody(points, pressures, tilts, tool, platform), s);
    RunTwo(setup, s);
  }

  /**
    A pen, pencil, marker, highlighter or eraser stroke draws one round-capped line per
    pair of consecutive samples, in the tool's colour, blend mode and opacity.
  */
  lemma {:induction false} PlainStrokeRun(points: seq<Point>, pressures: seq<real>, tilts: seq<real>, tool: Tool,
                                          platform: Platform, s: Surface)
    requires |points| >= 2 && IsPlainKind(tool.kind) && s.path == []
    ensures Run(StrokeCommands(points, pressures, tilts, tool, platform), s) ==
      s.(gs := LineState(StrokeState(s.gs, tool), SegmentWidth(tool, pressures, |points| - 2), tool.color),
         marks := s.marks + LineMarks(points, pressures, tool, |points| - 1, StrokeState(s.gs, tool)))
  {
    StrokeRunsBody(points, pressures, tilts, tool, platform, s);
    SegmentsAreLines(points, pressures, tilts, tool, platform, |points| - 1);
    LinesRun(points, pressures, tool, |points| - 1, s.(gs := StrokeState(s.gs, tool)));
  }

  /**
    A custom-brush stroke stamps the rows of its layout in order, every stamp in the
    tool's blend mode and opacity; textured stamps leave that state in force.
  */
  lemma {:induction false} TexturedStrokeRun(points: seq<Point>, pressures: seq<real>, tilts: seq<real>, tool: Tool,
                                             platform: Platform, s: Surface)
    requires |points| >= 2 && tool.kind == CustomBrush
    ensures var image := ResolveTexture(tool.texture, platform.loadAsset);
      Run(StrokeCommands(points, pressures, tilts, tool, platform), s) ==
      s.(gs := AfterStamps(StrokeState(s.gs, tool), image, tool.color, StrokeStampCount(points, platform)),
         marks := s.marks + RowMarks(Layout(points, platform, |points| - 1), pressures, tilts, tool, image,
                                     StrokeState(s.gs, tool)))
  {
    var image := ResolveTexture(tool.texture, platform.loadAsset);
    var n := |points| - 1;
    var rows := Layout(points, platform, n);
    var start := s.(gs := StrokeState(s.gs, tool));
    StrokeRunsBody(points, pressures, tilts, tool, platform, s);
    assert StrokeBody(points, pressures, tilts, tool, platform) == SegmentsUpTo(points, pressures, tilts, tool, platform, n);
    SegmentsAreRows(points, pressures, tilts, tool, platform, n);
    RowsRun(rows, pressures, tilts, tool, image, start);
    StampCountIsTotal(points, platform, n);
    assert StrokeStampCount(points, platform) == TotalStamps(rows);
  }

  /**
    A blur-eraser stroke leaves one translucent white disc of radius 20 around every
    sample when the blur filter exists, and nothing but the setup otherwise.
  */
  lemma {:induction false} BlurStrokeRun(points: seq<Point>, pressures: seq<real>, tilts: seq<real>, tool: Tool,
                                         platform: Platform, s: Surface)
    requires |points| >= 2 && tool.kind == BlurEraser
    ensures platform.gaussianBlurAvailable ==>
      Run(StrokeCommands(points, pressures, tilts, tool, platform), s) ==
      s.(gs := StrokeState(s.gs, tool).(fill := BlurTint),
         marks := s.marks + BlurMarks(points, |points|, StrokeState(s.gs, tool)))
    ensures !platform.gaussianBlurAvailable ==>
      Run(StrokeCommands(points, pressures, tilts, tool, platform), s) == s.(gs := StrokeState(s.gs, tool))
  {
    StrokeRunsBody(points, pressures, tilts, tool, platform, s);
    if platform.gaussianBlurAvailable {
      BlurRun(points, |points|, s.(gs := StrokeState(s.gs, tool)));
    }
  }

  /** A pixelate-eraser stroke leaves one grey grid cell under every sample. */
  lemma {:induction false} PixelateStrokeRun(points: seq<Point>, pressures: seq<real>, tilts: seq<real>, tool: Tool,
                                             platform: Platform, s: Surface)
    requires |points| >= 2 && tool.kind == PixelateEraser
    ensures Run(StrokeCommands(points, pressures, tilts, tool, platform), s) ==
      s.(gs := StrokeState(s.gs, tool).(fill := SystemGray),
         marks := s.marks + PixelateMarks(points, |points|, StrokeState(s.gs, tool)))
  {
    StrokeRunsBody(points, pressures, tilts, tool, platform, s);
    PixelateRun(points, |points|, s.(gs := StrokeState(s.gs, tool)));
  }

  /**
    After any stroke of two or more samples the tool's blend mode and opacity are in
    force, the transform and the stack of saved states are as they were, and no path
    is pending.
  */
  lemma {:induction false} StrokeLeavesToolState(points: seq<Point>, pressures: seq<real>, tilts: seq<real>,
                                                 tool: Tool, platform: Platform, s: Surface)
    requires |points| >= 2 && s.path == []
    ensures var r := Run(StrokeCommands(points, pressures, tilts, tool, platform), s);
      && r.gs.blend == tool.blendMode && r.gs.alpha == tool.opacity
      && r.gs.ctm == s.gs.ctm && r.saved == s.saved && r.path == []
  {
    if tool.kind == BlurEraser {
      BlurStrokeRun(points, pressures, tilts, tool, platform, s);
    } else if tool.kind == PixelateEraser {
      PixelateStrokeRun(points, pressures, tilts, tool, platform, s);
    } else if tool.kind == CustomBrush {
      TexturedStrokeRun(points, pressures, tilts, tool, platform, s);
    } else {
      PlainStrokeRun(points, pressures, tilts, tool, platform, s);
    }
  }
}
