/**
  The geometry of a stroke: where stamps fall along a segment, how many there are,
  and which grid cell the pixelate eraser fills.
*/
module BrushGeometry {
  import opened Graphics
  import opened BrushEngine

  /** Consecutive stamps of a segment are the same distance apart: `(end - start) / steps`. */
  lemma {:induction false} StampSpacing(start: Point, end: Point, steps: nat, k: nat)
    requires steps >= 1 && k < steps
    ensures StampPoint(start, end, k + 1, steps).x - StampPoint(start, end, k, steps).x ==
      (end.x - start.x) / steps as real
    ensures StampPoint(start, end, k + 1, steps).y - StampPoint(start, end, k, steps).y ==
      (end.y - start.y) / steps as real
  {
    var n := steps as real;
    var t0 := k as real / n;
    var t1 := (k + 1) as real / n;
    assert t1 == t0 + 1.0 / n;
    Distribute(end.x - start.x, t0, 1.0 / n);
    Distribute(end.y - start.y, t0, 1.0 / n);
  }

  lemma Distribute(d: real, a: real, b: real)
    ensures d * (a + b) == d * a + d * b
  {
  }

  /** Every stamp lies between the segment's endpoints, coordinate by coordinate. */
  lemma {:induction false} StampBetweenEndpoints(start: Point, end: Point, k: nat, steps: nat)
    requires steps >= 1 && k <= steps
    ensures var p := StampPoint(start, end, k, steps);
      && (start.x <= end.x ==> start.x <= p.x <= end.x)
      && (end.x <= start.x ==> end.x <= p.x <= start.x)
      && (start.y <= end.y ==> start.y <= p.y <= end.y)
      && (end.y <= start.y ==> end.y <= p.y <= start.y)
  {
    var t := k as real / steps as real;
    assert 0.0 <= t <= 1.0;
    ScaleWithin(end.x - start.x, t);
    ScaleWithin(end.y - start.y, t);
  }

  /** Scaling by a fraction between 0 and 1 stays between 0 and the value. */
  lemma ScaleWithin(d: real, t: real)
    requires 0.0 <= t <= 1.0
    ensures 0.0 <= d ==> 0.0 <= d * t <= d
    ensures d <= 0.0 ==> d <= d * t <= 0.0
  {
  }

  /** Short segments get two stamps, one at each end; a 20-point segment gets eleven. */
  lemma StepsExamples()
    ensures Steps(0.0) == 1 && Steps(3.9) == 1 && Steps(4.0) == 2 && Steps(5.0) == 2 && Steps(20.0) == 10
  {
  }

  /**
    Two equal consecutive samples make a segment whose every stamp falls on that point;
    when `hypot` measures it as shorter than 4 (as the true `hypot(0, 0) == 0` is), it
    has exactly one interval and so two stamps.
  */
  lemma {:induction false} DegenerateSegment(p: Point, platform: Platform)
    ensures var ps := StampPoints(p, p, SegmentSteps([p, p], platform, 0));
      forall k :: 0 <= k < |ps| ==> ps[k] == p
    ensures platform.hypot(0.0, 0.0) < 4.0 ==>
      SegmentSteps([p, p], platform, 0) == 1 && StampPoints(p, p, SegmentSteps([p, p], platform, 0)) == [p, p]
  {
    var ps := StampPoints(p, p, SegmentSteps([p, p], platform, 0));
    assert SegmentLength(platform, p, p) == platform.hypot(0.0, 0.0);
    if platform.hypot(0.0, 0.0) < 4.0 {
      assert |ps| == 2;
    }
  }

  /** The pixelate cell of a sample contains the sample. */
  lemma {:induction false} PixelCellContains(p: Point)
    ensures PixelCell(p).Contains(p)
  {
    FloorCell(p.x);
    FloorCell(p.y);
  }

  /** `floor(v / 10) * 10 <= v < floor(v / 10) * 10 + 10`. */
  lemma FloorCell(v: real)
    ensures (v / PixelSize).Floor as real * PixelSize <= v < (v / PixelSize).Floor as real * PixelSize + PixelSize
  {
  }

  /** Every point of a cell is pixelated into that same cell: cells tile the plane. */
  lemma {:induction false} PixelCellSnaps(p: Point, q: Point)
    requires PixelCell(p).Contains(q)
    ensures PixelCell(q) == PixelCell(p)
  {
    SameCell(p.x, q.x);
    SameCell(p.y, q.y);
  }

  lemma SameCell(u: real, v: real)
    requires (u / PixelSize).Floor as real * PixelSize <= v < (u / PixelSize).Floor as real * PixelSize + PixelSize
    ensures (v / PixelSize).Floor == (u / PixelSize).Floor
  {
  }
}
