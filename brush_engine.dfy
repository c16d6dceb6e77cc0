/**
  `CustomBrushEngine`: the stroke rasterizer and its texture cache.

  The functions in the first part of the module say, per rendering rule, which
  commands the engine issues; the class `CustomBrushEngine` issues them with the
  source's loops and is proved to issue exactly those. Everything the engine learns
  from outside (`hypot`, the asset catalogue, whether Core Image has a Gaussian blur
  filter) comes in through a `Platform` value.
*/
module BrushEngine {
  import opened Wrappers
  import opened Graphics
  import opened DrawingTools

  /** The calls the engine makes into code that is not part of this model. */
  datatype Platform = Platform(
    hypot: (real, real) -> real,               // Foundation `hypot`
    loadAsset: string -> Option<Image>,        // `UIImage(named:)?.cgImage`
    gaussianBlurAvailable: bool)               // `CIFilter(name: "CIGaussianBlur") != nil`

  // ---------------------------------------------------------------------------
  // Texture cache

  /** Every cached texture is what the asset loader gives for that name. */
  ghost predicate CacheAgrees(cache: map<string, Image>, loadAsset: string -> Option<Image>) {
    forall name :: name in cache ==> loadAsset(name) == Some(cache[name])
  }

  /** The result of one `loadTexture(named:)`: the texture, the new cache, and whether the loader ran. */
  datatype Lookup = Lookup(image: Option<Image>, cache: map<string, Image>, loaded: bool)

  /** `loadTexture(named:)`: a cache hit, else one load whose success (only) is cached. */
  function LoadThroughCache(cache: map<string, Image>, loadAsset: string -> Option<Image>, name: string): (r: Lookup)
    ensures name in cache ==> !r.loaded && r.cache == cache && r.image == Some(cache[name])
    ensures name !in cache ==> r.loaded && r.image == loadAsset(name)
    ensures r.image.None? ==> r.cache == cache
    ensures r.image.Some? ==> r.cache == cache[name := r.image.value]
    ensures cache.Keys <= r.cache.Keys <= cache.Keys + {name}
    ensures CacheAgrees(cache, loadAsset) ==> r.image == loadAsset(name) && CacheAgrees(r.cache, loadAsset)
  {
    if name in cache then Lookup(Some(cache[name]), cache, false)
    else match loadAsset(name)
      case Some(img) => Lookup(Some(img), cache[name := img], true)
      case None => Lookup(None, cache, true)
  }

  /** The cache after a series of lookups, and the names the loader was called with. */
  datatype Lookups = Lookups(cache: map<string, Image>, loads: seq<string>)

  function LoadAll(cache: map<string, Image>, loadAsset: string -> Option<Image>, names: seq<string>): Lookups
    decreases |names|
  {
    if names == [] then Lookups(cache, [])
    else
      var before := LoadAll(cache, loadAsset, names[..|names| - 1]);
      var l := LoadThroughCache(before.cache, loadAsset, names[|names| - 1]);
      Lookups(l.cache, before.loads + if l.loaded then [names[|names| - 1]] else [])
  }

  /**
    Memoisation over any series of lookups: the cache only grows, it holds exactly the
    names asked for that loaded successfully, a name that loads is loaded at most once
    (never, if it was cached already), and a name that fails is loaded on every request.
  */
  lemma {:induction false} LoadAllMemoises(cache: map<string, Image>, loadAsset: string -> Option<Image>,
                                           names: seq<string>, n: string)
    requires CacheAgrees(cache, loadAsset)
    ensures var r := LoadAll(cache, loadAsset, names);
      && CacheAgrees(r.cache, loadAsset)
      && cache.Keys <= r.cache.Keys
      && (n in r.cache <==> n in cache || (n in names && loadAsset(n).Some?))
      && (loadAsset(n).Some? ==> multiset(r.loads)[n] == if n !in cache && n in names then 1 else 0)
      && (loadAsset(n).None? ==> multiset(r.loads)[n] == multiset(names)[n])
    decreases |names|
  {
    if names != [] {
      var init := names[..|names| - 1];
      var last := names[|names| - 1];
      assert names == init + [last];
      LoadAllMemoises(cache, loadAsset, init, n);
      var before := LoadAll(cache, loadAsset, init);
      var l := LoadThroughCache(before.cache, loadAsset, last);
      var added := if l.loaded then [last] else [];
      assert multiset(before.loads + added) == multiset(before.loads) + multiset(added);
      assert multiset(names) == multiset(init) + multiset{last};
      assert n in names <==> n in init || n == last;
    }
  }

  /** Lookups in two runs are lookups in one. */
  lemma {:induction false} LoadAllAppend(cache: map<string, Image>, loadAsset: string -> Option<Image>,
                                         a: seq<string>, b: seq<string>)
    ensures var first := LoadAll(cache, loadAsset, a);
      var second := LoadAll(first.cache, loadAsset, b);
      LoadAll(cache, loadAsset, a + b) == Lookups(second.cache, first.loads + second.loads)
    decreases |b|
  {
    if b == [] {
      assert a + b == a;
    } else {
      var b' := b[..|b| - 1];
      assert (a + b)[..|a + b| - 1] == a + b';
      assert (a + b)[|a + b| - 1] == b[|b| - 1];
      LoadAllAppend(cache, loadAsset, a, b');
    }
  }

  /** The cache requests for `count` stamps: one per stamp when a texture name is set. */
  function Requests(texture: Option<string>, count: nat): (r: seq<string>)
    ensures texture.None? ==> r == []
    ensures texture.Some? ==> |r| == count && forall i :: 0 <= i < count ==> r[i] == texture.value
  {
    match texture
    case None => []
    case Some(name) => seq(count, _ => name)
  }

  /**
    `k` lookups of the same texture, in closed form: nothing happens without a name or
    once the name is cached; otherwise the first lookup loads, and a name that fails to
    load is loaded again on every lookup.
  */
  function RepeatedLookups(cache: map<string, Image>, loadAsset: string -> Option<Image>, texture: Option<string>,
                           k: nat): Lookups
  {
    match texture
    case None => Lookups(cache, [])
    case Some(name) =>
      if k == 0 || name in cache then Lookups(cache, [])
      else match loadAsset(name)
        case Some(img) => Lookups(cache[name := img], [name])
        case None => Lookups(cache, seq(k, _ => name))
  }

  /** The closed form is what `k` calls of `loadTexture(named:)` do. */
  lemma {:induction false} RepeatedLookupsIsLoadAll(cache: map<string, Image>, loadAsset: string -> Option<Image>,
                                                    texture: Option<string>, k: nat)
    ensures LoadAll(cache, loadAsset, Requests(texture, k)) == RepeatedLookups(cache, loadAsset, texture, k)
  {
    if texture.Some? && k > 0 {
      assert Requests(texture, k)[..k - 1] == Requests(texture, k - 1);
      RepeatedLookupsIsLoadAll(cache, loadAsset, texture, k - 1);
      RepeatedLookupsOneMore(cache, loadAsset, texture, k - 1);
    }
  }

  /** One more lookup of the texture: `loadTexture(named:)` on the cache the first `k` left. */
  lemma RepeatedLookupsOneMore(cache: map<string, Image>, loadAsset: string -> Option<Image>,
                               texture: Option<string>, k: nat)
    ensures var before := RepeatedLookups(cache, loadAsset, texture, k);
      var after := RepeatedLookups(cache, loadAsset, texture, k + 1);
      match texture
      case None => after == before
      case Some(name) =>
        var l := LoadThroughCache(before.cache, loadAsset, name);
        after.cache == l.cache && after.loads == before.loads + if l.loaded then [name] else []
  {
    if texture.Some? && texture.value !in cache && loadAsset(texture.value).None? {
      var name := texture.value;
      assert seq(k + 1, _ => name) == seq(k, _ => name) + [name];
    }
  }

  /** `a` lookups then `b` more are `a + b` lookups. */
  lemma RepeatedLookupsAppend(cache: map<string, Image>, loadAsset: string -> Option<Image>,
                              texture: Option<string>, a: nat, b: nat)
    ensures var first := RepeatedLookups(cache, loadAsset, texture, a);
      var second := RepeatedLookups(first.cache, loadAsset, texture, b);
      RepeatedLookups(cache, loadAsset, texture, a + b) == Lookups(second.cache, first.loads + second.loads)
  {
    if texture.Some? && texture.value !in cache && loadAsset(texture.value).None? {
      var name := texture.value;
      assert seq(a + b, _ => name) == seq(a, _ => name) + seq(b, _ => name);
    }
  }

  // ---------------------------------------------------------------------------
  // Per-segment values

  /** `pressures[safe: i] ?? 1.0`: the sample's pressure, 1 when there is none. */
  function PressureAt(pressures: seq<real>, i: nat): (p: real)
    ensures i < |pressures| ==> p == pressures[i]
    ensures i >= |pressures| ==> p == 1.0
  {
    if i < |pressures| then pressures[i] else 1.0
  }

  /** `tilts[safe: i] ?? 0.0`: the sample's tilt, 0 when there is none. */
  function TiltAt(tilts: seq<real>, i: nat): (t: real)
    ensures i < |tilts| ==> t == tilts[i]
    ensures i >= |tilts| ==> t == 0.0
  {
    if i < |tilts| then tilts[i] else 0.0
  }

  /** `tool.width * pressure`: the width of the segment that starts at sample `i`. */
  function SegmentWidth(tool: Tool, pressures: seq<real>, i: nat): real {
    tool.width * PressureAt(pressures, i)
  }

  /** A segment is the tool's width scaled by its starting sample's pressure, or the tool's width without one. */
  lemma SegmentWidthScales(tool: Tool, pressures: seq<real>, i: nat)
    ensures i < |pressures| ==> SegmentWidth(tool, pressures, i) == tool.width * pressures[i]
    ensures i >= |pressures| ==> SegmentWidth(tool, pressures, i) == tool.width
  {
  }

  /** Swift's `Int(_:)` on a floating-point value: rounds toward zero. */
  function TruncateToInt(x: real): (n: int)
    ensures 0.0 <= x ==> 0 <= n && n as real <= x < n as real + 1.0
    ensures x < 0.0 ==> n <= 0 && n as real - 1.0 < x <= n as real
    decreases if x >= 0.0 then 0 else 1
  {
    if x >= 0.0 then x.Floor else -TruncateToInt(-x)
  }

  /** `max(Int(distance / 2), 1)`: the number of intervals between stamps. */
  function Steps(distance: real): (n: nat)
    ensures n >= 1
    ensures distance >= 2.0 ==> 2.0 * n as real <= distance < 2.0 * n as real + 2.0
    ensures distance < 4.0 ==> n == 1
  {
    var t := TruncateToInt(distance / 2.0);
    if t > 1 then t else 1
  }

  /** The length of the segment from `start` to `end`, as the platform's `hypot` gives it. */
  function SegmentLength(platform: Platform, start: Point, end: Point): real {
    platform.hypot(end.x - start.x, end.y - start.y)
  }

  /** Stamp `k` of `steps`: `start + (end - start) * k / steps`. */
  function StampPoint(start: Point, end: Point, k: nat, steps: nat): (p: Point)
    requires steps >= 1
    ensures k == 0 ==> p == start
    ensures k == steps ==> p == end
  {
    var t := k as real / steps as real;
    Point(start.x + (end.x - start.x) * t, start.y + (end.y - start.y) * t)
  }

  /** The square of side `width` centred on `center`. */
  function StampRect(center: Point, width: real): (r: Rect)
    ensures r.Center() == center && r.width == width && r.height == width
  {
    Rect(center.x - width / 2.0, center.y - width / 2.0, width, width)
  }

  /** The texture a stamp uses: the tool's named texture, if it loads. */
  function ResolveTexture(texture: Option<string>, loadAsset: string -> Option<Image>): (r: Option<Image>)
    ensures texture.None? ==> r.None?
    ensures texture.Some? ==> r == loadAsset(texture.value)
  {
    match texture
    case None => None
    case Some(name) => loadAsset(name)
  }

  // ---------------------------------------------------------------------------
  // Commands, rule by rule

  /** The number of calls one stamp makes: seven for a texture tile, two for a dot. */
  function StampSize(image: Option<Image>): nat {
    if image.Some? then 7 else 2
  }

  /**
    One stamp: a texture tile rotated about its centre and multiplied in, inside a
    save/restore pair; without a texture, a solid dot of the same size.
  */
  function StampCommands(p: Point, width: real, tilt: real, image: Option<Image>, color: Color): seq<Command> {
    match image
    case Some(img) =>
      [SaveGState, TranslateBy(p.x, p.y), RotateBy(tilt), TranslateBy(-p.x, -p.y),
       SetBlendMode(Multiply), DrawImage(img, StampRect(p, width)), RestoreGState]
    case None =>
      [SetFillColor(color), FillEllipse(StampRect(p, width))]
  }

  /** The points `drawTexturedSegment` stamps at: `steps + 1` of them, both endpoints included. */
  function StampPoints(start: Point, end: Point, steps: nat): (ps: seq<Point>)
    requires steps >= 1
    ensures |ps| == steps + 1 && ps[0] == start && ps[steps] == end
    ensures forall k :: 0 <= k <= steps ==> ps[k] == StampPoint(start, end, k, steps)
  {
    seq(steps + 1, k requires 0 <= k <= steps => StampPoint(start, end, k, steps))
  }

  /**
    A stamp makes `StampSize` calls. A tile opens with a save and closes with the restore,
    with the image drawn in the stamp square just before it. A dot sets the fill colour
    and fills the stamp square.
  */
  lemma StampCommandsShape(p: Point, width: real, tilt: real, image: Option<Image>, color: Color)
    ensures var r := StampCommands(p, width, tilt, image, color);
      && |r| == StampSize(image)
      && (image.Some? ==>
            r[0] == SaveGState && r[|r| - 1] == RestoreGState && r[|r| - 2] == DrawImage(image.value, StampRect(p, width)))
      && (image.None? ==> r[0] == SetFillColor(color) && r[|r| - 1] == FillEllipse(StampRect(p, width)))
  {
  }

  /** A row of stamps makes one stamp's calls per point. */
  lemma {:induction false} StampsLength(ps: seq<Point>, width: real, tilt: real, image: Option<Image>, color: Color)
    ensures |Stamps(ps, width, tilt, image, color)| == |ps| * StampSize(image)
    decreases |ps|
  {
    if ps != [] {
      StampsLength(ps[..|ps| - 1], width, tilt, image, color);
      StampCommandsShape(ps[|ps| - 1], width, tilt, image, color);
      assert (|ps| - 1) * StampSize(image) + StampSize(image) == |ps| * StampSize(image);
    }
  }

  /** One stamp at each of `ps`, in order. */
  function Stamps(ps: seq<Point>, width: real, tilt: real, image: Option<Image>, color: Color): seq<Command>
    decreases |ps|
  {
    if ps == [] then []
    else Stamps(ps[..|ps| - 1], width, tilt, image, color) + StampCommands(ps[|ps| - 1], width, tilt, image, color)
  }

  /** `drawTexturedSegment`: a stamp at each stamp point. */
  function TexturedSegmentCommands(start: Point, end: Point, width: real, tilt: real, image: Option<Image>,
                                   color: Color, distance: real): seq<Command>
  {
    Stamps(StampPoints(start, end, Steps(distance)), width, tilt, image, color)
  }

  /** One plain segment: a round-capped, round-joined line of the segment's width. */
  function PlainSegmentCommands(start: Point, end: Point, width: real, color: Color): seq<Command> {
    [SetStrokeColor(color), SetLineWidth(width), SetLineCap(RoundCap), SetLineJoin(RoundJoin),
     MoveTo(start), AddLineTo(end), StrokePath]
  }

  /** The segment from sample `i` to sample `i + 1`, by tool kind. */
  function SegmentCommands(points: seq<Point>, pressures: seq<real>, tilts: seq<real>, tool: Tool,
                           platform: Platform, i: nat): seq<Command>
    requires i + 1 < |points|
  {
    if tool.kind == CustomBrush then
      TexturedSegmentCommands(points[i], points[i + 1], SegmentWidth(tool, pressures, i), TiltAt(tilts, i),
                              ResolveTexture(tool.texture, platform.loadAsset), tool.color,
                              SegmentLength(platform, points[i], points[i + 1]))
    else
      PlainSegmentCommands(points[i], points[i + 1], SegmentWidth(tool, pressures, i), tool.color)
  }

  /** The first `n` segments. */
  function SegmentsUpTo(points: seq<Point>, pressures: seq<real>, tilts: seq<real>, tool: Tool,
                        platform: Platform, n: nat): seq<Command>
    requires n < |points|
  {
    if n == 0 then []
    else SegmentsUpTo(points, pressures, tilts, tool, platform, n - 1) +
         SegmentCommands(points, pressures, tilts, tool, platform, n - 1)
  }

  /**
    Segment `i` by kind: a custom brush makes the calls of `SegmentSteps + 1` stamps; any
    other kind makes seven calls that end by stroking the one line from sample `i` to
    sample `i + 1`, with the width set from sample `i`'s pressure before it.
  */
  lemma SegmentCommandsShape(points: seq<Point>, pressures: seq<real>, tilts: seq<real>, tool: Tool,
                             platform: Platform, i: nat)
    requires i + 1 < |points|
    ensures var r := SegmentCommands(points, pressures, tilts, tool, platform, i);
      && (tool.kind == CustomBrush ==>
            |r| == (SegmentSteps(points, platform, i) + 1) * StampSize(ResolveTexture(tool.texture, platform.loadAsset)))
      && (tool.kind != CustomBrush ==>
            |r| == 7 && r[1] == SetLineWidth(tool.width * PressureAt(pressures, i)) &&
            r[4] == MoveTo(points[i]) && r[5] == AddLineTo(points[i + 1]) && r[6] == StrokePath)
  {
    if tool.kind == CustomBrush {
      StampsLength(StampPoints(points[i], points[i + 1], SegmentSteps(points, platform, i)), SegmentWidth(tool, pressures, i), TiltAt(tilts, i),
                   ResolveTexture(tool.texture, platform.loadAsset), tool.color);
    }
  }

  /** The disc the blur eraser paints around a sample: radius 20. */
  function BlurRect(p: Point): (r: Rect)
    ensures r.Center() == p && r.width == 40.0 && r.height == 40.0
  {
    Rect(p.x - 20.0, p.y - 20.0, 20.0 * 2.0, 20.0 * 2.0)
  }

  /** White at alpha 0.3. */
  const BlurTint: Color := White.WithAlphaComponent(0.3)

  function BlurUpTo(points: seq<Point>, n: nat): seq<Command>
    requires n <= |points|
  {
    if n == 0 then []
    else BlurUpTo(points, n - 1) + [SetFillColor(BlurTint), FillEllipse(BlurRect(points[n - 1]))]
  }

  /** The blur of the first `n` samples: a tint and a disc for each, in sample order. */
  lemma {:induction false} BlurUpToShape(points: seq<Point>, n: nat)
    requires n <= |points|
    ensures |BlurUpTo(points, n)| == 2 * n
    ensures forall i :: 0 <= i < n ==>
      BlurUpTo(points, n)[2 * i] == SetFillColor(BlurTint) && BlurUpTo(points, n)[2 * i + 1] == FillEllipse(BlurRect(points[i]))
  {
    if n > 0 {
      BlurUpToShape(points, n - 1);
    }
  }

  /** `applyBlurEffect`: one translucent disc per sample, nothing without the filter. */
  function BlurCommands(points: seq<Point>, filterAvailable: bool): seq<Command> {
    if filterAvailable then BlurUpTo(points, |points|) else []
  }

  const PixelSize: real := 10.0

  /** The grid cell of size 10 that the pixelate eraser fills for a sample. */
  function PixelCell(p: Point): (r: Rect)
    ensures r.width == PixelSize && r.height == PixelSize
  {
    Rect((p.x / PixelSize).Floor as real * PixelSize, (p.y / PixelSize).Floor as real * PixelSize,
         PixelSize, PixelSize)
  }

  function PixelateUpTo(points: seq<Point>, n: nat): seq<Command>
    requires n <= |points|
  {
    if n == 0 then []
    else PixelateUpTo(points, n - 1) + [SetFillColor(SystemGray), FillRect(PixelCell(points[n - 1]))]
  }

  /** The pixelation of the first `n` samples: the grey and the cell for each, in sample order. */
  lemma {:induction false} PixelateUpToShape(points: seq<Point>, n: nat)
    requires n <= |points|
    ensures |PixelateUpTo(points, n)| == 2 * n
    ensures forall i :: 0 <= i < n ==>
      PixelateUpTo(points, n)[2 * i] == SetFillColor(SystemGray) &&
      PixelateUpTo(points, n)[2 * i + 1] == FillRect(PixelCell(points[i]))
  {
    if n > 0 {
      PixelateUpToShape(points, n - 1);
    }
  }

  /** `applyPixelateEffect`: one grey cell per sample. */
  function PixelateCommands(points: seq<Point>): seq<Command> {
    PixelateUpTo(points, |points|)
  }

  /** The first `n` segments: `n` lines, or the stamps of `n` textured segments. */
  lemma {:induction false} SegmentsUpToLength(points: seq<Point>, pressures: seq<real>, tilts: seq<real>, tool: Tool,
                                              platform: Platform, n: nat)
    requires n < |points|
    ensures |SegmentsUpTo(points, pressures, tilts, tool, platform, n)| ==
      if tool.kind == CustomBrush then StampCount(points, platform, n) * StampSize(ResolveTexture(tool.texture, platform.loadAsset))
      else 7 * n
  {
    if n > 0 {
      SegmentsUpToLength(points, pressures, tilts, tool, platform, n - 1);
      SegmentCommandsShape(points, pressures, tilts, tool, platform, n - 1);
      var k := StampSize(ResolveTexture(tool.texture, platform.loadAsset));
      var c := StampCount(points, platform, n - 1);
      var t := SegmentSteps(points, platform, n - 1);
      assert c * k + (t + 1) * k == (c + t + 1) * k;
    }
  }

  /** What a stroke draws after setting blend mode and opacity: the blur path, the pixelate path, or the segments. */
  function StrokeBody(points: seq<Point>, pressures: seq<real>, tilts: seq<real>, tool: Tool,
                      platform: Platform): seq<Command>
    requires |points| >= 1
  {
    if tool.kind == BlurEraser then BlurCommands(points, platform.gaussianBlurAvailable)
    else if tool.kind == PixelateEraser then PixelateCommands(points)
    else SegmentsUpTo(points, pressures, tilts, tool, platform, |points| - 1)
  }

  /**
    The blur path issues nothing without the filter; otherwise, for each sample in order
    (not each pair), the white alpha-0.3 tint and then the disc around the sample.
  */
  lemma BlurCommandsShape(points: seq<Point>, filterAvailable: bool)
    ensures var r := BlurCommands(points, filterAvailable);
      && (!filterAvailable ==> r == [])
      && (filterAvailable ==> |r| == 2 * |points| && forall i :: 0 <= i < |points| ==>
            r[2 * i] == SetFillColor(BlurTint) && r[2 * i + 1] == FillEllipse(BlurRect(points[i])))
  {
    BlurUpToShape(points, |points|);
  }

  /** The pixelate path issues, for each sample in order, the system grey and then the sample's grid cell. */
  lemma PixelateCommandsShape(points: seq<Point>)
    ensures var r := PixelateCommands(points);
      && |r| == 2 * |points|
      && forall i :: 0 <= i < |points| ==>
           r[2 * i] == SetFillColor(SystemGray) && r[2 * i + 1] == FillRect(PixelCell(points[i]))
  {
    PixelateUpToShape(points, |points|);
  }

  /**
    The number of calls in a stroke's body, by kind: two per sample for the blur path (none
    without the filter) and for the pixelate path; seven per consecutive pair of samples for
    a line; one stamp's calls per stamp of a custom brush.
  */
  lemma StrokeBodyLength(points: seq<Point>, pressures: seq<real>, tilts: seq<real>, tool: Tool, platform: Platform)
    requires |points| >= 1
    ensures tool.kind == BlurEraser ==>
      |StrokeBody(points, pressures, tilts, tool, platform)| == if platform.gaussianBlurAvailable then 2 * |points| else 0
    ensures tool.kind == PixelateEraser ==> |StrokeBody(points, pressures, tilts, tool, platform)| == 2 * |points|
    ensures tool.kind == CustomBrush ==>
      |StrokeBody(points, pressures, tilts, tool, platform)| ==
        StampCount(points, platform, |points| - 1) * StampSize(ResolveTexture(tool.texture, platform.loadAsset))
    ensures tool.kind != BlurEraser && tool.kind != PixelateEraser && tool.kind != CustomBrush ==>
      |StrokeBody(points, pressures, tilts, tool, platform)| == 7 * (|points| - 1)
  {
    if tool.kind == BlurEraser {
      BlurCommandsShape(points, platform.gaussianBlurAvailable);
    } else if tool.kind == PixelateEraser {
      PixelateCommandsShape(points);
    } else {
      SegmentsUpToLength(points, pressures, tilts, tool, platform, |points| - 1);
    }
  }

  /**
    `createTexturedStroke`: nothing for fewer than two samples; otherwise the tool's
    blend mode and opacity, then the blur path, the pixelate path, or one segment per
    consecutive pair of samples.
  */
  function StrokeCommands(points: seq<Point>, pressures: seq<real>, tilts: seq<real>, tool: Tool,
                          platform: Platform): (r: seq<Command>)
    ensures |points| < 2 ==> r == []
    ensures |points| >= 2 ==> |r| >= 2 && r[0] == SetBlendMode(tool.blendMode) && r[1] == SetAlpha(tool.opacity)
  {
    if |points| <= 1 then []
    else [SetBlendMode(tool.blendMode), SetAlpha(tool.opacity)] + StrokeBody(points, pressures, tilts, tool, platform)
  }

  /** The number of intervals of the textured segment from sample `i` to sample `i + 1`. */
  function SegmentSteps(points: seq<Point>, platform: Platform, i: nat): (n: nat)
    requires i + 1 < |points|
    ensures n >= 1
  {
    Steps(SegmentLength(platform, points[i], points[i + 1]))
  }

  /** The number of stamps in the first `n` textured segments. */
  function StampCount(points: seq<Point>, platform: Platform, n: nat): nat
    requires n < |points|
  {
    if n == 0 then 0
    else StampCount(points, platform, n - 1) + SegmentSteps(points, platform, n - 1) + 1
  }

  /** The texture a stroke stamps with: only custom brushes use one. */
  function StrokeTexture(tool: Tool): (r: Option<string>)
    ensures r.Some? <==> tool.kind == CustomBrush && tool.texture.Some?
  {
    if tool.kind == CustomBrush then tool.texture else None
  }

  /** The number of stamps a stroke makes, were every segment textured. */
  function StrokeStampCount(points: seq<Point>, platform: Platform): nat {
    if |points| >= 2 then StampCount(points, platform, |points| - 1) else 0
  }

  // ---------------------------------------------------------------------------
  // The engine

  class CustomBrushEngine {
    const platform: Platform
    var textureCache: map<string, Image>
    /** Every name the asset loader has been called with, in order. */
    ghost var loads: seq<string>

    ghost predicate Valid()
      reads this
    {
      CacheAgrees(textureCache, platform.loadAsset)
    }

    /** The cache and the load log are what `k` lookups of `texture` make of `cache0` and `loads0`. */
    ghost predicate LookedUp(cache0: map<string, Image>, loads0: seq<string>, texture: Option<string>, k: nat)
      reads this
    {
      var r := RepeatedLookups(cache0, platform.loadAsset, texture, k);
      textureCache == r.cache && loads == loads0 + r.loads
    }

    constructor (platform: Platform)
      ensures Valid()
      ensures this.platform == platform && textureCache == map[] && loads == []
    {
      this.platform := platform;
      textureCache := map[];
      loads := [];
    }

    /** `loadTexture(named:)`. */
    method LoadTexture(name: string) returns (image: Option<Image>)
      requires Valid()
      modifies this
      ensures Valid()
      ensures image == platform.loadAsset(name)
      ensures var l := LoadThroughCache(old(textureCache), platform.loadAsset, name);
        textureCache == l.cache && image == l.image && loads == old(loads) + if l.loaded then [name] else []
    {
      if name in textureCache {
        return Some(textureCache[name]);
      }
      image := platform.loadAsset(name);
      loads := loads + [name];
      if image.Some? {
        textureCache := textureCache[name := image.value];
      }
    }

    /**
      One stamp of `drawTexturedSegment`: the texture tile when the tool names a texture
      that loads, the solid dot otherwise.
    */
    method DrawStamp(point: Point, width: real, tilt: real, texture: Option<string>, color: Color,
                     context: Context)
      requires Valid()
      modifies this, context
      ensures Valid()
      ensures context.log == old(context.log) +
        StampCommands(point, width, tilt, ResolveTexture(texture, platform.loadAsset), color)
      ensures texture.None? ==> textureCache == old(textureCache) && loads == old(loads)
      ensures texture.Some? ==>
        var l := LoadThroughCache(old(textureCache), platform.loadAsset, texture.value);
        textureCache == l.cache && loads == old(loads) + if l.loaded then [texture.value] else []
    {
      var textureImage: Option<Image> := None;
      if texture.Some? {
        textureImage := LoadTexture(texture.value);
      }
      if textureImage.Some? {
        DrawTile(point, width, tilt, textureImage.value, context);
      } else {
        DrawDot(point, width, color, context);
      }
    }

    /** The textured stamp: the tile rotated by `tilt` about `point` and multiplied in. */
    method DrawTile(point: Point, width: real, tilt: real, image: Image, context: Context)
      modifies context
      ensures context.log == old(context.log) + StampCommands(point, width, tilt, Some(image), Black)
    {
      var rect := Rect(point.x - width / 2.0, point.y - width / 2.0, width, width);
      context.Issue(SaveGState);
      context.Issue(TranslateBy(point.x, point.y));
      context.Issue(RotateBy(tilt));
      context.Issue(TranslateBy(-point.x, -point.y));
      context.Issue(SetBlendMode(Multiply));
      context.Issue(DrawImage(image, rect));
      context.Issue(RestoreGState);
      assert rect == StampRect(point, width);
    }

    /** The stamp without texture: a solid dot of the stamp's size. */
    method DrawDot(point: Point, width: real, color: Color, context: Context)
      modifies context
      ensures context.log == old(context.log) + StampCommands(point, width, 0.0, None, color)
    {
      context.Issue(SetFillColor(color));
      context.Issue(FillEllipse(Rect(point.x - width / 2.0, point.y - width / 2.0, width, width)));
    }

    /**
      One turn of `drawTexturedSegment`'s loop: stamp `i` of `steps`, at
      `start + (end - start) * i / steps`.
    */
    method DrawStampAt(start: Point, end: Point, i: nat, steps: nat, width: real, tilt: real,
                       texture: Option<string>, color: Color, context: Context,
                       ghost log0: seq<Command>, ghost cache0: map<string, Image>, ghost loads0: seq<string>)
      requires Valid()
      requires steps >= 1 && i <= steps
      requires context.log == log0 +
        Stamps(StampPoints(start, end, steps)[..i], width, tilt, ResolveTexture(texture, platform.loadAsset), color)
      requires LookedUp(cache0, loads0, texture, i)
      modifies this, context
      ensures Valid()
      ensures context.log == log0 +
        Stamps(StampPoints(start, end, steps)[..i + 1], width, tilt, ResolveTexture(texture, platform.loadAsset), color)
      ensures LookedUp(cache0, loads0, texture, i + 1)
    {
      var point := StampPoint(start, end, i, steps);
      ghost var image := ResolveTexture(texture, platform.loadAsset);
      ghost var ps := StampPoints(start, end, steps);
      ghost var done := Stamps(ps[..i], width, tilt, image, color);
      ghost var stamp := StampCommands(point, width, tilt, image, color);
      assert ps[..i + 1][..i] == ps[..i] && ps[..i + 1][i] == point;
      assert Stamps(ps[..i + 1], width, tilt, image, color) == done + stamp;
      DrawStamp(point, width, tilt, texture, color, context);
      assert context.log == log0 + (done + stamp);
      RepeatedLookupsOneMore(cache0, platform.loadAsset, texture, i);
    }

    /** `drawTexturedSegment`: `steps + 1` evenly spaced stamps from `start` to `end`. */
    method DrawTexturedSegment(start: Point, end: Point, width: real, tilt: real, texture: Option<string>,
                               color: Color, context: Context)
      requires Valid()
      modifies this, context
      ensures Valid()
      ensures context.log == old(context.log) +
        TexturedSegmentCommands(start, end, width, tilt, ResolveTexture(texture, platform.loadAsset), color,
                                SegmentLength(platform, start, end))
      ensures LookedUp(old(textureCache), old(loads), texture, Steps(SegmentLength(platform, start, end)) + 1)
    {
      var distance := platform.hypot(end.x - start.x, end.y - start.y);
      var steps := Steps(distance);
      DrawStamps(start, end, steps, width, tilt, texture, color, context);
    }

    /** The loop of `drawTexturedSegment`: stamps `0` to `steps`, in order. */
    method DrawStamps(start: Point, end: Point, steps: nat, width: real, tilt: real, texture: Option<string>,
                      color: Color, context: Context)
      requires Valid() && steps >= 1
      modifies this, context
      ensures Valid()
      ensures context.log == old(context.log) +
        Stamps(StampPoints(start, end, steps), width, tilt, ResolveTexture(texture, platform.loadAsset), color)
      ensures LookedUp(old(textureCache), old(loads), texture, steps + 1)
    {
      ghost var ps := StampPoints(start, end, steps);
      var i := 0;
      while i <= steps
        invariant 0 <= i <= steps + 1
        invariant Valid()
        invariant context.log == old(context.log) +
          Stamps(ps[..i], width, tilt, ResolveTexture(texture, platform.loadAsset), color)
        invariant LookedUp(old(textureCache), old(loads), texture, i)
      {
        DrawStampAt(start, end, i, steps, width, tilt, texture, color, context,
                    old(context.log), old(textureCache), old(loads));
        i := i + 1;
      }
      assert ps[..i] == ps;
    }

    /**
      `drawTexturedSegment` called after `earlier` stamps of the same stroke: the cache
      requests of this segment continue those of the earlier ones.
    */
    method DrawTexturedSegmentAfter(start: Point, end: Point, width: real, tilt: real, texture: Option<string>,
                                    color: Color, context: Context,
                                    ghost cache0: map<string, Image>, ghost loads0: seq<string>, ghost earlier: nat)
      requires Valid()
      requires LookedUp(cache0, loads0, texture, earlier)
      modifies this, context
      ensures Valid()
      ensures context.log == old(context.log) +
        TexturedSegmentCommands(start, end, width, tilt, ResolveTexture(texture, platform.loadAsset), color,
                                SegmentLength(platform, start, end))
      ensures LookedUp(cache0, loads0, texture, earlier + Steps(SegmentLength(platform, start, end)) + 1)
    {
      ghost var stamps := Steps(SegmentLength(platform, start, end)) + 1;
      ghost var first := RepeatedLookups(cache0, platform.loadAsset, texture, earlier);
      DrawTexturedSegment(start, end, width, tilt, texture, color, context);
      ghost var second := RepeatedLookups(first.cache, platform.loadAsset, texture, stamps);
      RepeatedLookupsAppend(cache0, platform.loadAsset, texture, earlier, stamps);
      assert loads == loads0 + (first.loads + second.loads);
    }

    /** `applyBlurEffect(to:at:)`. */
    method ApplyBlurEffect(context: Context, points: seq<Point>)
      modifies context
      ensures context.log == old(context.log) + BlurCommands(points, platform.gaussianBlurAvailable)
    {
      if !platform.gaussianBlurAvailable {
        return;
      }
      var i := 0;
      while i < |points|
        invariant 0 <= i <= |points|
        invariant context.log == old(context.log) + BlurUpTo(points, i)
      {
        var point := points[i];
        var blurRadius := 20.0;
        var rect := Rect(point.x - blurRadius, point.y - blurRadius, blurRadius * 2.0, blurRadius * 2.0);
        context.Issue(SetFillColor(White.WithAlphaComponent(0.3)));
        context.Issue(FillEllipse(rect));
        i := i + 1;
      }
    }

    /** `applyPixelateEffect(to:at:)`. */
    method ApplyPixelateEffect(context: Context, points: seq<Point>)
      modifies context
      ensures context.log == old(context.log) + PixelateCommands(points)
    {
      var pixelSize := 10.0;
      var i := 0;
      while i < |points|
        invariant 0 <= i <= |points|
        invariant context.log == old(context.log) + PixelateUpTo(points, i)
      {
        var point := points[i];
        var rect := Rect((point.x / pixelSize).Floor as real * pixelSize, (point.y / pixelSize).Floor as real * pixelSize,
                         pixelSize, pixelSize);
        context.Issue(SetFillColor(SystemGray));
        context.Issue(FillRect(rect));
        i := i + 1;
      }
    }

    /** A segment of a tool without texture: one stroked line with round caps and joins. */
    method DrawLineSegment(start: Point, end: Point, width: real, color: Color, context: Context)
      modifies context
      ensures context.log == old(context.log) + PlainSegmentCommands(start, end, width, color)
    {
      context.Issue(SetStrokeColor(color));
      context.Issue(SetLineWidth(width));
      context.Issue(SetLineCap(RoundCap));
      context.Issue(SetLineJoin(RoundJoin));
      context.Issue(MoveTo(start));
      context.Issue(AddLineTo(end));
      context.Issue(StrokePath);
    }

    /**
      One turn of `createTexturedStroke`'s loop: the segment from sample `i` to sample
      `i + 1`, with the starting sample's pressure and tilt.
    */
    method DrawSegmentAt(points: seq<Point>, pressures: seq<real>, tilts: seq<real>, tool: Tool, i: nat,
                         context: Context,
                         ghost log0: seq<Command>, ghost cache0: map<string, Image>, ghost loads0: seq<string>)
      requires Valid()
      requires i + 1 < |points|
      requires context.log == log0 + SegmentsUpTo(points, pressures, tilts, tool, platform, i)
      requires LookedUp(cache0, loads0, StrokeTexture(tool), StampCount(points, platform, i))
      modifies this, context
      ensures Valid()
      ensures context.log == log0 + SegmentsUpTo(points, pressures, tilts, tool, platform, i + 1)
      ensures LookedUp(cache0, loads0, StrokeTexture(tool), StampCount(points, platform, i + 1))
    {
      var startPoint := points[i];
      var endPoint := points[i + 1];
      var tilt := TiltAt(tilts, i);
      var dynamicWidth := SegmentWidth(tool, pressures, i);
      ghost var done := SegmentsUpTo(points, pressures, tilts, tool, platform, i);
      ghost var segment := SegmentCommands(points, pressures, tilts, tool, platform, i);
      assert SegmentsUpTo(points, pressures, tilts, tool, platform, i + 1) == done + segment;

      if tool.kind == CustomBrush {
        DrawTexturedSegmentAfter(startPoint, endPoint, dynamicWidth, tilt, tool.texture, tool.color, context,
                                 cache0, loads0, StampCount(points, platform, i));
      } else {
        DrawLineSegment(startPoint, endPoint, dynamicWidth, tool.color, context);
      }
      assert context.log == log0 + (done + segment);
    }

    /** The segment loop of `createTexturedStroke`: one segment per consecutive pair of samples. */
    method DrawSegments(points: seq<Point>, pressures: seq<real>, tilts: seq<real>, tool: Tool, context: Context)
      requires Valid()
      requires |points| >= 1
      modifies this, context
      ensures Valid()
      ensures context.log == old(context.log) + SegmentsUpTo(points, pressures, tilts, tool, platform, |points| - 1)
      ensures LookedUp(old(textureCache), old(loads), StrokeTexture(tool), StampCount(points, platform, |points| - 1))
    {
      var i := 0;
      while i < |points| - 1
        invariant 0 <= i <= |points| - 1
        invariant Valid()
        invariant context.log == old(context.log) + SegmentsUpTo(points, pressures, tilts, tool, platform, i)
        invariant LookedUp(old(textureCache), old(loads), StrokeTexture(tool), StampCount(points, platform, i))
      {
        DrawSegmentAt(points, pressures, tilts, tool, i, context, old(context.log), old(textureCache), old(loads));
        i := i + 1;
      }
    }

    /** The part of `createTexturedStroke` after blend mode and opacity are set: the dispatch on the tool's kind. */
    method DrawStrokeBody(points: seq<Point>, pressures: seq<real>, tilts: seq<real>, tool: Tool, context: Context)
      requires Valid()
      requires |points| >= 1
      modifies this, context
      ensures Valid()
      ensures context.log == old(context.log) + StrokeBody(points, pressures, tilts, tool, platform)
      ensures LookedUp(old(textureCache), old(loads), StrokeTexture(tool), StrokeStampCount(points, platform))
    {
      assert StrokeStampCount(points, platform) == StampCount(points, platform, |points| - 1);
      if tool.kind == BlurEraser {
        ApplyBlurEffect(context, points);
      } else if tool.kind == PixelateEraser {
        ApplyPixelateEffect(context, points);
      } else {
        DrawSegments(points, pressures, tilts, tool, context);
      }
    }

    /** `createTexturedStroke(points:pressures:tilts:tool:in:)`. */
    method CreateTexturedStroke(points: seq<Point>, pressures: seq<real>, tilts: seq<real>, tool: Tool,
                                context: Context)
      requires Valid()
      modifies this, context
      ensures Valid()
      ensures context.log == old(context.log) + StrokeCommands(points, pressures, tilts, tool, platform)
      ensures LookedUp(old(textureCache), old(loads), StrokeTexture(tool), StrokeStampCount(points, platform))
    {
      if |points| <= 1 {
        assert loads == old(loads) + [];
        return;
      }
      DrawStroke(points, pressures, tilts, tool, context);
    }

    /** `createTexturedStroke` past its guard: blend mode and opacity, then the body. */
    method DrawStroke(points: seq<Point>, pressures: seq<real>, tilts: seq<real>, tool: Tool, context: Context)
      requires Valid()
      requires |points| >= 2
      modifies this, context
      ensures Valid()
      ensures context.log == old(context.log) + StrokeCommands(points, pressures, tilts, tool, platform)
      ensures LookedUp(old(textureCache), old(loads), StrokeTexture(tool), StrokeStampCount(points, platform))
    {
      context.Issue(SetBlendMode(tool.blendMode));
      context.Issue(SetAlpha(tool.opacity));
      DrawStrokeBody(points, pressures, tilts, tool, context);
      assert context.log == old(context.log) + [SetBlendMode(tool.blendMode), SetAlpha(tool.opacity)] +
                            StrokeBody(points, pressures, tilts, tool, platform);
    }
  }
}
