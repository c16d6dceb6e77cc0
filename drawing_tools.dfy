/**
  The tool descriptor (`CustomDrawingTool`): its kinds, default field values, the
  PencilKit tool each kind stands for, and its keyed encoding, which covers only
  some of the fields.
*/
module DrawingTools {
  import opened Wrappers
  import opened Graphics

  /** `ToolType`, a `String`-backed enum. */
  datatype ToolType = Pen | Pencil | Marker | Highlighter | Eraser | BlurEraser | PixelateEraser | CustomBrush

  /** The enum's raw values. */
  function RawValue(t: ToolType): string {
    match t
    case Pen => "Pen"
    case Pencil => "Pencil"
    case Marker => "Marker"
    case Highlighter => "Highlighter"
    case Eraser => "Eraser"
    case BlurEraser => "Blur"
    case PixelateEraser => "Pixelate"
    case CustomBrush => "Custom"
  }

  /** `ToolType(rawValue:)`: the case with that raw value, if any. */
  function ToolTypeFromRawValue(s: string): (r: Option<ToolType>)
    ensures r.Some? ==> RawValue(r.value) == s
  {
    if s == "Pen" then Some(Pen)
    else if s == "Pencil" then Some(Pencil)
    else if s == "Marker" then Some(Marker)
    else if s == "Highlighter" then Some(Highlighter)
    else if s == "Eraser" then Some(Eraser)
    else if s == "Blur" then Some(BlurEraser)
    else if s == "Pixelate" then Some(PixelateEraser)
    else if s == "Custom" then Some(CustomBrush)
    else None
  }

  /** `ToolType.allCases`, in declaration order. */
  const AllToolTypes: seq<ToolType> :=
    [Pen, Pencil, Marker, Highlighter, Eraser, BlurEraser, PixelateEraser, CustomBrush]

  /** Every kind is listed in `allCases`, exactly once. */
  lemma AllCasesListsEachKindOnce(t: ToolType)
    ensures t in AllToolTypes
    ensures forall i, j :: 0 <= i < j < |AllToolTypes| ==> AllToolTypes[i] != AllToolTypes[j]
  {
  }

  /** The raw values are pairwise distinct. */
  lemma {:induction false} RawValuesDistinct(a: ToolType, b: ToolType)
    ensures RawValue(a) == RawValue(b) <==> a == b
  {
    RawValueRoundTrip(a);
    RawValueRoundTrip(b);
  }

  /** Reading a kind back from its raw value gives the kind. */
  lemma RawValueRoundTrip(t: ToolType)
    ensures ToolTypeFromRawValue(RawValue(t)) == Some(t)
  {
  }


  /** `CustomDrawingTool`. Its mutability is not modelled: a tool is a value. */
  datatype Tool = Tool(
    kind: ToolType,
    color: Color,
    width: real,
    opacity: real,
    pressure: real,
    tilt: real,
    texture: Option<string>,
    blendMode: BlendMode)

  /** `CustomDrawingTool()`: the property initialisers. */
  const DefaultTool: Tool := Tool(Pen, Black, 5.0, 1.0, 1.0, 0.0, None, Normal)

  /** PencilKit tools (`PKInkingTool`, `PKEraserTool`). */
  datatype InkType = PenInk | PencilInk | MarkerInk
  datatype EraserType = BitmapEraser | VectorEraser
  datatype PKTool =
    | InkingTool(ink: InkType, inkColor: Color, inkWidth: real)
    | EraserTool(eraser: EraserType)

  /** The kinds PencilKit treats as erasers. */
  predicate IsEraserKind(k: ToolType) {
    k == Eraser || k == BlurEraser || k == PixelateEraser
  }

  /** `createCustomTool()`: a pen-ink tool with the tool's colour and width. */
  function CreateCustomTool(tool: Tool): (r: PKTool)
    ensures r.InkingTool? && r.ink == PenInk
    ensures r.inkColor == tool.color && r.inkWidth == tool.width
  {
    InkingTool(PenInk, tool.color, tool.width)
  }

  /** `pkTool`: the PencilKit tool standing for `tool`. */
  function PkTool(tool: Tool): (r: PKTool)
    ensures r.EraserTool? <==> IsEraserKind(tool.kind)
    ensures tool.kind == Pen ==> r == InkingTool(PenInk, tool.color, tool.width)
    ensures tool.kind == Pencil ==> r == InkingTool(PencilInk, tool.color, tool.width)
    ensures tool.kind == Marker ==> r == InkingTool(MarkerInk, tool.color, tool.width)
    ensures tool.kind == Highlighter ==>
      r.InkingTool? && r.ink == MarkerInk && r.inkWidth == 2.0 * tool.width &&
      r.inkColor.alpha == 0.5 &&
      r.inkColor.red == tool.color.red && r.inkColor.green == tool.color.green && r.inkColor.blue == tool.color.blue
    ensures tool.kind == Eraser ==> r == EraserTool(BitmapEraser)
    ensures tool.kind == BlurEraser || tool.kind == PixelateEraser ==> r == EraserTool(VectorEraser)
    ensures tool.kind == CustomBrush ==> r == InkingTool(PenInk, tool.color, tool.width)
  {
    match tool.kind
    case Pen => InkingTool(PenInk, tool.color, tool.width)
    case Pencil => InkingTool(PencilInk, tool.color, tool.width)
    case Marker => InkingTool(MarkerInk, tool.color, tool.width)
    case Highlighter => InkingTool(MarkerInk, tool.color.WithAlphaComponent(0.5), tool.width * 2.0)
    case Eraser => EraserTool(BitmapEraser)
    case BlurEraser => EraserTool(VectorEraser)
    case PixelateEraser => EraserTool(VectorEraser)
    case CustomBrush => CreateCustomTool(tool)
  }

  /**
    The default tool is a black pen of width 5. Its colour and blend mode are the values a
    decoded tool falls back to, so it survives an encoding round trip unchanged.
  */
  lemma DefaultToolSurvivesCoding()
    ensures PkTool(DefaultTool) == InkingTool(PenInk, Black, 5.0)
    ensures Decode(Encode(DefaultTool)) == Success(DefaultTool)
  {
    DecodeEncode(DefaultTool);
  }

  /** The PencilKit tool depends on kind, colour and width only. */
  lemma PkToolIgnoresOtherFields(a: Tool, b: Tool)
    requires a.kind == b.kind && a.color == b.color && a.width == b.width
    ensures PkTool(a) == PkTool(b)
  {
  }

  // ---- Keyed encoding ----

  /** The values a keyed container holds (a JSON object's members). */
  datatype CodedValue = CodedString(s: string) | CodedNumber(n: real) | CodedNull

  /** A keyed container: coding key to value. */
  type Container = map<string, CodedValue>

  /** `CodingKeys`: `color` and `blendMode` are not among them. */
  const CodingKeys: set<string> := {"type", "width", "opacity", "pressure", "tilt", "texture"}

  /** `encode(to:)`: five fields always, `texture` only when present. */
  function Encode(tool: Tool): (c: Container)
    ensures c.Keys <= CodingKeys
    ensures "texture" in c <==> tool.texture.Some?
    ensures "color" !in c && "blendMode" !in c
  {
    var fields := map[
      "type" := CodedString(RawValue(tool.kind)),
      "width" := CodedNumber(tool.width),
      "opacity" := CodedNumber(tool.opacity),
      "pressure" := CodedNumber(tool.pressure),
      "tilt" := CodedNumber(tool.tilt)];
    match tool.texture
    case Some(name) => fields["texture" := CodedString(name)]
    case None => fields
  }

  /** The `DecodingError` cases `init(from:)` can throw. */
  datatype DecodingError =
    | KeyNotFound(key: string)
    | ValueNotFound(key: string)
    | TypeMismatch(key: string)
    | DataCorrupted(key: string)

  /** `decode(CGFloat.self, forKey:)`. */
  function DecodeNumber(c: Container, key: string): (r: Result<real, DecodingError>)
    ensures r.Success? <==> key in c && c[key].CodedNumber?
    ensures r.Success? ==> r.value == c[key].n
  {
    if key !in c then Failure(KeyNotFound(key))
    else match c[key]
      case CodedNumber(n) => Success(n)
      case CodedNull => Failure(ValueNotFound(key))
      case CodedString(_) => Failure(TypeMismatch(key))
  }

  /** `decode(ToolType.self, forKey:)`: a string that is one of the raw values. */
  function DecodeToolType(c: Container, key: string): (r: Result<ToolType, DecodingError>)
    ensures r.Success? <==> key in c && c[key].CodedString? && ToolTypeFromRawValue(c[key].s).Some?
    ensures r.Success? ==> RawValue(r.value) == c[key].s
  {
    if key !in c then Failure(KeyNotFound(key))
    else match c[key]
      case CodedString(s) =>
        (match ToolTypeFromRawValue(s)
         case Some(t) => Success(t)
         case None => Failure(DataCorrupted(key)))
      case CodedNull => Failure(ValueNotFound(key))
      case CodedNumber(_) => Failure(TypeMismatch(key))
  }

  /** `decodeIfPresent(String.self, forKey:)`: an absent key and a null both give nil. */
  function DecodeStringIfPresent(c: Container, key: string): (r: Result<Option<string>, DecodingError>)
    ensures r.Failure? <==> key in c && c[key].CodedNumber?
    ensures r == Success(None) <==> key !in c || c[key].CodedNull?
    ensures r.Success? && r.value.Some? ==> key in c && c[key] == CodedString(r.value.value)
  {
    if key !in c then Success(None)
    else match c[key]
      case CodedString(s) => Success(Some(s))
      case CodedNull => Success(None)
      case CodedNumber(_) => Failure(TypeMismatch(key))
  }

  /** The member under `key` is present and a number. */
  predicate HasNumber(c: Container, key: string) {
    key in c && c[key].CodedNumber?
  }

  /**
    `init(from:)`: the fields are decoded in declaration order and the first failure is
    thrown; `color` and `blendMode` keep their initial values.
  */
  function Decode(c: Container): (r: Result<Tool, DecodingError>)
    ensures r.Success? <==>
      && "type" in c && c["type"].CodedString? && ToolTypeFromRawValue(c["type"].s).Some?
      && HasNumber(c, "width") && HasNumber(c, "opacity") && HasNumber(c, "pressure") && HasNumber(c, "tilt")
      && !HasNumber(c, "texture")
    ensures r.Success? ==>
      && RawValue(r.value.kind) == c["type"].s
      && r.value.width == c["width"].n && r.value.opacity == c["opacity"].n
      && r.value.pressure == c["pressure"].n && r.value.tilt == c["tilt"].n
      && (r.value.texture.Some? <==> "texture" in c && c["texture"].CodedString?)
      && (r.value.texture.Some? ==> c["texture"].s == r.value.texture.value)
      && r.value.color == Black && r.value.blendMode == Normal
    ensures "type" !in c ==> r == Failure(KeyNotFound("type"))
    ensures DecodeToolType(c, "type").Success? && "width" !in c ==> r == Failure(KeyNotFound("width"))
  {
    var kind :- DecodeToolType(c, "type");
    var width :- DecodeNumber(c, "width");
    var opacity :- DecodeNumber(c, "opacity");
    var pressure :- DecodeNumber(c, "pressure");
    var tilt :- DecodeNumber(c, "tilt");
    var texture :- DecodeStringIfPresent(c, "texture");
    Success(Tool(kind, DefaultTool.color, width, opacity, pressure, tilt, texture, DefaultTool.blendMode))
  }

  /**
    Decoding an encoding gives back every encoded field, an absent texture as nil, and the
    default colour and blend mode (they are not encoded).
  */
  lemma DecodeEncode(tool: Tool)
    ensures Decode(Encode(tool)) == Success(tool.(color := Black, blendMode := Normal))
  {
    RawValueRoundTrip(tool.kind);
  }

  /** Two tools with the same encoding differ at most in colour and blend mode. */
  lemma {:induction false} EncodeForgetsOnlyColorAndBlend(a: Tool, b: Tool)
    requires Encode(a) == Encode(b)
    ensures a.(color := Black, blendMode := Normal) == b.(color := Black, blendMode := Normal)
  {
    DecodeEncode(a);
    DecodeEncode(b);
  }

  /**
    Re-encoding a decoded container gives back its coded members, minus a null texture:
    decoding loses nothing else that the coding keys carry.
  */
  lemma {:induction false} EncodeDecode(c: Container)
    requires Decode(c).Success?
    ensures Encode(Decode(c).value) ==
      map k | k in c.Keys && k in CodingKeys && c[k] != CodedNull :: c[k]
  {
    var t := Decode(c).value;
    var lhs := Encode(t);
    var rhs := map k | k in c.Keys && k in CodingKeys && c[k] != CodedNull :: c[k];
    assert DecodeToolType(c, "type").Success?;
    var tex := DecodeStringIfPresent(c, "texture");
    assert tex.Success?;
    forall k | k in CodingKeys
      ensures (k in lhs <==> k in rhs) && (k in lhs ==> lhs[k] == rhs[k])
    {
    }
    assert lhs.Keys == rhs.Keys;
  }
}
