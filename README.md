# CustomPencilKit stroke engine, tool model and drawing state, in Dafny

This project models three parts of the CustomPencilKit drawing app and proves properties of them.

- **`CustomBrushEngine`** is the stroke rasterizer and its texture cache. `createTexturedStroke` takes the samples of one gesture (points, pressures, tilts) and a tool, and issues CoreGraphics calls:
  - the tool's blend mode and opacity;
  - then one of three paths: the blur eraser's translucent discs, the pixelate eraser's grey grid cells, or one segment per consecutive pair of samples.
  - A plain segment is a round-capped line whose width is the tool's width times the starting sample's pressure.
  - A custom-brush segment is `steps + 1` evenly spaced stamps. Each stamp is a texture tile rotated by the tilt and multiplied in, or a solid dot when no texture name is set or the texture fails to load.
  - `loadTexture(named:)` memoises successful loads in `textureCache`.
- **`CustomDrawingTool`** is the tool descriptor. It has tool kinds with raw values, default field values, the PencilKit tool each kind stands for, and a keyed encoding that leaves out colour and blend mode.
- **`DrawingStateManager`** has three parts:
  - a history of canvas snapshots, capped at 50 with drop-oldest;
  - the bounds-checked restore of the canvas drawing;
  - a name-to-tool configuration table. The table is saved to and reloaded from a stored encoding.

Modules:

- `Wrappers` defines `Option` and `Result`.
- `Graphics` models the CGContext.
  - A `Context` is the log of commands issued to it.
  - A small interpreter, `Run`, executes a log over a `Surface`. A surface holds the graphics state, the saved-state stack, the current path, and the marks drawn so far. A mark is a primitive together with the blend mode, alpha and transform in effect when it was drawn, and its colour (the stroke or fill colour; a texture tile carries its image instead).
- `DrawingTools` is `CustomDrawingTool.swift`.
- `BrushEngine` is the engine.
  - Pure functions say, rule by rule, which commands a stroke issues.
  - The class `CustomBrushEngine` issues them with the source's loops.
  - Each method is proved to issue exactly those commands and to leave the cache in the stated state.
- `BrushProperties` proves what those commands draw: which marks, where, in which state, and what state the stroke leaves behind.
- `BrushGeometry` proves the arithmetic facts: stamp spacing, the step count, and pixel cells.
- `DrawingState` is `DrawingStateManager.swift`, as a class with a sequence field, a map field, and methods.

The texture loader (`UIImage(named:)`), `hypot`, and whether Core Image has a Gaussian blur filter come from outside the engine. They form a `Platform` value that the engine holds.

Two behaviours of the program are worth noting.
- The step count is `max(Int(distance / 2), 1)`. `Int(_:)` truncates toward zero, and the model does the same. For the non-negative lengths `hypot` returns, this is the floor. For any other value the model still gives at least one step.
- The plain `eraser` kind draws a coloured line in the rasterizer like any ink tool. Only PencilKit's own eraser tool, mapped by `pkTool`, erases.

## Model

| member | source | states |
|---|---|---|
| BrushEngine.LoadThroughCache | CustomPencilKit/Engine/CustomBrushEngine.swift:142-150 | A cached name is returned with no load and the cache unchanged. An uncached name is loaded once. A success inserts exactly that key, and a failure returns nil and leaves the cache unchanged. The key set only grows. A cache that agrees with the loader keeps agreeing, and the result is what the loader gives. |
| BrushEngine.LoadAllMemoises | CustomPencilKit/Engine/CustomBrushEngine.swift:142-150 | Over any series of lookups, the cache only grows. It ends up holding exactly the names asked for whose load succeeds. A name that loads is loaded at most once, and never if it was cached. A name that fails is loaded on every request. |
| BrushEngine.LoadAllAppend | CustomPencilKit/Engine/CustomBrushEngine.swift:142-150 | Two series of lookups, one after the other, have the effect of their concatenation: final cache and load log. |
| BrushEngine.RepeatedLookupsIsLoadAll | CustomPencilKit/Engine/CustomBrushEngine.swift:78-79 | `k` stamps of one texture name ask the cache `k` times. The result equals the closed form: no load without a name or once the name is cached, one load on success, `k` loads when the texture fails. |
| BrushEngine.PressureAt | CustomPencilKit/Engine/CustomBrushEngine.swift:31 | The sample's pressure when the index is in range, else 1. |
| BrushEngine.TiltAt | CustomPencilKit/Engine/CustomBrushEngine.swift:32 | The sample's tilt when the index is in range, else 0. |
| BrushEngine.SegmentWidthScales | CustomPencilKit/Engine/CustomBrushEngine.swift:31-34 | A segment's width is the tool's width times its starting sample's pressure. Without a pressure sample it is the tool's width. |
| BrushEngine.TruncateToInt | CustomPencilKit/Engine/CustomBrushEngine.swift:69 | `Int(_:)` rounds toward zero. For a non-negative value the result is the floor. For a negative value the result is the ceiling. |
| BrushEngine.Steps | CustomPencilKit/Engine/CustomBrushEngine.swift:69 | The step count is at least 1, so the stamp division never divides by zero. From length 2 on it is the number of whole 2-unit intervals, and it is 1 for any length below 4. |
| BrushEngine.StampPoint | CustomPencilKit/Engine/CustomBrushEngine.swift:72-76 | Stamp 0 is at the segment's start and stamp `steps` at its end. |
| BrushEngine.StampPoints | CustomPencilKit/Engine/CustomBrushEngine.swift:71-76 | There are exactly `steps + 1` stamp points, the first at `start` and the last at `end`. Point `k` is `start + (end - start) * k / steps`. |
| BrushEngine.StampRect | CustomPencilKit/Engine/CustomBrushEngine.swift:81-86 | The stamp rectangle is a square of side `width` centred on the stamp point. |
| BrushEngine.StampCommandsShape | CustomPencilKit/Engine/CustomBrushEngine.swift:78-105 | A textured stamp makes seven calls, opening with a save and closing with a restore, with the image drawn in the stamp square just before the restore. A dot makes two calls: it sets the fill colour, then fills the stamp square. |
| BrushEngine.StampsLength | CustomPencilKit/Engine/CustomBrushEngine.swift:71-106 | A row of stamps makes one stamp's calls for each stamp point. |
| BrushEngine.SegmentCommandsShape | CustomPencilKit/Engine/CustomBrushEngine.swift:36-55 | A custom-brush segment makes the calls of `steps + 1` stamps. Any other kind makes seven calls. They set the width from sample `i`'s pressure, and end by moving to sample `i`, adding a line to sample `i + 1` and stroking. |
| BrushEngine.SegmentsUpToLength | CustomPencilKit/Engine/CustomBrushEngine.swift:28-56 | The first `n` segments make seven calls each for a plain tool. For a custom brush they make one stamp's calls per stamp of those segments. |
| BrushEngine.BlurCommandsShape | CustomPencilKit/Engine/CustomBrushEngine.swift:109-124 | Without the blur filter nothing is issued. Otherwise, for each sample in order (not each pair), the white alpha-0.3 fill colour and then the 40 by 40 disc around the sample. |
| BrushEngine.PixelateCommandsShape | CustomPencilKit/Engine/CustomBrushEngine.swift:126-140 | For each sample in order, the system grey fill colour and then the fill of the sample's grid cell. |
| BrushEngine.StrokeBodyLength | CustomPencilKit/Engine/CustomBrushEngine.swift:20-56 | The calls after the blend mode and opacity are set, by kind: <br>- two per sample for the blur path, none without the filter; <br>- two per sample for the pixelate path; <br>- seven per consecutive pair of samples for a plain tool; <br>- one stamp's calls per stamp for a custom brush. |
| BrushEngine.ResolveTexture | CustomPencilKit/Engine/CustomBrushEngine.swift:78-79 | Without a texture name no image is used. With one, the image is what the loader gives for it. |
| BrushEngine.BlurRect | CustomPencilKit/Engine/CustomBrushEngine.swift:113-119 | The blur disc's rectangle is 40 by 40 and centred on the sample. |
| BrushEngine.PixelCell | CustomPencilKit/Engine/CustomBrushEngine.swift:127-135 | The pixelate cell is 10 by 10. |
| BrushEngine.StrokeCommands | CustomPencilKit/Engine/CustomBrushEngine.swift:15-26 | Fewer than two samples issue nothing at all. Otherwise the first command sets the tool's blend mode and the second its opacity. |
| BrushEngine.SegmentSteps | CustomPencilKit/Engine/CustomBrushEngine.swift:68-69 | Every textured segment has at least one interval. |
| BrushEngine.StrokeTexture | CustomPencilKit/Engine/CustomBrushEngine.swift:36-42 | The cache is asked for a texture only when the tool is a custom brush that names one. |
| BrushEngine.Requests | CustomPencilKit/Engine/CustomBrushEngine.swift:78-79 | Without a texture name there are no cache requests. With one there is exactly one request per stamp, each for that name. |
| BrushEngine.CustomBrushEngine.constructor | CustomPencilKit/Engine/CustomBrushEngine.swift:5-6 | The engine starts with an empty cache and no loads. |
| BrushEngine.CustomBrushEngine.LoadTexture | CustomPencilKit/Engine/CustomBrushEngine.swift:142-150 | The cache and the load log change exactly as `LoadThroughCache` says. The cache stays in agreement with the loader. The returned image is the loader's. |
| BrushEngine.CustomBrushEngine.DrawStamp | CustomPencilKit/Engine/CustomBrushEngine.swift:78-105 | The stamp issues the tile commands when the texture name resolves to an image, and the dot commands otherwise. Without a name the cache is not touched. |
| BrushEngine.CustomBrushEngine.DrawTile | CustomPencilKit/Engine/CustomBrushEngine.swift:81-96 | The textured stamp is save, translate, rotate by `tilt`, translate back, multiply blend, draw the image in the stamp square, restore. |
| BrushEngine.CustomBrushEngine.DrawDot | CustomPencilKit/Engine/CustomBrushEngine.swift:97-104 | The fallback stamp sets the fill colour and fills the `width`-diameter ellipse centred on the point. |
| BrushEngine.CustomBrushEngine.DrawStampAt | CustomPencilKit/Engine/CustomBrushEngine.swift:71-105 | Loop turn `i` appends stamp `i` and makes one more cache lookup. |
| BrushEngine.CustomBrushEngine.DrawStamps | CustomPencilKit/Engine/CustomBrushEngine.swift:71-106 | The stamp loop issues one stamp per stamp point, in order, and makes `steps + 1` lookups. |
| BrushEngine.CustomBrushEngine.DrawTexturedSegment | CustomPencilKit/Engine/CustomBrushEngine.swift:59-107 | The segment issues the stamps of `Steps(hypot(...))` intervals, and the cache ends as that many plus one lookups leave it. |
| BrushEngine.CustomBrushEngine.DrawTexturedSegmentAfter | CustomPencilKit/Engine/CustomBrushEngine.swift:37-45 | A segment drawn after earlier stamps of the same stroke continues their cache history. |
| BrushEngine.CustomBrushEngine.ApplyBlurEffect | CustomPencilKit/Engine/CustomBrushEngine.swift:109-124 | Without the blur filter nothing is issued. Otherwise each sample gets one white alpha-0.3 fill and one 40 by 40 ellipse. |
| BrushEngine.CustomBrushEngine.ApplyPixelateEffect | CustomPencilKit/Engine/CustomBrushEngine.swift:126-140 | Each sample gets one grey fill and one fill of its grid cell. |
| BrushEngine.CustomBrushEngine.DrawLineSegment | CustomPencilKit/Engine/CustomBrushEngine.swift:47-54 | The plain segment sets stroke colour, width, round cap and round join, then moves, adds a line and strokes. |
| BrushEngine.CustomBrushEngine.DrawSegmentAt | CustomPencilKit/Engine/CustomBrushEngine.swift:29-55 | Loop turn `i` appends segment `i`, with the width and tilt of sample `i`, and extends the cache history by that segment's stamps. |
| BrushEngine.CustomBrushEngine.DrawSegments | CustomPencilKit/Engine/CustomBrushEngine.swift:28-56 | The segment loop issues one segment per consecutive pair of samples. |
| BrushEngine.CustomBrushEngine.DrawStrokeBody | CustomPencilKit/Engine/CustomBrushEngine.swift:20-56 | The stroke takes the blur path, then the pixelate path, then the segments, in that order of checks. |
| BrushEngine.CustomBrushEngine.DrawStroke | CustomPencilKit/Engine/CustomBrushEngine.swift:17-56 | Past the guard, the stroke sets blend mode and opacity, then issues the body. |
| BrushEngine.CustomBrushEngine.CreateTexturedStroke | CustomPencilKit/Engine/CustomBrushEngine.swift:8-57 | The context receives exactly `StrokeCommands`. The cache and load log end as the stroke's stamp lookups leave them. |
| BrushProperties.PlainSegmentRun | CustomPencilKit/Engine/CustomBrushEngine.swift:47-54 | A plain segment adds exactly one mark: the stroked line from start to end with the segment's width, the tool's colour, round cap and join, and the blend and alpha in effect. It leaves no path behind. |
| BrushProperties.StampRun | CustomPencilKit/Engine/CustomBrushEngine.swift:78-105 | A stamp adds exactly one mark. A textured stamp restores the graphics state it found. A dot changes only the fill colour. |
| BrushProperties.TexturedStampRun | CustomPencilKit/Engine/CustomBrushEngine.swift:88-96 | After a textured stamp, the call-level blend mode, alpha and transform are what they were before. The stamp itself was drawn with multiply blend and the tilt rotation about the stamp point. |
| BrushProperties.StampMarksAt | CustomPencilKit/Engine/CustomBrushEngine.swift:71-105 | The `j`-th mark of a row of stamps is the stamp at the `j`-th point. |
| BrushProperties.StampMarksInState | CustomPencilKit/Engine/CustomBrushEngine.swift:93-104 | Stamp marks depend only on the transform, blend mode and alpha in effect. The fill left by earlier dots does not affect them. |
| BrushProperties.StampsRun | CustomPencilKit/Engine/CustomBrushEngine.swift:71-106 | A row of stamps adds one mark per stamp point, in order, and leaves the state as stated. |
| BrushProperties.StampsAfter | CustomPencilKit/Engine/CustomBrushEngine.swift:28-45 | Stamps drawn after earlier stamps of the stroke append their marks after the earlier ones. |
| BrushProperties.SegmentsAreLines | CustomPencilKit/Engine/CustomBrushEngine.swift:36-55 | Every kind but the custom brush draws each segment as a plain line. |
| BrushProperties.LineMarksAt | CustomPencilKit/Engine/CustomBrushEngine.swift:46-55 | Line `i` runs from `points[i]` to `points[i+1]` with width `tool.width * pressure(i)`, in the stroke's blend and alpha. |
| BrushProperties.LinesRun | CustomPencilKit/Engine/CustomBrushEngine.swift:28-55 | `n` plain segments add exactly `n` line marks, in order, and leave the stroke settings of the last segment. |
| BrushProperties.SegmentStampPoints | CustomPencilKit/Engine/CustomBrushEngine.swift:68-71 | A textured segment has exactly `steps + 1` stamp points. |
| BrushProperties.SegmentIsRow | CustomPencilKit/Engine/CustomBrushEngine.swift:36-45 | A custom-brush segment is one row of stamps, with the starting sample's width and tilt. |
| BrushProperties.SegmentsAreRows | CustomPencilKit/Engine/CustomBrushEngine.swift:28-45 | The segments of a custom brush are its rows of stamps, one row per segment. |
| BrushProperties.RowsRun | CustomPencilKit/Engine/CustomBrushEngine.swift:28-45 | Rows of stamps add one mark per stamp, row after row. |
| BrushProperties.TexturedMarksAt | CustomPencilKit/Engine/CustomBrushEngine.swift:28-76 | Stamp `k` of segment `i` in a custom-brush stroke is the mark at position `StampCount(i) + k`. It is the stamp at that segment's `k`-th point, with sample `i`'s width and tilt. |
| BrushProperties.StampCountIsTotal | CustomPencilKit/Engine/CustomBrushEngine.swift:68-71 | The stroke's stamp count is the sum over segments of `steps + 1`. |
| BrushProperties.SegmentsUseEarlierSamples | CustomPencilKit/Engine/CustomBrushEngine.swift:31-34 | Segment `i` uses only the pressure and tilt of sample `i`. Samples that agree before `n` give the same first `n` segments. |
| BrushProperties.StrokeIgnoresLastSample | CustomPencilKit/Engine/CustomBrushEngine.swift:28-34 | The pressure and tilt of the last sample never affect what a stroke draws. |
| BrushProperties.BlurMarksAt | CustomPencilKit/Engine/CustomBrushEngine.swift:112-122 | The blur path's `i`-th mark is the white alpha-0.3 disc around sample `i`: one per sample, not per pair. |
| BrushProperties.BlurRun | CustomPencilKit/Engine/CustomBrushEngine.swift:112-123 | The blur path adds exactly one disc per sample and changes only the fill colour. |
| BrushProperties.PixelateMarksAt | CustomPencilKit/Engine/CustomBrushEngine.swift:129-138 | The pixelate path's `i`-th mark is the grey fill of sample `i`'s grid cell. |
| BrushProperties.PixelateRun | CustomPencilKit/Engine/CustomBrushEngine.swift:129-139 | The pixelate path adds exactly one cell per sample and changes only the fill colour. |
| BrushProperties.StrokeRunsBody | CustomPencilKit/Engine/CustomBrushEngine.swift:17-18 | A stroke draws its body in the tool's blend mode and opacity. |
| BrushProperties.PlainStrokeRun | CustomPencilKit/Engine/CustomBrushEngine.swift:15-56 | A plain tool's stroke of `n` samples draws exactly `n - 1` lines, in the tool's blend mode and opacity. |
| BrushProperties.TexturedStrokeRun | CustomPencilKit/Engine/CustomBrushEngine.swift:15-45 | A custom brush's stroke draws exactly its rows of stamps, in the tool's blend mode and opacity. |
| BrushProperties.BlurStrokeRun | CustomPencilKit/Engine/CustomBrushEngine.swift:15-22 | A blur eraser's stroke draws one disc per sample when the filter exists. Without the filter it draws nothing but still sets blend and alpha. |
| BrushProperties.PixelateStrokeRun | CustomPencilKit/Engine/CustomBrushEngine.swift:15-25 | A pixelate eraser's stroke fills one grid cell per sample. |
| BrushProperties.StrokeLeavesToolState | CustomPencilKit/Engine/CustomBrushEngine.swift:15-56 | Every stroke of two or more samples does the following: <br>- it leaves the context in the tool's blend mode and opacity; <br>- it leaves the transform and the saved-state stack as it found them; <br>- it leaves no path pending. |
| BrushGeometry.StampSpacing | CustomPencilKit/Engine/CustomBrushEngine.swift:72-76 | Consecutive stamps are evenly spaced by `(end - start) / steps`. |
| BrushGeometry.StampBetweenEndpoints | CustomPencilKit/Engine/CustomBrushEngine.swift:72-76 | Every stamp lies within the segment's bounding box. |
| BrushGeometry.StepsExamples | CustomPencilKit/Engine/CustomBrushEngine.swift:69 | Lengths 0, 3.9, 4, 5 and 20 give 1, 1, 2, 2 and 10 steps. |
| BrushGeometry.DegenerateSegment | CustomPencilKit/Engine/CustomBrushEngine.swift:68-76 | Two equal consecutive samples give a segment whose every stamp is at that point, whatever `hypot` returns. When `hypot(0, 0)` is below 4, as the true value 0 is, the segment has one interval and exactly two stamps. |
| BrushGeometry.PixelCellContains | CustomPencilKit/Engine/CustomBrushEngine.swift:130-135 | The grid cell of a sample contains the sample. |
| BrushGeometry.PixelCellSnaps | CustomPencilKit/Engine/CustomBrushEngine.swift:130-135 | Every point of a cell has that same cell, so the same point always yields the same cell. |
| Graphics.StepMarks | CustomPencilKit/Engine/CustomBrushEngine.swift:47-54 | Only the drawing calls (stroke path, draw image, fill ellipse, fill rect) add a mark, one each, after the marks already there. A stroke with no current path draws nothing. Only save and restore touch the saved-state stack. |
| Graphics.RunKeepsMarks | CustomPencilKit/Engine/CustomBrushEngine.swift:8-57 | Issuing calls never removes or changes a mark already drawn. A log adds at most one mark per call. |
| Graphics.RunAppend | CustomPencilKit/Engine/CustomBrushEngine.swift:8-57 | Issuing two logs one after the other draws what issuing their concatenation draws. |
| Graphics.Color.WithAlphaComponent | CustomPencilKit/Engine/CustomBrushEngine.swift:121 | Changing a colour's alpha keeps its red, green and blue components. |
| DrawingTools.ToolTypeFromRawValue | CustomPencilKit/Models/CustomDrawingTool.swift:5-14 | A kind read from a string has that string as its raw value. |
| DrawingTools.AllCasesListsEachKindOnce | CustomPencilKit/Models/CustomDrawingTool.swift:5-14 | `allCases` lists every kind, each once. |
| DrawingTools.RawValuesDistinct | CustomPencilKit/Models/CustomDrawingTool.swift:5-14 | Two kinds have the same raw value exactly when they are the same kind. |
| DrawingTools.RawValueRoundTrip | CustomPencilKit/Models/CustomDrawingTool.swift:5-14 | Each kind has the raw value the enum declares for it, and reading that raw value back gives the kind. |
| DrawingTools.DefaultToolSurvivesCoding | CustomPencilKit/Models/CustomDrawingTool.swift:18-25 | The default tool maps to a black pen-ink PencilKit tool of width 5. Its colour and blend mode are the values decoding falls back to, so the default tool survives an encode/decode round trip unchanged. |
| DrawingTools.CreateCustomTool | CustomPencilKit/Models/CustomDrawingTool.swift:75-79 | The custom tool is a pen-ink tool with the tool's colour and width. |
| DrawingTools.PkTool | CustomPencilKit/Models/CustomDrawingTool.swift:53-73 | The PencilKit tool is chosen by kind: <br>- pen, pencil and marker give their own ink with the same colour and width; <br>- highlighter gives marker ink at twice the width, with the colour at alpha 0.5; <br>- eraser gives a bitmap eraser; <br>- the blur and pixelate erasers give a vector eraser; <br>- custom brush gives a pen-ink tool. <br>The result is an eraser exactly for the three eraser kinds. |
| DrawingTools.PkToolIgnoresOtherFields | CustomPencilKit/Models/CustomDrawingTool.swift:53-73 | The PencilKit tool depends only on kind, colour and width. |
| DrawingTools.Encode | CustomPencilKit/Models/CustomDrawingTool.swift:43-51 | The encoding uses only coding keys. `texture` is present exactly when the tool has one. Colour and blend mode are never encoded. |
| DrawingTools.DecodeNumber | CustomPencilKit/Models/CustomDrawingTool.swift:36-39 | A numeric field decodes exactly when present as a number, and then to that number. |
| DrawingTools.DecodeToolType | CustomPencilKit/Models/CustomDrawingTool.swift:35 | The kind decodes exactly when present as one of the raw values, and then to the kind with that value. |
| DrawingTools.DecodeStringIfPresent | CustomPencilKit/Models/CustomDrawingTool.swift:40 | An absent or null texture decodes to nil. A string decodes to itself. Anything else is a type mismatch. |
| DrawingTools.DecodeEncode | CustomPencilKit/Models/CustomDrawingTool.swift:33-51 | Decoding an encoding restores kind, width, opacity, pressure, tilt and texture, with an absent texture as nil. Colour and blend mode come back as black and normal. |
| DrawingTools.Decode | CustomPencilKit/Models/CustomDrawingTool.swift:33-41 | A container decodes exactly when `type` holds one of the raw values, the four numeric keys hold numbers, and `texture` is absent, null or a string. The decoded tool has the kind with that raw value, the four numbers, and the texture string when one is present. Its colour is black and its blend mode is normal. A missing `type` is the first error reported, and then a missing `width`. |
| DrawingTools.EncodeForgetsOnlyColorAndBlend | CustomPencilKit/Models/CustomDrawingTool.swift:27-51 | Tools with the same encoding differ at most in colour and blend mode. |
| DrawingTools.EncodeDecode | CustomPencilKit/Models/CustomDrawingTool.swift:33-51 | Re-encoding a decoded container gives back its members under the coding keys, except a null texture. |
| DrawingState.Window | CustomPencilKit/Models/DrawingStateManager.swift:10 | The window holds the newest 50 entries, or all of them when there are fewer. |
| DrawingState.Captured | CustomPencilKit/Models/DrawingStateManager.swift:38-42 | After a capture the last entry is the captured drawing. Below capacity the length grows by one; at or above it, the length stays the same. The earlier entries are the newest of the old history. |
| DrawingState.CaptureBelowCapacity | CustomPencilKit/Models/DrawingStateManager.swift:42 | Below capacity a capture only appends, and every earlier entry stays in place. |
| DrawingState.CaptureAtCapacity | CustomPencilKit/Models/DrawingStateManager.swift:38-40 | At capacity a capture keeps the length at 50. It drops exactly the oldest entry and shifts the rest down by one. |
| DrawingState.CaptureIsWindow | CustomPencilKit/Models/DrawingStateManager.swift:38-42 | One capture on a history within the cap keeps the newest 50 entries of the history extended by the drawing. |
| DrawingState.CaptureAllIsWindow | CustomPencilKit/Models/DrawingStateManager.swift:10-42 | Any sequence of captures, starting from a history within the cap, leaves the newest 50 snapshots in order. The history never exceeds 50. |
| DrawingState.Restored | CustomPencilKit/Models/DrawingStateManager.swift:49-52 | An index in range gives the history entry at that index. An out-of-range index, negative or past the end, leaves the canvas drawing as it was. So the result is always the old drawing or a history entry. |
| DrawingState.UndoRestoresCapture | CustomPencilKit/Models/DrawingStateManager.swift:44-46 | Restoring the last index right after a capture gives the captured drawing. |
| DrawingState.Loaded | CustomPencilKit/Models/DrawingStateManager.swift:59-63 | An unknown name leaves the current tool. A known name gives the stored entry. |
| DrawingState.SaveThenLoad | CustomPencilKit/Models/DrawingStateManager.swift:54-63 | Loading a name just saved gives the saved tool. |
| DrawingState.SaveKeepsOtherNames | CustomPencilKit/Models/DrawingStateManager.swift:54-63 | Saving under one name changes what no other name loads. |
| DrawingState.Persist | CustomPencilKit/Models/DrawingStateManager.swift:65-69 | The stored table has the same names as the configurations, and no entry stores colour or blend mode. |
| DrawingState.Reload | CustomPencilKit/Models/DrawingStateManager.swift:71-76 | The stored table loads exactly when every entry decodes, and then under the same names. |
| DrawingState.ReloadPersisted | CustomPencilKit/Models/DrawingStateManager.swift:65-76 | Reloading what was persisted gives every configuration back under its name, with colour and blend mode reset to black and normal. |
| DrawingState.DrawingStateManager.constructor | CustomPencilKit/Models/DrawingStateManager.swift:20-23 | The manager starts with an empty history, an empty canvas drawing and the default tool. It loads the stored table when it decodes and otherwise starts with none. |
| DrawingState.DrawingStateManager.CaptureDrawingState | CustomPencilKit/Models/DrawingStateManager.swift:35-47 | The history becomes `Captured(old history, canvas drawing)` and stays within 50. Nothing else changes. |
| DrawingState.DrawingStateManager.RestoreDrawing | CustomPencilKit/Models/DrawingStateManager.swift:49-52 | The canvas drawing becomes `history[index]` when the index is in range, else it is unchanged. Nothing else changes. |
| DrawingState.DrawingStateManager.SaveToolConfiguration | CustomPencilKit/Models/DrawingStateManager.swift:54-57 | `name` maps to the current tool and every other entry is unchanged. The stored table becomes the encoding of the new table. |
| DrawingState.DrawingStateManager.LoadToolConfiguration | CustomPencilKit/Models/DrawingStateManager.swift:59-63 | With an unknown name the current tool is unchanged. With a known name it becomes the stored entry. Nothing else changes. |

## Left out

- Pixels are not modelled. The model stops at what is drawn, where, and in which state: the marks. Compositing, anti-aliasing, the rotation matrices behind `translateBy`/`rotate`, and `UIColor`/`CGColor` conversion are left out. Colours are one RGBA type, and transforms stay symbolic.
- `CGFloat` arithmetic is modelled on exact reals. Rounding, NaN and infinities are not modelled.
- Swift's trap when converting a huge or NaN value to `Int` is not modelled.
- `hypot`, `UIImage(named:)` and `CIFilter(name:)` are external calls. They enter as fields of `Platform`. The loader is taken to be deterministic, giving the same answer for the same name every time.
- The blend modes are only the cases the app offers. The CoreGraphics modes beyond them are not listed.
- The `pressures[safe:]` subscript comes from an extension that is not part of this model. It is modelled as returning nil out of range.
- `CustomDrawingTool` is a reference type in the source. The model treats a tool as a value, so aliasing between a saved configuration and the current tool is not modelled.
- `DrawingState.DrawingStateManager.CaptureDrawingState`: `UndoManager.registerUndo` is not modelled. Its closure reads `drawingHistory.count - 1` when the undo runs, not when the capture happens, so undo behaviour after later captures is not modelled. What the closure restores right after a capture is stated by `UndoRestoresCapture`.
- The stored table is modelled as keyed containers. JSON bytes, `UserDefaults` and the `try?` around encoding are not modelled, and encoding is taken never to fail.
- A `PKDrawing` is an opaque value. `PKCanvasView` setup and the Metal layer settings (`setupCanvasOptimizations`) are not modelled.
- `checkPerformance` and `optimizeForPerformance` depend on the clock and on PencilKit transforms, and are not modelled.
- `isUsingPencil` and `strokeCount` are only read by code outside this model, and are left out.
- The SwiftUI views and their bindings are not part of this model.
- The methods `DrawStampAt`, `DrawStamps`, `DrawTile`, `DrawDot`, `DrawSegmentAt`, `DrawSegments`, `DrawLineSegment`, `DrawStrokeBody`, `DrawStroke` and `DrawTexturedSegmentAfter` split the source's loops and branches into parts. Together they issue the same calls in the same order.
