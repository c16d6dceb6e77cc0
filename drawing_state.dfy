/**
  `DrawingStateManager`: the bounded history of canvas snapshots, the canvas drawing
  it restores, and the table of named tool configurations together with the stored
  encoding it is saved to and reloaded from.
*/
module DrawingState {
  import opened Wrappers
  import opened Graphics
  import opened DrawingTools

  /** A `PKDrawing`, treated as an opaque value: only its identity matters here. */
  datatype Drawing = Drawing(strokes: seq<nat>)

  /** The drawing of a fresh `PKCanvasView`. */
  const EmptyDrawing: Drawing := Drawing([])

  /** `maxHistorySize`. */
  const MaxHistorySize: nat := 50

  // ---------------------------------------------------------------------------
  // History

  /** The newest `MaxHistorySize` entries of `s` (all of them when there are fewer). */
  function Window(s: seq<Drawing>): (w: seq<Drawing>)
    ensures |w| == if |s| <= MaxHistorySize then |s| else MaxHistorySize
  {
    if |s| <= MaxHistorySize then s else s[|s| - MaxHistorySize..]
  }

  /** The history after `captureDrawingState` appends `d`, dropping the oldest entry when full. */
  function Captured(history: seq<Drawing>, d: Drawing): (r: seq<Drawing>)
    ensures |r| >= 1 && r[|r| - 1] == d
    ensures |history| < MaxHistorySize ==> |r| == |history| + 1
    ensures |history| >= MaxHistorySize ==> |r| == |history|
    ensures r[..|r| - 1] == history[|history| - (|r| - 1)..]
  {
    if |history| >= MaxHistorySize then history[1..] + [d] else history + [d]
  }

  /** Below the cap a capture only appends: every earlier entry stays where it was. */
  lemma CaptureBelowCapacity(history: seq<Drawing>, d: Drawing)
    requires |history| < MaxHistorySize
    ensures Captured(history, d) == history + [d]
  {
  }

  /** At the cap a capture drops exactly the oldest entry and shifts the rest down by one. */
  lemma {:induction false} CaptureAtCapacity(history: seq<Drawing>, d: Drawing)
    requires |history| == MaxHistorySize
    ensures |Captured(history, d)| == MaxHistorySize
    ensures forall i :: 0 <= i < MaxHistorySize - 1 ==> Captured(history, d)[i] == history[i + 1]
  {
    var r := Captured(history, d);
    assert r[..|r| - 1] == history[1..];
    forall i | 0 <= i < MaxHistorySize - 1
      ensures r[i] == history[i + 1]
    {
      assert r[i] == r[..|r| - 1][i];
    }
  }

  /** On a history within the cap, one capture keeps the newest entries of the history extended by `d`. */
  lemma {:induction false} CaptureIsWindow(history: seq<Drawing>, d: Drawing)
    requires |history| <= MaxHistorySize
    ensures Captured(history, d) == Window(history + [d])
  {
    if |history| == MaxHistorySize {
      assert (history + [d])[1..] == history[1..] + [d];
    }
  }

  /** Taking the newest entries early or late gives the same result. */
  lemma {:induction false} WindowOfWindow(s: seq<Drawing>, t: seq<Drawing>)
    ensures Window(Window(s) + t) == Window(s + t)
  {
    if |s| > MaxHistorySize {
      var w := Window(s);
      var a := Window(w + t);
      var b := Window(s + t);
      assert |a| == |b| == MaxHistorySize;
      forall i | 0 <= i < MaxHistorySize
        ensures a[i] == b[i]
      {
        var j := |t| + i;
        assert a[i] == (w + t)[j];
        assert b[i] == (s + t)[|s| - MaxHistorySize + j];
        if j < MaxHistorySize {
          assert (w + t)[j] == w[j] == s[|s| - MaxHistorySize + j];
        } else {
          assert (w + t)[j] == t[j - MaxHistorySize];
        }
      }
    }
  }

  /** The history after capturing `ds` in order. */
  function CaptureAll(history: seq<Drawing>, ds: seq<Drawing>): seq<Drawing>
    decreases |ds|
  {
    if ds == [] then history else CaptureAll(Captured(history, ds[0]), ds[1..])
  }

  /**
    Any sequence of captures, from a history within the cap, leaves the newest
    `MaxHistorySize` snapshots in chronological order; so the cap holds throughout.
  */
  lemma {:induction false} CaptureAllIsWindow(history: seq<Drawing>, ds: seq<Drawing>)
    requires |history| <= MaxHistorySize
    ensures CaptureAll(history, ds) == Window(history + ds)
    ensures |CaptureAll(history, ds)| <= MaxHistorySize
    decreases |ds|
  {
    if ds != [] {
      CaptureAllIsWindow(Captured(history, ds[0]), ds[1..]);
      CaptureThenWindow(history, ds);
    }
  }

  /** Capturing the first of `ds` and then keeping the newest entries of the rest. */
  lemma {:induction false} CaptureThenWindow(history: seq<Drawing>, ds: seq<Drawing>)
    requires |history| <= MaxHistorySize && ds != []
    ensures Window(Captured(history, ds[0]) + ds[1..]) == Window(history + ds)
  {
    CaptureIsWindow(history, ds[0]);
    WindowOfWindow(history + [ds[0]], ds[1..]);
    assert history + [ds[0]] + ds[1..] == history + ds;
  }

  /** `restoreDrawing(at:)`: the entry at `index` when it is in range, else the current drawing. */
  function Restored(history: seq<Drawing>, index: int, current: Drawing): (r: Drawing)
    ensures 0 <= index < |history| ==> r == history[index]
    ensures !(0 <= index < |history|) ==> r == current
    ensures r == current || r in history
  {
    if 0 <= index && index < |history| then history[index] else current
  }

  /** The undo step registered by a capture restores exactly the drawing that was captured. */
  lemma UndoRestoresCapture(history: seq<Drawing>, d: Drawing, current: Drawing)
    ensures Restored(Captured(history, d), |Captured(history, d)| - 1, current) == d
  {
  }

  // ---------------------------------------------------------------------------
  // Tool configurations

  /** `loadToolConfiguration(name:)`: the stored tool, or the current one for an unknown name. */
  function Loaded(configs: map<string, Tool>, name: string, current: Tool): (t: Tool)
    ensures name !in configs ==> t == current
    ensures name in configs ==> t == configs[name]
  {
    if name in configs then configs[name] else current
  }

  /** Saving under a name and loading it again gives the saved tool, whatever was there before. */
  lemma SaveThenLoad(configs: map<string, Tool>, name: string, tool: Tool, current: Tool)
    ensures Loaded(configs[name := tool], name, current) == tool
  {
  }

  /** Saving under one name changes what no other name loads. */
  lemma SaveKeepsOtherNames(configs: map<string, Tool>, name: string, tool: Tool, other: string, current: Tool)
    requires other != name
    ensures Loaded(configs[name := tool], other, current) == Loaded(configs, other, current)
  {
  }

  /** `persistConfigurations`: every configuration encoded under its name. */
  function Persist(configs: map<string, Tool>): (stored: map<string, Container>)
    ensures stored.Keys == configs.Keys
    ensures forall name :: name in stored ==> "color" !in stored[name] && "blendMode" !in stored[name]
  {
    map name | name in configs :: Encode(configs[name])
  }

  /** `loadSavedConfigurations`: the whole table decodes, or nothing is loaded. */
  function Reload(stored: map<string, Container>): (r: Option<map<string, Tool>>)
    ensures r.Some? <==> forall name :: name in stored ==> Decode(stored[name]).Success?
    ensures r.Some? ==> r.value.Keys == stored.Keys
  {
    if forall name :: name in stored ==> Decode(stored[name]).Success? then
      Some(map name | name in stored :: Decode(stored[name]).value)
    else
      None
  }

  /**
    Reloading what was persisted gives every configuration back under its name, except
    that colour and blend mode come back as the defaults: they are not encoded.
  */
  lemma {:induction false} ReloadPersisted(configs: map<string, Tool>)
    ensures Reload(Persist(configs)) ==
      Some(map name | name in configs :: configs[name].(color := Black, blendMode := Normal))
  {
    var stored := Persist(configs);
    var m := map name | name in configs :: configs[name].(color := Black, blendMode := Normal);
    forall name | name in stored
      ensures Decode(stored[name]) == Success(m[name])
    {
      PersistedEntryDecodes(configs, name);
    }
    ReloadDecodes(stored, m);
  }

  /** A table whose every entry decodes reloads to the decoded entries. */
  lemma ReloadDecodes(stored: map<string, Container>, m: map<string, Tool>)
    requires stored.Keys == m.Keys
    requires forall name :: name in stored ==> Decode(stored[name]) == Success(m[name])
    ensures Reload(stored) == Some(m)
  {
    var r := Reload(stored).value;
    forall name | name in m
      ensures r[name] == m[name]
    {
      assert r[name] == Decode(stored[name]).value;
    }
    assert r == m;
  }

  /** One persisted entry decodes to its tool with the default colour and blend mode. */
  lemma {:induction false} PersistedEntryDecodes(configs: map<string, Tool>, name: string)
    requires name in configs
    ensures name in Persist(configs)
    ensures Decode(Persist(configs)[name]) == Success(configs[name].(color := Black, blendMode := Normal))
  {
    assert Persist(configs)[name] == Encode(configs[name]);
    DecodeEncode(configs[name]);
  }

  // ---------------------------------------------------------------------------
  // The manager

  class DrawingStateManager {
    var drawingHistory: seq<Drawing>
    var toolConfigurations: map<string, Tool>
    var canvasDrawing: Drawing
    var currentTool: Tool
    /** The `"CustomToolConfigurations"` user default; `None` while nothing was stored. */
    var storedConfigurations: Option<map<string, Container>>

    /** The history never holds more than `MaxHistorySize` snapshots. */
    ghost predicate Valid()
      reads this
    {
      |drawingHistory| <= MaxHistorySize
    }

    /** `init()`, given what the user defaults hold: the stored table is loaded when it decodes. */
    constructor (stored: Option<map<string, Container>>)
      ensures Valid()
      ensures drawingHistory == [] && canvasDrawing == EmptyDrawing && currentTool == DefaultTool
      ensures storedConfigurations == stored
      ensures toolConfigurations ==
        (if stored.Some? && Reload(stored.value).Some? then Reload(stored.value).value else map[])
    {
      drawingHistory := [];
      canvasDrawing := EmptyDrawing;
      currentTool := DefaultTool;
      storedConfigurations := stored;
      toolConfigurations := map[];
      if stored.Some? {
        var decoded := Reload(stored.value);
        if decoded.Some? {
          toolConfigurations := decoded.value;
        }
      }
    }

    /** `captureDrawingState`: snapshots the canvas drawing into the bounded history. */
    method CaptureDrawingState()
      requires Valid()
      modifies this
      ensures Valid()
      ensures drawingHistory == Captured(old(drawingHistory), canvasDrawing)
      ensures canvasDrawing == old(canvasDrawing) && currentTool == old(currentTool)
      ensures toolConfigurations == old(toolConfigurations)
      ensures storedConfigurations == old(storedConfigurations)
    {
      var currentDrawing := canvasDrawing;
      if |drawingHistory| >= MaxHistorySize {
        drawingHistory := drawingHistory[1..];
      }
      drawingHistory := drawingHistory + [currentDrawing];
    }

    /** `restoreDrawing(at:)`: the canvas shows the entry at `index`, if there is one. */
    method RestoreDrawing(index: int)
      modifies this
      ensures canvasDrawing == Restored(old(drawingHistory), index, old(canvasDrawing))
      ensures drawingHistory == old(drawingHistory) && currentTool == old(currentTool)
      ensures toolConfigurations == old(toolConfigurations)
      ensures storedConfigurations == old(storedConfigurations)
    {
      if !(index >= 0 && index < |drawingHistory|) {
        return;
      }
      canvasDrawing := drawingHistory[index];
    }

    /** `saveToolConfiguration(name:)`: stores the current tool under `name` and persists the table. */
    method SaveToolConfiguration(name: string)
      modifies this
      ensures toolConfigurations == old(toolConfigurations)[name := currentTool]
      ensures storedConfigurations == Some(Persist(toolConfigurations))
      ensures drawingHistory == old(drawingHistory) && canvasDrawing == old(canvasDrawing)
      ensures currentTool == old(currentTool)
    {
      toolConfigurations := toolConfigurations[name := currentTool];
      storedConfigurations := Some(Persist(toolConfigurations));
    }

    /** `loadToolConfiguration(name:)`: makes the tool stored under `name` current, if there is one. */
    method LoadToolConfiguration(name: string)
      modifies this
      ensures currentTool == Loaded(old(toolConfigurations), name, old(currentTool))
      ensures drawingHistory == old(drawingHistory) && canvasDrawing == old(canvasDrawing)
      ensures toolConfigurations == old(toolConfigurations)
      ensures storedConfigurations == old(storedConfigurations)
    {
      if name in toolConfigurations {
        var config := toolConfigurations[name];
        currentTool := config;
      }
    }
  }
}
