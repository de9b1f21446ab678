/**
 * The drawing-session engine, `CADApplication`: an ordered list of live
 * shapes with a selection reference, the view (scale and pan offsets), the
 * sheet format, the gesture flags of the pointer state machine, a one-shape
 * clipboard, and the bounded linear undo/redo history of deep-copied
 * snapshots.
 *
 * One class models both copies of the engine; `variant` says which one. They
 * differ in the hit test, in `addText` (the older copy only paints the text),
 * and in the tools `handleMouseDown` knows.
 *
 * Everything the browser supplies is an input: pointer positions and the
 * canvas's bounding rectangle (`MouseEvent`), the answer to `prompt` or
 * `confirm`, `Date.now()` ids, the canvas's text metrics, and the value
 * `Math.sqrt` returns for a dragged circle's radius.
 */
module Cad {
  import opened Wrappers
  import opened Geometry
  import opened Scene
  import View
  import Template
  import History

  /** A mouse event: its button, its client position, and the canvas's left/top edge. */
  datatype MouseEvent = MouseEvent(button: int, clientX: real, clientY: real, rectLeft: real, rectTop: real)

  /**
   * The canvas context's default pen, which new shapes copy. Only
   * `applyLineStyle` (through `applyProperties`) sets another width, and it is
   * not part of this model.
   */
  const PenWidth: real := 1.0
  const PenStroke: string := "#000000"
  const PenFill: string := "#000000"

  /** The button number of the middle (wheel) button. */
  const MiddleButton: int := 1

  /**
   * The state a pointer-down starts from, as far as its tool dispatch reads
   * or changes it: the shape a pick at the pointer would select, the
   * selection, the shape list with the history, and the pan and drag fields.
   */
  datatype Before = Before(picked: Shape?, selected: Shape?, shapes: seq<Shape>, log: History.Log<Snapshot>,
                           pan: (bool, real, real), drag: (bool, real, real, real, real))

  /** Which branch of `handleMouseDown`'s tool dispatch a tool takes. */
  datatype Press = PickPress | TextPress | PanPress | MovePress | NoPress

  class CADApplication {
    const variant: Variant

    var currentTool: string
    var isDrawing: bool
    var startX: real
    var startY: real
    var shapes: seq<Shape>
    var selected: Shape?
    var clipboard: Option<ShapeData>
    var snapToGrid: bool
    var gridVisible: bool
    var currentFormat: string
    var canvasWidth: int
    var canvasHeight: int
    var scale: View.Scale
    var offsetX: real
    var offsetY: real
    var isPanning: bool
    var lastPanX: real
    var lastPanY: real
    var isMovingObject: bool
    var dragStartX: real
    var dragStartY: real
    var originalObjectX: real
    var originalObjectY: real
    var history: seq<Snapshot>
    var historyIndex: int

    /** Whether a pan is running, and where the pointer was at its last step. */
    function PanState(): (bool, real, real)
      reads this`isPanning, this`lastPanX, this`lastPanY
    {
      (isPanning, lastPanX, lastPanY)
    }

    /** Whether a drag is running, the scene point it started from, and the anchor it moves. */
    function DragState(): (bool, real, real, real, real)
      reads this`isMovingObject, this`dragStartX, this`dragStartY, this`originalObjectX, this`originalObjectY
    {
      (isMovingObject, dragStartX, dragStartY, originalObjectX, originalObjectY)
    }

    /** The shape list and the history are as they were. */
    twostate predicate SceneKept()
      reads this`shapes, this`history, this`historyIndex
    {
      shapes == old(shapes) && Log() == old(Log())
    }

    /** No pan started or ended. */
    twostate predicate PanKept()
      reads this`isPanning, this`lastPanX, this`lastPanY
    {
      PanState() == old(PanState())
    }

    /** No drag started or ended. */
    twostate predicate DragKept()
      reads this`isMovingObject, this`dragStartX, this`dragStartY, this`originalObjectX, this`originalObjectY
    {
      DragState() == old(DragState())
    }

    function Log(): History.Log<Snapshot>
      reads this`history, this`historyIndex
    {
      History.Log(history, historyIndex)
    }

    /** The snapshot `saveState` would take now. */
    function Capture(): (r: Snapshot)
      reads this`shapes, this`selected, this`currentFormat, this`scale, this`offsetX, this`offsetY
      reads shapes, selected
      ensures |r.shapes| == |shapes|
      ensures r.selected.Some? <==> selected != null
    {
      Snapshot(Values(shapes), if selected == null then None else Some(selected.data),
               currentFormat, scale, offsetX, offsetY)
    }

    /** Everything but the history is consistent: the shapes are distinct objects. */
    ghost predicate Ready()
      reads this`history, this`historyIndex, this`shapes
    {
      && History.Saveable(Log())
      && Distinct(shapes)
    }

    /** The engine's invariant once the first snapshot is taken. */
    ghost predicate Valid()
      reads this`history, this`historyIndex, this`shapes
    {
      Ready() && Log().Valid()
    }

    /** The shape list is `before` with one more shape, holding `d`, at its end (an `Array.prototype.push`). */
    predicate Extends(before: seq<Shape>, d: ShapeData)
      reads this`shapes, shapes
    {
      |shapes| == |before| + 1 && shapes[..|before|] == before && shapes[|before|].data == d
    }

    /** The shape list grew by one fresh object, holding `d`, at its end. */
    twostate predicate Appended(d: ShapeData)
      reads this`shapes, shapes
    {
      Extends(old(shapes), d) && fresh(shapes[|old(shapes)|])
    }

    /** One axis of the pointer's scene position: (client - canvas edge - offset) / scale. */
    function SceneX(e: MouseEvent): real
      reads this`offsetX, this`scale
      requires scale != 0.0
    {
      View.ToScene(e.clientX, e.rectLeft, offsetX, scale)
    }

    function SceneY(e: MouseEvent): real
      reads this`offsetY, this`scale
      requires scale != 0.0
    {
      View.ToScene(e.clientY, e.rectTop, offsetY, scale)
    }

    /** A scene coordinate, snapped to the grid when snapping is on. */
    function Snapped(v: real): real
      reads this`snapToGrid
    {
      if snapToGrid then View.SnapToGridPoint(v) else v
    }

    /** The selection `selectShape(x, y)` leaves: the topmost hit, else the previous selection. */
    function Picked(x: real, y: real, width: TextWidth): Shape?
      reads this`shapes, this`selected, shapes
    {
      PickFrom(|shapes| - 1, x, y, width)
    }

    /** The selection a scan from position `i` down to the first shape leaves. */
    function PickFrom(i: int, x: real, y: real, width: TextWidth): (r: Shape?)
      reads this`shapes, this`selected, shapes
      requires -1 <= i < |shapes|
      ensures r == selected || (r in shapes[..i + 1] && HitTest(variant, x, y, r.data, width))
      decreases i
    {
      if i < 0 then selected
      else if HitTest(variant, x, y, shapes[i].data, width) then shapes[i]
      else PickFrom(i - 1, x, y, width)
    }

    /**
     * The scan picks the topmost shape the hit test accepts (the last one in
     * drawing order), and keeps the old selection when none is hit.
     */
    lemma {:induction false} PickedIsTopmost(x: real, y: real, width: TextWidth)
      ensures Picked(x, y, width) ==
                match TopmostHit(variant, Values(shapes), x, y, width)
                case Some(k) => shapes[k]
                case None => selected
    {
      PickFromIsTopmost(|shapes| - 1, x, y, width);
      assert Values(shapes)[..|shapes|] == Values(shapes);
    }

    lemma {:induction false} PickFromIsTopmost(i: int, x: real, y: real, width: TextWidth)
      requires -1 <= i < |shapes|
      ensures PickFrom(i, x, y, width) ==
                match TopmostHit(variant, Values(shapes)[..i + 1], x, y, width)
                case Some(k) => shapes[k]
                case None => selected
      decreases i
    {
      if i >= 0 {
        var ds := Values(shapes)[..i + 1];
        ValuesAt(shapes);
        assert ds[..|ds| - 1] == Values(shapes)[..i];
        PickFromIsTopmost(i - 1, x, y, width);
      }
    }

    /**
     * The constructor with `setupCanvas`: an empty scene on an A4 landscape
     * sheet, and exactly one snapshot in the history.
     */
    constructor (v: Variant)
      ensures Valid() && variant == v
      ensures shapes == [] && selected == null && clipboard == None
      ensures currentTool == "line" && !isDrawing && !isPanning && !isMovingObject && !snapToGrid
      ensures currentFormat == "A4-H" && canvasWidth == 800 && canvasHeight == 600
      ensures scale == 1.0 && offsetX == 0.0 && offsetY == 0.0
      ensures history == [Snapshot([], None, "A4-H", 1.0, 0.0, 0.0)] && historyIndex == 0
      ensures Log() == History.Save(History.Empty(), Capture())
      ensures Template.Lookup(currentFormat) == Some(Template.Format(canvasWidth, canvasHeight, 1.0, Template.Horizontal))
    {
      variant := v;
      currentTool := "line";
      isDrawing := false;
      startX, startY := 0.0, 0.0;
      shapes := [];
      selected := null;
      currentFormat := "A4-H";
      scale, offsetX, offsetY := 1.0, 0.0, 0.0;
      isPanning := false;
      lastPanX, lastPanY := 0.0, 0.0;
      isMovingObject := false;
      dragStartX, dragStartY := 0.0, 0.0;
      originalObjectX, originalObjectY := 0.0, 0.0;
      gridVisible := true;
      snapToGrid := false;
      clipboard := None;
      // What `createDrawingTemplate('A4-H')` and the first `saveState` leave.
      var first := Snapshot([], None, "A4-H", 1.0, 0.0, 0.0);
      history, historyIndex := [first], 0;
      canvasWidth, canvasHeight := 800, 600;
      new;
      History.SaveFromEmpty(first);
    }

    // ---------------------------------------------------------------- history

    /**
     * `saveState`: record a deep copy of the scene, the selection, the format
     * and the view, truncating the redo branch and evicting the oldest entry
     * past 50.
     */
    method SaveState()
      requires Ready()
      modifies this`history, this`historyIndex
      ensures Valid()
      ensures Log() == History.Save(old(Log()), Capture())
    {
      var state := Capture();
      ghost var after := History.Save(Log(), state);
      var kept := history[..historyIndex + 1] + [state];
      if |kept| > History.Capacity {
        history := kept[1..];
      } else {
        history := kept;
        historyIndex := historyIndex + 1;
      }
      assert Log() == after;
    }

    /** Fresh live objects holding the given values, in order (the `map` in `restoreState`). */
    static method FreshCopies(ds: seq<ShapeData>) returns (r: seq<Shape>)
      ensures Values(r) == ds && Distinct(r)
      ensures forall i :: 0 <= i < |r| ==> fresh(r[i])
    {
      r := [];
      var i := 0;
      while i < |ds|
        invariant 0 <= i <= |ds| && |r| == i
        invariant forall k :: 0 <= k < i ==> fresh(r[k]) && r[k].data == ds[k]
        invariant Distinct(r)
      {
        var s := new Shape(ds[i]);
        r := r + [s];
        i := i + 1;
      }
      ValuesAt(r);
      assert Values(r) == ds;
    }

    /**
     * `restoreState`: replace the scene with fresh copies of the snapshot's
     * shapes and the selection with a fresh copy of its selection, which is
     * therefore never one of the listed shapes; the format and the view come
     * from the snapshot too.
     */
    method RestoreState(snap: Snapshot)
      modifies this`shapes, this`selected, this`currentFormat, this`scale, this`offsetX, this`offsetY
      ensures Capture() == snap
      ensures Distinct(shapes)
      ensures forall i :: 0 <= i < |shapes| ==> fresh(shapes[i])
      ensures selected != null ==> fresh(selected) && selected !in shapes
    {
      currentFormat, scale, offsetX, offsetY := snap.format, snap.scale, snap.offsetX, snap.offsetY;
      var copy: Shape? := null;
      if snap.selected.Some? {
        copy := new Shape(snap.selected.value);
      }
      var restored := FreshCopies(snap.shapes);
      shapes, selected := restored, copy;
    }

    /** `undo`: a no-op at the first entry; otherwise step back and restore that entry. */
    method Undo()
      requires Valid()
      modifies this`shapes, this`selected, this`currentFormat, this`scale, this`offsetX, this`offsetY
      modifies this`historyIndex
      ensures Valid()
      ensures Log() == History.Undo(old(Log()))
      ensures old(historyIndex) == 0 ==> unchanged(this)
      ensures old(historyIndex) > 0 ==> Capture() == history[historyIndex]
      ensures old(historyIndex) > 0 ==> selected != null ==> selected !in shapes
    {
      if historyIndex > 0 {
        historyIndex := historyIndex - 1;
        RestoreState(history[historyIndex]);
      }
    }

    /** `redo`: a no-op at the last entry; otherwise step forward and restore that entry. */
    method Redo()
      requires Valid()
      modifies this`shapes, this`selected, this`currentFormat, this`scale, this`offsetX, this`offsetY
      modifies this`historyIndex
      ensures Valid()
      ensures Log() == History.Redo(old(Log()))
      ensures old(historyIndex) == |history| - 1 ==> unchanged(this)
      ensures old(historyIndex) < |history| - 1 ==> Capture() == history[historyIndex]
      ensures old(historyIndex) < |history| - 1 ==> selected != null ==> selected !in shapes
    {
      if historyIndex < |history| - 1 {
        historyIndex := historyIndex + 1;
        RestoreState(history[historyIndex]);
      }
    }

    // ------------------------------------------------------------------ scene

    /** Append a new shape and snapshot the result: the shared tail of `createShape`, `addText` and `pasteObjects`. */
    method AppendShape(d: ShapeData)
      requires Valid()
      modifies this`shapes, this`history, this`historyIndex
      ensures Valid()
      ensures Appended(d)
      ensures Log() == History.Save(old(Log()), Capture())
    {
      var s := new Shape(d);
      shapes := shapes + [s];
      SaveState();
    }

    /**
     * `selectShape`: scan the shapes from the last to the first and select the
     * first one the hit test accepts; with no hit the selection stays as it was.
     */
    method SelectShape(x: real, y: real, width: TextWidth)
      modifies this`selected
      ensures selected == old(Picked(x, y, width))
    {
      var i := |shapes| - 1;
      while i >= 0
        invariant -1 <= i < |shapes|
        invariant PickFrom(i, x, y, width) == old(Picked(x, y, width))
        invariant selected == old(selected)
      {
        if HitTest(variant, x, y, shapes[i].data, width) {
          selected := shapes[i];
          return;
        }
        i := i - 1;
      }
    }

    /**
     * `createShape`: a shape of the current tool's kind from the pointer-down
     * point to (endX, endY), with the pen's style and the given id, then one
     * snapshot.
     */
    method CreateShape(endX: real, endY: real, id: real)
      requires Valid()
      modifies this`shapes, this`history, this`historyIndex
      ensures Valid()
      ensures Appended(Geometric(currentTool, startX, startY, endX, endY, PenWidth, PenStroke, PenFill, id))
      ensures Log() == History.Save(old(Log()), Capture())
    {
      AppendShape(Geometric(currentTool, startX, startY, endX, endY, PenWidth, PenStroke, PenFill, id));
    }

    /** Whether `prompt` returned a non-empty string. */
    static predicate Answered(answer: Option<string>)
    {
      answer.Some? && answer.value != ""
    }

    /**
     * What `addText` at (x, y) leaves, from `scene`: in the newer engine, with
     * a non-empty answer, a 16px Arial text shape at (x, y) appended and one
     * snapshot taken; otherwise the shape list and the history as they were.
     */
    predicate TextAdded(x: real, y: real, answer: Option<string>, id: real, before: seq<Shape>, log: History.Log<Snapshot>)
      reads this`selected, this`shapes, this`history, this`historyIndex
      reads this`currentFormat, this`scale, this`offsetX, this`offsetY
      reads shapes, selected
    {
      if variant == Current && Answered(answer) then
        && Extends(before, Text(answer.value, x, y, 16.0, "Arial", PenStroke, id))
        && History.Saveable(log)
        && Log() == History.Save(log, Capture())
      else shapes == before && Log() == log
    }

    /**
     * `addText`. The older engine only paints the text, so its state does
     * not change.
     */
    method AddText(x: real, y: real, answer: Option<string>, id: real)
      requires Valid()
      modifies this`shapes, this`history, this`historyIndex
      ensures Valid()
      ensures TextAdded(x, y, answer, id, old(shapes), old(Log()))
      ensures |shapes| == |old(shapes)| + 1 ==> fresh(shapes[|old(shapes)|])
    {
      if variant == Current && Answered(answer) {
        AppendShape(Text(answer.value, x, y, 16.0, "Arial", PenStroke, id));
      }
    }

    /**
     * `deleteSelectedShape`: remove the selected object, found by identity,
     * clear the selection and take one snapshot. A selection that is not in
     * the list (such as the copy `restoreState` installs) changes nothing.
     */
    method DeleteSelectedShape()
      requires Valid()
      modifies this`shapes, this`selected, this`history, this`historyIndex
      ensures Valid()
      ensures !(old(selected) != null && old(selected) in old(shapes)) ==> unchanged(this)
      ensures old(selected) != null && old(selected) in old(shapes) ==>
                var k := IndexOf(old(shapes), old(selected));
                && shapes == old(shapes)[..k] + old(shapes)[k + 1..]
                && shapes == Without(old(shapes), old(selected))
                && selected == null
                && Log() == History.Save(old(Log()), Capture())
    {
      if selected != null {
        var index := IndexOf(shapes, selected);
        if index > -1 {
          WithoutIsSplice(shapes, selected);
          SpliceDistinct(shapes, index);
          shapes := shapes[..index] + shapes[index + 1..];
          selected := null;
          SaveState();
        }
      }
    }

    /** `Without` keeps a list of distinct objects distinct. */
    static lemma WithoutDistinct(ss: seq<Shape>, s: Shape)
      requires Distinct(ss)
      ensures Distinct(Without(ss, s))
    {
      if s in ss {
        WithoutIsSplice(ss, s);
        SpliceDistinct(ss, IndexOf(ss, s));
      }
    }

    /** `copySelected`: put a deep copy of the selection on the clipboard, if there is one. */
    method CopySelected()
      modifies this`clipboard
      ensures clipboard == if old(selected) == null then old(clipboard) else Some(selected.data)
    {
      if selected != null {
        clipboard := Some(selected.data);
      }
    }

    /**
     * `pasteObjects`: append a copy of the clipboard shifted by (20, 20) and
     * take one snapshot; the clipboard itself stays as it was. With an empty
     * clipboard nothing changes.
     */
    method PasteObjects()
      requires Valid()
      modifies this`shapes, this`history, this`historyIndex
      ensures Valid()
      ensures clipboard.None? ==> unchanged(this)
      ensures clipboard.Some? ==>
                && Appended(Shifted(clipboard.value))
                && Log() == History.Save(old(Log()), Capture())
    {
      if clipboard.Some? {
        AppendShape(Shifted(clipboard.value));
      }
    }

    /**
     * `cutSelected`: copy the selection to the clipboard, remove every shape
     * identical to it, clear the selection and take one snapshot (even when
     * the selection was not in the list). With no selection nothing changes.
     */
    method CutSelected()
      requires Valid()
      modifies this`shapes, this`selected, this`clipboard, this`history, this`historyIndex
      ensures Valid()
      ensures old(selected) == null ==> unchanged(this)
      ensures old(selected) != null ==>
                && clipboard == Some(old(selected.data))
                && shapes == Without(old(shapes), old(selected))
                && selected == null
                && Log() == History.Save(old(Log()), Capture())
    {
      if selected != null {
        clipboard := Some(selected.data);
        WithoutDistinct(shapes, selected);
        shapes := Without(shapes, selected);
        selected := null;
        SaveState();
      }
    }

    /**
     * `deleteSelected` (the editor menu's delete): remove every shape identical
     * to the selection, clear it and take one snapshot (even when the
     * selection was not in the list). With no selection nothing changes.
     */
    method DeleteSelected()
      requires Valid()
      modifies this`shapes, this`selected, this`history, this`historyIndex
      ensures Valid()
      ensures old(selected) == null ==> unchanged(this)
      ensures old(selected) != null ==>
                && shapes == Without(old(shapes), old(selected))
                && selected == null
                && Log() == History.Save(old(Log()), Capture())
    {
      if selected != null {
        WithoutDistinct(shapes, selected);
        shapes := Without(shapes, selected);
        selected := null;
        SaveState();
      }
    }

    /** `selectAll`: select the last shape (none when the list is empty). */
    method SelectAll()
      modifies this`selected
      ensures selected == if shapes == [] then null else shapes[|shapes| - 1]
    {
      if |shapes| == 0 {
        selected := null;
      } else {
        selected := shapes[|shapes| - 1];
      }
    }

    /** `clearSelection`, and the Escape key. */
    method ClearSelection()
      modifies this`selected
      ensures selected == null
    {
      selected := null;
    }

    /**
     * `newFile`: when confirmed, empty the scene and reset the view; the
     * history is left as it is and no snapshot is taken.
     */
    method NewFile(confirmed: bool)
      requires Valid()
      modifies this`shapes, this`selected, this`scale, this`offsetX, this`offsetY
      ensures Valid()
      ensures !confirmed ==> unchanged(this)
      ensures confirmed ==> shapes == [] && selected == null && scale == 1.0 && offsetX == 0.0 && offsetY == 0.0
    {
      if confirmed {
        shapes := [];
        selected := null;
        scale := 1.0;
        offsetX := 0.0;
        offsetY := 0.0;
      }
    }

    // ------------------------------------------------------------- view, format

    /**
     * `createDrawingTemplate`: record the format and size the canvas from the
     * formats table. For an identifier the table lacks, the source throws
     * right after recording it; `ok` is then false and the canvas keeps its size.
     */
    method CreateDrawingTemplate(format: string) returns (ok: bool)
      modifies this`currentFormat, this`canvasWidth, this`canvasHeight
      ensures currentFormat == format
      ensures ok == Template.Lookup(format).Some?
      ensures ok ==> canvasWidth == Template.Lookup(format).value.width
                     && canvasHeight == Template.Lookup(format).value.height
      ensures !ok ==> canvasWidth == old(canvasWidth) && canvasHeight == old(canvasHeight)
    {
      currentFormat := format;
      var formatData := Template.Lookup(format);
      if formatData.Some? {
        canvasWidth := formatData.value.width;
        canvasHeight := formatData.value.height;
        ok := true;
      } else {
        ok := false;
      }
    }

    /** `zoomIn`: scale by 1.2 unless that exceeds 5. */
    method ZoomIn()
      requires Valid()
      modifies this`scale
      ensures Valid()
      ensures scale == View.ZoomedIn(old(scale))
    {
      var newScale := scale * 1.2;
      if newScale <= View.MaxScale {
        scale := newScale;
      }
    }

    /** `zoomOut`: scale by 0.8 unless that falls below 0.1. */
    method ZoomOut()
      requires Valid()
      modifies this`scale
      ensures Valid()
      ensures scale == View.ZoomedOut(old(scale))
    {
      var newScale := scale * 0.8;
      if newScale >= View.MinScale {
        scale := newScale;
      }
    }

    /** `resetZoom`: scale 1, no pan offset. */
    method ResetZoom()
      requires Valid()
      modifies this`scale, this`offsetX, this`offsetY
      ensures Valid()
      ensures scale == 1.0 && offsetX == 0.0 && offsetY == 0.0
    {
      scale := 1.0;
      offsetX := 0.0;
      offsetY := 0.0;
    }

    /**
     * `handleWheel`: with Ctrl held, zoom by 0.9 or 1.1 about the cursor when
     * the new scale stays within [0.1, 5]; otherwise nothing changes.
     */
    method HandleWheel(e: MouseEvent, ctrlKey: bool, deltaY: real)
      requires Valid()
      modifies this`scale, this`offsetX, this`offsetY
      ensures Valid()
      ensures !ctrlKey ==> unchanged(this)
      ensures ctrlKey ==>
                View.Zoom(scale, offsetX, offsetY) ==
                  View.WheelZoom(View.Zoom(old(scale), old(offsetX), old(offsetY)),
                                 e.clientX - e.rectLeft, e.clientY - e.rectTop, deltaY)
    {
      if ctrlKey {
        var mouseX := e.clientX - e.rectLeft;
        var mouseY := e.clientY - e.rectTop;
        var zoomFactor := if deltaY > 0.0 then 0.9 else 1.1;
        var newScale := scale * zoomFactor;
        assert zoomFactor == View.WheelFactor(deltaY);
        if newScale >= View.MinScale && newScale <= View.MaxScale {
          offsetX := mouseX - (mouseX - offsetX) * zoomFactor;
          offsetY := mouseY - (mouseY - offsetY) * zoomFactor;
          scale := newScale;
        }
      }
    }

    /** `selectTool`. */
    method SelectTool(tool: string)
      modifies this`currentTool
      ensures currentTool == tool
    {
      currentTool := tool;
    }

    /** `toggleSnapToGrid`. */
    method ToggleSnapToGrid()
      modifies this`snapToGrid
      ensures snapToGrid == !old(snapToGrid)
    {
      snapToGrid := !snapToGrid;
    }

    // ------------------------------------------------------------- gestures

    /** The move tools of `handleMouseDown`: `move-object` in both engines, `move` in the newer one. */
    predicate IsMoveTool(tool: string)
    {
      tool == "move-object" || (variant == Current && tool == "move")
    }

    /** Tools of the newer engine whose handler selects and then calls a method that does not exist. */
    predicate IsBrokenTool(tool: string)
    {
      variant == Current && (tool == "rotate" || tool == "mirror" || tool == "trim" || tool == "extend")
    }

    /** Tools whose pointer-up creates no shape. */
    static predicate IsNonDrawingTool(tool: string)
    {
      tool == "select" || tool == "text" || tool == "pan"
    }

    /**
     * The dispatch's branch for `tool`, tested in the source's order (the
     * names are distinct, so the broken tools may be tested with `select`).
     */
    function PressOf(tool: string): (r: Press)
      ensures r == PickPress <==> tool == "select" || IsBrokenTool(tool)
      ensures r == TextPress <==> tool == "text"
      ensures r == PanPress <==> tool == "pan"
      ensures r == MovePress <==> IsMoveTool(tool)
    {
      if tool == "select" || IsBrokenTool(tool) then PickPress
      else if tool == "text" then TextPress
      else if tool == "pan" then PanPress
      else if IsMoveTool(tool) then MovePress
      else NoPress
    }

    /**
     * The move branch of `handleMouseDown`: pick, and with a selection start
     * a drag from (x, y) anchored at the selection's start point (a text
     * shape has none, so the anchor stays as it was).
     */
    method BeginMove(x: real, y: real, width: TextWidth)
      modifies this`selected, this`isMovingObject, this`dragStartX, this`dragStartY
      modifies this`originalObjectX, this`originalObjectY
      ensures selected == old(Picked(x, y, width))
      ensures selected == null ==> unchanged(this`isMovingObject, this`dragStartX, this`dragStartY,
                                             this`originalObjectX, this`originalObjectY)
      ensures selected != null ==> isMovingObject && dragStartX == x && dragStartY == y
      ensures selected != null && selected.data.Geometric? ==>
                originalObjectX == selected.data.startX && originalObjectY == selected.data.startY
      ensures selected != null && selected.data.Text? ==>
                originalObjectX == old(originalObjectX) && originalObjectY == old(originalObjectY)
    {
      SelectShape(x, y, width);
      if selected != null {
        isMovingObject := true;
        dragStartX := x;
        dragStartY := y;
        if selected.data.Geometric? {
          originalObjectX := selected.data.startX;
          originalObjectY := selected.data.startY;
        }
      }
    }

    /** The current state, with `picked` as the pick. */
    function Now(picked: Shape?): Before
      reads this`shapes, this`selected, this`history, this`historyIndex
      reads this`isPanning, this`lastPanX, this`lastPanY
      reads this`isMovingObject, this`dragStartX, this`dragStartY, this`originalObjectX, this`originalObjectY
    {
      Before(picked, selected, shapes, Log(), PanState(), DragState())
    }

    /** The state a pointer-down at scene point (x, y) starts from. */
    function BeforeAt(x: real, y: real, width: TextWidth): Before
      reads this`shapes, this`selected, this`history, this`historyIndex
      reads this`isPanning, this`lastPanX, this`lastPanY
      reads this`isMovingObject, this`dragStartX, this`dragStartY, this`originalObjectX, this`originalObjectY
      reads shapes
    {
      Now(Picked(x, y, width))
    }

    /** A pick: the selection is `b`'s pick, and nothing else changed. */
    predicate Picks(b: Before)
      reads this`selected, this`shapes, this`history, this`historyIndex
      reads this`isPanning, this`lastPanX, this`lastPanY
      reads this`isMovingObject, this`dragStartX, this`dragStartY, this`originalObjectX, this`originalObjectY
    {
      selected == b.picked && shapes == b.shapes && Log() == b.log && PanState() == b.pan && DragState() == b.drag
    }

    /** Nothing the dispatch may change has changed. */
    predicate Keeps(b: Before)
      reads this`selected, this`shapes, this`history, this`historyIndex
      reads this`isPanning, this`lastPanX, this`lastPanY
      reads this`isMovingObject, this`dragStartX, this`dragStartY, this`originalObjectX, this`originalObjectY
    {
      selected == b.selected && shapes == b.shapes && Log() == b.log && PanState() == b.pan && DragState() == b.drag
    }

    /** The pan tool: a pan started from the event's client position; nothing else changed. */
    predicate PanStarted(e: MouseEvent, b: Before)
      reads this`selected, this`shapes, this`history, this`historyIndex
      reads this`isPanning, this`lastPanX, this`lastPanY
      reads this`isMovingObject, this`dragStartX, this`dragStartY, this`originalObjectX, this`originalObjectY
    {
      && PanState() == (true, e.clientX, e.clientY)
      && selected == b.selected && shapes == b.shapes && Log() == b.log && DragState() == b.drag
    }

    /**
     * The move tools: a pick, and with a selection a drag from (x, y)
     * anchored at `DragOrigin`; without one the drag fields are kept.
     */
    predicate MoveStarted(x: real, y: real, b: Before)
      reads this`selected, this`shapes, this`history, this`historyIndex
      reads this`isPanning, this`lastPanX, this`lastPanY
      reads this`isMovingObject, this`dragStartX, this`dragStartY, this`originalObjectX, this`originalObjectY
      reads selected
    {
      && selected == b.picked && shapes == b.shapes && Log() == b.log && PanState() == b.pan
      && if selected == null then DragState() == b.drag
         else
           var (_, _, _, anchorX, anchorY) := b.drag;
           var (originX, originY) := DragOrigin(selected.data, anchorX, anchorY);
           DragState() == (true, x, y, originX, originY)
    }

    /**
     * What the tool dispatch of `handleMouseDown` does at scene point (x, y),
     * starting from `b`, by the current tool: select, and the newer engine's
     * rotate, mirror, trim and extend, pick (`Picked`); text adds a text
     * shape and one snapshot when the newer engine gets an answer; pan starts
     * a pan from the client position; the move tools pick and, with a
     * selection, start a drag. Any other tool changes nothing.
     */
    predicate ToolEffect(e: MouseEvent, x: real, y: real, answer: Option<string>, textId: real, b: Before)
      reads this`currentTool, this`selected, this`shapes, this`history, this`historyIndex
      reads this`currentFormat, this`scale, this`offsetX, this`offsetY
      reads this`isPanning, this`lastPanX, this`lastPanY
      reads this`isMovingObject, this`dragStartX, this`dragStartY, this`originalObjectX, this`originalObjectY
      reads shapes, selected
    {
      match PressOf(currentTool)
      case PickPress => Picks(b)
      case TextPress =>
        && selected == b.selected && PanState() == b.pan && DragState() == b.drag
        && TextAdded(x, y, answer, textId, b.shapes, b.log)
      case PanPress => PanStarted(e, b)
      case MovePress => MoveStarted(x, y, b)
      case NoPress => Keeps(b)
    }

    /**
     * Only the text tool's press can change the shape list or the history, and
     * it adds at most one shape.
     */
    lemma OnlyTextPressEdits(e: MouseEvent, x: real, y: real, answer: Option<string>, textId: real, b: Before)
      requires ToolEffect(e, x, y, answer, textId, b)
      ensures PressOf(currentTool) != TextPress ==> shapes == b.shapes && Log() == b.log
      ensures PressOf(currentTool) == TextPress ==> |shapes| <= |b.shapes| + 1
    {
    }

    /**
     * The tools whose pointer-up draws nothing are exactly those whose
     * pointer-down takes the select, text or pan branch. The newer engine's
     * rotate, mirror, trim and extend pick like select but still draw a shape
     * of their own name at pointer-up, and so do the move tools when the press
     * leaves nothing selected (nothing hit and nothing selected before).
     */
    lemma ReleaseDrawsUnlessPressed(tool: string)
      ensures IsNonDrawingTool(tool) <==>
                || (PressOf(tool) == PickPress && !IsBrokenTool(tool))
                || PressOf(tool) == TextPress
                || PressOf(tool) == PanPress
      ensures IsBrokenTool(tool) || IsMoveTool(tool) ==> !IsNonDrawingTool(tool)
    {
    }

    /**
     * A pointer-down that starts a gesture (the tail of `handleMouseDown`):
     * the pointer's scene point, snapped if enabled, becomes the gesture's
     * start, `isDrawing` is set, and the current tool acts (`ToolEffect`).
     */
    method StartGesture(e: MouseEvent, x: real, y: real, answer: Option<string>, textId: real, width: TextWidth)
      requires Valid()
      modifies this`isDrawing, this`startX, this`startY
      modifies this`selected, this`shapes, this`history, this`historyIndex
      modifies this`isPanning, this`lastPanX, this`lastPanY
      modifies this`isMovingObject, this`dragStartX, this`dragStartY, this`originalObjectX, this`originalObjectY
      ensures Valid()
      ensures isDrawing && startX == old(Snapped(x)) && startY == old(Snapped(y))
      ensures ToolEffect(e, x, y, answer, textId, old(BeforeAt(x, y, width)))
      ensures |shapes| == |old(shapes)| + 1 ==> fresh(shapes[|old(shapes)|])
    {
      ghost var b := BeforeAt(x, y, width);
      startX := Snapped(x);
      startY := Snapped(y);
      isDrawing := true;
      assert BeforeAt(x, y, width) == b;
      ToolDown(e, x, y, answer, textId, width);
    }

    /** The tool dispatch of `handleMouseDown` at scene point (x, y). */
    method ToolDown(e: MouseEvent, x: real, y: real, answer: Option<string>, textId: real, width: TextWidth)
      requires Valid()
      modifies this`selected, this`shapes, this`history, this`historyIndex
      modifies this`isPanning, this`lastPanX, this`lastPanY
      modifies this`isMovingObject, this`dragStartX, this`dragStartY, this`originalObjectX, this`originalObjectY
      ensures Valid()
      ensures ToolEffect(e, x, y, answer, textId, old(BeforeAt(x, y, width)))
      ensures |shapes| == |old(shapes)| + 1 ==> fresh(shapes[|old(shapes)|])
    {
      match PressOf(currentTool)
      case PickPress => PressPick(e, x, y, answer, textId, width);
      case TextPress => PressText(e, x, y, answer, textId, Picked(x, y, width));
      case PanPress => PressPan(e, x, y, answer, textId, Picked(x, y, width));
      case MovePress => PressMove(e, x, y, answer, textId, width);
      case NoPress =>
    }

    /** The dispatch's select branch, which the newer engine's rotate, mirror, trim and extend share. */
    method PressPick(e: MouseEvent, x: real, y: real, answer: Option<string>, textId: real, width: TextWidth)
      requires Valid() && PressOf(currentTool) == PickPress
      modifies this`selected
      ensures Valid()
      ensures ToolEffect(e, x, y, answer, textId, old(BeforeAt(x, y, width)))
    {
      SelectShape(x, y, width);
    }

    /** The dispatch's text branch. */
    method PressText(e: MouseEvent, x: real, y: real, answer: Option<string>, textId: real, ghost picked: Shape?)
      requires Valid() && PressOf(currentTool) == TextPress
      modifies this`shapes, this`history, this`historyIndex
      ensures Valid()
      ensures ToolEffect(e, x, y, answer, textId, old(Now(picked)))
      ensures |shapes| == |old(shapes)| + 1 ==> fresh(shapes[|old(shapes)|])
    {
      AddText(x, y, answer, textId);
    }

    /** The dispatch's pan branch. */
    method PressPan(e: MouseEvent, x: real, y: real, answer: Option<string>, textId: real, ghost picked: Shape?)
      requires Valid() && PressOf(currentTool) == PanPress
      modifies this`isPanning, this`lastPanX, this`lastPanY
      ensures Valid()
      ensures ToolEffect(e, x, y, answer, textId, old(Now(picked)))
    {
      isPanning := true;
      lastPanX := e.clientX;
      lastPanY := e.clientY;
    }

    /** The dispatch's branch for the move tools. */
    method PressMove(e: MouseEvent, x: real, y: real, answer: Option<string>, textId: real, width: TextWidth)
      requires Valid() && PressOf(currentTool) == MovePress
      modifies this`selected, this`isMovingObject, this`dragStartX, this`dragStartY
      modifies this`originalObjectX, this`originalObjectY
      ensures Valid()
      ensures ToolEffect(e, x, y, answer, textId, old(BeforeAt(x, y, width)))
    {
      BeginMove(x, y, width);
    }

    /** The anchor a drag starts from: the shape's start point; a text shape has none, so the old anchor stays. */
    static function DragOrigin(d: ShapeData, oldX: real, oldY: real): (real, real)
    {
      if d.Geometric? then (d.startX, d.startY) else (oldX, oldY)
    }

    /**
     * `handleMouseDown`. While panning it does nothing; the middle button
     * starts a pan; otherwise the pointer's scene point (snapped if enabled)
     * becomes the gesture's start, `isDrawing` is set, and the tool decides
     * the rest (`StartGesture`).
     */
    method HandleMouseDown(e: MouseEvent, answer: Option<string>, textId: real, width: TextWidth)
      requires Valid()
      modifies this`isDrawing, this`startX, this`startY
      modifies this`selected, this`shapes, this`history, this`historyIndex
      modifies this`isPanning, this`lastPanX, this`lastPanY
      modifies this`isMovingObject, this`dragStartX, this`dragStartY, this`originalObjectX, this`originalObjectY
      ensures Valid()
      ensures old(isPanning) ==> unchanged(this)
      ensures !old(isPanning) && e.button == MiddleButton ==>
                && isPanning && lastPanX == e.clientX && lastPanY == e.clientY
                && unchanged(this`isDrawing, this`startX, this`startY, this`selected)
                && SceneKept() && DragKept()
      ensures !old(isPanning) && e.button != MiddleButton ==>
                && isDrawing && startX == old(Snapped(SceneX(e))) && startY == old(Snapped(SceneY(e)))
                && ToolEffect(e, old(SceneX(e)), old(SceneY(e)), answer, textId, old(BeforeAt(SceneX(e), SceneY(e), width)))
      ensures |shapes| == |old(shapes)| + 1 ==> fresh(shapes[|old(shapes)|])
    {
      if isPanning {
        return;
      }
      if e.button == MiddleButton {
        isPanning := true;
        lastPanX := e.clientX;
        lastPanY := e.clientY;
        return;
      }
      StartGesture(e, SceneX(e), SceneY(e), answer, textId, width);
    }

    /**
     * One step of a drag, with the pointer at scene point (x, y): the
     * selection's start becomes the drag origin plus the pointer's
     * displacement since the drag began (see `Moved`). `radius` is what
     * `Math.sqrt` returns for a round shape's radius, which the step keeps.
     */
    method DragSelected(x: real, y: real, radius: real)
      requires Distinct(shapes) && selected != null
      requires selected.data.Geometric? && KeepsRadius(selected.data.kind) ==>
                 IsRoot(radius, LengthSq(selected.data.startX, selected.data.startY, selected.data.endX, selected.data.endY))
      modifies selected
      ensures selected.data == Moved(old(selected.data), originalObjectX + (x - dragStartX), originalObjectY + (y - dragStartY), radius)
      ensures Values(shapes) == if selected in shapes then old(Values(shapes))[IndexOf(shapes, selected) := selected.data]
                                else old(Values(shapes))
      ensures old(selected.data).Geometric? && KeepsRadius(old(selected.data).kind) ==>
                LengthSq(selected.data.startX, selected.data.startY, selected.data.endX, selected.data.endY) ==
                LengthSq(old(selected.data).startX, old(selected.data).startY, old(selected.data).endX, old(selected.data).endY)
    {
      var deltaX := x - dragStartX;
      var deltaY := y - dragStartY;
      ghost var before := Values(shapes);
      ValuesAt(shapes);
      var d := selected.data;
      if d.Geometric? && KeepsRadius(d.kind) {
        MoveKeepsRadius(d, originalObjectX + deltaX, originalObjectY + deltaY, radius);
      }
      selected.data := Moved(d, originalObjectX + deltaX, originalObjectY + deltaY, radius);
      MovedValues(shapes, selected, before);
    }

    /**
     * `handleMouseMove`. While panning, the pointer's movement since the last
     * event is added to the offsets. While dragging a selection, the drag
     * takes one step (`DragSelected`). Otherwise only a preview is painted.
     */
    method HandleMouseMove(e: MouseEvent, radius: real)
      requires Valid()
      requires !isPanning && isMovingObject && selected != null && selected.data.Geometric?
               && KeepsRadius(selected.data.kind) ==>
                 IsRoot(radius, LengthSq(selected.data.startX, selected.data.startY, selected.data.endX, selected.data.endY))
      modifies this`offsetX, this`offsetY, this`lastPanX, this`lastPanY, selected
      ensures Valid()
      ensures old(isPanning) ==>
                && offsetX == View.PanStep(old(offsetX), old(lastPanX), e.clientX)
                && offsetY == View.PanStep(old(offsetY), old(lastPanY), e.clientY)
                && lastPanX == e.clientX && lastPanY == e.clientY
                && (selected != null ==> unchanged(selected))
      ensures !old(isPanning) ==> unchanged(this)
      ensures !old(isPanning) && isMovingObject && selected != null ==>
                && selected.data == Moved(old(selected.data), originalObjectX + (SceneX(e) - dragStartX),
                                          originalObjectY + (SceneY(e) - dragStartY), radius)
                && Values(shapes) == if selected in shapes then old(Values(shapes))[IndexOf(shapes, selected) := selected.data]
                                     else old(Values(shapes))
      ensures !old(isPanning) && !(isMovingObject && selected != null) ==>
                selected != null ==> unchanged(selected)
    {
      if isPanning {
        var deltaX := e.clientX - lastPanX;
        var deltaY := e.clientY - lastPanY;
        offsetX := offsetX + deltaX;
        offsetY := offsetY + deltaY;
        lastPanX := e.clientX;
        lastPanY := e.clientY;
        return;
      }
      if isMovingObject && selected != null {
        DragSelected(SceneX(e), SceneY(e), radius);
      }
    }

    /** Editing the data of one listed object changes the list's values at its one position. */
    static lemma MovedValues(ss: seq<Shape>, s: Shape, before: seq<ShapeData>)
      requires Distinct(ss) && |before| == |ss|
      requires forall i :: 0 <= i < |ss| && ss[i] != s ==> before[i] == ss[i].data
      ensures s in ss ==> Values(ss) == before[IndexOf(ss, s) := s.data]
      ensures s !in ss ==> Values(ss) == before
    {
      ValuesAt(ss);
      if s in ss {
        var k := IndexOf(ss, s);
        assert forall i :: 0 <= i < |ss| && i != k ==> ss[i] != s;
      }
    }

    /**
     * `handleMouseUp`. Ending a pan or a drag only clears its flag: no
     * snapshot. Otherwise, if a gesture is in progress, it ends, and unless the
     * tool is select, text or pan one shape is created from the gesture's
     * start to the pointer's scene point (snapped if enabled), with one
     * snapshot.
     */
    method HandleMouseUp(e: MouseEvent, id: real)
      requires Valid()
      modifies this`isPanning, this`isMovingObject, this`isDrawing, this`shapes, this`history, this`historyIndex
      ensures Valid()
      ensures old(isPanning) ==> !isPanning && isMovingObject == old(isMovingObject) && isDrawing == old(isDrawing) && SceneKept()
      ensures !old(isPanning) && old(isMovingObject) ==> !isMovingObject && !isPanning && isDrawing == old(isDrawing) && SceneKept()
      ensures !old(isPanning) && !old(isMovingObject) && !old(isDrawing) ==> unchanged(this)
      ensures !old(isPanning) && !old(isMovingObject) && old(isDrawing) && IsNonDrawingTool(currentTool) ==>
                !isDrawing && !isPanning && !isMovingObject && SceneKept()
      ensures !old(isPanning) && !old(isMovingObject) && old(isDrawing) && !IsNonDrawingTool(currentTool) ==>
                && Appended(Geometric(currentTool, startX, startY, Snapped(SceneX(e)), Snapped(SceneY(e)),
                                      PenWidth, PenStroke, PenFill, id))
                && Log() == History.Save(old(Log()), Capture())
                && !isDrawing && !isPanning && !isMovingObject
    {
      if isPanning {
        isPanning := false;
        return;
      }
      if isMovingObject {
        isMovingObject := false;
        return;
      }
      if !isDrawing {
        return;
      }
      var x := SceneX(e);
      var y := SceneY(e);
      var endX := Snapped(x);
      var endY := Snapped(y);
      isDrawing := false;
      if !IsNonDrawingTool(currentTool) {
        CreateShape(endX, endY, id);
      }
    }

    /** `handleDoubleClick`: with the text tool, add text at the canvas position (not converted to scene coordinates). */
    method HandleDoubleClick(e: MouseEvent, answer: Option<string>, id: real)
      requires Valid()
      modifies this`shapes, this`history, this`historyIndex
      ensures Valid()
      ensures currentTool != "text" ==> unchanged(this)
      ensures currentTool == "text" ==> TextAdded(e.clientX - e.rectLeft, e.clientY - e.rectTop, answer, id, old(shapes), old(Log()))
      ensures |shapes| == |old(shapes)| + 1 ==> fresh(shapes[|old(shapes)|])
    {
      if currentTool == "text" {
        AddText(e.clientX - e.rectLeft, e.clientY - e.rectTop, answer, id);
      }
    }

    /**
     * `handleKeyDown`: Delete with a selection deletes it, Escape clears the
     * selection, Ctrl+Z undoes and Ctrl+Y redoes; any other key does nothing.
     */
    method HandleKeyDown(key: string, ctrlKey: bool)
      requires Valid()
      modifies this`shapes, this`selected, this`currentFormat, this`scale, this`offsetX, this`offsetY
      modifies this`history, this`historyIndex
      ensures Valid()
      ensures key == "Delete" && old(selected) != null && old(selected) !in old(shapes) ==> unchanged(this)
      ensures key == "Delete" && old(selected) != null && old(selected) in old(shapes) ==>
                && shapes == Without(old(shapes), old(selected)) && selected == null
                && Log() == History.Save(old(Log()), Capture())
                && unchanged(this`currentFormat, this`scale, this`offsetX, this`offsetY)
      ensures key == "Escape" ==> selected == null && SceneKept() && unchanged(this`currentFormat, this`scale, this`offsetX, this`offsetY)
      ensures ctrlKey && key == "z" ==> Log() == History.Undo(old(Log()))
      ensures ctrlKey && key == "z" && old(historyIndex) == 0 ==> unchanged(this)
      ensures ctrlKey && key == "z" && old(historyIndex) > 0 ==>
                Capture() == history[historyIndex] && (selected != null ==> selected !in shapes)
      ensures ctrlKey && key == "y" ==> Log() == History.Redo(old(Log()))
      ensures ctrlKey && key == "y" && old(historyIndex) == |old(history)| - 1 ==> unchanged(this)
      ensures ctrlKey && key == "y" && old(historyIndex) < |old(history)| - 1 ==>
                Capture() == history[historyIndex] && (selected != null ==> selected !in shapes)
      ensures key != "Escape" && !(ctrlKey && (key == "z" || key == "y")) && !(key == "Delete" && old(selected) != null) ==>
                unchanged(this)
    {
      if key == "Delete" && selected != null {
        DeleteSelectedShape();
      } else if key == "Escape" {
        selected := null;
      } else if ctrlKey && key == "z" {
        Undo();
      } else if ctrlKey && key == "y" {
        Redo();
      }
    }
  }
}
