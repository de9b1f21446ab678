# CAD drawing-session engine in Dafny

This project models `CADApplication`, the engine behind the browser CAD page,
and proves properties of the model. The engine exists in two copies:
`assets/js/cad.js` (the newer one, `Current`) and `cad-script.js` (the older
one, `Legacy`). One class models both, with a `variant` constant.

The newer copy adds text shapes, the `move` tool, the tools that call missing
methods (rotate, mirror, trim, extend) and a wider hit test. The older copy's
`addText` only paints.

The model covers five parts of the engine:

- **History** (`history.dfy`, `History`). The bounded linear undo/redo log of
  `saveState`, `undo` and `redo` is a generic value `Log<T>`: a list of
  entries and the index of the current one. The capacity is 50.
- **Scene** (`scene.dfy`, `Scene`). Live shapes are `Shape` objects, so the
  object is the shape's identity (`indexOf`, `splice`, and
  `filter(shape => shape !== selected)`). A shape's contents are a
  `ShapeData` value, which snapshots and the clipboard hold (the JSON deep
  copies).
- **Geometry** (`geometry.dfy`, `Geometry`). The hit test of both copies, in
  squared form with no square roots. Lemmas prove that form equal to the
  source's `Math.sqrt` formula for any root the platform returns. Also the
  move step of a drag and the (20, 20) shift of a paste.
- **View** (`view.dfy`, `View`). Device-to-scene mapping, Ctrl-wheel zoom about
  the cursor, the zoom buttons, panning and grid snapping. `Math.round(x)` is
  `(x + 0.5).Floor`.
- **Template** (`template.dfy`, `Template`). The eight-entry paper-format
  table and the arithmetic of the frame (margin 20·scale) and of the title
  block (140·scale by 55·scale, flush with the frame's bottom-right corner).

`cad.dfy` (`Cad`) holds the class `CADApplication`. Its fields are the
source's fields. Its methods change them in place: the gesture flags, the
shape list, the selection, the clipboard, the view, and the history list
with its index.

Each mutating method states its whole new state. Undo and redo state it
through `Capture`: the restored state captures as the history entry they
reach, field by field, with fresh shape objects. Mutations of the history
are tied to `History.Save`, `History.Undo` and `History.Redo`. The
invariant `Valid()` states that the history is well formed and that no
shape object appears twice in the list. Every method keeps it.

Browser inputs become parameters:

- pointer events and the canvas rectangle (`MouseEvent`);
- the answers of `prompt` and `confirm`;
- `Date.now()` ids;
- the canvas's text metrics (`TextWidth`);
- the value `Math.sqrt` gives for a dragged circle's radius.

Behaviours of the code that the model keeps as written:

- `restoreState` installs a fresh copy of the saved selection, so after an
  undo or a redo the selection is never one of the listed shapes. A
  following `deleteSelectedShape` then changes nothing. `cutSelected` and
  `deleteSelected` still take a snapshot in that case.
- Ending a move gesture takes no snapshot (assets/js/cad.js:426-455).
- `handleMouseUp` draws for every tool except select, text and pan. So the
  newer engine's rotate, mirror, trim and extend, and a move press that leaves
  nothing selected (nothing hit and nothing selected before), append a shape
  named after the tool.
- `selectAll` selects only the last shape.
- Pasting or dragging a text shape leaves its position as it was. The source
  adds offsets to `startX`/`endX` properties that a text object lacks.
- In the newer copy, `handleMouseDown` sends rotate, mirror, trim and extend
  through `selectShape` and then calls a method that does not exist. The
  model keeps the `selectShape` effect, which is all the state those
  branches change.
- The constructor starts from `currentFormat = 'A4'`. `setupCanvas` then
  switches it to `A4-H`, sizes the canvas to 800 by 600 and takes the first
  snapshot. The model's constructor states the result of both steps.

## Model

| member | source | states |
|---|---|---|
| History.Save | assets/js/cad.js:1374-1398 | `saveState` on the log: from the empty log or a valid one, the result is a valid log (index on an entry, at most 50 entries) |
| History.SaveKeepsRecent | assets/js/cad.js:1384-1395 | after a save, the new snapshot is the current and last entry; the length is the old index + 2, capped at 50; the entries before it are the most recent ones up to and including the old current entry |
| History.SaveFromEmpty | assets/js/cad.js:63-65 | the first save from `historyIndex = -1` leaves exactly one entry, at index 0 |
| History.Undo | assets/js/cad.js:1400-1408 | `undo` keeps the entries; it steps the index back by one when it is above 0, and otherwise leaves the log unchanged |
| History.Redo | assets/js/cad.js:1410-1418 | `redo` keeps the entries; it steps the index forward when it is below the last entry, and otherwise leaves the log unchanged |
| History.UndoRedoRoundTrip | assets/js/cad.js:1400-1418 | an undo that moved is undone by a redo, and a redo that moved is undone by an undo |
| History.RedoAfterSaveIsNoOp | assets/js/cad.js:1384-1388 | right after a save there is nothing to redo |
| History.SaveAfterUndoPrunes | assets/js/cad.js:1384-1388 | undo then save(s) from entries e at index i > 0 gives entries e[..i] + [s] with index i: the undone branch is discarded |
| History.SaveSlidesWindow | assets/js/cad.js:1384-1395 | one save moves the window of the last (at most 50) snapshots forward by one element |
| History.SaveAllFromEmpty | assets/js/cad.js:1374-1398 | any sequence of saves from the empty log keeps the last min(n, 50) snapshots, with the index on the newest |
| History.FewSavesKeepAll | assets/js/cad.js:1374-1398 | up to 50 saves keep every snapshot, with the index at n - 1 |
| History.OverflowEvictsOldest | assets/js/cad.js:1391-1395 | after 51 saves the log holds 50 entries, the oldest is the second snapshot and the index is 49 |
| Scene.Values | assets/js/cad.js:1376 | the deep copy of the shape list has one value per shape |
| Scene.ValuesAt | assets/js/cad.js:1376 | position by position, the deep copy holds each shape's contents |
| Scene.IndexOf | assets/js/cad.js:797 | `indexOf` by identity: -1 exactly when the object is absent, otherwise a position holding it with no earlier occurrence |
| Scene.Without | assets/js/cad.js:1349 | `filter(shape => shape !== s)` leaves no occurrence of `s`, never lengthens the list, and changes nothing when `s` is absent |
| Scene.WithoutMembers | assets/js/cad.js:1349 | the filter keeps exactly the objects other than `s` |
| Scene.WithoutIsSplice | assets/js/cad.js:795-800 | on a list without repeats, `filter` and `splice(indexOf(s), 1)` give the same list |
| Scene.SpliceDistinct | assets/js/cad.js:799 | removing one element of a list without repeats leaves a list without repeats |
| Scene.TopmostHit | assets/js/cad.js:707-712 | the reverse scan's result is a hit with no hit above it, or none when no shape is hit |
| Geometry.HitTest | assets/js/cad.js:723-764 | `isPointInShape` of both engines; only lines, rectangles and circles can be hit, and in the newer engine also polylines, dimensions and text; arcs, splines, arrows and any other kind never are |
| Geometry.NearLineMeans | assets/js/cad.js:728-732 | the squared line test holds iff \|cross\| / length < 10, for the true length of a line of positive length |
| Geometry.NearCircleMeans | assets/js/cad.js:738-743 | the squared circle test holds iff \|dist(p, centre) - radius\| < 10, for the true roots |
| Geometry.RimPointHits | assets/js/cad.js:738-743 | a point at exactly the radius from the centre hits the circle |
| Geometry.BeyondToleranceMisses | assets/js/cad.js:738-743 | a point at radius + 11 from the centre misses the circle |
| Geometry.InBoxMeans | assets/js/cad.js:733-737 | the rectangle hits iff the point is at most 10 from the anchors' box on each axis, borders included |
| Geometry.LegacyHitsFewer | cad-script.js:564-587 | the older hit test accepts a subset of what the newer one accepts; they differ only on polyline, dimension and text |
| Geometry.Moved | assets/js/cad.js:361-390 | a drag step moves the start to the new point; circles and arcs put the end at the radius due east; other kinds keep width and height; nothing else of the shape changes; text stays put |
| Geometry.MoveKeepsRadius | assets/js/cad.js:372-380 | with the true radius, moving a circle or arc keeps its squared radius |
| Geometry.Shifted | assets/js/cad.js:1329-1333 | the pasted copy keeps its kind and id and has both anchors moved by (20, 20), so its size is the same; text is unchanged |
| View.ToScene | assets/js/cad.js:273-275 | the pointer's scene coordinate, which the render transform (scale, then offset and canvas edge) maps back to the pointer |
| View.SceneDeviceRoundTrip | assets/js/cad.js:273-275 | device-to-scene and scene-to-device are inverse to each other |
| View.WheelZoom | assets/js/cad.js:486-511 | the scale is multiplied by 0.9 or 1.1 only when the result lies in [0.1, 5]; otherwise nothing changes; an in-range scale stays in range |
| View.WheelZoomKeepsCursorPoint | assets/js/cad.js:492-503 | the scene point under the cursor is the same before and after a wheel zoom |
| View.PanStep | assets/js/cad.js:343-354 | one pan step adds the pointer's movement to the offset, so the offset keeps its distance to the pointer |
| View.PanTelescopes | cad-script.js:211-227 | over a whole pan the offset changes by the pointer's last position minus its first |
| View.ZoomedIn | assets/js/cad.js:963-970 | `zoomIn` multiplies by 1.2 exactly when the product is at most 5 and otherwise keeps the scale, and keeps an in-range scale in [0.1, 5] |
| View.ZoomedOut | assets/js/cad.js:972-979 | `zoomOut` multiplies by 0.8 exactly when the product is at least 0.1 and otherwise keeps the scale, and keeps an in-range scale in [0.1, 5] |
| View.Round | cad-script.js:382-384 | `Math.round` returns the integer within a half of its input, halves rounding up |
| View.SnapToGridPoint | cad-script.js:382-384 | the snapped value is a multiple of 20 within 10 of the input |
| View.SnapIdempotent | cad-script.js:382-384 | snapping a snapped value changes nothing |
| View.SnapIsNearest | cad-script.js:382-384 | no multiple of 20 is closer to the input than the snapped value |
| Template.Lookup | assets/js/cad.js:68-77 | the formats table; every entry has a positive scale, and it is horizontal exactly when it is wider than tall |
| Template.LookupDomain | assets/js/cad.js:68-77 | the table knows exactly the eight identifiers A4-H to A1-V |
| Template.VerticalIsTransposed | assets/js/cad.js:68-77 | each vertical format is its horizontal twin with width and height swapped and the same scale, and the horizontal one is wider than tall |
| Template.Frame | assets/js/cad.js:1515-1519 | the frame is inset from the sheet by 20·scale on all four sides |
| Template.Stamp | assets/js/cad.js:1531-1535 | the title block is 140·scale by 55·scale, flush with the frame's right and bottom edges |
| Template.StampRowsFill | assets/js/cad.js:1532-1553 | the title block is five rows of 11·scale high, and for a positive scale each of the four row lines drawn at top + i·11·scale (i = 1 to 4) lies strictly inside it, in order |
| Template.TemplateNests | assets/js/cad.js:1503-1535 | for every known format the frame lies in the sheet with a positive size and the title block lies in the frame |
| Cad.CADApplication.Capture | assets/js/cad.js:1374-1382 | the state object `saveState` records: one value per shape, and a selection value exactly when something is selected |
| Cad.CADApplication.PickFrom | assets/js/cad.js:707-721 | the scan from position i down leaves the old selection or a shape at or below i that the hit test accepts |
| Cad.CADApplication.PickedIsTopmost | assets/js/cad.js:707-721 | the pick the scan makes is the topmost shape the hit test accepts, or the old selection when none is hit |
| Cad.CADApplication.constructor | assets/js/cad.js:29-110 | a fresh engine: empty scene, no selection or clipboard, tool `line`, all flags off, A4-H at 800×600, scale 1 and no offset, and a history of exactly one snapshot at index 0, equal to one save from the empty log |
| Cad.CADApplication.SaveState | assets/js/cad.js:1374-1398 | the history becomes `History.Save` of the old history and a deep copy of the shapes, the selection, the format and the view; the engine stays valid |
| Cad.CADApplication.FreshCopies | assets/js/cad.js:1421 | the deep copy of a snapshot's shapes is new, pairwise distinct objects holding the snapshot's values in order |
| Cad.CADApplication.RestoreState | assets/js/cad.js:1420-1426 | afterwards the engine's snapshot equals the one restored; the shapes are fresh and distinct; the selection is a fresh object outside the list |
| Cad.CADApplication.Undo | assets/js/cad.js:1400-1408 | the history moves as `History.Undo`; at index 0 nothing changes; otherwise the state equals the new current entry and the selection is detached from the list |
| Cad.CADApplication.Redo | assets/js/cad.js:1410-1418 | the history moves as `History.Redo`; at the last entry nothing changes; otherwise the state equals the new current entry and the selection is detached from the list |
| Cad.CADApplication.AppendShape | assets/js/cad.js:608-613 | one fresh shape holding the value is pushed at the end of the list, and the history becomes one save of the new state |
| Cad.CADApplication.SelectShape | assets/js/cad.js:707-721 | the reverse loop leaves the selection at `Picked`: the topmost hit, or the old selection |
| Cad.CADApplication.CreateShape | assets/js/cad.js:595-616 | appends a fresh shape of the current tool's kind, from the gesture's start to the end point, with the pen's style and the id; then one save |
| Cad.CADApplication.AddText | assets/js/cad.js:810-830 | newer copy with a non-empty answer: a fresh 16px Arial text shape at (x, y) is appended and one save taken; otherwise (older copy, cancel or empty answer) shapes and history are unchanged |
| Cad.CADApplication.DeleteSelectedShape | assets/js/cad.js:795-808 | a selection in the list is removed at its `indexOf` position (the same list as the filter), the selection cleared and one save taken; any other case changes nothing |
| Cad.CADApplication.WithoutDistinct | assets/js/cad.js:1349 | the filter keeps a list without repeats without repeats |
| Cad.CADApplication.CopySelected | assets/js/cad.js:1318-1325 | with a selection the clipboard holds its contents; otherwise the clipboard is unchanged |
| Cad.CADApplication.PasteObjects | assets/js/cad.js:1327-1344 | with a clipboard, one fresh shifted copy is appended and one save taken, with the clipboard unchanged; with an empty clipboard nothing changes |
| Cad.CADApplication.CutSelected | assets/js/cad.js:1346-1358 | with a selection: the clipboard holds its contents, every shape identical to it is removed, the selection is cleared and one save is taken; without one nothing changes |
| Cad.CADApplication.DeleteSelected | assets/js/cad.js:1360-1371 | with a selection: every shape identical to it is removed, the selection is cleared and one save is taken; without one nothing changes |
| Cad.CADApplication.SelectAll | assets/js/cad.js:1437-1441 | selects the last shape, or nothing when the list is empty |
| Cad.CADApplication.ClearSelection | assets/js/cad.js:1443-1447 | the selection is cleared |
| Cad.CADApplication.NewFile | assets/js/cad.js:895-905 | when confirmed, the scene is empty, nothing is selected and the view is reset, with the history untouched; otherwise nothing changes |
| Cad.CADApplication.CreateDrawingTemplate | assets/js/cad.js:1481-1488 | records the format; for a known format the canvas takes the table's size; for an unknown one the result is false and the canvas keeps its size |
| Cad.CADApplication.ZoomIn | assets/js/cad.js:963-970 | the scale becomes `View.ZoomedIn` of the old scale |
| Cad.CADApplication.ZoomOut | assets/js/cad.js:972-979 | the scale becomes `View.ZoomedOut` of the old scale |
| Cad.CADApplication.ResetZoom | assets/js/cad.js:981-987 | scale 1 and no pan offset |
| Cad.CADApplication.HandleWheel | assets/js/cad.js:486-511 | with Ctrl held, scale and offsets become `View.WheelZoom` at the cursor's canvas position; without Ctrl nothing changes |
| Cad.CADApplication.SelectTool | assets/js/cad.js:189-204 | the current tool becomes the given one |
| Cad.CADApplication.ToggleSnapToGrid | assets/js/cad.js:1182-1185 | grid snapping is switched |
| Cad.CADApplication.BeginMove | assets/js/cad.js:292-314 | picks at (x, y); with a selection a drag starts at (x, y), anchored at the shape's start point (a text shape keeps the old anchor); with none the drag fields are unchanged |
| Cad.CADApplication.PressOf | assets/js/cad.js:282-339 | the dispatch branch of a tool: pick for select and the newer engine's rotate, mirror, trim and extend; text; pan; move for `move-object` and the newer engine's `move`; none otherwise; each branch is chosen by its own tool names, whatever the order of the tests |
| Cad.CADApplication.OnlyTextPressEdits | assets/js/cad.js:282-339 | under `ToolEffect`, only the text tool's press changes the shape list or the history, and it adds at most one shape |
| Cad.CADApplication.ReleaseDrawsUnlessPressed | assets/js/cad.js:452 | the tools for which `handleMouseUp` draws nothing (`IsNonDrawingTool`) are exactly those whose press takes the select, text or pan branch; the broken tools and the move tools do draw |
| Cad.CADApplication.StartGesture | assets/js/cad.js:273-339 | the pointer's snapped scene point becomes the gesture's start, `isDrawing` is set, and the tool's effect (`ToolEffect`) holds against the state before the press |
| Cad.CADApplication.ToolDown | assets/js/cad.js:282-339 | the dispatch's effect by tool: select and the four broken tools pick; text adds text as `AddText`; pan starts a pan; the move tools pick and start a drag; other tools change nothing |
| Cad.CADApplication.PressPick | assets/js/cad.js:282-283 | the select branch picks and changes nothing else |
| Cad.CADApplication.PressText | assets/js/cad.js:284-285 | the text branch adds text as `AddText` and changes neither the selection nor the pan or drag fields |
| Cad.CADApplication.PressPan | assets/js/cad.js:286-291 | the pan branch starts a pan at the client position and changes nothing else |
| Cad.CADApplication.PressMove | assets/js/cad.js:292-314 | the move branch picks and starts a drag, and changes neither the scene nor the pan |
| Cad.CADApplication.HandleMouseDown | assets/js/cad.js:259-340 | while panning nothing changes; the middle button starts a pan and leaves the scene, the history, the drag and the gesture untouched; otherwise `StartGesture` at the pointer's scene point |
| Cad.CADApplication.DragSelected | assets/js/cad.js:361-390 | the selection's contents become `Moved` by the pointer's displacement from the drag start; the list's values change only at its position; a circle or arc keeps its radius |
| Cad.CADApplication.HandleMouseMove | assets/js/cad.js:342-390 | while panning, each offset takes one `View.PanStep` and the last pan position becomes the pointer; while dragging a selection, one drag step; otherwise no state changes |
| Cad.CADApplication.MovedValues | assets/js/cad.js:377-389 | editing one listed object in place changes the list's values only at that object's position |
| Cad.CADApplication.HandleMouseUp | assets/js/cad.js:426-455 | ending a pan or a drag only clears its flag, with no save; without a gesture nothing changes; select, text and pan just end the gesture; any other tool appends one fresh shape from the start to the snapped end point and takes one save |
| Cad.CADApplication.HandleDoubleClick | assets/js/cad.js:457-464 | with the text tool, text is added as `AddText` at the canvas position; with any other tool nothing changes |
| Cad.CADApplication.HandleKeyDown | assets/js/cad.js:466-479 | Delete removes a selection found in the list with one save, keeping format and view (one outside the list changes nothing); Escape clears the selection; Ctrl+Z and Ctrl+Y move the history as undo and redo and restore the snapshot they reach, so the state captures as that entry and the selection is a fresh copy outside the list; at the first or last entry they change nothing; other keys change nothing |

## Left out

- Canvas painting is not modelled: grid, shapes, previews, highlights and the title block's labels. It only draws and changes no engine state. Only the frame and title-block rectangle arithmetic is kept.
- Arrowheads, the properties panel's length and angle, and the `toFixed` labels are not modelled. They need `atan2`, `cos`, `sin` and float formatting, which have no exact counterpart over the reals.
- Floating-point rounding, NaN and infinity are not modelled: coordinates are exact reals. The one NaN case that decides a result, a zero-length line never being hit, is written out in `Geometry.NearLine`.
- `Math.sqrt` is not defined over the reals here. The drag's radius is an input, and the equivalence lemmas take roots as parameters.
- The text width from `measureText` is an input function (`TextWidth`).
- The answers of `prompt` and `confirm`, `Date.now()` ids and pointer events are inputs. The dialogs and the timers (`debounce`, `throttle`) are not modelled.
- File I/O is not modelled (`saveFile`, `openFile`, the exports, printing, fullscreen): it is browser I/O.
- The prompt-driven menus and `processCoordinateInput` are not modelled. They are user-interface wiring around operations the model already has.
- `applyProperties` (with `applyLineStyle`) and the properties panel are not modelled. They set a shape's line width or font size, a line's end point from a length and an angle, the selection and the pen width, and then take a snapshot. The angle needs `cos` and `sin`, and the panel's values come from the page.
- `currentObject` is not modelled: only `applyProperties` and the panel read it.
- Cad.CADApplication.CreateShape: new shapes always take the default pen (width 1, black stroke and fill), because `applyLineStyle`, which can set the width to 0.5 or 2, is not modelled.
- `clearCanvas`, `fitToScreen` and the footer's `centerView` are not modelled: they call helpers the page does not define. `centerView` sets both offsets to half the canvas size before its call to the undefined `showNotification` throws.
- The `colWidths` expression (an array multiplied by a number) is not modelled: it yields NaN and only affects painting.
- The first `undo`/`redo` definitions of each class are not modelled: they are overridden by the later history-based ones.
- The phantom properties that pasting or dragging a text shape adds (NaN `startX`, `endX` and so on) are not modelled. The text's own position is kept.
- A drag of a text shape does not model its anchor: the source stores the text's missing `startX` (undefined) as the anchor, and the model keeps the old anchor. The anchor of a text shape is never used, because a drag leaves text where it is.
- In the newer copy, rotate, mirror, trim and extend throw after `selectShape`. Their state effect is that of the select branch. The throw itself, and the handler's early exit, are not modelled.
- In the older copy, `handleDoubleClick` and the text branch of `handleMouseDown` only paint through `addText`. They are modelled as changing nothing.
- `Cad.CADApplication.Undo` and `Cad.CADApplication.Redo` state that the restored state equals the new current entry. They do not state that an undo followed by a redo gives back the state before the undo. That holds only when the state still equalled its current entry, which `newFile` and a finished drag break because they take no snapshot. The history round trip is `History.UndoRedoRoundTrip`.
