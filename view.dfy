/**
 * The view transform of the drawing engine: device (pointer) coordinates to
 * scene coordinates and back, Ctrl-wheel zoom about the cursor, the zoom
 * buttons, and grid snapping.
 */
module View {

  const MinScale: real := 0.1
  const MaxScale: real := 5.0

  /** The fixed grid step (`gridSize`). */
  const GridSize: real := 20.0

  predicate ScaleInRange(s: real)
  {
    MinScale <= s <= MaxScale
  }

  /** A scale the engine can hold: every operation that changes the scale keeps it in range. */
  type Scale = s: real | ScaleInRange(s) witness 1.0

  /** One axis of the device-to-scene mapping: (client - canvas edge - offset) / scale. */
  function ToScene(client: real, edge: real, offset: real, scale: real): (r: real)
    requires scale != 0.0
    ensures r * scale + offset + edge == client
  {
    (client - edge - offset) / scale
  }

  /** One axis of the render transform: translate by the offset, then scale (plus the canvas edge). */
  function ToDevice(scene: real, edge: real, offset: real, scale: real): real
  {
    scene * scale + offset + edge
  }

  lemma SceneDeviceRoundTrip(client: real, scene: real, edge: real, offset: real, scale: real)
    requires scale != 0.0
    ensures ToDevice(ToScene(client, edge, offset, scale), edge, offset, scale) == client
    ensures ToScene(ToDevice(scene, edge, offset, scale), edge, offset, scale) == scene
  {
    assert (scene * scale) / scale == scene;
  }

  /** The wheel's zoom factor: 0.9 when scrolling down, 1.1 otherwise. */
  function WheelFactor(deltaY: real): real
  {
    if deltaY > 0.0 then 0.9 else 1.1
  }

  datatype Zoom = Zoom(scale: real, offsetX: real, offsetY: real)

  /**
   * Ctrl-wheel at canvas position (mx, my): accepted only when the new scale
   * stays within [0.1, 5]; the offsets are then moved so that the scene point
   * under the cursor stays put.
   */
  function WheelZoom(z: Zoom, mx: real, my: real, deltaY: real): (r: Zoom)
    ensures var f := WheelFactor(deltaY);
            if ScaleInRange(z.scale * f) then r.scale == z.scale * f else r == z
    ensures ScaleInRange(z.scale) ==> ScaleInRange(r.scale)
  {
    var f := WheelFactor(deltaY);
    var s := z.scale * f;
    if MinScale <= s && s <= MaxScale then
      Zoom(s, mx - (mx - z.offsetX) * f, my - (my - z.offsetY) * f)
    else
      z
  }

  /** The scene point under the cursor is the same before and after a wheel zoom. */
  lemma WheelZoomKeepsCursorPoint(z: Zoom, mx: real, my: real, deltaY: real)
    requires z.scale > 0.0
    ensures var r := WheelZoom(z, mx, my, deltaY);
            && r.scale > 0.0
            && ToScene(mx, 0.0, r.offsetX, r.scale) == ToScene(mx, 0.0, z.offsetX, z.scale)
            && ToScene(my, 0.0, r.offsetY, r.scale) == ToScene(my, 0.0, z.offsetY, z.scale)
  {
    var f := WheelFactor(deltaY);
    var r := WheelZoom(z, mx, my, deltaY);
    if r != z {
      assert mx - r.offsetX == (mx - z.offsetX) * f;
      assert my - r.offsetY == (my - z.offsetY) * f;
      CancelFactor(mx - z.offsetX, z.scale, f);
      CancelFactor(my - z.offsetY, z.scale, f);
    }
  }

  lemma CancelFactor(a: real, s: real, f: real)
    requires s > 0.0 && f > 0.0
    ensures (a * f) / (s * f) == a / s
  {
    var q := a / s;
    assert a == q * s;
    assert a * f == q * (s * f);
  }

  /**
   * One pan step on one axis (`handleMouseMove` while panning): the offset
   * grows by the pointer's movement, so the drawing keeps its distance to the
   * pointer.
   */
  function PanStep(offset: real, last: real, client: real): (r: real)
    ensures r - client == offset - last
  {
    offset + (client - last)
  }

  /** The offset after a pan whose pointer starts at `start` and then visits `moves` in turn. */
  function PanOffset(offset: real, start: real, moves: seq<real>): real
    decreases |moves|
  {
    if moves == [] then offset else PanOffset(PanStep(offset, start, moves[0]), moves[0], moves[1..])
  }

  /** Over a whole pan the offset changes by the pointer's last position minus its first. */
  lemma {:induction false} PanTelescopes(offset: real, start: real, moves: seq<real>)
    requires moves != []
    ensures PanOffset(offset, start, moves) == offset + (moves[|moves| - 1] - start)
    decreases |moves|
  {
    if |moves| > 1 {
      PanTelescopes(PanStep(offset, start, moves[0]), moves[0], moves[1..]);
    }
  }

  /** `zoomIn`: multiply the scale by 1.2 unless that exceeds 5. */
  function ZoomedIn(s: real): (r: real)
    ensures s * 1.2 <= MaxScale ==> r == s * 1.2
    ensures s * 1.2 > MaxScale ==> r == s
    ensures ScaleInRange(s) ==> ScaleInRange(r)
  {
    if s * 1.2 <= MaxScale then s * 1.2 else s
  }

  /** `zoomOut`: multiply the scale by 0.8 unless that falls below 0.1. */
  function ZoomedOut(s: real): (r: real)
    ensures s * 0.8 >= MinScale ==> r == s * 0.8
    ensures s * 0.8 < MinScale ==> r == s
    ensures ScaleInRange(s) ==> ScaleInRange(r)
  {
    if s * 0.8 >= MinScale then s * 0.8 else s
  }

  /** `Math.round`: the nearest integer, halves rounded up. */
  function Round(x: real): (k: int)
    ensures x - 0.5 < k as real <= x + 0.5
  {
    (x + 0.5).Floor
  }

  /** `v` is a whole multiple of the grid step. */
  predicate OnGrid(v: real)
  {
    (v / GridSize).Floor as real == v / GridSize
  }

  /** `snapToGridPoint`: Math.round(v / gridSize) * gridSize. */
  function SnapToGridPoint(v: real): (r: real)
    ensures OnGrid(r)
    ensures -GridSize / 2.0 < r - v <= GridSize / 2.0
  {
    var k := Round(v / GridSize);
    assert (k as real * GridSize) / GridSize == k as real;
    k as real * GridSize
  }

  /** Snapping a snapped value changes nothing. */
  lemma SnapIdempotent(v: real)
    ensures SnapToGridPoint(SnapToGridPoint(v)) == SnapToGridPoint(v)
  {
    var r := SnapToGridPoint(v);
    var k := (r / GridSize).Floor;
    assert r == k as real * GridSize;
    assert Round(r / GridSize) == k;
  }

  /** No multiple of the grid step is closer to `v` than its snapped value. */
  lemma SnapIsNearest(v: real, m: int)
    ensures var r := SnapToGridPoint(v);
            var d := r - v;
            var e := m as real * GridSize - v;
            (if d < 0.0 then -d else d) <= (if e < 0.0 then -e else e)
  {
    var r := SnapToGridPoint(v);
    var k := (r / GridSize).Floor;
    assert r == k as real * GridSize;
    if m > k {
      assert m as real * GridSize - v >= (k + 1) as real * GridSize - v;
    } else if m < k {
      assert m as real * GridSize - v <= (k - 1) as real * GridSize - v;
    }
  }
}
