/**
 * Shape values and the pure geometry of the drawing engine: the hit tests of
 * `isPointInShape` in both variants of the engine, the in-place move of a
 * shape during a drag, and the (20, 20) shift of a pasted copy.
 *
 * Coordinates are JavaScript numbers, modelled as `real`. The source compares
 * distances obtained with `Math.sqrt`; every test here is restated in squared
 * form, and the lemmas `NearLineMeans` and `NearCircleMeans` prove the squared
 * form equivalent to the source's formula for any square root the platform
 * supplies.
 */
module Geometry {

  /** The two copies of the engine: `assets/js/cad.js` (Current) and `cad-script.js` (Legacy). */
  datatype Variant = Current | Legacy

  /**
   * A shape as a value: what a history snapshot, the clipboard or a JSON deep
   * copy holds. `kind` is the source's `type` string, which is whatever tool
   * was active when the shape was created.
   */
  datatype ShapeData =
    | Geometric(kind: string, startX: real, startY: real, endX: real, endY: real,
                lineWidth: real, strokeStyle: string, fillStyle: string, id: real)
    | Text(text: string, x: real, y: real, fontSize: real, fontFamily: string,
           color: string, id: real)

  /** Text width as reported by the canvas's `measureText` for (text, font size, font family). */
  type TextWidth = (string, real, string) -> real

  /** The hit tolerance, in scene units. */
  const Tolerance: real := 10.0

  function Sq(v: real): real { v * v }

  function Abs(v: real): real { if v < 0.0 then -v else v }

  function Min(a: real, b: real): real { if a <= b then a else b }

  function Max(a: real, b: real): real { if a <= b then b else a }

  /** Squared length of the segment from (sx, sy) to (ex, ey). */
  function LengthSq(sx: real, sy: real, ex: real, ey: real): real
  {
    Sq(ex - sx) + Sq(ey - sy)
  }

  /** Numerator of the source's point-to-line distance (twice the triangle's signed area). */
  function Cross(px: real, py: real, sx: real, sy: real, ex: real, ey: real): real
  {
    (py - sy) * (ex - sx) - (px - sx) * (ey - sy)
  }

  /**
   * The line test: distance from (px, py) to the infinite line through the two
   * anchors is below the tolerance. A zero-length line gives 0/0 = NaN in the
   * source, which never compares below anything, hence `LengthSq > 0`.
   */
  predicate NearLine(px: real, py: real, sx: real, sy: real, ex: real, ey: real)
  {
    var len2 := LengthSq(sx, sy, ex, ey);
    len2 > 0.0 && Sq(Cross(px, py, sx, sy, ex, ey)) < Sq(Tolerance) * len2
  }

  /** The rectangle test: inside the anchors' bounding box widened by the tolerance, borders included. */
  predicate InBox(px: real, py: real, sx: real, sy: real, ex: real, ey: real)
  {
    && px >= Min(sx, ex) - Tolerance
    && px <= Max(sx, ex) + Tolerance
    && py >= Min(sy, ey) - Tolerance
    && py <= Max(sy, ey) + Tolerance
  }

  /**
   * The circle test |dist(p, centre) - radius| < tolerance without square
   * roots: with D and R the squared distance and squared radius it is
   * D + R - 100 < 2 * sqrt(D * R).
   */
  predicate NearCircle(px: real, py: real, sx: real, sy: real, ex: real, ey: real)
  {
    var d2 := LengthSq(sx, sy, px, py);
    var r2 := LengthSq(sx, sy, ex, ey);
    var gap := d2 + r2 - Sq(Tolerance);
    gap < 0.0 || Sq(gap) < 4.0 * d2 * r2
  }

  /** The text test (Current variant): the text's box, baseline at y, widened by the tolerance. */
  predicate InTextBox(px: real, py: real, x: real, y: real, width: real, height: real)
  {
    && px >= x - Tolerance
    && px <= x + width + Tolerance
    && py >= y - height - Tolerance
    && py <= y + Tolerance
  }

  /**
   * `isPointInShape(x, y, shape)` of either variant. Only lines, rectangles
   * and circles can be hit, and in the newer variant also polylines,
   * dimensions and text; every other kind (arcs, splines, arrows) never is.
   */
  predicate HitTest(v: Variant, px: real, py: real, d: ShapeData, width: TextWidth)
    ensures HitTest(v, px, py, d, width) ==>
              if d.Text? then v == Current
              else d.kind == "line" || d.kind == "rectangle" || d.kind == "circle"
                   || (v == Current && (d.kind == "polyline" || d.kind == "dimension"))
  {
    match d
    case Geometric(kind, sx, sy, ex, ey, _, _, _, _) =>
      if kind == "line" then NearLine(px, py, sx, sy, ex, ey)
      else if kind == "rectangle" then InBox(px, py, sx, sy, ex, ey)
      else if kind == "circle" then NearCircle(px, py, sx, sy, ex, ey)
      else if v == Current && (kind == "polyline" || kind == "dimension") then NearLine(px, py, sx, sy, ex, ey)
      else false
    case Text(text, x, y, fontSize, fontFamily, _, _) =>
      v == Current && InTextBox(px, py, x, y, width(text, fontSize, fontFamily), fontSize)
  }

  /** `root` is a non-negative square root of `x`, as `Math.sqrt` returns. */
  ghost predicate IsRoot(root: real, x: real)
  {
    root >= 0.0 && root * root == x
  }

  lemma SquareLess(a: real, b: real)
    requires a >= 0.0 && b >= 0.0
    ensures a < b <==> a * a < b * b
  {
    if a < b {
      assert (b - a) * a >= 0.0;
      assert (b - a) * b > 0.0;
    } else {
      assert (a - b) * b >= 0.0;
      assert (a - b) * a >= 0.0;
    }
  }

  /**
   * The squared line test agrees with the source's formula
   * |cross| / sqrt(len2) < tolerance whenever the line has positive length.
   */
  lemma NearLineMeans(px: real, py: real, sx: real, sy: real, ex: real, ey: real, len: real)
    requires IsRoot(len, LengthSq(sx, sy, ex, ey)) && len > 0.0
    ensures NearLine(px, py, sx, sy, ex, ey) <==> Abs(Cross(px, py, sx, sy, ex, ey)) / len < Tolerance
  {
    var c := Abs(Cross(px, py, sx, sy, ex, ey));
    assert Sq(c) == Sq(Cross(px, py, sx, sy, ex, ey));
    calc {
      c / len < Tolerance;
      { assert c == (c / len) * len; }
      c < Tolerance * len;
      { SquareLess(c, Tolerance * len); }
      c * c < (Tolerance * len) * (Tolerance * len);
      { assert (Tolerance * len) * (Tolerance * len) == Sq(Tolerance) * (len * len); }
      Sq(c) < Sq(Tolerance) * LengthSq(sx, sy, ex, ey);
    }
  }

  /**
   * The squared circle test agrees with the source's formula
   * |dist - radius| < tolerance, for the square roots `dist` and `radius`.
   */
  lemma NearCircleMeans(px: real, py: real, sx: real, sy: real, ex: real, ey: real, dist: real, radius: real)
    requires IsRoot(dist, LengthSq(sx, sy, px, py))
    requires IsRoot(radius, LengthSq(sx, sy, ex, ey))
    ensures NearCircle(px, py, sx, sy, ex, ey) <==> Abs(dist - radius) < Tolerance
  {
    var d2 := LengthSq(sx, sy, px, py);
    var r2 := LengthSq(sx, sy, ex, ey);
    var gap := d2 + r2 - Sq(Tolerance);
    var prod := 2.0 * dist * radius;
    assert prod >= 0.0;
    assert prod * prod == 4.0 * d2 * r2 by {
      assert prod * prod == 4.0 * (dist * dist) * (radius * radius);
    }
    assert Sq(dist - radius) == d2 + r2 - prod;
    // |dist - radius| < T  <==>  (dist - radius)^2 < T^2  <==>  gap < prod
    SquareLess(Abs(dist - radius), Tolerance);
    assert Abs(dist - radius) * Abs(dist - radius) == Sq(dist - radius);
    assert Abs(dist - radius) < Tolerance <==> gap < prod;
    if gap >= 0.0 {
      SquareLess(gap, prod);
    }
  }

  /** A point exactly on the rim, at the radius from the centre, is a hit. */
  lemma RimPointHits(px: real, py: real, sx: real, sy: real, ex: real, ey: real)
    requires LengthSq(sx, sy, px, py) == LengthSq(sx, sy, ex, ey)
    ensures NearCircle(px, py, sx, sy, ex, ey)
  {
    var r2 := LengthSq(sx, sy, ex, ey);
    var gap := 2.0 * r2 - Sq(Tolerance);
    if gap >= 0.0 {
      assert r2 >= 50.0;
      assert Sq(gap) == 4.0 * r2 * r2 - 400.0 * r2 + 10000.0;
    }
  }

  /** A point at radius + tolerance + 1 from the centre is not a hit. */
  lemma BeyondToleranceMisses(px: real, py: real, sx: real, sy: real, ex: real, ey: real, radius: real)
    requires IsRoot(radius, LengthSq(sx, sy, ex, ey))
    requires LengthSq(sx, sy, px, py) == Sq(radius + Tolerance + 1.0)
    ensures !NearCircle(px, py, sx, sy, ex, ey)
  {
    NearCircleMeans(px, py, sx, sy, ex, ey, radius + Tolerance + 1.0, radius);
  }

  /** How far `v` lies outside the interval spanned by `a` and `b` (0 inside). */
  function AxisGap(v: real, a: real, b: real): (g: real)
    ensures g >= 0.0
  {
    if v < Min(a, b) then Min(a, b) - v
    else if v > Max(a, b) then v - Max(a, b)
    else 0.0
  }

  /** The rectangle test is "at most the tolerance away from the box on each axis". */
  lemma InBoxMeans(px: real, py: real, sx: real, sy: real, ex: real, ey: real)
    ensures InBox(px, py, sx, sy, ex, ey) <==> AxisGap(px, sx, ex) <= Tolerance && AxisGap(py, sy, ey) <= Tolerance
  {
  }

  /** The older variant hits a subset of what the newer one hits; they differ only on polyline, dimension and text. */
  lemma LegacyHitsFewer(px: real, py: real, d: ShapeData, width: TextWidth)
    ensures HitTest(Legacy, px, py, d, width) ==> HitTest(Current, px, py, d, width)
    ensures HitTest(Legacy, px, py, d, width) != HitTest(Current, px, py, d, width) ==>
              d.Text? || d.kind == "polyline" || d.kind == "dimension"
  {
  }

  /** Kinds whose move keeps the radius: `start` is the centre, `end` a rim point. */
  predicate KeepsRadius(kind: string)
  {
    kind == "circle" || kind == "arc-3-points" || kind == "arc-2-points"
  }

  /**
   * One step of a drag (`handleMouseMove` while moving an object): the shape's
   * start becomes (nx, ny). Round kinds put `end` at distance `radius` due
   * east of the new start; the other kinds keep their width and height. A text
   * shape has no start/end, and the source's arithmetic on the missing
   * properties leaves its position unchanged.
   */
  function Moved(d: ShapeData, nx: real, ny: real, radius: real): (r: ShapeData)
    ensures r.Geometric? == d.Geometric?
    ensures d.Text? ==> r == d
    ensures d.Geometric? ==> r.kind == d.kind && r.startX == nx && r.startY == ny
    ensures d.Geometric? && !KeepsRadius(d.kind) ==>
              r.endX - r.startX == d.endX - d.startX && r.endY - r.startY == d.endY - d.startY
    ensures d.Geometric? && KeepsRadius(d.kind) ==>
              r.endY == r.startY && r.endX - r.startX == radius
    ensures d.Geometric? ==>
              r == d.(startX := r.startX, startY := r.startY, endX := r.endX, endY := r.endY)
  {
    match d
    case Text(_, _, _, _, _, _, _) => d
    case Geometric(kind, sx, sy, ex, ey, _, _, _, _) =>
      if KeepsRadius(kind) then d.(startX := nx, startY := ny, endX := nx + radius, endY := ny)
      else d.(startX := nx, startY := ny, endX := nx + (ex - sx), endY := ny + (ey - sy))
  }

  /** With `radius` the true radius, moving a circle or arc keeps its radius. */
  lemma MoveKeepsRadius(d: ShapeData, nx: real, ny: real, radius: real)
    requires d.Geometric? && KeepsRadius(d.kind)
    requires IsRoot(radius, LengthSq(d.startX, d.startY, d.endX, d.endY))
    ensures var r := Moved(d, nx, ny, radius);
            LengthSq(r.startX, r.startY, r.endX, r.endY) == LengthSq(d.startX, d.startY, d.endX, d.endY)
  {
  }

  /** The offset `pasteObjects` adds to both anchors of a pasted copy. */
  const PasteOffset: real := 20.0

  /**
   * The copy `pasteObjects` inserts. A text value is unchanged: the source adds
   * the offset to properties a text object does not have.
   */
  function Shifted(d: ShapeData): (r: ShapeData)
    ensures d.Text? ==> r == d
    ensures d.Geometric? ==> r.Geometric? && r.kind == d.kind && r.id == d.id
    ensures d.Geometric? ==>
              && r.startX == d.startX + PasteOffset && r.startY == d.startY + PasteOffset
              && r.endX - r.startX == d.endX - d.startX && r.endY - r.startY == d.endY - d.startY
  {
    match d
    case Text(_, _, _, _, _, _, _) => d
    case Geometric(_, sx, sy, ex, ey, _, _, _, _) =>
      d.(startX := sx + PasteOffset, startY := sy + PasteOffset,
         endX := ex + PasteOffset, endY := ey + PasteOffset)
  }
}
