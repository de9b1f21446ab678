/**
 * The live scene: shapes are objects with identity (the source removes them
 * with `indexOf`/`splice` and `filter(shape => shape !== selected)`), each
 * holding its current value. A history snapshot holds plain values.
 */
module Scene {
  import opened Wrappers
  import opened Geometry
  import View

  /** A live shape. Its identity is the object; `data` is edited in place while it is dragged. */
  class Shape {
    var data: ShapeData

    constructor (d: ShapeData)
      ensures data == d
    {
      data := d;
    }
  }

  /** A deep copy of the session state as `saveState` records it. */
  datatype Snapshot = Snapshot(shapes: seq<ShapeData>, selected: Option<ShapeData>,
                               format: string, scale: View.Scale, offsetX: real, offsetY: real)

  /** The values of a list of live shapes, in order: what a JSON deep copy yields. */
  function Values(ss: seq<Shape>): (r: seq<ShapeData>)
    reads ss
    ensures |r| == |ss|
  {
    if ss == [] then [] else Values(ss[..|ss| - 1]) + [ss[|ss| - 1].data]
  }

  /** Position by position, the values are the data of the objects. */
  lemma {:induction false} ValuesAt(ss: seq<Shape>)
    ensures forall i :: 0 <= i < |ss| ==> Values(ss)[i] == ss[i].data
    decreases |ss|
  {
    if ss != [] {
      ValuesAt(ss[..|ss| - 1]);
    }
  }

  /** No object occurs twice in the list. */
  predicate Distinct(ss: seq<Shape>)
  {
    forall i, j :: 0 <= i < j < |ss| ==> ss[i] != ss[j]
  }

  /** `Array.prototype.indexOf` by identity: the first position of `s`, or -1. */
  function IndexOf(ss: seq<Shape>, s: Shape): (k: int)
    ensures -1 <= k < |ss|
    ensures k == -1 <==> s !in ss
    ensures k >= 0 ==> ss[k] == s && s !in ss[..k]
    decreases |ss|
  {
    if ss == [] then -1
    else if ss[0] == s then 0
    else
      var k := IndexOf(ss[1..], s);
      assert ss == [ss[0]] + ss[1..];
      if k == -1 then -1 else k + 1
  }

  /** `filter(shape => shape !== s)`: every occurrence of `s` removed, the rest in order. */
  function Without(ss: seq<Shape>, s: Shape): (r: seq<Shape>)
    ensures s !in r && |r| <= |ss|
    ensures s !in ss ==> r == ss
    decreases |ss|
  {
    if ss == [] then []
    else
      var rest := Without(ss[1..], s);
      assert ss == [ss[0]] + ss[1..];
      if ss[0] == s then rest else [ss[0]] + rest
  }

  /** `filter` keeps exactly the other objects. */
  lemma {:induction false} WithoutMembers(ss: seq<Shape>, s: Shape)
    ensures forall x :: x in Without(ss, s) <==> x in ss && x != s
    decreases |ss|
  {
    if ss != [] {
      assert ss == [ss[0]] + ss[1..];
      WithoutMembers(ss[1..], s);
    }
  }

  /**
   * When no object repeats, `filter` (used by cut and `deleteSelected`) and
   * `splice(indexOf(s), 1)` (used by `deleteSelectedShape`) remove the same
   * single element.
   */
  lemma WithoutIsSplice(ss: seq<Shape>, s: Shape)
    requires Distinct(ss) && s in ss
    ensures var k := IndexOf(ss, s);
            Without(ss, s) == ss[..k] + ss[k + 1..]
  {
    var k := IndexOf(ss, s);
    assert s !in ss[k + 1..] by {
      forall j | k + 1 <= j < |ss| ensures ss[j] != s {
        assert ss[k] != ss[j];
      }
    }
    WithoutOnlyAt(ss, s, k);
  }

  /** Removing the one occurrence of `s`, at position `k`, cuts the list around `k`. */
  lemma {:induction false} WithoutOnlyAt(ss: seq<Shape>, s: Shape, k: nat)
    requires k < |ss| && ss[k] == s && s !in ss[..k] && s !in ss[k + 1..]
    ensures Without(ss, s) == ss[..k] + ss[k + 1..]
    decreases k
  {
    var tail := ss[1..];
    assert ss == [ss[0]] + tail;
    if k == 0 {
      assert tail == ss[k + 1..];
    } else {
      assert tail[..k - 1] == ss[1..k] && tail[k..] == ss[k + 1..];
      WithoutOnlyAt(tail, s, k - 1);
      assert ss[..k] == [ss[0]] + tail[..k - 1];
    }
  }

  /** Removing one element keeps the rest distinct. */
  lemma SpliceDistinct(ss: seq<Shape>, k: nat)
    requires Distinct(ss) && k < |ss|
    ensures Distinct(ss[..k] + ss[k + 1..])
  {
    var r := ss[..k] + ss[k + 1..];
    forall i, j | 0 <= i < j < |r| ensures r[i] != r[j] {
      var i' := if i < k then i else i + 1;
      var j' := if j < k then j else j + 1;
      assert r[i] == ss[i'] && r[j] == ss[j'];
    }
  }

  /**
   * The index `selectShape` settles on: scanning from the last shape to the
   * first, the first one the hit test accepts.
   */
  function TopmostHit(v: Variant, ds: seq<ShapeData>, px: real, py: real, width: TextWidth): (r: Option<nat>)
    ensures r.Some? ==> r.value < |ds| && HitTest(v, px, py, ds[r.value], width)
    ensures r.Some? ==> forall j :: r.value < j < |ds| ==> !HitTest(v, px, py, ds[j], width)
    ensures r.None? ==> forall j :: 0 <= j < |ds| ==> !HitTest(v, px, py, ds[j], width)
    decreases |ds|
  {
    if ds == [] then None
    else if HitTest(v, px, py, ds[|ds| - 1], width) then Some(|ds| - 1)
    else TopmostHit(v, ds[..|ds| - 1], px, py, width)
  }
}
