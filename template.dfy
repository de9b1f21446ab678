/**
 * The paper-format table and the rectangle arithmetic of the sheet template:
 * the frame inset by a margin of 20 * scale, and the title block ("stamp") of
 * 140 * scale by 55 * scale flush with the frame's bottom-right corner.
 */
module Template {
  import opened Wrappers

  datatype Orientation = Horizontal | Vertical

  /** One entry of the `formats` table: sheet size in pixels and the template's scale factor. */
  datatype Format = Format(width: int, height: int, scale: real, orientation: Orientation)

  /** The `formats` table; any other identifier has no entry. */
  function Lookup(id: string): (r: Option<Format>)
    ensures r.Some? ==> r.value.scale > 0.0
    ensures r.Some? ==> (r.value.orientation == Horizontal <==> r.value.width > r.value.height)
  {
    if id == "A4-H" then Some(Format(800, 600, 1.0, Horizontal))
    else if id == "A4-V" then Some(Format(600, 800, 1.0, Vertical))
    else if id == "A3-H" then Some(Format(1200, 800, 1.5, Horizontal))
    else if id == "A3-V" then Some(Format(800, 1200, 1.5, Vertical))
    else if id == "A2-H" then Some(Format(1600, 1200, 2.0, Horizontal))
    else if id == "A2-V" then Some(Format(1200, 1600, 2.0, Vertical))
    else if id == "A1-H" then Some(Format(2000, 1600, 2.5, Horizontal))
    else if id == "A1-V" then Some(Format(1600, 2000, 2.5, Vertical))
    else None
  }

  /** The eight identifiers the table knows. */
  const FormatIds: seq<string> := ["A4-H", "A4-V", "A3-H", "A3-V", "A2-H", "A2-V", "A1-H", "A1-V"]

  /** Every known identifier is one of the eight, and each of the eight is known. */
  lemma LookupDomain(id: string)
    ensures Lookup(id).Some? <==> id in FormatIds
  {
  }

  /** Each vertical sheet is its horizontal twin turned by a quarter: width and height swapped, same scale. */
  lemma VerticalIsTransposed(size: string)
    requires size in ["A4", "A3", "A2", "A1"]
    ensures Lookup(size + "-H").Some? && Lookup(size + "-V").Some?
    ensures var h, v := Lookup(size + "-H").value, Lookup(size + "-V").value;
            && h.orientation == Horizontal && v.orientation == Vertical
            && h.width == v.height && h.height == v.width && h.scale == v.scale
            && h.width > h.height
  {
    if size == "A4" {
      assert size + "-H" == "A4-H" && size + "-V" == "A4-V";
    } else if size == "A3" {
      assert size + "-H" == "A3-H" && size + "-V" == "A3-V";
    } else if size == "A2" {
      assert size + "-H" == "A2-H" && size + "-V" == "A2-V";
    } else {
      assert size + "-H" == "A1-H" && size + "-V" == "A1-V";
    }
  }

  datatype Rect = Rect(x: real, y: real, w: real, h: real)
  {
    function Right(): real { x + w }
    function Bottom(): real { y + h }

    predicate Within(outer: Rect)
    {
      outer.x <= x && outer.y <= y && Right() <= outer.Right() && Bottom() <= outer.Bottom()
    }
  }

  /** The sheet itself, from the origin. */
  function Sheet(f: Format): Rect
  {
    Rect(0.0, 0.0, f.width as real, f.height as real)
  }

  /** The frame of `drawDrawingTemplate`: inset by 20 * scale on every side. */
  function Frame(f: Format): (r: Rect)
    ensures r.x == r.y == 20.0 * f.scale
    ensures Sheet(f).Right() - r.Right() == r.x && Sheet(f).Bottom() - r.Bottom() == r.y
  {
    var margin := 20.0 * f.scale;
    Rect(margin, margin, f.width as real - 2.0 * margin, f.height as real - 2.0 * margin)
  }

  /** The title block of `drawMainTitleBlock`: 140 * scale by 55 * scale, flush to the frame's bottom-right. */
  function Stamp(frame: Rect, scale: real): (r: Rect)
    ensures r.w == 140.0 * scale && r.h == 55.0 * scale
    ensures r.Right() == frame.Right() && r.Bottom() == frame.Bottom()
  {
    var w := 140.0 * scale;
    var h := 55.0 * scale;
    Rect(frame.x + frame.w - w, frame.y + frame.h - h, w, h)
  }

  /** The row height of the title block. */
  function RowHeight(scale: real): real
  {
    11.0 * scale
  }

  /** The height of the `i`-th horizontal row line `drawMainTitleBlock` draws across the title block. */
  function RowLine(stamp: Rect, scale: real, i: int): real
  {
    stamp.y + i as real * RowHeight(scale)
  }

  /**
   * The title block is five rows high, and for a positive scale each of the
   * four row lines (i = 1 to 4) lies strictly inside it, in top-to-bottom
   * order.
   */
  lemma StampRowsFill(frame: Rect, scale: real, i: int)
    requires scale > 0.0 && 1 <= i <= 4
    ensures var r := Stamp(frame, scale);
            && r.h == 5.0 * RowHeight(scale)
            && r.y < RowLine(r, scale, i) < r.Bottom()
            && (i < 4 ==> RowLine(r, scale, i) < RowLine(r, scale, i + 1))
  {
    var r := Stamp(frame, scale);
    assert i as real * RowHeight(scale) <= 4.0 * RowHeight(scale);
  }

  /** For every format of the table the frame lies in the sheet and the title block in the frame. */
  lemma TemplateNests(id: string)
    requires Lookup(id).Some?
    ensures var f := Lookup(id).value;
            && Frame(f).Within(Sheet(f)) && Frame(f).w > 0.0 && Frame(f).h > 0.0
            && Stamp(Frame(f), f.scale).Within(Frame(f))
  {
    LookupDomain(id);
    var f := Lookup(id).value;
    assert f.scale > 0.0 && 180.0 * f.scale <= f.width as real && 95.0 * f.scale <= f.height as real;
  }
}
