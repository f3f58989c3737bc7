/**
  The divider position and the two clip rectangles, over real pixel values.
 */
module Geometry {
  import opened Wrappers

  /** The control's configuration: the slider thumb's width and the slider's side padding. */
  datatype Options = Options(thumbSize: real, padding: real)

  /** The configuration a control starts from before the caller's options are merged in. */
  const Defaults: Options := Options(42.0, 0.0)

  /** Merges the caller's options over the defaults; an absent option keeps its default. */
  function MergeOptions(thumbSize: Option<real>, padding: Option<real>): (o: Options)
    ensures thumbSize.None? ==> o.thumbSize == Defaults.thumbSize
    ensures padding.None? ==> o.padding == Defaults.padding
    ensures thumbSize.Some? ==> o.thumbSize == thumbSize.value
    ensures padding.Some? ==> o.padding == padding.value
  {
    Options(if thumbSize.Some? then thumbSize.value else Defaults.thumbSize,
            if padding.Some? then padding.value else Defaults.padding)
  }

  /** The horizontal room the thumb occupies together with the padding on both sides. */
  function Footprint(o: Options): real {
    2.0 * o.padding + o.thumbSize
  }

  /**
    The divider's offset from the container's left edge, in pixels, for slider
    fraction `f` on a viewport `width` pixels wide. It puts the divider under the
    centre of the thumb: half a footprint in from either edge at the extremes.
   */
  function Position(f: real, width: real, o: Options): (x: real)
    ensures f == 0.5 ==> x == width / 2.0
    ensures f == 0.0 ==> x == Footprint(o) / 2.0
    ensures f == 1.0 ==> x == width - Footprint(o) / 2.0
    ensures x == Footprint(o) / 2.0 + f * (width - Footprint(o))
  {
    width * f + (0.5 - f) * Footprint(o)
  }

  /** The position never decreases as the fraction grows exactly when the viewport is at least one footprint wide. */
  lemma PositionMonotoneIff(width: real, o: Options)
    ensures (forall f1, f2 :: 0.0 <= f1 <= f2 <= 1.0 ==> Position(f1, width, o) <= Position(f2, width, o))
            <==> width >= Footprint(o)
  {
    var k := Footprint(o);
    if width >= k {
      forall f1, f2 | 0.0 <= f1 <= f2 <= 1.0
        ensures Position(f1, width, o) <= Position(f2, width, o)
      {
        assert Position(f2, width, o) - Position(f1, width, o) == (f2 - f1) * (width - k);
        ProductNonNegative(f2 - f1, width - k);
      }
    } else {
      assert Position(0.0, width, o) > Position(1.0, width, o);
    }
  }

  /** On a viewport at least one footprint wide, the divider stays half a footprint inside either edge. */
  lemma PositionBounds(f: real, width: real, o: Options)
    requires 0.0 <= f <= 1.0
    requires width >= Footprint(o)
    ensures Footprint(o) / 2.0 <= Position(f, width, o) <= width - Footprint(o) / 2.0
  {
    var k := Footprint(o);
    ProductNonNegative(f, width - k);
    ProductNonNegative(1.0 - f, width - k);
  }

  lemma ProductNonNegative(a: real, b: real)
    requires a >= 0.0 && b >= 0.0
    ensures a * b >= 0.0
  {
  }

  /** A point in the host's layer coordinates. */
  datatype Point = Point(x: real, y: real)

  /** A clip rectangle, its edges in the order a CSS `rect()` lists them. */
  datatype Rect = Rect(top: real, right: real, bottom: real, left: real)

  function Width(r: Rect): real {
    r.right - r.left
  }

  /** The two visible regions: `left` for the left pane, `right` for the right pane. */
  datatype ClipPair = ClipPair(left: Rect, right: Rect)

  /**
    The clip rectangles for a viewport whose corners are `nw` and `se` in layer
    coordinates, with the divider `dividerX` pixels from the viewport's left edge.
   */
  function ClipRects(nw: Point, se: Point, dividerX: real): (c: ClipPair)
    ensures c.left.right == c.right.left == nw.x + dividerX
    ensures c.left.top == c.right.top == nw.y
    ensures c.left.bottom == c.right.bottom == se.y
    ensures c.left.left == nw.x && c.right.right == se.x
  {
    var clipX := nw.x + dividerX;
    ClipPair(Rect(nw.y, clipX, se.y, nw.x), Rect(nw.y, se.x, se.y, clipX))
  }

  /**
    When the corners lie one viewport width apart, the two rectangles split the
    viewport: the left one is exactly as wide as the divider offset and the widths
    add up to the viewport's, whatever the offset.
   */
  lemma ClipRectsSplitViewport(nw: Point, se: Point, dividerX: real, width: real)
    requires se.x - nw.x == width
    ensures var c := ClipRects(nw, se, dividerX);
      && Width(c.left) == dividerX
      && Width(c.left) + Width(c.right) == width
  {
  }

  /**
    For a slider fraction in [0, 1] on a viewport at least one footprint wide, with a
    footprint that is not negative, neither clip rectangle is inverted.
   */
  lemma ClipRectsNotInverted(nw: Point, se: Point, f: real, width: real, o: Options)
    requires se.x - nw.x == width
    requires 0.0 <= f <= 1.0
    requires width >= Footprint(o) >= 0.0
    ensures var c := ClipRects(nw, se, Position(f, width, o));
      Width(c.left) >= 0.0 && Width(c.right) >= 0.0
  {
    PositionBounds(f, width, o);
  }
}
