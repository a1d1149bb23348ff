/**
 * Where the sprite's pixels come from: the normalised texture coordinates
 * of its rectangle (with the flips applied) and the offset of the quad
 * inside the node's content box.
 */
module TextureRect {
  import opened Wrappers
  import opened Geometry

  /** The atlas size divides pixel coordinates; without a texture it is 1 by 1. */
  function AtlasSize(texture: Option<Texture>): (r: Size)
    ensures r.width > 0.0 && r.height > 0.0
    ensures texture.None? ==> r == Size(1.0, 1.0)
    ensures texture.Some? ==> r == Size(texture.value.pixelsWide as real, texture.value.pixelsHigh as real)
  {
    match texture
    case None => Size(1.0, 1.0)
    case Some(t) => Size(t.pixelsWide as real, t.pixelsHigh as real)
  }

  /** The four edges of a rectangle in texture space. */
  datatype Edges = Edges(left: real, right: real, top: real, bottom: real)

  /** The rectangle's edges divided by the atlas size, before any flip. */
  function Normalized(rect: Rect, texture: Option<Texture>): Edges {
    var a := AtlasSize(texture);
    Edges(rect.origin.x / a.width, (rect.origin.x + rect.size.width) / a.width,
          rect.origin.y / a.height, (rect.origin.y + rect.size.height) / a.height)
  }

  /** Scaling the edges back by the atlas size gives the pixel rectangle again. */
  lemma NormalizedScalesBack(rect: Rect, texture: Option<Texture>)
    ensures var a := AtlasSize(texture); var e := Normalized(rect, texture);
      && e.left * a.width == rect.origin.x
      && e.right * a.width == rect.origin.x + rect.size.width
      && e.top * a.height == rect.origin.y
      && e.bottom * a.height == rect.origin.y + rect.size.height
  { }

  /**
   * updateTextureCoords: the eight floats of the texture-coordinate buffer,
   * laid out (left, top), (left, bottom), (right, top), (right, bottom),
   * where a horizontal flip exchanges left and right and a vertical flip
   * exchanges top and bottom.
   */
  function TexCoordBuffer(rect: Rect, texture: Option<Texture>, flipX: bool, flipY: bool): (r: seq<real>)
    ensures |r| == 8
  {
    var e := Normalized(rect, texture);
    var (left, right) := if flipX then (e.right, e.left) else (e.left, e.right);
    var (top, bottom) := if flipY then (e.bottom, e.top) else (e.top, e.bottom);
    [left, top, left, bottom, right, top, right, bottom]
  }

  /**
   * The two left corners share a u value and so do the two right ones; the
   * two top corners share a v value and so do the two bottom ones. Which
   * edge each pair takes is decided by its flip alone.
   */
  lemma TexCoordLayout(rect: Rect, texture: Option<Texture>, flipX: bool, flipY: bool)
    ensures var r := TexCoordBuffer(rect, texture, flipX, flipY); var e := Normalized(rect, texture);
      && r[0] == r[2] == (if flipX then e.right else e.left)
      && r[4] == r[6] == (if flipX then e.left else e.right)
      && r[1] == r[5] == (if flipY then e.bottom else e.top)
      && r[3] == r[7] == (if flipY then e.top else e.bottom)
  { }

  /** Exchanges the u values of the left and the right column. */
  function SwapColumns(t: seq<real>): (r: seq<real>)
    requires |t| == 8
    ensures |r| == 8
  {
    [t[4], t[1], t[6], t[3], t[0], t[5], t[2], t[7]]
  }

  /** Exchanges the v values of the top and the bottom row. */
  function SwapRows(t: seq<real>): (r: seq<real>)
    requires |t| == 8
    ensures |r| == 8
  {
    [t[0], t[3], t[2], t[1], t[4], t[7], t[6], t[5]]
  }

  /** Toggling the horizontal flip mirrors the coordinates left to right, and nothing else. */
  lemma FlipXSwapsColumns(rect: Rect, texture: Option<Texture>, flipX: bool, flipY: bool)
    ensures TexCoordBuffer(rect, texture, !flipX, flipY) == SwapColumns(TexCoordBuffer(rect, texture, flipX, flipY))
  { }

  /** Toggling the vertical flip mirrors the coordinates top to bottom, and nothing else. */
  lemma FlipYSwapsRows(rect: Rect, texture: Option<Texture>, flipX: bool, flipY: bool)
    ensures TexCoordBuffer(rect, texture, flipX, !flipY) == SwapRows(TexCoordBuffer(rect, texture, flipX, flipY))
  { }

  /** Each mirror undoes itself, so toggling a flip twice restores the coordinates. */
  lemma SwapsAreInvolutions(t: seq<real>)
    requires |t| == 8
    ensures SwapColumns(SwapColumns(t)) == t && SwapRows(SwapRows(t)) == t
  { }

  /** The rectangle lies inside the texture (or inside the unit square when there is none). */
  predicate InsideAtlas(rect: Rect, texture: Option<Texture>) {
    var a := AtlasSize(texture);
    && 0.0 <= rect.origin.x && 0.0 <= rect.size.width && rect.origin.x + rect.size.width <= a.width
    && 0.0 <= rect.origin.y && 0.0 <= rect.size.height && rect.origin.y + rect.size.height <= a.height
  }

  lemma DivideWithin(x: real, d: real)
    requires 0.0 <= x <= d && 0.0 < d
    ensures 0.0 <= x / d <= 1.0
  {
    assert x / d * d == x;
  }

  /** A rectangle inside its texture has every coordinate in 0..1, whatever the flips. */
  lemma TexCoordsInUnitSquare(rect: Rect, texture: Option<Texture>, flipX: bool, flipY: bool)
    requires InsideAtlas(rect, texture)
    ensures forall k :: 0 <= k < 8 ==> 0.0 <= TexCoordBuffer(rect, texture, flipX, flipY)[k] <= 1.0
  {
    var a := AtlasSize(texture);
    DivideWithin(rect.origin.x, a.width);
    DivideWithin(rect.origin.x + rect.size.width, a.width);
    DivideWithin(rect.origin.y, a.height);
    DivideWithin(rect.origin.y + rect.size.height, a.height);
  }

  /** The upper-left quarter of a 64 by 64 texture maps to 0..0.5 on both axes. */
  lemma QuarterOfTexture()
    ensures TexCoordBuffer(MakeRect(0.0, 0.0, 32.0, 32.0), Some(Texture(1, 64, 64, false)), false, false)
         == [0.0, 0.0, 0.0, 0.5, 0.5, 0.0, 0.5, 0.5]
  { }

  /**
   * The quad's offset inside the content box: the frame's offset from the
   * centre (none means zero), negated on each flipped axis, plus half the
   * difference between the content size and the rectangle's size.
   */
  function RectOffset(unflipped: Option<Point>, flipX: bool, flipY: bool, content: Size, rectSize: Size): Point {
    var rel := unflipped.GetOr(Origin);
    var dx := if flipX then -rel.x else rel.x;
    var dy := if flipY then -rel.y else rel.y;
    Point(dx + (content.width - rectSize.width) / 2.0, dy + (content.height - rectSize.height) / 2.0)
  }

  /** A flip mirrors the offset about the centre of the content box on its own axis only. */
  lemma FlipMirrorsOffset(unflipped: Option<Point>, flipX: bool, flipY: bool, content: Size, rectSize: Size)
    ensures RectOffset(unflipped, !flipX, flipY, content, rectSize).x + RectOffset(unflipped, flipX, flipY, content, rectSize).x
         == content.width - rectSize.width
    ensures RectOffset(unflipped, !flipX, flipY, content, rectSize).y == RectOffset(unflipped, flipX, flipY, content, rectSize).y
    ensures RectOffset(unflipped, flipX, !flipY, content, rectSize).y + RectOffset(unflipped, flipX, flipY, content, rectSize).y
         == content.height - rectSize.height
    ensures RectOffset(unflipped, flipX, !flipY, content, rectSize).x == RectOffset(unflipped, flipX, flipY, content, rectSize).x
  { }

  /** Without a frame offset the quad is centred in the content box, flipped or not. */
  lemma NoFrameOffsetCentres(flipX: bool, flipY: bool, content: Size, rectSize: Size)
    ensures RectOffset(None, flipX, flipY, content, rectSize)
         == Point((content.width - rectSize.width) / 2.0, (content.height - rectSize.height) / 2.0)
  { }

  /**
   * The offset computation as written: the stored frame offset is negated
   * in place, so the next call starts from the already negated value. The
   * first component is the stored offset afterwards, the second the offset
   * computed.
   */
  function RectOffsetAsWritten(stored: Option<Point>, flipX: bool, flipY: bool, content: Size, rectSize: Size): (r: (Option<Point>, Point))
    ensures stored.None? ==> r.0.None? && r.1 == RectOffset(None, flipX, flipY, content, rectSize)
    ensures stored.Some? ==> r.0 == Some(Point(if flipX then -stored.value.x else stored.value.x,
                                               if flipY then -stored.value.y else stored.value.y))
    ensures r.1 == RectOffset(stored, flipX, flipY, content, rectSize)
  {
    var rel := stored.GetOr(Origin);
    var rel1 := if flipX then rel.(x := -rel.x) else rel;
    var rel2 := if flipY then rel1.(y := -rel1.y) else rel1;
    var kept := if stored.Some? then Some(rel2) else None;
    (kept, Point(rel2.x + (content.width - rectSize.width) / 2.0, rel2.y + (content.height - rectSize.height) / 2.0))
  }

  /**
   * A frame offset of (3, 0) on a sprite whose content size is its rect
   * size: flipping horizontally and back leaves the written version at
   * (-3, 0) where it started at (3, 0); the corrected offset returns to (3, 0).
   */
  lemma AliasedOffsetDoesNotRoundTrip()
    ensures var size := Size(10.0, 10.0);
      var stored := Some(Point(3.0, 0.0));
      var before := RectOffsetAsWritten(stored, false, false, size, size);
      var flipped := RectOffsetAsWritten(before.0, true, false, size, size);
      var back := RectOffsetAsWritten(flipped.0, false, false, size, size);
      && before.1 == Point(3.0, 0.0)
      && back.1 == Point(-3.0, 0.0)
      && RectOffset(stored, false, false, size, size) == Point(3.0, 0.0)
  { }

  /**
   * For every stored frame offset: flipping horizontally and then
   * unflipping leaves the written version's offset where the corrected
   * one is exactly when the offset has no horizontal component.
   */
  lemma FlipCycleRoundTripsIffNoHorizontalOffset(o: Point, content: Size, rectSize: Size)
    ensures var flipped := RectOffsetAsWritten(Some(o), true, false, content, rectSize);
      var back := RectOffsetAsWritten(flipped.0, false, false, content, rectSize);
      back.1 == RectOffset(Some(o), false, false, content, rectSize) <==> o.x == 0.0
  {
    var flipped := RectOffsetAsWritten(Some(o), true, false, content, rectSize);
    assert flipped.0 == Some(Point(-o.x, o.y));
  }
}
