/**
 * Plain values the sprite works with: points, sizes and rectangles in
 * pixels (the source's CGPoint, CGSize and CGRect, whose float fields are
 * modelled as reals), and what the sprite needs to know of a texture.
 */
module Geometry {

  datatype Point = Point(x: real, y: real)

  datatype Size = Size(width: real, height: real)

  datatype Rect = Rect(origin: Point, size: Size)

  const Origin: Point := Point(0.0, 0.0)

  function MakeRect(x: real, y: real, w: real, h: real): Rect {
    Rect(Point(x, y), Size(w, h))
  }

  /** A texture's pixel dimensions are positive. */
  type Pixels = n: int | n > 0 witness 1

  /**
   * The texture collaborator as the sprite sees it: an identity token
   * (the GL name), its size in pixels and whether its colours already
   * carry premultiplied alpha.
   */
  datatype Texture = Texture(name: int, pixelsWide: Pixels, pixelsHigh: Pixels, hasPremultipliedAlpha: bool)
}
