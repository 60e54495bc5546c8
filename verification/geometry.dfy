/** Conversion of a recognised text region's bounding box, given in a
    Cartesian frame with the origin at the image's bottom-left corner, into
    the rectangle and label anchor of the drawing surface, whose origin is
    the top-left corner. */
module Geometry {

  /** A point of the drawing surface (top-left origin). */
  datatype Point = Point(x: real, y: real)

  /** An axis-aligned rectangle of the drawing surface, as its four edges. */
  datatype Rect = Rect(left: real, top: real, right: real, bottom: real)
  {
    function TopLeft(): Point { Point(left, top) }
  }

  /** A bounding box as the recognition service reports it: eight numbers,
      the corners (x0,y0) (x1,y1) (x2,y2) (x3,y3) in that order. Only the
      first eight entries are ever read. */
  predicate HasCorners(bb: seq<real>)
  {
    |bb| >= 8
  }

  /** Moves a y coordinate between the bottom-left and the top-left frame of
      an image `height` units tall. */
  function FlipY(height: int, y: real): (r: real)
    ensures r + y == height as real
  {
    height as real - y
  }

  /** Flipping twice is the identity, so the conversion loses nothing. */
  lemma FlipYInvolution(height: int, y: real)
    ensures FlipY(height, FlipY(height, y)) == y
  {
  }

  /** Flipping reverses vertical order: higher in the Cartesian frame is
      nearer the top of the drawing surface. */
  lemma FlipYReversesOrder(height: int, y1: real, y2: real)
    ensures y1 <= y2 <==> FlipY(height, y2) <= FlipY(height, y1)
  {
  }

  /** The rectangle drawn for a bounding box: left and top from corner 0,
      right from corner 1's x, bottom from corner 2's y. */
  function BoxRect(height: int, bb: seq<real>): (r: Rect)
    requires HasCorners(bb)
    ensures r.left == bb[0] && r.right == bb[2]
    ensures FlipY(height, r.top) == bb[1] && FlipY(height, r.bottom) == bb[5]
  {
    FlipYInvolution(height, bb[1]);
    FlipYInvolution(height, bb[5]);
    Rect(bb[0], FlipY(height, bb[1]), bb[2], FlipY(height, bb[5]))
  }

  /** The point the label text is anchored at. */
  function LabelAnchor(height: int, bb: seq<real>): (p: Point)
    requires HasCorners(bb)
    ensures p == BoxRect(height, bb).TopLeft()
  {
    Point(bb[0], FlipY(height, bb[1]))
  }

  /** The drawn rectangle is well oriented (top above bottom, left of right)
      exactly when corner 0 is not below corner 2 and not right of corner 1. */
  lemma BoxRectOrientation(height: int, bb: seq<real>)
    requires HasCorners(bb)
    ensures BoxRect(height, bb).top <= BoxRect(height, bb).bottom <==> bb[5] <= bb[1]
    ensures BoxRect(height, bb).left <= BoxRect(height, bb).right <==> bb[0] <= bb[2]
  {
  }

  /** The alternative rectangle that takes its bottom edge from corner 3,
      which is the bottom-left corner when the corners run top-left,
      top-right, bottom-right, bottom-left. */
  function BottomLeftCornerRect(height: int, bb: seq<real>): (r: Rect)
    requires HasCorners(bb)
    ensures r.TopLeft() == LabelAnchor(height, bb)
    ensures FlipY(height, r.bottom) == bb[7]
  {
    FlipYInvolution(height, bb[7]);
    Rect(bb[0], FlipY(height, bb[1]), bb[2], FlipY(height, bb[7]))
  }

  /** The two conventions agree exactly when corners 2 and 3 share their y,
      as they do for horizontal boxes such as the one in the comment at the
      rectangle formula. */
  lemma BoxRectMatchesBottomLeft(height: int, bb: seq<real>)
    requires HasCorners(bb)
    ensures BoxRect(height, bb) == BottomLeftCornerRect(height, bb) <==> bb[5] == bb[7]
  {
  }

  /** The example box in the source's comment, on an image 500 units tall. */
  lemma ExampleBox()
    ensures var bb := [45.0, 469.0, 85.0, 469.0, 85.0, 457.0, 45.0, 457.0];
            BoxRect(500, bb) == Rect(45.0, 31.0, 85.0, 43.0)
            && LabelAnchor(500, bb) == Point(45.0, 31.0)
  {
  }
}
