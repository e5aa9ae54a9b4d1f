/**
 * The rectangle's corner table in its own (unrotated, untranslated) frame and
 * the order in which its outline is traversed (script.js, `Rectangle.redraw`).
 * The rotation of each corner by the orientation angle (atan, cos, sin, round)
 * is not part of this model.
 */
module Geometry {

  /** An offset from a shape's centre. */
  datatype Offset = Offset(dx: real, dy: real)

  function Neg(p: Offset): Offset { Offset(-p.dx, -p.dy) }

  function Sub(p: Offset, q: Offset): Offset { Offset(p.dx - q.dx, p.dy - q.dy) }

  /**
   * The four local corners of a rectangle with the given length, width and skews.
   * The table is point-symmetric about the centre, so the quadrilateral is always
   * a parallelogram; lengthSkew only slants the sides joining corners 0 and 1
   * (and 3 and 2), widthSkew only the sides joining corners 0 and 3 (and 1 and 2).
   */
  function CornerOffsets(length: int, width: int, lengthSkew: int, widthSkew: int): (c: seq<Offset>)
    ensures |c| == 4
    ensures c[2] == Neg(c[0]) && c[3] == Neg(c[1])
    ensures Sub(c[0], c[1]) == Sub(c[3], c[2]) && Sub(c[0], c[3]) == Sub(c[1], c[2])
    ensures Sub(c[0], c[1]) == Offset(2.0 * lengthSkew as real, width as real)
    ensures Sub(c[0], c[3]) == Offset(length as real, 2.0 * widthSkew as real)
  {
    var hl, hw := length as real / 2.0, width as real / 2.0;
    var ls, ws := lengthSkew as real, widthSkew as real;
    [ Offset( hl + ls,  hw + ws),
      Offset( hl - ls, -hw + ws),
      Offset(-hl - ls, -hw - ws),
      Offset(-hl + ls,  hw - ws) ]
  }

  /** Without skew the corners are (±length/2, ±width/2), an axis-aligned rectangle. */
  lemma UnskewedCorners(length: int, width: int)
    ensures var hl, hw := length as real / 2.0, width as real / 2.0;
      CornerOffsets(length, width, 0, 0) ==
        [Offset(hl, hw), Offset(hl, -hw), Offset(-hl, -hw), Offset(-hl, hw)]
  {
  }

  /** One step of a canvas path. */
  datatype PathStep = MoveTo(to: Offset) | LineTo(to: Offset)

  /**
   * The outline of the four corners: move to corner 3, then draw to corners
   * 0, 1, 2 and 3 in that order. The path is closed, reaches every corner, and
   * each drawn edge joins corners that are neighbours in the cycle 3, 0, 1, 2.
   */
  function Outline(c: seq<Offset>): (path: seq<PathStep>)
    requires |c| == 4
    ensures |path| == 5 && path[0].MoveTo? && path[0].to == path[4].to
    ensures forall k :: 1 <= k < 5 ==> path[k].LineTo?
    ensures forall k :: 0 <= k < 4 ==> path[k].to == c[(k + 3) % 4] && path[k + 1].to == c[k]
    ensures forall j :: 0 <= j < 4 ==> LineTo(c[j]) in path
  {
    [MoveTo(c[3]), LineTo(c[0]), LineTo(c[1]), LineTo(c[2]), LineTo(c[3])]
  }
}
