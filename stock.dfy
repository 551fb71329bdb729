/**
 * Stock derivation: the rectangular block of raw material that encloses the
 * target model's axis-aligned bounding box, grown by a margin on every side.
 * Coordinates are modelled as exact reals (no floating-point rounding).
 */
module Stock {

  /** An axis-aligned bounding box, as the geometry kernel reports it. */
  datatype BoundBox = BoundBox(xMin: real, yMin: real, zMin: real,
                               xMax: real, yMax: real, zMax: real)

  datatype Vector = Vector(x: real, y: real, z: real)

  /** A box solid: its three extents and the placement of its minimum corner. */
  datatype Box = Box(length: real, width: real, height: real, base: Vector)

  /** The margin used when the caller gives none. */
  const DefaultMargin: real := 5.0

  /** Minimum does not exceed maximum on any axis. */
  predicate WellFormed(b: BoundBox) {
    b.xMin <= b.xMax && b.yMin <= b.yMax && b.zMin <= b.zMax
  }

  /** The region a box occupies, written as a bounding box. */
  function Bounds(s: Box): BoundBox {
    BoundBox(s.base.x, s.base.y, s.base.z,
             s.base.x + s.length, s.base.y + s.width, s.base.z + s.height)
  }

  /** The box `s` encloses the bounding box `b` on every axis. */
  predicate Encloses(s: Box, b: BoundBox) {
    var o := Bounds(s);
    o.xMin <= b.xMin && b.xMax <= o.xMax &&
    o.yMin <= b.yMin && b.yMax <= o.yMax &&
    o.zMin <= b.zMin && b.zMax <= o.zMax
  }

  /**
   * The stock block for a model with bounding box `bbox`: the corners are
   * moved outward by `margin`, the extents are the distances between them,
   * and the box is placed at the lower corner.
   */
  function CreateStock(bbox: BoundBox, margin: real := DefaultMargin): (r: Box)
    ensures r.base == Vector(bbox.xMin - margin, bbox.yMin - margin, bbox.zMin - margin)
    ensures r.length == (bbox.xMax - bbox.xMin) + 2.0 * margin
    ensures r.width == (bbox.yMax - bbox.yMin) + 2.0 * margin
    ensures r.height == (bbox.zMax - bbox.zMin) + 2.0 * margin
    ensures Bounds(r) == BoundBox(bbox.xMin - margin, bbox.yMin - margin, bbox.zMin - margin,
                                  bbox.xMax + margin, bbox.yMax + margin, bbox.zMax + margin)
  {
    var x0, y0, z0 := bbox.xMin - margin, bbox.yMin - margin, bbox.zMin - margin;
    var x1, y1, z1 := bbox.xMax + margin, bbox.yMax + margin, bbox.zMax + margin;
    Box(x1 - x0, y1 - y0, z1 - z0, Vector(x0, y0, z0))
  }

  /** Shrinking the stock by the margin again gives back the model's box. */
  function Shrink(s: Box, margin: real): (b: BoundBox)
    ensures Bounds(s) == BoundBox(b.xMin - margin, b.yMin - margin, b.zMin - margin,
                                  b.xMax + margin, b.yMax + margin, b.zMax + margin)
  {
    var o := Bounds(s);
    BoundBox(o.xMin + margin, o.yMin + margin, o.zMin + margin,
             o.xMax - margin, o.yMax - margin, o.zMax - margin)
  }

  lemma ShrinkCreateStock(bbox: BoundBox, margin: real)
    ensures Shrink(CreateStock(bbox, margin), margin) == bbox
  {
  }

  /** The stock encloses the model exactly when the margin is not negative. */
  lemma EnclosesIffMarginNonNegative(bbox: BoundBox, margin: real)
    ensures Encloses(CreateStock(bbox, margin), bbox) <==> margin >= 0.0
  {
  }

  /** With a zero margin the stock coincides with the bounding box. */
  lemma ZeroMarginCoincides(bbox: BoundBox)
    ensures Bounds(CreateStock(bbox, 0.0)) == bbox
  {
  }

  /** A well-formed model box and a positive margin give positive extents. */
  lemma PositiveExtents(bbox: BoundBox, margin: real)
    requires WellFormed(bbox) && margin > 0.0
    ensures var s := CreateStock(bbox, margin);
            s.length > 0.0 && s.width > 0.0 && s.height > 0.0
  {
  }

  /** Omitting the margin is the same as passing 5.0. */
  lemma DefaultMarginIsFive(bbox: BoundBox)
    ensures CreateStock(bbox) == CreateStock(bbox, 5.0)
  {
  }

  /** The model box (0,0,0)-(100,50,20) with the default margin. */
  lemma ExampleStock()
    ensures CreateStock(BoundBox(0.0, 0.0, 0.0, 100.0, 50.0, 20.0))
            == Box(110.0, 60.0, 30.0, Vector(-5.0, -5.0, -5.0))
  {
  }
}
