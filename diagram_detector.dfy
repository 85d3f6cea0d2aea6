/** `detector/diagram_detector.py`: the older classifier, by the vertex count of
    the polygon approximation alone. The numeric values of its result come
    from `detector/shape.py`, which is not part of this model, so the result
    is a named category. */
module DiagramDetector {
  import opened Wrappers
  import opened Geometry
  import opened Vision
  import Util

  datatype ShapeCategory = Unidentified | Triangle | Rectangle

  /** The branch of `detect_shape` on the number of approximated vertices. */
  function ClassifyVertexCount(vertices: nat): (s: ShapeCategory)
    ensures s == Triangle <==> vertices == 3
    ensures s == Rectangle <==> vertices == 4
    ensures s == Unidentified <==> vertices != 3 && vertices != 4
  {
    var initial := Unidentified;
    var afterThree := if vertices == 3 then Triangle else initial;
    if vertices == 4 then Rectangle else afterThree
  }

  /** `detect_shape(c)`: approximate with epsilon = 0.1 * perimeter, then classify. */
  function DetectShape(c: Contour, tk: Toolkit): (s: ShapeCategory)
    ensures s == Triangle <==> |tk.approxPoly(c, 0.1 * tk.arcLength(c))| == 3
    ensures s == Rectangle <==> |tk.approxPoly(c, 0.1 * tk.arcLength(c))| == 4
  {
    var peri := tk.arcLength(c);
    var approx := tk.approxPoly(c, 0.1 * peri);
    ClassifyVertexCount(|approx|)
  }

  /** Contours whose approximations have equally many vertices are classified
      alike; there is no square/rectangle split in this version. */
  lemma DetectShapeByVertexCount(c1: Contour, c2: Contour, tk: Toolkit)
    requires |tk.approxPoly(c1, 0.1 * tk.arcLength(c1))| == |tk.approxPoly(c2, 0.1 * tk.arcLength(c2))|
    ensures DetectShape(c1, tk) == DetectShape(c2, tk)
    ensures |tk.approxPoly(c1, 0.1 * tk.arcLength(c1))| == 4 ==> DetectShape(c1, tk) == Rectangle
  {
  }

  /** `DiagramDetector.aspect_ratio`: the same width-over-height as `util.aspect_ratio`. */
  function AspectRatio(c: Contour, tk: Toolkit): (r: Result<real>)
    ensures r.Failure? <==> tk.boundingRect(c).h == 0
    ensures r.Success? ==> r.value * tk.boundingRect(c).h as real == tk.boundingRect(c).w as real
  {
    Util.AspectRatio(c, tk)
  }
}
