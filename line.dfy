/** The line class `detector/primitives/line.py`: the same two points, plus a
    length and an exact endpoint test. */
module Lines {
  import opened Geometry

  datatype Line = Line(pointA: Point, pointB: Point) {
    function Start(): Point { pointA }
    function StartXY(): (real, real) { (pointA.x, pointA.y) }
    function End(): Point { pointB }
    function EndXY(): (real, real) { (pointB.x, pointB.y) }

    /** `distance_between(start, end)`; the distance function is not part of
        this model and is supplied by the caller. */
    function Length(distance: (Point, Point) -> real): (r: real)
      ensures r == distance(pointA, pointB)
    {
      distance(Start(), End())
    }

    /** True iff `p` has exactly the coordinates of one endpoint: no tolerance. */
    predicate ContainsPoint(p: Point)
      ensures ContainsPoint(p) <==> p == pointA || p == pointB
    {
      StartXY() == (p.x, p.y) || EndXY() == (p.x, p.y)
    }
  }

  /** A line contains both of its endpoints, and a point one unit off an
      endpoint is not contained when it is no endpoint. */
  lemma ContainsOwnEndpoints(l: Line)
    ensures l.ContainsPoint(l.Start()) && l.ContainsPoint(l.End())
    ensures var p := Point(l.Start().x + 1.0, l.Start().y);
      p != l.End() ==> !l.ContainsPoint(p)
  {
  }

  /** With a symmetric distance, a line and its reversal have the same length
      and contain the same points; with a distance that is zero from a point
      to itself, a line whose two endpoints coincide has length zero. */
  lemma LengthIgnoresDirection(l: Line, distance: (Point, Point) -> real)
    requires forall p, q :: distance(p, q) == distance(q, p)
    ensures Line(l.End(), l.Start()).Length(distance) == l.Length(distance)
    ensures forall p :: Line(l.End(), l.Start()).ContainsPoint(p) <==> l.ContainsPoint(p)
    ensures (forall p :: distance(p, p) == 0.0) && l.Start() == l.End() ==> l.Length(distance) == 0.0
  {
    assert distance(l.End(), l.Start()) == distance(l.Start(), l.End());
  }
}
