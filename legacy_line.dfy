/** The line class `detector/line.py`, the one the line detector builds:
    two points and their accessors, nothing else. */
module LegacyLines {
  import opened Geometry

  datatype Line = Line(pointA: Point, pointB: Point) {
    function Start(): Point { pointA }
    function StartXY(): (real, real) { (pointA.x, pointA.y) }
    function End(): Point { pointB }
    function EndXY(): (real, real) { (pointB.x, pointB.y) }
  }

  /** The accessors give back exactly what the constructor was given: a line
      rebuilt from its two coordinate pairs is the same line. */
  lemma AccessorsRoundTrip(a: Point, b: Point)
    ensures Line(a, b).Start() == a && Line(a, b).End() == b
    ensures Line(a, b).StartXY() == (a.x, a.y) && Line(a, b).EndXY() == (b.x, b.y)
    ensures var l := Line(a, b);
      Line(Point(l.StartXY().0, l.StartXY().1), Point(l.EndXY().0, l.EndXY().1)) == l
  {
  }
}
