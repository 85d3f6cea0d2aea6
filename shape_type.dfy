/** `detector/primitives/shape_type.py`: nine shape-type numbers and their names. */
module ShapeTypes {
  import opened Wrappers

  const Unidentified: int := 0
  const Triangle: int := 1
  const Square: int := 2
  const Rectangle: int := 3
  const Pentagon: int := 4
  const Hexagon: int := 5
  const Heptagon: int := 6
  const Octagon: int := 7
  const Circle: int := 8

  const Names: map<int, string> := map[
    0 := "unidentified", 1 := "triangle", 2 := "square", 3 := "rectangle", 4 := "pentagon",
    5 := "hexagon", 6 := "heptagon", 7 := "octagon", 8 := "circle"]

  /** `ShapeType.to_s`: a dictionary lookup, raising `KeyError` outside 0..8. */
  function ToS(shapeType: int): (r: Result<string>)
    ensures r.Success? <==> Unidentified <= shapeType <= Circle
    ensures r.Failure? ==> r.error == KeyError
  {
    if shapeType in Names then Success(Names[shapeType]) else Failure(KeyError)
  }

  /** The constants are the distinct numbers 0..8 and each maps to its own name. */
  lemma ToSTable()
    ensures [Unidentified, Triangle, Square, Rectangle, Pentagon, Hexagon, Heptagon, Octagon, Circle]
         == [0, 1, 2, 3, 4, 5, 6, 7, 8]
    ensures ToS(Triangle) == Success("triangle") && ToS(Square) == Success("square")
    ensures ToS(Rectangle) == Success("rectangle") && ToS(Circle) == Success("circle")
    ensures ToS(Unidentified) == Success("unidentified") && ToS(Pentagon) == Success("pentagon")
    ensures ToS(Hexagon) == Success("hexagon") && ToS(Heptagon) == Success("heptagon")
    ensures ToS(Octagon) == Success("octagon")
  {
  }

  /** No two shape types share a name. */
  lemma ToSInjective(a: int, b: int)
    requires ToS(a).Success? && ToS(a) == ToS(b)
    ensures a == b
  {
  }
}
