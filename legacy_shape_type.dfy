/** `detector/shape_type.py`: the older table of six shape types, numbered
    differently from the primitives table (`CIRCLE` is 5 here, 8 there). */
module LegacyShapeTypes {
  import opened Wrappers

  const Unidentified: int := 0
  const Triangle: int := 1
  const Square: int := 2
  const Rectangle: int := 3
  const Pentagon: int := 4
  const Circle: int := 5

  const Names: map<int, string> := map[
    0 := "unidentified", 1 := "triangle", 2 := "square", 3 := "rectangle", 4 := "pentagon",
    5 := "circle"]

  /** `ShapeType.to_s`: a dictionary lookup, raising `KeyError` outside 0..5. */
  function ToS(shapeType: int): (r: Result<string>)
    ensures r.Success? <==> Unidentified <= shapeType <= Circle
    ensures r.Failure? ==> r.error == KeyError
  {
    if shapeType in Names then Success(Names[shapeType]) else Failure(KeyError)
  }

  lemma ToSTable()
    ensures [Unidentified, Triangle, Square, Rectangle, Pentagon, Circle] == [0, 1, 2, 3, 4, 5]
    ensures ToS(Circle) == Success("circle") && ToS(Rectangle) == Success("rectangle")
    ensures ToS(Unidentified) == Success("unidentified") && ToS(Triangle) == Success("triangle")
    ensures ToS(Square) == Success("square") && ToS(Pentagon) == Success("pentagon")
  {
  }

  lemma ToSInjective(a: int, b: int)
    requires ToS(a).Success? && ToS(a) == ToS(b)
    ensures a == b
  {
  }
}
