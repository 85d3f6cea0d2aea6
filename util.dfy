/** `detector/util.py`: measurements on a contour's bounding box and on an image. */
module Util {
  import opened Wrappers
  import opened Geometry
  import opened Vision

  /** `area_contour`: width times height of the bounding rectangle. */
  function AreaContour(c: Contour, tk: Toolkit): (area: int)
    ensures tk.boundingRect(c).w >= 0 && tk.boundingRect(c).h >= 0 ==> area >= 0
    ensures tk.boundingRect(c).w == 0 || tk.boundingRect(c).h == 0 ==> area == 0
  {
    var box := tk.boundingRect(c);
    box.w * box.h
  }

  /** The area does not depend on where the box lies. */
  lemma AreaIgnoresPosition(c1: Contour, c2: Contour, tk: Toolkit)
    requires tk.boundingRect(c1).w == tk.boundingRect(c2).w
    requires tk.boundingRect(c1).h == tk.boundingRect(c2).h
    ensures AreaContour(c1, tk) == AreaContour(c2, tk)
  {
  }

  /** `aspect_ratio`: width over height, failing on a zero height. */
  function AspectRatio(c: Contour, tk: Toolkit): (r: Result<real>)
    ensures r.Failure? <==> tk.boundingRect(c).h == 0
    ensures r.Failure? ==> r.error == ZeroDivisionError
    ensures r.Success? ==> r.value * tk.boundingRect(c).h as real == tk.boundingRect(c).w as real
  {
    var box := tk.boundingRect(c);
    if box.h == 0 then Failure(ZeroDivisionError) else Success(box.w as real / box.h as real)
  }

  /** `image_area`: `image.shape[:2]`, the number of rows and of columns. */
  function ImageArea(image: array2<int>): (dims: (nat, nat))
    ensures dims.0 * dims.1 == image.Length0 * image.Length1
    ensures dims.0 == 0 || dims.1 == 0 <==> image.Length0 * image.Length1 == 0
  {
    (image.Length0, image.Length1)
  }
}
