/** `detector/primitives/shape.py`: a contour with the values derived from it
    at construction, and the fields the shape detector later sets. */
module Shapes {
  import opened Wrappers
  import opened Geometry
  import opened Vision
  import ShapeTypes
  import Util

  class Shape {
    /** The cropped region of the working image; `None` until `set_image`. */
    var image: Option<seq<seq<int>>>
    /** Position in the owning detector's contour list; -1 while detached. */
    var contourIndex: int
    /** Recognised text; only the left-out `ocr` sets it. */
    var text: Option<string>
    const contour: Contour
    /** The shape-type number, computed once here and never reassigned. */
    const shape: int
    const x: int
    const y: int
    const w: int
    const h: int
    /** The image-processing calls the shape makes on its contour. */
    const toolkit: Toolkit

    /** The cached values are those of the contour. */
    predicate Cached()
    {
      Rect(x, y, w, h) == toolkit.boundingRect(contour) && shape == toolkit.detectShape(contour)
    }

    constructor (contour: Contour, tk: Toolkit)
      ensures this.contour == contour && toolkit == tk && Cached()
      ensures contourIndex == -1 && image.None? && text.None?
    {
      image := None;
      this.contour := contour;
      contourIndex := -1;
      shape := tk.detectShape(contour);
      text := None;
      var box := tk.boundingRect(contour);
      w, h, x, y := box.w, box.h, box.x, box.y;
      toolkit := tk;
    }

    /** `set_image`: only the image changes. */
    method SetImage(region: seq<seq<int>>)
      modifies this`image
      ensures image == Some(region)
    {
      image := Some(region);
    }

    /** `area`: width times height of the bounding box, the cached one. */
    function Area(): (a: int)
      requires Cached()
      ensures a == w * h
      ensures w >= 0 && h >= 0 ==> a >= 0
    {
      Util.AreaContour(contour, toolkit)
    }

    /** `bounding_box`: the box the cached coordinates were taken from. */
    function BoundingBox(): (box: Rect)
      requires Cached()
      ensures box == Rect(x, y, w, h)
    {
      toolkit.boundingRect(contour)
    }

    /** `shape_name`: the name of the shape-type number, failing outside 0..8. */
    function ShapeName(): (r: Result<string>)
      ensures r.Success? <==> 0 <= shape <= 8
      ensures r.Success? ==> r.value in ShapeTypes.Names.Values
    {
      ShapeTypes.ToS(shape)
    }
  }
}
