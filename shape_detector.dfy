/** `detector/detector/shape_detector.py`: the detector's state, the wrapping of
    detected contours into shapes, filtering by type, and painting contours out
    of a copy of the preprocessed image. */
module ShapeDetection {
  import opened Wrappers
  import opened Geometry
  import opened Vision
  import opened Sequences
  import opened Shapes
  import Util

  /** `erosion_factor`: how far each painted box extends beyond the bounding box. */
  const ErosionFactor: int := 5

  /** The fill colour `(0, 0, 0)` on the single-channel preprocessed image. */
  const Black: int := 0

  function Min(a: int, b: int): int { if a <= b then a else b }
  function Max(a: int, b: int): int { if a <= b then b else a }

  /** A Python slice bound `i` over a dimension of size `n`, after the usual
      wrap-around of negative values and clamping. */
  function SliceBound(i: int, n: nat): (b: nat)
    ensures b <= n
    ensures 0 <= i <= n ==> b == i
  {
    if i < 0 then (if i + n < 0 then 0 else i + n) else if i > n then n else i
  }

  /** `image[y:y+h, x:x+w]`, as a copied region. */
  function Crop(img: array2<int>, box: Rect): (region: seq<seq<int>>)
    reads img
    ensures 0 <= box.y && 0 <= box.h && box.y + box.h <= img.Length0 &&
            0 <= box.x && 0 <= box.w && box.x + box.w <= img.Length1 ==>
      |region| == box.h &&
      forall i, j :: 0 <= i < box.h && 0 <= j < box.w ==>
        |region[i]| == box.w && region[i][j] == img[box.y + i, box.x + j]
  {
    var r0, r1 := SliceBound(box.y, img.Length0), SliceBound(box.y + box.h, img.Length0);
    var c0, c1 := SliceBound(box.x, img.Length1), SliceBound(box.x + box.w, img.Length1);
    var rows := Max(r1 - r0, 0);
    var cols := Max(c1 - c0, 0);
    seq(rows, i requires 0 <= i < rows reads img =>
      seq(cols, j requires 0 <= j < cols reads img => img[r0 + i, c0 + j]))
  }

  /** The pixel lies in the filled rectangle `cv2.rectangle` paints between
      the corners (x-5, y-5) and (x+w+5, y+h+5), both corners included. */
  predicate InExpandedBox(row: int, col: int, box: Rect)
  {
    var x1, x2 := box.x - ErosionFactor, box.x + box.w + ErosionFactor;
    var y1, y2 := box.y - ErosionFactor, box.y + box.h + ErosionFactor;
    Min(x1, x2) <= col <= Max(x1, x2) && Min(y1, y2) <= row <= Max(y1, y2)
  }

  /** The pixel lies in some expanded box. */
  predicate Covered(row: int, col: int, boxes: seq<Rect>)
  {
    exists k :: 0 <= k < |boxes| && InExpandedBox(row, col, boxes[k])
  }

  /** `cv2.boundingRect` of each contour, in order. */
  function Boxes(contours: seq<Contour>, tk: Toolkit): seq<Rect>
  {
    seq(|contours|, k requires 0 <= k < |contours| => tk.boundingRect(contours[k]))
  }

  /** The expanded box of a point-sized contour at (10, 10) covers (5, 5) and
      (15, 15) but not (4, 10) or (10, 16). */
  lemma ExpandedBoxExample()
    ensures var b := Rect(10, 10, 0, 0);
      InExpandedBox(5, 5, b) && InExpandedBox(15, 15, b) && !InExpandedBox(4, 10, b) && !InExpandedBox(10, 16, b)
  {
  }

  /** `cv2.rectangle(image, ..., (0, 0, 0), -1)`: paint one expanded box,
      clipped to the image. */
  method FillExpandedBox(img: array2<int>, box: Rect)
    modifies img
    ensures forall r, c :: 0 <= r < img.Length0 && 0 <= c < img.Length1 ==>
      img[r, c] == if InExpandedBox(r, c, box) then Black else old(img[r, c])
  {
    var x1, x2 := box.x - ErosionFactor, box.x + box.w + ErosionFactor;
    var y1, y2 := box.y - ErosionFactor, box.y + box.h + ErosionFactor;
    var rowLo, rowHi := SliceBound(Max(Min(y1, y2), 0), img.Length0), SliceBound(Max(Max(y1, y2) + 1, 0), img.Length0);
    var colLo, colHi := SliceBound(Max(Min(x1, x2), 0), img.Length1), SliceBound(Max(Max(x1, x2) + 1, 0), img.Length1);
    var r := rowLo;
    while r < rowHi
      invariant rowLo <= r <= Max(rowHi, rowLo)
      invariant forall r', c :: 0 <= r' < img.Length0 && 0 <= c < img.Length1 ==>
        img[r', c] == if rowLo <= r' < r && InExpandedBox(r', c, box) then Black else old(img[r', c])
    {
      var c := colLo;
      while c < colHi
        invariant colLo <= c <= Max(colHi, colLo)
        invariant forall r', c' :: 0 <= r' < img.Length0 && 0 <= c' < img.Length1 ==>
          img[r', c'] ==
            if (rowLo <= r' < r || (r' == r && colLo <= c' < c)) && InExpandedBox(r', c', box) then Black
            else old(img[r', c'])
      {
        img[r, c] := Black;
        c := c + 1;
      }
      r := r + 1;
    }
  }

  class ShapeDetector {
    /** The working copy of the image; `None` until `load`. */
    var image: array2?<int>
    /** The preprocessed (binary) working copy; `None` until `load`. */
    var preprocessedImage: array2?<int>
    var shapes: seq<Shape>
    var contours: Option<seq<Contour>>
    var hierarchy: Option<Hierarchy>
    /** The image-processing calls the detector makes. */
    const toolkit: Toolkit

    /** `ShapeDetector()` without an image path. */
    constructor (tk: Toolkit)
      ensures toolkit == tk && image == null && preprocessedImage == null
      ensures shapes == [] && contours.None? && hierarchy.None?
    {
      toolkit := tk;
      image := null;
      preprocessedImage := null;
      shapes := [];
      contours := None;
      hierarchy := None;
    }

    /** `load(image)`, given the working copy and its preprocessed version that
        the left-out image helpers compute. */
    method Load(working: array2<int>, preprocessed: array2<int>)
      modifies this
      ensures image == working && preprocessedImage == preprocessed
      ensures shapes == old(shapes) && contours == old(contours) && hierarchy == old(hierarchy)
    {
      image := working;
      preprocessedImage := preprocessed;
    }

    /** `find_shapes_in_image`, given the contours and hierarchy that the
        contour extraction returns for the image: one new shape per contour,
        in order, shape i carrying contour index i and its crop of the working
        image. */
    method FindShapesInImage(detected: seq<Contour>, detectedHierarchy: Hierarchy)
      returns (found: seq<Shape>, cons: seq<Contour>, hier: Hierarchy)
      requires image != null
      ensures cons == detected && hier == detectedHierarchy && |found| == |detected|
      ensures forall i :: 0 <= i < |found| ==>
        && fresh(found[i])
        && found[i].contour == detected[i]
        && found[i].contourIndex == i
        && found[i].toolkit == toolkit && found[i].Cached()
        && found[i].image == Some(Crop(image, toolkit.boundingRect(detected[i])))
        && found[i].text.None?
      ensures forall i, j :: 0 <= i < j < |found| ==> found[i] != found[j]
    {
      cons := seq(|detected|, i requires 0 <= i < |detected| => detected[i]);
      hier := detectedHierarchy;
      found := [];
      for i := 0 to |cons|
        invariant |found| == i
        invariant forall k :: 0 <= k < i ==>
          && fresh(found[k])
          && found[k].contour == detected[k]
          && found[k].contourIndex == k
          && found[k].toolkit == toolkit && found[k].Cached()
          && found[k].image == Some(Crop(image, toolkit.boundingRect(detected[k])))
          && found[k].text.None?
        invariant forall k, j :: 0 <= k < j < i ==> found[k] != found[j]
      {
        var shape := new Shape(cons[i], toolkit);
        shape.SetImage(Crop(image, toolkit.boundingRect(cons[i])));
        shape.contourIndex := i;
        found := found + [shape];
      }
    }

    /** `find_shapes`: replace shapes, contours and hierarchy with those found
        in the preprocessed image, and return the shapes. */
    method FindShapes(detected: seq<Contour>, detectedHierarchy: Hierarchy) returns (found: seq<Shape>)
      requires image != null && preprocessedImage != null
      modifies this
      ensures shapes == found && contours == Some(detected) && hierarchy == Some(detectedHierarchy)
      ensures image == old(image) && preprocessedImage == old(preprocessedImage)
      ensures |found| == |detected|
      ensures forall i :: 0 <= i < |found| ==>
        fresh(found[i]) && found[i].contour == detected[i] && found[i].contourIndex == i
    {
      var cons, hier;
      found, cons, hier := FindShapesInImage(detected, detectedHierarchy);
      shapes := found;
      contours := Some(cons);
      hierarchy := Some(hier);
    }

    /** `get_shapes_by_type`: the shapes of the given type in order, and their contours. */
    function ShapesByType(shapeType: int): (r: (seq<Shape>, seq<Contour>))
      reads this
      ensures IsSubsequence(r.0, shapes)
      ensures forall i :: 0 <= i < |r.0| ==> r.0[i].shape == shapeType
      ensures forall i :: 0 <= i < |shapes| && shapes[i].shape == shapeType ==> shapes[i] in r.0
      ensures |r.1| == |r.0| && forall i :: 0 <= i < |r.0| ==> r.1[i] == r.0[i].contour
    {
      var ofType := (s: Shape) => s.shape == shapeType;
      var selected := Select(shapes, ofType);
      assert forall i :: 0 <= i < |selected| ==> selected[i] in selected && ofType(selected[i]);
      (selected, seq(|selected|, i requires 0 <= i < |selected| => selected[i].contour))
    }

    /** `sort_contours_by_parent`. */
    function SortContoursByParent(): seq<seq<Contour>>
      reads this
      requires contours.Some? && hierarchy.Some?
    {
      toolkit.sortedByParent(contours.value, hierarchy.value)
    }

    /** `get_image_remove_contours`: a copy of the preprocessed image in which
        each contour's box, grown by 5 pixels on every side, is painted black.
        The preprocessed image itself is not modified. */
    method GetImageRemoveContours(toRemove: seq<Contour>) returns (img: array2<int>)
      requires preprocessedImage != null
      ensures fresh(img)
      ensures Util.ImageArea(img) == Util.ImageArea(preprocessedImage)
      ensures forall r, c :: 0 <= r < img.Length0 && 0 <= c < img.Length1 ==>
        img[r, c] == if Covered(r, c, Boxes(toRemove, toolkit)) then Black else preprocessedImage[r, c]
    {
      var src := preprocessedImage;
      img := new int[src.Length0, src.Length1]((r, c) reads src =>
        if 0 <= r < src.Length0 && 0 <= c < src.Length1 then src[r, c] else Black);
      var boxes := Boxes(toRemove, toolkit);
      for i := 0 to |toRemove|
        invariant forall r, c :: 0 <= r < img.Length0 && 0 <= c < img.Length1 ==>
          img[r, c] == if Covered(r, c, boxes[..i]) then Black else src[r, c]
      {
        FillExpandedBox(img, toolkit.boundingRect(toRemove[i]));
        forall r, c | 0 <= r < img.Length0 && 0 <= c < img.Length1
          ensures Covered(r, c, boxes[..i + 1]) <==> Covered(r, c, boxes[..i]) || InExpandedBox(r, c, boxes[i])
        {
          if Covered(r, c, boxes[..i + 1]) && !InExpandedBox(r, c, boxes[i]) {
            var k :| 0 <= k < i + 1 && InExpandedBox(r, c, boxes[..i + 1][k]);
            assert boxes[..i][k] == boxes[k];
          }
        }
      }
      assert boxes[..|toRemove|] == boxes;
    }

    /** `get_image_remove_shape_type`: paint out the shapes of one type. */
    method GetImageRemoveShapeType(shapeType: int) returns (img: array2<int>)
      requires preprocessedImage != null
      ensures fresh(img)
      ensures Util.ImageArea(img) == Util.ImageArea(preprocessedImage)
      ensures forall r, c :: 0 <= r < img.Length0 && 0 <= c < img.Length1 ==>
        img[r, c] == if Covered(r, c, Boxes(ShapesByType(shapeType).1, toolkit)) then Black
                     else preprocessedImage[r, c]
    {
      var (_, shapesContours) := ShapesByType(shapeType);
      img := GetImageRemoveContours(shapesContours);
    }

    /** `get_image_filter_shape_type`, given the contours the contour extraction
        finds in the image with that type painted out: those contours are
        painted out of the preprocessed image in turn. */
    method GetImageFilterShapeType(shapeType: int, detectedAfterRemoval: seq<Contour>,
                                   hierarchyAfterRemoval: Hierarchy) returns (img: array2<int>)
      requires image != null && preprocessedImage != null
      ensures fresh(img)
      ensures Util.ImageArea(img) == Util.ImageArea(preprocessedImage)
      ensures forall r, c :: 0 <= r < img.Length0 && 0 <= c < img.Length1 ==>
        img[r, c] == if Covered(r, c, Boxes(detectedAfterRemoval, toolkit)) then Black
                     else preprocessedImage[r, c]
    {
      var removed := GetImageRemoveShapeType(shapeType);
      var _, contoursRemove, _ := FindShapesInImage(detectedAfterRemoval, hierarchyAfterRemoval);
      img := GetImageRemoveContours(contoursRemove);
    }
  }
}
