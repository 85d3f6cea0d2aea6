/** Plain geometric values shared by every component. */
module Geometry {

  /** A point in image coordinates; `get_xy_tuple()` is `(x, y)`. */
  datatype Point = Point(x: real, y: real)

  /** A bounding box `(x, y, w, h)` as `cv2.boundingRect` returns it. */
  datatype Rect = Rect(x: int, y: int, w: int, h: int)

  /** A contour: the boundary points the contour extraction returns. */
  type Contour = seq<(int, int)>

  /** One hierarchy row `[next, previous, first_child, parent]`; -1 means none. */
  datatype HierarchyEntry = HierarchyEntry(next: int, previous: int, firstChild: int, parent: int)

  type Hierarchy = seq<HierarchyEntry>

  /** One detected segment `(x1, y1, x2, y2)`. */
  datatype Segment = Segment(x1: real, y1: real, x2: real, y2: real)
}
