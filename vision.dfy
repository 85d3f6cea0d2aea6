/** The image-processing collaborators the core calls but does not define.
    They are kept uninterpreted: each is a total function supplied by the caller. */
module Vision {
  import opened Geometry

  datatype Toolkit = Toolkit(
    /** `cv2.boundingRect` */
    boundingRect: Contour -> Rect,
    /** `util.detect_shape`: the shape-type number of a contour */
    detectShape: Contour -> int,
    /** `util.get_sorted_contours_by_parent(contours, hierarchy)`: the dictionary's values, in order */
    sortedByParent: (seq<Contour>, Hierarchy) -> seq<seq<Contour>>,
    /** `util.group_contours_by_x_pos`: the dictionary's values, in order */
    groupByX: seq<Contour> -> seq<seq<Contour>>,
    /** `util.is_point_in_area((x, y), box)` */
    pointInArea: ((real, real), Rect) -> bool,
    /** `cv2.arcLength(c, True)` */
    arcLength: Contour -> real,
    /** `cv2.approxPolyDP(c, epsilon, True)`: the vertices of the approximation */
    approxPoly: (Contour, real) -> seq<(int, int)>
  )
}
