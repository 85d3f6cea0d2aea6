# diagram-detection, modelled in Dafny

This project models the geometric bookkeeping of `diagram-detection`, a tool that
turns a photographed UML class diagram into entities: classes, associations, and
which class each association starts and ends at. The image-processing calls the
tool makes (contour extraction, polygon approximation, line-segment detection,
drawing) stay abstract. Their results enter the model as parameters, or as the
total functions of `Vision.Toolkit`. Everything the tool computes from those
results is modelled and specified:

- **Line detection** (`line_detector.dfy`, `main_lsd.dfy`).
  - Points are close when they are at most 30 apart, compared as squared distance against 900.
  - Two lines could be the same when their endpoints are pairwise close, in either orientation.
  - The first-seen merge and purge passes, length filtering, and the recursive endpoint-following search.
  - The `LineDetector` object, whose `find_lines` appends the detected segments to the lines it already holds.
  - The older merge in `main_lsd.py` is a separate module, because its same-line test is different and not symmetric.
- **Class-diagram reconstruction** (`class_diagram.dfy`, `diagram_converter.dfy`, `generic_entity.dfy`).
  - A contour group becomes a class entity iff it has exactly three contours.
  - Each merged line becomes one association entity.
  - Linking uses two independent tests. A line start inside a class box sets `ASSOCIATION_FROM`, and a line end inside it sets `ASSOCIATION_TO`. A later class overwrites an earlier one.
  - The converter is a class whose entity list `convert` reassigns. `GenericEntity` is a class whose part list and data map are updated in place.
- **Shape detection** (`shape_detector.dfy`, `shape.dfy`).
  - Shapes are built one per contour, with the contour index recorded.
  - Shapes can be filtered by type.
  - Contours are removed from an image by painting filled black rectangles, expanded by 5 pixels, into a fresh copy of the preprocessed pixel array.
- **Small values and classifiers**: both `Line` classes, both `ShapeType` tables, bounding-box area and aspect ratio, classification by vertex count, and first-match converter selection (`diagram_type_detector.dfy`).

Behaviour kept as written:

- `get_generic_entities` tests `if type:`. `CLASS_ENTITY` is 0, which is falsy, so the class query in `_link_associations_with_classes` returns every entity, associations included. `Converters.ClassQueryReturnsEverything` states this. In `Converters.DiagramConverter.ConvertClassDiagram` every entity, association or class, is a candidate "class" for every association.
- `find_lines` appends to the detector's line list and never clears it. `LineDetection.FindLinesTwice` shows that a second call accumulates.
- The `Line` built by the line detector (`detector/line.py`) has no `length` or `contains_point`.
  - Filtering and purging take the length measure as a parameter.
  - The endpoint-following search runs over the `Line` of `detector/primitives/line.py`, which has both methods.
- `is_same_line` in `main_lsd.py` compares the first line's start with the second line's start, then the second line's start with its own end. `MainLsd.IsSameLineNotSymmetric` shows the relation is not symmetric.
- In `get_next_line_with_corresponding_point`, the loop body returns on its first iteration. Only the first remaining line is ever inspected. The opposite-end branch can never succeed (`LineDetection.OppositeEndNeverFound`).

Assumptions where the code cannot run as written:

- `_extract_associations` calls `line_detector.merge_lines()`, but the method is named `merged_lines`. The model calls `merged_lines`.
- `_extract_associations` paints the classes out with `util.remove_generic_entities_in_image`, which `detector/util.py` does not define. The model takes, as a parameter, what the segment detector reports on the resulting image.
- `_link_associations_with_classes` calls `c.bounding_box()`, which `GenericEntity` does not define. The model takes a `boundingBox` function of an entity's parts.
- `UseCaseDiagramConverter.is_diagram` lacks `@classmethod`. `find_converter` never reaches it, because the class-diagram converter is asked first and always accepts. It is modelled as returning `False`.

## Model

| member | source | states |
|---|---|---|
| LineDetection.IsSamePoint | detector/detector/line_detector.py:39-40 | points with equal coordinates are close to each other, both ways |
| LineDetection.IsCloseSymmetric | detector/detector/line_detector.py:56-60 | `is_close` gives the same answer with its two points swapped |
| LineDetection.IsCloseBoundary | detector/detector/line_detector.py:56-60 | the tolerance of 30 is inclusive: 30 apart (also along a 18-24-30 triangle) is close, 31 apart is not |
| LineDetection.IsCloseBox | detector/detector/line_detector.py:56-60 | close points differ by at most 30 on each axis; points within 21 on both axes are close |
| LineDetection.IsSameLine | detector/detector/line_detector.py:42-44 | two lines with exactly equal endpoints, in order, could be the same line, in either argument order |
| LineDetection.CouldBeSameLineRelation | detector/detector/line_detector.py:46-48 | `could_be_same_line` is reflexive and symmetric, holds between a line and its reversal, and ignores the direction of its second line |
| LineDetection.CouldBeSameLineExamples | detector/detector/line_detector.py:46-60 | endpoints 30 apart match, also crosswise; 31 apart do not |
| LineDetection.IsLineInLaws | detector/detector/line_detector.py:62-66 | `is_line_in` ignores the direction of the given line, holds for a line of the list, holds on a concatenation iff it holds on either part, never holds on the empty list, and anything found in the merged list is found in the original |
| LineDetection.MergeLines | detector/detector/line_detector.py:85-91 | the loop returns the first-seen deduplication of the lines under `could_be_same_line` |
| LineDetection.MergeKeepsFirstSeen | detector/detector/line_detector.py:85-91 | the merge is an order-preserving subsequence that keeps the first line; a line is dropped only when a line kept before it could be the same; merging a prefix gives a prefix |
| LineDetection.MergeLeavesNoNearDuplicates | detector/detector/line_detector.py:85-91 | no two kept lines could be the same, and every input line could be the same as a kept line |
| LineDetection.MergeIdempotent | detector/detector/line_detector.py:85-91 | merging merged lines changes nothing |
| LineDetection.FilterLines | detector/detector/line_detector.py:74-83 | the result is an order-preserving subsequence holding exactly the lines with length >= min (inclusive) and < max (exclusive); an absent bound is not applied |
| LineDetection.PurgeLines | detector/detector/line_detector.py:93-101 | the loop returns `Purged`: a line is kept when no kept line could be the same and it is long enough |
| LineDetection.PurgeIsMergeOfLongLines | detector/detector/line_detector.py:93-101 | purging equals merging the lines that pass the minimum length, so a short line never blocks a later line |
| LineDetection.PurgeKeepsLongDistinctLines | detector/detector/line_detector.py:93-101 | purged lines are long enough, in input order, and pairwise not the same |
| LineDetection.LineEndPointInOtherLine | detector/detector/line_detector.py:103-109 | a result is close to the point, and the result is `None` iff no line has an endpoint close to the point |
| LineDetection.LineEndPointFromFirstLine | detector/detector/line_detector.py:103-109 | when line `i` is the first with an endpoint close to the point, the result is that line's start if the start is close, and otherwise its end |
| LineDetection.OppositeLineEnd | detector/detector/line_detector.py:111-124 | there is an answer iff the line contains the point exactly, and the answer is the other endpoint, the start tested first |
| LineDetection.ClosestCorrespondingPoint | detector/detector/line_detector.py:126-131 | there is an answer iff one endpoint is close to the reference; that endpoint is on the line and close, the start preferred |
| LineDetection.NextLineWithCorrespondingPoint | detector/detector/line_detector.py:133-146 | `None` in gives `None` out; with no line left after the filter the point itself is returned; any other answer is an endpoint of a given line; the recursion terminates |
| LineDetection.OppositeEndNeverFound | detector/detector/line_detector.py:137-143 | the first line left after the `contains_point` filter never has the point as an endpoint, so the opposite-end branch gives `None` |
| LineDetection.LinesOfAppend | detector/detector/line_detector.py:31-34 | the lines built from two batches of detections are those of the first batch, then those of the second |
| LineDetection.LinesOfCount | detector/detector/line_detector.py:31-34 | one line is built per detected 4-tuple |
| LineDetection.LineDetector.constructor | detector/detector/line_detector.py:12-15 | a new detector has no edge image and no lines |
| LineDetection.LineDetector.Init | detector/detector/line_detector.py:24-25 | `init` stores the edge image and leaves the lines alone |
| LineDetection.LineDetector.FindLines | detector/detector/line_detector.py:27-37 | `find_lines` appends one line per detected 4-tuple, in detection order, to the lines already held, and returns the whole list |
| LineDetection.LineDetector.MergedLines | detector/detector/line_detector.py:68-69 | `merged_lines` returns the merge of the lines held |
| LineDetection.LineDetector.FilterOwnLines | detector/detector/line_detector.py:71-72 | `filter_lines` keeps exactly the held lines within the bounds |
| LineDetection.FindLinesTwice | detector/detector/line_detector.py:27-37 | two `find_lines` calls on a new detector accumulate the lines of both runs, in order |
| MainLsd.IsCloseAgrees | main_lsd.py:24-32 | the script's `is_close` is the detector's test: inclusive at 30, false at 30.5 |
| MainLsd.IsSameLine | main_lsd.py:19-21 | `is_same_line(a, b)` implies that the second line's own endpoints are close |
| MainLsd.IsSameLineNotSymmetric | main_lsd.py:19-21 | a short line matches a long line with the same start, but not the other way round |
| MainLsd.IsLineInLaws | main_lsd.py:35-39 | a line whose own ends are not close is never found; one whose ends are close is found as soon as the list holds a line with the same start (itself included); lookup on a concatenation is lookup on either part |
| MainLsd.MergeLines | main_lsd.py:42-47 | the loop returns the first-seen deduplication under the script's `is_same_line` |
| MainLsd.MergeKeepsFirstSeen | main_lsd.py:35-47 | the merge is an order-preserving subsequence, no longer than its input, that keeps the first line; every dropped line matches a line kept before it |
| MainLsd.LongLinesAlwaysKept | main_lsd.py:19-47 | a line whose own endpoints are more than 30 apart is never dropped |
| LegacyLines.AccessorsRoundTrip | detector/line.py:1-16 | `start`/`end` return the constructor's points; `start_xy`/`end_xy` are their coordinates; a line rebuilt from those coordinates is the same line |
| Lines.LengthIgnoresDirection | detector/primitives/line.py:21-25 | under a symmetric distance, a reversed line has the same length and contains the same points; a line from a point to itself has length 0 |
| Lines.Line.ContainsPoint | detector/primitives/line.py:24-25 | `contains_point(p)` holds iff `p` equals one endpoint exactly |
| Lines.ContainsOwnEndpoints | detector/primitives/line.py:24-25 | a line contains both of its endpoints; a point one unit off the start that is not the end is not contained |
| ShapeTypes.ToS | detector/primitives/shape_type.py:13-26 | `to_s` succeeds exactly on 0..8 and raises `KeyError` elsewhere |
| ShapeTypes.ToSTable | detector/primitives/shape_type.py:2-26 | the nine constants are 0..8 (`CIRCLE` is 8), each mapped to its listed name |
| ShapeTypes.ToSInjective | detector/primitives/shape_type.py:14-24 | no two shape types share a name |
| LegacyShapeTypes.ToS | detector/shape_type.py:10-20 | `to_s` succeeds exactly on 0..5 and raises `KeyError` elsewhere |
| LegacyShapeTypes.ToSTable | detector/shape_type.py:2-20 | the six constants are 0..5 (`CIRCLE` is 5), each mapped to its listed name |
| LegacyShapeTypes.ToSInjective | detector/shape_type.py:11-18 | no two shape types share a name |
| Util.AreaContour | detector/util.py:17-24 | the area is non-negative for a box of non-negative size, and 0 when width or height is 0 |
| Util.AreaIgnoresPosition | detector/util.py:23-24 | contours whose boxes have equal size have equal area, wherever the boxes lie |
| Util.AspectRatio | detector/util.py:3-10 | the ratio times the height is the width; a zero height raises `ZeroDivisionError` |
| DiagramDetector.ClassifyVertexCount | detector/diagram_detector.py:16-27 | 3 vertices give a triangle, 4 a rectangle, and any other count unidentified, each iff |
| DiagramDetector.DetectShape | detector/diagram_detector.py:10-27 | a contour is a triangle iff its approximation with epsilon 0.1 * perimeter has 3 vertices, and a rectangle iff it has 4 |
| DiagramDetector.DetectShapeByVertexCount | detector/diagram_detector.py:18-27 | the result depends only on the vertex count; 4 vertices always give a rectangle, with no square split |
| DiagramDetector.AspectRatio | detector/diagram_detector.py:29-36 | the ratio times the height is the width, and it fails iff the height is 0 |
| Shapes.Shape.constructor | detector/primitives/shape.py:8-21 | a new shape caches its bounding box and shape type from the contour, has contour index -1, and no image or text |
| Shapes.Shape.SetImage | detector/primitives/shape.py:44-45 | `set_image` replaces the image and nothing else |
| Shapes.Shape.Area | detector/primitives/shape.py:47-52 | the area is `w * h` of the cached box, non-negative for a box of non-negative size |
| Shapes.Shape.BoundingBox | detector/primitives/shape.py:54-59 | `bounding_box` is the box the cached coordinates were taken from |
| Shapes.Shape.ShapeName | detector/primitives/shape.py:68-69 | the name succeeds iff the shape type is in 0..8, and is then one of the table's names |
| ShapeDetection.SliceBound | detector/detector/shape_detector.py:79 | a Python slice bound is clamped into the sequence and is unchanged when already inside it |
| ShapeDetection.Crop | detector/detector/shape_detector.py:79 | for a box inside the image, the crop has the box's size and pixel (i, j) is the image's (y + i, x + j) |
| ShapeDetection.ExpandedBoxExample | detector/detector/shape_detector.py:120-125 | a box at (10, 10) of size 0 blacks out rows and columns 5..15 inclusive, and nothing at 4 or 16 |
| ShapeDetection.FillExpandedBox | detector/detector/shape_detector.py:120-125 | `cv2.rectangle` with thickness -1 blacks out every pixel of the box grown by 5 on each side, clipped to the image, and leaves every other pixel as it was |
| ShapeDetection.ShapeDetector.constructor | detector/detector/shape_detector.py:8-22 | a new detector has no images, no shapes, and no contours or hierarchy |
| ShapeDetection.ShapeDetector.Load | detector/detector/shape_detector.py:34-36 | `load` sets the working and preprocessed images and nothing else |
| ShapeDetection.ShapeDetector.FindShapesInImage | detector/detector/shape_detector.py:51-83 | one new, distinct shape per contour, in order; shape i has contour i, contour index i, its cached values, and the crop of the working image at its box as image |
| ShapeDetection.ShapeDetector.FindShapes | detector/detector/shape_detector.py:41-49 | `find_shapes` replaces the shapes, contours and hierarchy with the latest results, keeps the images, and returns the shapes |
| ShapeDetection.ShapeDetector.ShapesByType | detector/detector/shape_detector.py:129-138 | exactly the shapes of the given type, in order, and their contours, one per shape |
| ShapeDetection.ShapeDetector.GetImageRemoveContours | detector/detector/shape_detector.py:112-127 | a new image of the same size: black where some contour's expanded box covers the pixel, the preprocessed pixel elsewhere; the preprocessed image is not changed |
| ShapeDetection.ShapeDetector.GetImageRemoveShapeType | detector/detector/shape_detector.py:140-147 | the same as removing the contours of the shapes of that type |
| ShapeDetection.ShapeDetector.GetImageFilterShapeType | detector/detector/shape_detector.py:149-158 | the preprocessed image with the contours found after removing that type painted out |
| GenericEntities.ContoursOf | detector/primitives/generic_entity.py:11-12 | `get_all_contours` (which `GenericEntity.GetAllContours` applies to the entity's parts): one contour per part, in order, when every part is a shape; a line part raises `AttributeError` on `contour` |
| GenericEntities.GenericEntity.constructor | detector/primitives/generic_entity.py:3-6 | a new entity has the given type, an empty data map and no parts |
| GenericEntities.GenericEntity.AddShape | detector/primitives/generic_entity.py:8-9 | `add_shape` appends exactly one part at the end; the data map is untouched |
| GenericEntities.GenericEntity.Set | detector/primitives/generic_entity.py:17-18 | `set` binds or rebinds one key and leaves every other key and the parts unchanged |
| GenericEntities.GenericEntity.Get | detector/primitives/generic_entity.py:20-21 | `get` returns the bound entity iff the key is bound, and raises `KeyError` otherwise |
| GenericEntities.SetThenGet | detector/primitives/generic_entity.py:17-21 | `get` after `set` of the same key returns the value set; another key reads as before |
| ClassDiagrams.ClassGroups | detector/converter/class_diagram_converter.py:31-37 | every group that becomes a class has exactly three contours |
| ClassDiagrams.ClassGroupsExactlyThree | detector/converter/class_diagram_converter.py:32-37 | a group becomes a class iff it has three contours and is one of the x-position groups of some parent group |
| ClassDiagrams.LinkKeys | detector/converter/class_diagram_converter.py:79-93 | linking changes only the FROM and TO keys; FROM is bound iff it was already bound or some class box holds the line start, and TO likewise with the line end |
| ClassDiagrams.LinkFromLastMatchWins | detector/converter/class_diagram_converter.py:79-93 | when several class boxes hold the start, FROM names the last of them in iteration order |
| ClassDiagrams.LinkToLastMatchWins | detector/converter/class_diagram_converter.py:79-93 | when several class boxes hold the end, TO names the last of them |
| ClassDiagrams.LinkNoMatchUnchanged | detector/converter/class_diagram_converter.py:87-93 | a line with neither end in any class box leaves the data map as it was, empty for a new association |
| ClassDiagrams.OneClassCanBeBothEnds | detector/converter/class_diagram_converter.py:87-93 | one class whose box holds both ends becomes both FROM and TO |
| Converters.IsDiagram | detector/converter/class_diagram_converter.py:95-97 | the class-diagram converter always accepts, the base converter raises `NotImplementedError`, and the use-case converter declines |
| Converters.EntitiesOfType | detector/converter/diagram_converter.py:15-19 | for a truthy type, exactly the entities of that type in list order; for `None` or 0, the whole list |
| Converters.ClassQueryReturnsEverything | detector/converter/class_diagram_converter.py:76 | the query for `CLASS_ENTITY` (0) returns every entity |
| Converters.AssociationQueryExact | detector/converter/class_diagram_converter.py:77 | an entity is returned by the association query iff it is in the list and has type 1 |
| Converters.BoxesOfAppend | detector/converter/class_diagram_converter.py:79-80 | the boxes of a concatenated entity list are the boxes of each part, in order |
| Converters.DiagramConverter.constructor | detector/converter/diagram_converter.py:4-7 | a new converter holds the given shape detector and an empty entity list |
| Converters.DiagramConverter.NewClass | detector/converter/class_diagram_converter.py:37-43 | a new class entity of type 0 with an empty data map and three new shapes, one per contour of the group, in order |
| Converters.DiagramConverter.ClassesOfGroups | detector/converter/class_diagram_converter.py:35-49 | one new, distinct class entity per group of exactly three contours, in order |
| Converters.DiagramConverter.ExtractClasses | detector/converter/class_diagram_converter.py:27-52 | `_extract_classes` returns one new, distinct class entity per three-contour group of every parent group, in order |
| Converters.DiagramConverter.ExtractAssociations | detector/converter/class_diagram_converter.py:54-72 | one new, distinct association entity per merged line of the detected segments, in line order, with that line as its only part and an empty data map |
| Converters.DiagramConverter.LinkOneClass | detector/converter/class_diagram_converter.py:82-93 | for one class, every association's data map takes one linking step; no parts change |
| Converters.DiagramConverter.LinkAll | detector/converter/class_diagram_converter.py:79-93 | every association's data map becomes `Link` of its old map over the classes and their boxes; no parts change |
| Converters.DiagramConverter.LinkAssociationsWithClasses | detector/converter/class_diagram_converter.py:74-93 | `Relinked`: no entity's parts change; each association with a line as its first part gets `Link` of its old data map over every entity (the class query) and their boxes; every other entity keeps its data map |
| Converters.DiagramConverter.Convert | detector/converter/class_diagram_converter.py:19-25 | the base converter raises `NotImplementedError` and the use-case converter returns `None`, both leaving the entities untouched; the class-diagram converter returns its entity list, which is everything `ConvertClassDiagram` promises: old list, new classes, new linked associations, old associations relinked |
| Converters.DiagramConverter.ConvertClassDiagram | detector/converter/class_diagram_converter.py:19-25 | the list becomes the old list, then the new classes (one per three-contour group, data map empty), then the new associations (one per merged line), each linked from empty over the whole list and its boxes; the old entities are `Relinked` over the whole list: old associations are linked again from their existing data maps, everything else in them is unchanged |
| Converters.DiagramConverter.AddEntities | detector/converter/class_diagram_converter.py:21-22 | the two reassignments append the new classes, then the new associations |
| Converters.DiagramConverter.AddClasses | detector/converter/class_diagram_converter.py:21 | the list is extended by new class entities, one per three-contour group |
| Converters.DiagramConverter.AddAssociations | detector/converter/class_diagram_converter.py:22 | the list is extended by new association entities, one per merged line |
| Converters.DiagramConverter.LinkAppended | detector/converter/class_diagram_converter.py:23 | linking leaves the new classes unchanged, relinks the old entities from their earlier data maps and parts, and links each new association from empty over the whole list |
| Converters.AppendedRelinked | detector/converter/class_diagram_converter.py:19-25 | relinking all of `before + classes + assocs` relinks `before` from its own data maps and parts, and links each appended association, whose map was empty, from empty |
| DiagramTypes.FirstAccepting | detector/detector/diagram_type_detector.py:16-18 | the chosen kind is the first that accepts, every earlier one declining; `None` iff all decline; an error iff one raises before any accepts |
| DiagramTypes.ClassDiagramConverterChosen | detector/detector/diagram_type_detector.py:5-8 | with the converters as listed, the class-diagram converter is always chosen |
| DiagramTypes.FindConverterAmong | detector/detector/diagram_type_detector.py:10-18 | the loop agrees with `FirstAccepting` and builds a new converter of the chosen kind on the given shape detector |
| DiagramTypes.FindConverter | detector/detector/diagram_type_detector.py:10-18 | `find_converter` always returns a new class-diagram converter on the given shape detector, with no entities |

## Left out

- OpenCV and imutils are not modelled: `findContours`, `approxPolyDP`, `arcLength`, `boundingRect`, `contourArea`, `moments`, the line-segment and Hough detectors, Canny, blur, resize and `imread`. Their results are parameters, or functions of `Vision.Toolkit`.
- Helpers that are called but not defined in the modelled files are uninterpreted functions: `util.detect_shape`, `group_contours_by_x_pos`, `get_sorted_contours_by_parent`, `is_point_in_area`, `distance_between`, and `GenericEntity.bounding_box`. `remove_generic_entities_in_image` is not part of this model.
- The `Point` class is not part of this model. A point is a pair of reals.
- Floating point is not modelled.
  - Distances are compared squared, without `sqrt`.
  - Aspect ratios use exact real division, guarded by a zero-height check.
- Logging (`log`, `print`, `print_contour_details`) is left out. Writing output has no effect on the modelled state.
- File and window I/O is left out: `Shape.ocr`, `save_image`, `remove_image`, `ShapeDetector._load`, `save_found_shapes`, `show_result`, `label_contours` and `get_canny_edge_image`. The Hough helpers and `LineDetector.init_with_image` are left out for the same reason: they are image processing only.
- `ShapeDetector.get_shapes` is left out. It is a plain field read.
- `LineDetector.are_lines_connected` is left out. It compares bound methods, not coordinates.
- `GenericEntity.call` and `__str__` are left out: reflection and formatting.
- `DiagramDetector.area`, `detect_contours`, `print_details`, `is_class_diagram` and `show_result` are left out: OpenCV calls, drawing and printing.
- `get_attributes` and `draw_class_entities_on_img` of the converters are left out: drawing, and a hierarchy helper that is not defined.
- The `__main__` block of `main_lsd.py` is left out: windows and a key loop.
- Converters.DiagramConverter.ExtractAssociations: takes the segment detector's output on the class-free image as a parameter. It does not model the painting step, whose helper is not defined, and it does not call `LineDetector.Init`, because the image is abstract.
- Converters.DiagramConverter.LinkAssociationsWithClasses: requires every association entity to have a line as its first part, and the entity list to hold no object twice. `convert` establishes both for the entities it creates. The model does not describe what Python does with a list that violates them.
- Converters.DiagramConverter.ConvertClassDiagram: requires the same two conditions of the list it starts from.
- Converters.IsDiagram: gives `False` for the use-case converter, as an instance call would. Called on the class, Python would raise `TypeError`, because the method lacks `@classmethod`; `find_converter` never makes that call.
- Util.ImageArea: its contract states only the product of the two dimensions and when one of them is 0, not which is rows and which is columns. The function is the read of `image.shape[:2]`, rows then columns, and its body is that read.
- LineDetection.FilterLines: the length measure is a parameter. As written, `l.length()` on the detector's `Line` (`detector/line.py`) raises `AttributeError` as soon as a bound is given and the list is not empty; the model does not reproduce that error.
- LineDetection.PurgeLines: the length measure is a parameter, and `minLineLength` defaults to 100 as `min_line_length` does. As written, the purge calls `line.length()` on the first line of any non-empty list, which raises `AttributeError` on the detector's `Line`; the model does not reproduce that error. Nothing in the code calls `_purge_lines`.
- LineDetection.NextLineWithCorrespondingPoint: runs over the primitives `Line`, which defines `contains_point`. The detector's own `Line` does not define it.
- ShapeDetection.FillExpandedBox: paints a single-channel pixel array with the value 0. The colour `(0, 0, 0)` on a multi-channel image is not modelled.
- ShapeDetection.ShapeDetector.Load: takes the working copy and the preprocessed image as arguments. The helpers that produce them are not defined in the modelled files.
- ShapeDetection.ShapeDetector.FindShapesInImage: takes the contours and hierarchy that contour detection returns as arguments.
- ShapeDetection.ShapeDetector.GetImageFilterShapeType: takes the contours found on the intermediate image as an argument.
