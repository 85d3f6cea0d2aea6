/** `detector/detector/line_detector.py`: tolerance tests on points and lines,
    first-seen merging, length filters, and the endpoint-following search. */
module LineDetection {
  import opened Wrappers
  import opened Geometry
  import opened Sequences
  import L = LegacyLines
  import P = Lines

  /** `LineDetector.max_point_distance`, also the default of `is_close`. */
  const MaxPointDistance: real := 30.0

  /** Default `min_line_length` of `_purge_lines`. */
  const DefaultMinLineLength: real := 100.0

  // ---------------------------------------------------------------------------
  // Closeness of points and lines

  /** The Euclidean distance between the two points is at most 30; compared
      squared, which is equivalent because both sides are non-negative. */
  predicate IsClose(x1: real, y1: real, x2: real, y2: real)
  {
    (x2 - x1) * (x2 - x1) + (y2 - y1) * (y2 - y1) <= MaxPointDistance * MaxPointDistance
  }

  predicate IsPointClose(p1: Point, p2: Point)
  {
    IsClose(p1.x, p1.y, p2.x, p2.y)
  }

  /** Exact equality of coordinates implies closeness. */
  predicate IsSamePoint(a: Point, b: Point)
    ensures IsSamePoint(a, b) ==> IsPointClose(a, b) && IsPointClose(b, a)
  {
    (a.x, a.y) == (b.x, b.y)
  }

  lemma IsCloseSymmetric(x1: real, y1: real, x2: real, y2: real)
    ensures IsClose(x1, y1, x2, y2) <==> IsClose(x2, y2, x1, y1)
  {
  }

  /** The tolerance is inclusive: 30 apart is close, 31 apart is not,
      and a 18-24-30 right triangle lies exactly on the boundary. */
  lemma IsCloseBoundary()
    ensures IsClose(0.0, 0.0, 30.0, 0.0) && IsClose(0.0, 0.0, 0.0, -30.0)
    ensures IsClose(0.0, 0.0, 18.0, 24.0)
    ensures !IsClose(0.0, 0.0, 31.0, 0.0) && !IsClose(0.0, 0.0, 18.0, 24.5)
  {
  }

  lemma SquareMonotonic(a: real, b: real)
    requires 0.0 <= a
    ensures a <= b ==> a * a <= b * b
    ensures a < b ==> a * a < b * b
  {
    if a < b {
      var p, q, r := a * a, a * b, b * b;
      assert p <= q;
      assert q < r;
    }
  }

  /** Close points differ by at most 30 on each axis, and points that differ
      by at most 21 on each axis are close (21 * 21 * 2 = 882 <= 900). */
  lemma IsCloseBox(x1: real, y1: real, x2: real, y2: real)
    ensures IsClose(x1, y1, x2, y2) ==> -30.0 <= x2 - x1 <= 30.0 && -30.0 <= y2 - y1 <= 30.0
    ensures -21.0 <= x2 - x1 <= 21.0 && -21.0 <= y2 - y1 <= 21.0 ==> IsClose(x1, y1, x2, y2)
  {
    var dx, dy := x2 - x1, y2 - y1;
    var ax := if dx < 0.0 then -dx else dx;
    var ay := if dy < 0.0 then -dy else dy;
    assert dx * dx == ax * ax && dy * dy == ay * ay;
    SquareMonotonic(0.0, ax);
    SquareMonotonic(0.0, ay);
    SquareMonotonic(30.0, ax);
    SquareMonotonic(30.0, ay);
    SquareMonotonic(ax, 21.0);
    SquareMonotonic(ay, 21.0);
  }

  /** `is_same_line`: both endpoints equal exactly, in the same orientation. */
  predicate IsSameLine(a: L.Line, b: L.Line)
    ensures IsSameLine(a, b) ==> CouldBeSameLine(a, b) && CouldBeSameLine(b, a)
  {
    a.StartXY() == b.StartXY() && a.EndXY() == b.EndXY()
  }

  /** `could_be_same_line`: the endpoints are pairwise close, either start to
      start and end to end, or crosswise. */
  predicate CouldBeSameLine(a: L.Line, b: L.Line)
  {
    || (IsPointClose(a.Start(), b.Start()) && IsPointClose(a.End(), b.End()))
    || (IsPointClose(a.Start(), b.End()) && IsPointClose(a.End(), b.Start()))
  }

  /** The relation ignores direction: it is reflexive, symmetric, and holds
      between a line and its reversal. */
  lemma CouldBeSameLineRelation(a: L.Line, b: L.Line)
    ensures CouldBeSameLine(a, a)
    ensures CouldBeSameLine(a, b) <==> CouldBeSameLine(b, a)
    ensures CouldBeSameLine(a, L.Line(a.End(), a.Start()))
    ensures CouldBeSameLine(a, b) <==> CouldBeSameLine(a, L.Line(b.End(), b.Start()))
  {
    IsCloseSymmetric(a.Start().x, a.Start().y, b.Start().x, b.Start().y);
    IsCloseSymmetric(a.End().x, a.End().y, b.End().x, b.End().y);
    IsCloseSymmetric(a.Start().x, a.Start().y, b.End().x, b.End().y);
    IsCloseSymmetric(a.End().x, a.End().y, b.Start().x, b.Start().y);
  }

  /** Concrete cases: lines whose endpoints are 30 apart could be the same
      (also reversed); moving one endpoint pair to 31 apart separates them. */
  lemma CouldBeSameLineExamples()
    ensures var a := L.Line(Point(0.0, 0.0), Point(100.0, 0.0));
      && CouldBeSameLine(a, L.Line(Point(30.0, 0.0), Point(130.0, 0.0)))
      && CouldBeSameLine(a, L.Line(Point(100.0, 30.0), Point(0.0, -30.0)))
      && !CouldBeSameLine(a, L.Line(Point(31.0, 0.0), Point(100.0, 0.0)))
  {
  }

  /** `is_line_in`: some line of `lines` could be the same as `line`. */
  predicate IsLineIn(lines: seq<L.Line>, line: L.Line)
    ensures IsLineIn(lines, line) <==> AnyMatch(lines, line, CouldBeSameLine)
  {
    exists l :: l in lines && CouldBeSameLine(l, line)
  }

  /** `is_line_in` ignores the direction of the line looked up, finds every
      line of the list, answers for a concatenation as for its two parts, and
      finds nothing in the merged lines that it would not find in the lines
      they were merged from. */
  lemma {:induction false} IsLineInLaws(lines: seq<L.Line>, more: seq<L.Line>, line: L.Line)
    ensures IsLineIn(lines, L.Line(line.End(), line.Start())) == IsLineIn(lines, line)
    ensures line in lines ==> IsLineIn(lines, line)
    ensures IsLineIn(lines + more, line) <==> IsLineIn(lines, line) || IsLineIn(more, line)
    ensures !IsLineIn([], line)
    ensures IsLineIn(Merged(lines), line) ==> IsLineIn(lines, line)
  {
    forall l | l in lines
      ensures CouldBeSameLine(l, L.Line(line.End(), line.Start())) == CouldBeSameLine(l, line)
    {
      CouldBeSameLineRelation(l, line);
    }
    if line in lines {
      CouldBeSameLineRelation(line, line);
    }
    DedupSubsequence(lines, CouldBeSameLine);
    SubsequenceMembers(Merged(lines), lines);
  }

  // ---------------------------------------------------------------------------
  // Merging, filtering and purging

  /** What `_merge_lines` returns: the first-seen deduplication of `lines`
      under `could_be_same_line`. */
  function Merged(lines: seq<L.Line>): seq<L.Line>
  {
    Dedup(lines, CouldBeSameLine)
  }

  /** `_merge_lines`: keep a line unless an already kept line could be the same. */
  method MergeLines(lines: seq<L.Line>) returns (merged: seq<L.Line>)
    ensures merged == Merged(lines)
  {
    merged := [];
    for i := 0 to |lines|
      invariant merged == Merged(lines[..i])
    {
      assert lines[..i + 1][..i] == lines[..i];
      if !IsLineIn(merged, lines[i]) {
        merged := merged + [lines[i]];
      }
    }
    assert lines[..|lines|] == lines;
  }

  /** The merge keeps lines in input order, always keeps the first line, and
      drops a line only when a line kept before it could be the same. */
  lemma MergeKeepsFirstSeen(lines: seq<L.Line>)
    ensures IsSubsequence(Merged(lines), lines)
    ensures |lines| > 0 ==> |Merged(lines)| > 0 && Merged(lines)[0] == lines[0]
    ensures forall i :: 0 <= i < |lines| ==>
      lines[i] in Merged(lines) || IsLineIn(Merged(lines[..i]), lines[i])
    ensures forall i :: 0 <= i <= |lines| ==> Merged(lines[..i]) <= Merged(lines)
  {
    DedupSubsequence(lines, CouldBeSameLine);
    if |lines| > 0 {
      DedupFirst(lines, CouldBeSameLine);
    }
    DedupCovers(lines, CouldBeSameLine);
    forall i | 0 <= i <= |lines|
      ensures Merged(lines[..i]) <= Merged(lines)
    {
      DedupPrefix(lines, i, CouldBeSameLine);
    }
  }

  /** After the merge no two kept lines could be the same (in either order),
      and every input line could be the same as some kept line. */
  lemma MergeLeavesNoNearDuplicates(lines: seq<L.Line>)
    ensures forall i, j :: 0 <= i < |Merged(lines)| && 0 <= j < |Merged(lines)| && i != j ==>
      !CouldBeSameLine(Merged(lines)[i], Merged(lines)[j])
    ensures forall l :: l in lines ==> IsLineIn(Merged(lines), l)
  {
    var m := Merged(lines);
    DedupPairwise(lines, CouldBeSameLine);
    forall i, j | 0 <= i < |m| && 0 <= j < |m| && i != j
      ensures !CouldBeSameLine(m[i], m[j])
    {
      CouldBeSameLineRelation(m[i], m[j]);
    }
    DedupCovers(lines, CouldBeSameLine);
    forall l | l in lines
      ensures IsLineIn(m, l)
    {
      CouldBeSameLineRelation(l, l);
    }
  }

  /** Merging an already merged list changes nothing. */
  lemma MergeIdempotent(lines: seq<L.Line>)
    ensures Merged(Merged(lines)) == Merged(lines)
  {
    DedupIdempotent(lines, CouldBeSameLine);
  }

  function AtLeast(length: L.Line -> real, minLength: real): L.Line -> bool
  {
    (l: L.Line) => length(l) >= minLength
  }

  function ShorterThan(length: L.Line -> real, maxLength: real): L.Line -> bool
  {
    (l: L.Line) => length(l) < maxLength
  }

  /** The bounds `_filter_lines` applies: `min_length` inclusive, `max_length`
      exclusive, and an absent bound not applied. */
  predicate WithinBounds(len: real, minLength: Option<real>, maxLength: Option<real>)
  {
    (minLength.None? || len >= minLength.value) && (maxLength.None? || len < maxLength.value)
  }

  /** `_filter_lines(lines, min_length, max_length)`. The legacy line has no
      `length()`, so the length measure is a parameter. */
  function FilterLines(lines: seq<L.Line>, length: L.Line -> real,
                       minLength: Option<real>, maxLength: Option<real>): (r: seq<L.Line>)
    ensures IsSubsequence(r, lines)
    ensures forall l :: l in r <==> l in lines && WithinBounds(length(l), minLength, maxLength)
    ensures minLength.None? && maxLength.None? ==> r == lines
  {
    var atLeast := if minLength.Some? then Select(lines, AtLeast(length, minLength.value)) else lines;
    SubsequenceReflexive(lines);
    SubsequenceMembers(atLeast, lines);
    var r := if maxLength.Some? then Select(atLeast, ShorterThan(length, maxLength.value)) else atLeast;
    SubsequenceReflexive(atLeast);
    SubsequenceMembers(r, atLeast);
    SubsequenceTransitive(r, atLeast, lines);
    r
  }

  /** What `_purge_lines` returns, following its loop: a line is appended when
      no purged line could be the same and it is long enough. */
  function Purged(lines: seq<L.Line>, length: L.Line -> real, minLineLength: real): seq<L.Line>
    decreases |lines|
  {
    if |lines| == 0 then []
    else
      var kept := Purged(lines[..|lines| - 1], length, minLineLength);
      var line := lines[|lines| - 1];
      if !IsLineIn(kept, line) && length(line) >= minLineLength then kept + [line] else kept
  }

  /** `_purge_lines(lines, min_line_length)`. */
  method PurgeLines(lines: seq<L.Line>, length: L.Line -> real, minLineLength: real := DefaultMinLineLength)
    returns (purged: seq<L.Line>)
    ensures purged == Purged(lines, length, minLineLength)
  {
    purged := [];
    for i := 0 to |lines|
      invariant purged == Purged(lines[..i], length, minLineLength)
    {
      assert lines[..i + 1][..i] == lines[..i];
      if !IsLineIn(purged, lines[i]) {
        if length(lines[i]) >= minLineLength {
          purged := purged + [lines[i]];
        }
      }
    }
    assert lines[..|lines|] == lines;
  }

  /** A short line is never kept and so never blocks a later line: purging is
      merging the lines that pass the minimum-length filter. */
  lemma {:induction false} PurgeIsMergeOfLongLines(lines: seq<L.Line>, length: L.Line -> real, minLineLength: real)
    ensures Purged(lines, length, minLineLength) == Merged(FilterLines(lines, length, Some(minLineLength), None))
    ensures Purged(lines, length, minLineLength) == Merged(Select(lines, AtLeast(length, minLineLength)))
    decreases |lines|
  {
    if |lines| > 0 {
      PurgeIsMergeOfLongLines(lines[..|lines| - 1], length, minLineLength);
    }
  }

  /** Purged lines are long enough, in input order, and no two could be the same. */
  lemma PurgeKeepsLongDistinctLines(lines: seq<L.Line>, length: L.Line -> real, minLineLength: real)
    ensures forall l :: l in Purged(lines, length, minLineLength) ==> length(l) >= minLineLength
    ensures IsSubsequence(Purged(lines, length, minLineLength), lines)
    ensures forall i, j :: 0 <= i < j < |Purged(lines, length, minLineLength)| ==>
      !CouldBeSameLine(Purged(lines, length, minLineLength)[i], Purged(lines, length, minLineLength)[j])
  {
    var long := Select(lines, AtLeast(length, minLineLength));
    PurgeIsMergeOfLongLines(lines, length, minLineLength);
    DedupSubsequence(long, CouldBeSameLine);
    SubsequenceMembers(Merged(long), long);
    SubsequenceTransitive(Merged(long), long, lines);
    DedupPairwise(long, CouldBeSameLine);
  }

  // ---------------------------------------------------------------------------
  // Following line endpoints (over the primitives line, which has contains_point)

  /** One endpoint of `l` is close to `point`. */
  predicate HasCloseEnd(point: Point, l: P.Line)
  {
    IsPointClose(point, l.Start()) || IsPointClose(point, l.End())
  }

  /** `get_line_end_point_in_other_line`: an endpoint close to `point`, or
      `None` when no line has one. */
  function LineEndPointInOtherLine(point: Point, lines: seq<P.Line>): (r: Option<Point>)
    ensures r.Some? ==> IsPointClose(point, r.value)
    ensures r.None? <==> forall l :: l in lines ==> !HasCloseEnd(point, l)
    decreases |lines|
  {
    if |lines| == 0 then None
    else if IsPointClose(point, lines[0].Start()) then
      assert lines[0] in lines && HasCloseEnd(point, lines[0]);
      Some(lines[0].Start())
    else if IsPointClose(point, lines[0].End()) then
      assert lines[0] in lines && HasCloseEnd(point, lines[0]);
      Some(lines[0].End())
    else
      assert forall l :: l in lines ==> l == lines[0] || l in lines[1..];
      LineEndPointInOtherLine(point, lines[1..])
  }

  /** The endpoint comes from the first line that has a close endpoint, its
      start preferred over its end. */
  lemma {:induction false} LineEndPointFromFirstLine(point: Point, lines: seq<P.Line>, i: int)
    requires 0 <= i < |lines| && HasCloseEnd(point, lines[i])
    requires forall j :: 0 <= j < i ==> !HasCloseEnd(point, lines[j])
    ensures LineEndPointInOtherLine(point, lines) ==
            Some(if IsPointClose(point, lines[i].Start()) then lines[i].Start() else lines[i].End())
    decreases i
  {
    if i > 0 {
      assert !HasCloseEnd(point, lines[0]);
      forall j | 0 <= j < i - 1
        ensures !HasCloseEnd(point, lines[1..][j])
      {
        assert lines[1..][j] == lines[j + 1];
      }
      LineEndPointFromFirstLine(point, lines[1..], i - 1);
    }
  }

  /** `get_opposite_line_end`: the other endpoint of a line through `point`. */
  function OppositeLineEnd(point: Point, line: P.Line): (r: Option<Point>)
    ensures r.Some? <==> line.ContainsPoint(point)
    ensures point == line.Start() ==> r == Some(line.End())
    ensures point != line.Start() && point == line.End() ==> r == Some(line.Start())
  {
    if line.StartXY() == (point.x, point.y) then Some(line.End())
    else if line.EndXY() == (point.x, point.y) then Some(line.Start())
    else None
  }

  /** `get_closest_corresponding_point`: the endpoint of `line` close to the
      reference point, the start preferred. */
  function ClosestCorrespondingPoint(reference: Point, line: P.Line): (r: Option<Point>)
    ensures r.Some? <==> IsPointClose(reference, line.Start()) || IsPointClose(reference, line.End())
    ensures r.Some? ==> line.ContainsPoint(r.value) && IsPointClose(reference, r.value)
    ensures IsPointClose(reference, line.Start()) ==> r == Some(line.Start())
  {
    if IsPointClose(reference, line.Start()) then Some(line.Start())
    else if IsPointClose(reference, line.End()) then Some(line.End())
    else None
  }

  function NotContaining(point: Point): P.Line -> bool
  {
    (l: P.Line) => !l.ContainsPoint(point)
  }

  /** `list(filter(lambda x: x.contains_point(point) is False, lines))`. */
  function WithoutPoint(lines: seq<P.Line>, point: Point): seq<P.Line>
  {
    Select(lines, NotContaining(point))
  }

  /** How many lines the search still has to look at. */
  function SearchSize(point: Option<Point>, lines: seq<P.Line>): nat
  {
    if point.None? then 0 else |WithoutPoint(lines, point.value)|
  }

  /** `get_next_line_with_corresponding_point`. Only the first remaining line
      is ever inspected: the loop body returns on its first iteration. It
      terminates because the endpoint passed on belongs to that line, so the
      next call's filter removes the line. */
  function NextLineWithCorrespondingPoint(point: Option<Point>, lines: seq<P.Line>): (r: Option<Point>)
    ensures point.None? ==> r.None?
    ensures point.Some? && WithoutPoint(lines, point.value) == [] ==> r == point
    ensures r.Some? ==> r == point || exists l :: l in lines && l.ContainsPoint(r.value)
    decreases SearchSize(point, lines)
  {
    if point.None? then None
    else
      var remaining := WithoutPoint(lines, point.value);
      if |remaining| == 0 then point
      else
        var l := remaining[0];
        var closest := ClosestCorrespondingPoint(point.value, l);
        if closest.None? then OppositeLineEnd(point.value, l)
        else
          SelectShrinks(remaining, NotContaining(closest.value), l);
          SubsequenceMembers(remaining, lines);
          NextLineWithCorrespondingPoint(closest, remaining)
  }

  /** The lines left after filtering never contain the point, so the
      opposite-end branch always answers `None`: the search either fails or
      ends on the original point or on an endpoint of one of the lines. */
  lemma OppositeEndNeverFound(point: Point, lines: seq<P.Line>)
    requires WithoutPoint(lines, point) != []
    ensures OppositeLineEnd(point, WithoutPoint(lines, point)[0]) == None
  {
    assert WithoutPoint(lines, point)[0] in WithoutPoint(lines, point);
  }

  // ---------------------------------------------------------------------------
  // The detector object

  /** The line the loop in `find_lines` builds from one detected 4-tuple. */
  function SegmentLine(s: Segment): L.Line
  {
    L.Line(Point(s.x1, s.y1), Point(s.x2, s.y2))
  }

  /** All lines `find_lines` builds from the detector output, in detection order. */
  function LinesOf(detected: seq<seq<Segment>>): seq<L.Line>
    decreases |detected|
  {
    if |detected| == 0 then []
    else
      var last := detected[|detected| - 1];
      LinesOf(detected[..|detected| - 1]) + seq(|last|, k requires 0 <= k < |last| => SegmentLine(last[k]))
  }

  function SegmentCount(detected: seq<seq<Segment>>): nat
    decreases |detected|
  {
    if |detected| == 0 then 0 else SegmentCount(detected[..|detected| - 1]) + |detected[|detected| - 1]|
  }

  /** Detector outputs concatenate: two batches of detections yield the lines
      of both, in order. */
  lemma {:induction false} LinesOfAppend(d1: seq<seq<Segment>>, d2: seq<seq<Segment>>)
    ensures LinesOf(d1 + d2) == LinesOf(d1) + LinesOf(d2)
    decreases |d2|
  {
    if |d2| == 0 {
      assert d1 + d2 == d1;
    } else {
      var d := d1 + d2;
      assert d[..|d| - 1] == d1 + d2[..|d2| - 1];
      assert d[|d| - 1] == d2[|d2| - 1];
      LinesOfAppend(d1, d2[..|d2| - 1]);
    }
  }

  /** One line per detected 4-tuple. */
  lemma {:induction false} LinesOfCount(d: seq<seq<Segment>>)
    ensures |LinesOf(d)| == SegmentCount(d)
    decreases |d|
  {
    if |d| > 0 {
      LinesOfCount(d[..|d| - 1]);
    }
  }

  class LineDetector {
    /** The edge image the segments are detected on; `None` until `init`. */
    var edgeImage: array2?<int>
    var lines: seq<L.Line>

    constructor ()
      ensures edgeImage == null && lines == []
    {
      edgeImage := null;
      lines := [];
    }

    /** `init(canny_image)`: store the edge image. */
    method Init(cannyImage: array2<int>)
      modifies this
      ensures edgeImage == cannyImage && lines == old(lines)
    {
      edgeImage := cannyImage;
    }

    /** `find_lines`, given what the segment detector reports on the edge
        image: one line per 4-tuple is appended to the lines already held,
        which are not cleared, and the whole list is returned. */
    method FindLines(detected: seq<seq<Segment>>) returns (r: seq<L.Line>)
      modifies this
      ensures lines == old(lines) + LinesOf(detected)
      ensures r == lines && edgeImage == old(edgeImage)
    {
      for i := 0 to |detected|
        invariant lines == old(lines) + LinesOf(detected[..i])
        invariant edgeImage == old(edgeImage)
      {
        assert detected[..i + 1][..i] == detected[..i];
        ghost var before := lines;
        var segments := detected[i];
        for j := 0 to |segments|
          invariant lines == before + seq(j, k requires 0 <= k < j => SegmentLine(segments[k]))
          invariant edgeImage == old(edgeImage)
        {
          lines := lines + [SegmentLine(segments[j])];
        }
      }
      assert detected[..|detected|] == detected;
      r := lines;
    }

    /** `merged_lines`. */
    method MergedLines() returns (r: seq<L.Line>)
      ensures r == Merged(lines)
    {
      r := MergeLines(lines);
    }

    /** `filter_lines(**args)` on the lines held. */
    function FilterOwnLines(length: L.Line -> real, minLength: Option<real>, maxLength: Option<real>): (r: seq<L.Line>)
      reads this
      ensures forall l :: l in r <==> l in lines && WithinBounds(length(l), minLength, maxLength)
    {
      FilterLines(lines, length, minLength, maxLength)
    }
  }

  /** A second `find_lines` accumulates: the detector then holds the lines of
      both runs, the first run's first. */
  method FindLinesTwice(d1: seq<seq<Segment>>, d2: seq<seq<Segment>>) returns (detector: LineDetector)
    ensures detector.lines == LinesOf(d1 + d2)
  {
    detector := new LineDetector();
    var _ := detector.FindLines(d1);
    var _ := detector.FindLines(d2);
    LinesOfAppend(d1, d2);
  }
}
