/** The helper functions at the top of `main_lsd.py`: an older merge whose
    same-line test looks at the start points and at the second line alone. */
module MainLsd {
  import opened Geometry
  import opened Sequences
  import L = LegacyLines
  import LD = LineDetection

  /** `is_close(x1, y1, x2, y2)` with its fixed tolerance of 30. */
  predicate IsClose(x1: real, y1: real, x2: real, y2: real)
  {
    (x2 - x1) * (x2 - x1) + (y2 - y1) * (y2 - y1) <= 30.0 * 30.0
  }

  /** The line's own endpoints are at most 30 apart. */
  predicate EndsClose(l: L.Line)
  {
    IsClose(l.Start().x, l.Start().y, l.End().x, l.End().y)
  }

  /** Same test as the line detector's `is_close`. */
  lemma IsCloseAgrees(x1: real, y1: real, x2: real, y2: real)
    ensures IsClose(x1, y1, x2, y2) <==> LD.IsClose(x1, y1, x2, y2)
    ensures IsClose(0.0, 0.0, 30.0, 0.0) && !IsClose(0.0, 0.0, 30.5, 0.0)
  {
  }

  /** `is_same_line(line_a, line_b)`: the two starts are close AND the second
      line's own endpoints are close; the end of the first line plays no part. */
  predicate IsSameLine(a: L.Line, b: L.Line)
    ensures IsSameLine(a, b) ==> EndsClose(b)
  {
    IsClose(a.Start().x, a.Start().y, b.Start().x, b.Start().y)
      && IsClose(b.Start().x, b.Start().y, b.End().x, b.End().y)
  }

  /** The relation is not symmetric: a short line is the same as a long line
      sharing its start, but not the other way round. */
  lemma IsSameLineNotSymmetric()
    ensures var long := L.Line(Point(0.0, 0.0), Point(100.0, 0.0));
      var short := L.Line(Point(0.0, 0.0), Point(10.0, 0.0));
      IsSameLine(long, short) && !IsSameLine(short, long)
  {
  }

  /** `is_line_in(lines, line)`. */
  predicate IsLineIn(lines: seq<L.Line>, line: L.Line)
    ensures IsLineIn(lines, line) <==> AnyMatch(lines, line, IsSameLine)
  {
    exists l :: l in lines && IsSameLine(l, line)
  }

  /** `is_line_in` looks only at the starts of the listed lines: a line whose
      own endpoints are more than 30 apart is in no list, and a line whose
      endpoints are close is in every list holding a line with its start, in
      particular every list holding the line itself. A concatenation answers
      as its two parts do. */
  lemma {:induction false} IsLineInLaws(lines: seq<L.Line>, more: seq<L.Line>, line: L.Line, other: L.Line)
    ensures !EndsClose(line) ==> !IsLineIn(lines, line)
    ensures EndsClose(line) && other in lines && other.Start() == line.Start() ==> IsLineIn(lines, line)
    ensures EndsClose(line) && line in lines ==> IsLineIn(lines, line)
    ensures IsLineIn(lines + more, line) <==> IsLineIn(lines, line) || IsLineIn(more, line)
  {
    if EndsClose(line) && other in lines && other.Start() == line.Start() {
      assert IsSameLine(other, line);
    }
    if EndsClose(line) && line in lines {
      assert IsSameLine(line, line);
    }
  }

  /** What `merge_lines` returns. */
  function Merged(lines: seq<L.Line>): seq<L.Line>
  {
    Dedup(lines, IsSameLine)
  }

  /** `merge_lines(lines)`. */
  method MergeLines(lines: seq<L.Line>) returns (merged: seq<L.Line>)
    ensures merged == Merged(lines)
  {
    merged := [];
    for i := 0 to |lines|
      invariant merged == Merged(lines[..i])
    {
      assert lines[..i + 1][..i] == lines[..i];
      if !IsLineIn(merged, lines[i]) {
        merged := merged + [lines[i]];
      }
    }
    assert lines[..|lines|] == lines;
  }

  /** The merge keeps an order-preserving subsequence, no longer than its
      input, whose first line is the input's first; every discarded line is
      the same as a line kept before it. */
  lemma MergeKeepsFirstSeen(lines: seq<L.Line>)
    ensures IsSubsequence(Merged(lines), lines) && |Merged(lines)| <= |lines|
    ensures |lines| > 0 ==> |Merged(lines)| > 0 && Merged(lines)[0] == lines[0]
    ensures forall i :: 0 <= i < |lines| && lines[i] !in Merged(lines) ==>
      IsLineIn(Merged(lines[..i]), lines[i])
  {
    DedupSubsequence(lines, IsSameLine);
    SubsequenceMembers(Merged(lines), lines);
    if |lines| > 0 {
      DedupFirst(lines, IsSameLine);
    }
    DedupCovers(lines, IsSameLine);
  }

  /** A line whose own endpoints are more than 30 apart is never discarded. */
  lemma {:induction false} LongLinesAlwaysKept(lines: seq<L.Line>)
    ensures forall l :: l in lines && !EndsClose(l) ==> l in Merged(lines)
  {
    DedupCovers(lines, IsSameLine);
  }
}
