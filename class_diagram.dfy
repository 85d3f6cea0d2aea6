/** The value-level rules of `detector/converter/class_diagram_converter.py`:
    which contour groups become classes, what each entity holds, and how an
    association's FROM/TO keys come out of the linking loop. */
module ClassDiagrams {
  import opened Wrappers
  import opened Geometry
  import opened Vision
  import opened Sequences
  import opened GenericEntities
  import L = LegacyLines

  /** `ClassDiagramTypes`. */
  const ClassEntity: int := 0
  const AssociationEntity: int := 1

  const AssociationFrom: string := "ASSOCIATION_FROM"
  const AssociationTo: string := "ASSOCIATION_TO"

  predicate HasThree(group: seq<Contour>)
  {
    |group| == 3
  }

  /** The groups `_extract_classes` turns into classes: for each parent group
      in order, the x-position groups of exactly three contours, in order. */
  function ClassGroups(byParent: seq<seq<Contour>>, groupByX: seq<Contour> -> seq<seq<Contour>>): (r: seq<seq<Contour>>)
    ensures forall g :: g in r ==> |g| == 3
    decreases |byParent|
  {
    if |byParent| == 0 then []
    else ClassGroups(byParent[..|byParent| - 1], groupByX) + Select(groupByX(byParent[|byParent| - 1]), HasThree)
  }

  /** One more parent group adds its three-contour groups at the end. */
  lemma ClassGroupsStep(byParent: seq<seq<Contour>>, i: int, groupByX: seq<Contour> -> seq<seq<Contour>>)
    requires 0 <= i < |byParent|
    ensures ClassGroups(byParent[..i + 1], groupByX) ==
            ClassGroups(byParent[..i], groupByX) + Select(groupByX(byParent[i]), HasThree)
  {
    assert byParent[..i + 1][..i] == byParent[..i];
  }

  /** A group becomes a class iff it has exactly three contours: groups of
      two or four are dropped, and no group is invented. */
  lemma {:induction false} ClassGroupsExactlyThree(byParent: seq<seq<Contour>>, groupByX: seq<Contour> -> seq<seq<Contour>>,
                                                   group: seq<Contour>)
    ensures group in ClassGroups(byParent, groupByX) <==>
      |group| == 3 && exists k :: 0 <= k < |byParent| && group in groupByX(byParent[k])
    decreases |byParent|
  {
    if |byParent| > 0 {
      var n := |byParent| - 1;
      var prefix := byParent[..n];
      var last := Select(groupByX(byParent[n]), HasThree);
      assert ClassGroups(byParent, groupByX) == ClassGroups(prefix, groupByX) + last;
      ClassGroupsExactlyThree(prefix, groupByX, group);
      SubsequenceMembers(last, groupByX(byParent[n]));
      if group in ClassGroups(prefix, groupByX) {
        var k :| 0 <= k < |prefix| && group in groupByX(prefix[k]);
        assert prefix[k] == byParent[k];
      }
      if |group| == 3 && exists k :: 0 <= k < |byParent| && group in groupByX(byParent[k]) {
        var k :| 0 <= k < |byParent| && group in groupByX(byParent[k]);
        if k < n {
          assert prefix[k] == byParent[k];
        } else {
          assert k == n && group in groupByX(byParent[n]);
          assert HasThree(group);
          SelectMember(groupByX(byParent[n]), HasThree, group);
        }
      }
    }
  }

  /** A class entity built from `group`: type `CLASS_ENTITY`, and one new
      shape per contour, in the group's order. */
  ghost predicate IsClassOf(e: GenericEntity, group: seq<Contour>, tk: Toolkit)
    reads e
  {
    && e.entityType == Some(ClassEntity)
    && |e.shapes| == 3 && |group| == 3
    && forall j :: 0 <= j < 3 ==>
      e.shapes[j].ShapePart? && e.shapes[j].shape.contour == group[j] && e.shapes[j].shape.toolkit == tk
  }

  /** An association entity for `line`: type `ASSOCIATION_ENTITY` and the
      line as its only part. */
  predicate IsAssociationOf(e: GenericEntity, line: L.Line)
    reads e
  {
    e.entityType == Some(AssociationEntity) && e.shapes == [LinePart(line)]
  }

  /** `found[k]` is a class entity for `groups[k]`, with an empty data map. */
  ghost predicate ClassesFor(found: seq<GenericEntity>, groups: seq<seq<Contour>>, tk: Toolkit)
    reads found
  {
    |found| == |groups| && forall k :: 0 <= k < |found| ==> found[k].data == map[] && IsClassOf(found[k], groups[k], tk)
  }

  lemma ClassesForAppend(found: seq<GenericEntity>, groups: seq<seq<Contour>>,
                          more: seq<GenericEntity>, added: seq<seq<Contour>>, tk: Toolkit)
    requires ClassesFor(found, groups, tk) && ClassesFor(more, added, tk)
    ensures ClassesFor(found + more, groups + added, tk)
  {
    forall k | 0 <= k < |found + more|
      ensures (found + more)[k].data == map[] && IsClassOf((found + more)[k], (groups + added)[k], tk)
    {
      if k >= |found| {
        assert (found + more)[k] == more[k - |found|] && (groups + added)[k] == added[k - |found|];
      }
    }
  }

  /** `found[k]` is an association entity for `lines[k]`, with an empty data map. */
  predicate AssociationsFor(found: seq<GenericEntity>, lines: seq<L.Line>)
    reads found
  {
    |found| == |lines| && forall k :: 0 <= k < |found| ==> found[k].data == map[] && IsAssociationOf(found[k], lines[k])
  }

  /** One pass of the inner linking loop for the class `c` with box `box`:
      the start in the box sets FROM, and, in a separate test, the end in the
      box sets TO. */
  function LinkStep(data: map<string, GenericEntity>, line: L.Line, c: GenericEntity, box: Rect,
                    inArea: ((real, real), Rect) -> bool): map<string, GenericEntity>
  {
    var withFrom := if inArea(line.StartXY(), box) then data[AssociationFrom := c] else data;
    if inArea(line.EndXY(), box) then withFrom[AssociationTo := c] else withFrom
  }

  /** The data map of one association after the linking loop has visited
      `classes` in order, `boxes[k]` being the bounding box of `classes[k]`. */
  function Link(data: map<string, GenericEntity>, line: L.Line, classes: seq<GenericEntity>, boxes: seq<Rect>,
                inArea: ((real, real), Rect) -> bool): map<string, GenericEntity>
    requires |boxes| == |classes|
    decreases |classes|
  {
    if |classes| == 0 then data
    else
      var n := |classes| - 1;
      LinkStep(Link(data, line, classes[..n], boxes[..n], inArea), line, classes[n], boxes[n], inArea)
  }

  /** Linking touches only the FROM and TO keys; FROM ends up bound iff it was
      bound before or some class box holds the line's start, and likewise TO
      with the line's end. */
  lemma {:induction false} LinkKeys(data: map<string, GenericEntity>, line: L.Line, classes: seq<GenericEntity>,
                                    boxes: seq<Rect>, inArea: ((real, real), Rect) -> bool)
    requires |boxes| == |classes|
    ensures var r := Link(data, line, classes, boxes, inArea);
      && (forall k :: k != AssociationFrom && k != AssociationTo ==> (k in r <==> k in data))
      && (forall k :: k != AssociationFrom && k != AssociationTo && k in r ==> r[k] == data[k])
      && (AssociationFrom in r <==>
          AssociationFrom in data || exists i :: 0 <= i < |boxes| && inArea(line.StartXY(), boxes[i]))
      && (AssociationTo in r <==>
          AssociationTo in data || exists i :: 0 <= i < |boxes| && inArea(line.EndXY(), boxes[i]))
    decreases |classes|
  {
    if |classes| > 0 {
      var n := |classes| - 1;
      LinkKeys(data, line, classes[..n], boxes[..n], inArea);
      assert forall i :: 0 <= i < n ==> boxes[..n][i] == boxes[i];
    }
  }

  /** `found[k]` is the association entity for `lines[k]`, its data map
      linked from empty over `classes` with their `boxes`. */
  predicate LinkedAssociationsFor(found: seq<GenericEntity>, lines: seq<L.Line>, classes: seq<GenericEntity>,
                                  boxes: seq<Rect>, inArea: ((real, real), Rect) -> bool)
    reads found
  {
    && |found| == |lines| && |boxes| == |classes|
    && forall k :: 0 <= k < |found| ==>
      IsAssociationOf(found[k], lines[k]) && found[k].data == Link(map[], lines[k], classes, boxes, inArea)
  }

  /** When several class boxes hold the start, FROM names the last of them. */
  lemma {:induction false} LinkFromLastMatchWins(data: map<string, GenericEntity>, line: L.Line, classes: seq<GenericEntity>,
                                                 boxes: seq<Rect>, inArea: ((real, real), Rect) -> bool, i: nat)
    requires |boxes| == |classes| && i < |classes|
    requires inArea(line.StartXY(), boxes[i])
    requires forall j :: i < j < |classes| ==> !inArea(line.StartXY(), boxes[j])
    ensures AssociationFrom in Link(data, line, classes, boxes, inArea)
    ensures Link(data, line, classes, boxes, inArea)[AssociationFrom] == classes[i]
    decreases |classes|
  {
    var n := |classes| - 1;
    if i < n {
      LinkFromLastMatchWins(data, line, classes[..n], boxes[..n], inArea, i);
    }
  }

  /** When several class boxes hold the end, TO names the last of them. */
  lemma {:induction false} LinkToLastMatchWins(data: map<string, GenericEntity>, line: L.Line, classes: seq<GenericEntity>,
                                               boxes: seq<Rect>, inArea: ((real, real), Rect) -> bool, i: nat)
    requires |boxes| == |classes| && i < |classes|
    requires inArea(line.EndXY(), boxes[i])
    requires forall j :: i < j < |classes| ==> !inArea(line.EndXY(), boxes[j])
    ensures AssociationTo in Link(data, line, classes, boxes, inArea)
    ensures Link(data, line, classes, boxes, inArea)[AssociationTo] == classes[i]
    decreases |classes|
  {
    var n := |classes| - 1;
    if i < n {
      LinkToLastMatchWins(data, line, classes[..n], boxes[..n], inArea, i);
    }
  }

  /** A line whose endpoints lie in no class box leaves the data map as it was;
      for a new association that is the empty map, so neither key is set. */
  lemma {:induction false} LinkNoMatchUnchanged(data: map<string, GenericEntity>, line: L.Line, classes: seq<GenericEntity>,
                                                boxes: seq<Rect>, inArea: ((real, real), Rect) -> bool)
    requires |boxes| == |classes|
    requires forall j :: 0 <= j < |boxes| ==> !inArea(line.StartXY(), boxes[j]) && !inArea(line.EndXY(), boxes[j])
    ensures Link(data, line, classes, boxes, inArea) == data
    decreases |classes|
  {
    if |classes| > 0 {
      var n := |classes| - 1;
      LinkNoMatchUnchanged(data, line, classes[..n], boxes[..n], inArea);
    }
  }

  /** FROM and TO are tested separately: a single class whose box holds both
      ends of the line becomes both the FROM and the TO of the association. */
  lemma OneClassCanBeBothEnds(line: L.Line, c: GenericEntity, box: Rect, inArea: ((real, real), Rect) -> bool)
    requires inArea(line.StartXY(), box) && inArea(line.EndXY(), box)
    ensures var r := Link(map[], line, [c], [box], inArea);
      AssociationFrom in r && AssociationTo in r && r[AssociationFrom] == c && r[AssociationTo] == c
  {
    LinkFromLastMatchWins(map[], line, [c], [box], inArea, 0);
    LinkToLastMatchWins(map[], line, [c], [box], inArea, 0);
  }
}
