/** `detector/converter/diagram_converter.py` and the converters built on it
    (`class_diagram_converter.py`, `use_case_diagram_converter.py`): one class
    whose `kind` says which converter it is. */
module Converters {
  import opened Wrappers
  import opened Geometry
  import opened Vision
  import opened Sequences
  import opened Shapes
  import opened GenericEntities
  import opened ClassDiagrams
  import opened ShapeDetection
  import LD = LineDetection
  import L = LegacyLines

  datatype ConverterKind = BaseConverter | ClassDiagramConverter | UseCaseDiagramConverter

  /** `is_diagram`: the base converter raises, the class-diagram converter
      always accepts, the use-case converter always declines. */
  function IsDiagram(kind: ConverterKind): (r: Result<bool>)
    ensures r.Failure? <==> kind == BaseConverter
    ensures r.Failure? ==> r.error == NotImplementedError
    ensures r == Success(true) <==> kind == ClassDiagramConverter
  {
    match kind
    case BaseConverter => Failure(NotImplementedError)
    case ClassDiagramConverter => Success(true)
    case UseCaseDiagramConverter => Success(false)
  }

  /** Python truthiness of the optional `type` argument: `None` and `0` are false. */
  predicate Truthy(entityType: Option<int>)
  {
    entityType.Some? && entityType.value != 0
  }

  /** `get_generic_entities(type)`: for a truthy type, the entities of that
      type in list order; otherwise the whole list. */
  function EntitiesOfType(entities: seq<GenericEntity>, entityType: Option<int>): (r: seq<GenericEntity>)
    ensures Truthy(entityType) ==> IsSubsequence(r, entities)
    ensures Truthy(entityType) ==> forall i :: 0 <= i < |r| ==> r[i].entityType == entityType
    ensures Truthy(entityType) ==>
      forall i :: 0 <= i < |entities| && entities[i].entityType == entityType ==> entities[i] in r
    ensures !Truthy(entityType) ==> r == entities
  {
    if Truthy(entityType) then
      var ofType := (e: GenericEntity) => e.entityType == entityType;
      var r := Select(entities, ofType);
      assert forall i :: 0 <= i < |r| ==> r[i] in r && ofType(r[i]);
      r
    else entities
  }

  /** `CLASS_ENTITY` is 0, which is falsy: the query for classes returns every
      entity, associations included. */
  lemma ClassQueryReturnsEverything(entities: seq<GenericEntity>)
    ensures EntitiesOfType(entities, Some(ClassEntity)) == entities
  {
  }

  /** The query for associations returns exactly the entities of type 1. */
  lemma AssociationQueryExact(entities: seq<GenericEntity>, e: GenericEntity)
    ensures e in EntitiesOfType(entities, Some(AssociationEntity)) <==>
      e in entities && e.entityType == Some(AssociationEntity)
  {
    var r := EntitiesOfType(entities, Some(AssociationEntity));
    SubsequenceMembers(r, entities);
    if e in r {
      var i :| 0 <= i < |r| && r[i] == e;
    }
  }

  /** Every association entity has a line as its first part, which the
      linking loop reads. */
  predicate AssociationsHaveLines(entities: seq<GenericEntity>)
    reads entities
  {
    forall i :: 0 <= i < |entities| && entities[i].entityType == Some(AssociationEntity) ==>
      |entities[i].shapes| > 0 && entities[i].shapes[0].LinePart?
  }

  /** Appending entities whose associations have lines to a list whose
      associations have lines keeps that property. */
  lemma AppendKeepsLines(before: seq<GenericEntity>, added: seq<GenericEntity>)
    requires AssociationsHaveLines(before) && AssociationsHaveLines(added)
    ensures AssociationsHaveLines(before + added)
  {
    var all := before + added;
    forall i | 0 <= i < |all| && all[i].entityType == Some(AssociationEntity)
      ensures |all[i].shapes| > 0 && all[i].shapes[0].LinePart?
    {
      if i >= |before| {
        assert all[i] == added[i - |before|];
      }
    }
  }

  /** The bounding box of each entity's parts. */
  function BoxesOf(entities: seq<GenericEntity>, boundingBox: seq<Part> -> Rect): (boxes: seq<Rect>)
    reads entities
    ensures |boxes| == |entities|
    ensures forall k :: 0 <= k < |entities| ==> boxes[k] == boundingBox(entities[k].shapes)
  {
    seq(|entities|, k reads entities requires 0 <= k < |entities| => boundingBox(entities[k].shapes))
  }

  /** The boxes of a concatenation are the boxes of its two parts, in order:
      extending the entity list extends the boxes the linking loop uses. */
  lemma BoxesOfAppend(a: seq<GenericEntity>, b: seq<GenericEntity>, boundingBox: seq<Part> -> Rect)
    ensures BoxesOf(a + b, boundingBox) == BoxesOf(a, boundingBox) + BoxesOf(b, boundingBox)
  {
    var ab := a + b;
    assert forall k :: 0 <= k < |b| ==> ab[|a| + k] == b[k];
  }

  /** The data map of each entity, in list order. */
  function DataOf(entities: seq<GenericEntity>): (r: seq<map<string, GenericEntity>>)
    reads entities
    ensures |r| == |entities|
  {
    seq(|entities|, i reads entities requires 0 <= i < |entities| => entities[i].data)
  }

  /** The parts of each entity, in list order. */
  function PartsOf(entities: seq<GenericEntity>): (r: seq<seq<Part>>)
    reads entities
    ensures |r| == |entities|
  {
    seq(|entities|, i reads entities requires 0 <= i < |entities| => entities[i].shapes)
  }

  /** What linking does to a list whose data maps were `data` and whose parts
      were `parts` before it: no parts change; an association's data map
      becomes `Link` of its earlier map over `classes` and `boxes`; any other
      entity keeps its data map. */
  predicate RelinkedFrom(entities: seq<GenericEntity>, data: seq<map<string, GenericEntity>>, parts: seq<seq<Part>>,
                         classes: seq<GenericEntity>, boxes: seq<Rect>, inArea: ((real, real), Rect) -> bool)
    reads entities
  {
    && |data| == |entities| && |parts| == |entities| && |boxes| == |classes|
    && forall i :: 0 <= i < |entities| ==>
      && entities[i].shapes == parts[i]
      && if entities[i].entityType == Some(AssociationEntity) && parts[i] != [] && parts[i][0].LinePart?
         then entities[i].data == Link(data[i], parts[i][0].line, classes, boxes, inArea)
         else entities[i].data == data[i]
  }

  /** `RelinkedFrom` the data maps and parts the entities had in the previous state. */
  twostate predicate Relinked(entities: seq<GenericEntity>, new classes: seq<GenericEntity>, boxes: seq<Rect>,
                              inArea: ((real, real), Rect) -> bool)
    reads entities
  {
    RelinkedFrom(entities, old(DataOf(entities)), old(PartsOf(entities)), classes, boxes, inArea)
  }

  /** The data maps and parts of `before + classes + assocs`, taken while each
      new association still has an empty data map and its one line. */
  lemma AppendedSnapshot(before: seq<GenericEntity>, classes: seq<GenericEntity>, assocs: seq<GenericEntity>,
                         lines: seq<L.Line>, all: seq<GenericEntity>)
    requires all == before + classes + assocs && AssociationsFor(assocs, lines)
    ensures DataOf(all)[..|before|] == DataOf(before) && PartsOf(all)[..|before|] == PartsOf(before)
    ensures forall k :: 0 <= k < |lines| ==>
      DataOf(all)[|before| + |classes| + k] == map[] && PartsOf(all)[|before| + |classes| + k] == [LinePart(lines[k])]
  {
    forall k | 0 <= k < |lines|
      ensures DataOf(all)[|before| + |classes| + k] == map[]
      ensures PartsOf(all)[|before| + |classes| + k] == [LinePart(lines[k])]
    {
      assert all[|before| + |classes| + k] == assocs[k];
    }
  }

  /** Relinking the list `before + classes + assocs` over itself, from the
      data maps `data` and parts `parts`, relinks the entities of `before`
      from their own part of the snapshot, and links each new association,
      whose snapshot holds an empty map and its line, from empty. */
  lemma AppendedRelinked(before: seq<GenericEntity>, classes: seq<GenericEntity>, assocs: seq<GenericEntity>,
                         lines: seq<L.Line>, all: seq<GenericEntity>,
                         data: seq<map<string, GenericEntity>>, parts: seq<seq<Part>>,
                         boxes: seq<Rect>, inArea: ((real, real), Rect) -> bool)
    requires all == before + classes + assocs && |boxes| == |all|
    requires |assocs| == |lines| && forall k :: 0 <= k < |assocs| ==> assocs[k].entityType == Some(AssociationEntity)
    requires |data| == |all| && |parts| == |all|
    requires forall k :: 0 <= k < |lines| ==>
      data[|before| + |classes| + k] == map[] && parts[|before| + |classes| + k] == [LinePart(lines[k])]
    requires RelinkedFrom(all, data, parts, all, boxes, inArea)
    ensures RelinkedFrom(before, data[..|before|], parts[..|before|], all, boxes, inArea)
    ensures LinkedAssociationsFor(assocs, lines, all, boxes, inArea)
  {
    var n := |before| + |classes|;
    forall i | 0 <= i < |before|
      ensures all[i] == before[i]
    {
    }
    forall k | 0 <= k < |assocs|
      ensures IsAssociationOf(assocs[k], lines[k]) && assocs[k].data == Link(map[], lines[k], all, boxes, inArea)
    {
      assert all[n + k] == assocs[k];
    }
  }

  class DiagramConverter {
    const kind: ConverterKind
    /** The detector holding the shapes, contours and contour hierarchy. */
    const shapeDetector: ShapeDetector
    var genericEntities: seq<GenericEntity>

    constructor (kind: ConverterKind, shapeDetector: ShapeDetector)
      ensures this.kind == kind && this.shapeDetector == shapeDetector && genericEntities == []
    {
      this.kind := kind;
      this.shapeDetector := shapeDetector;
      genericEntities := [];
    }

    function GetGenericEntities(entityType: Option<int>): seq<GenericEntity>
      reads this
    {
      EntitiesOfType(genericEntities, entityType)
    }

    /** The body of one `_extract_classes` step: a new class entity owning
        three new shapes, one per contour of the group, in order. */
    static method NewClass(group: seq<Contour>, tk: Toolkit) returns (entity: GenericEntity)
      requires |group| == 3
      ensures fresh(entity) && entity.data == map[] && IsClassOf(entity, group, tk)
    {
      entity := new GenericEntity(Some(ClassEntity));
      var first := new Shape(group[0], tk);
      entity.AddShape(ShapePart(first));
      var second := new Shape(group[1], tk);
      entity.AddShape(ShapePart(second));
      var third := new Shape(group[2], tk);
      entity.AddShape(ShapePart(third));
    }

    /** The inner loop of `_extract_classes`, over the x-position groups of
        one parent group: a new class entity per group of exactly three. */
    static method ClassesOfGroups(contourGroups: seq<seq<Contour>>, tk: Toolkit) returns (found: seq<GenericEntity>)
      ensures ClassesFor(found, Select(contourGroups, HasThree), tk)
      ensures forall k :: 0 <= k < |found| ==> fresh(found[k])
      ensures Distinct(found)
    {
      found := [];
      for j := 0 to |contourGroups|
        invariant ClassesFor(found, Select(contourGroups[..j], HasThree), tk)
        invariant forall k :: 0 <= k < |found| ==> fresh(found[k])
        invariant Distinct(found)
      {
        assert contourGroups[..j + 1][..j] == contourGroups[..j];
        var group := contourGroups[j];
        if |group| == 3 {
          var newClass := NewClass(group, tk);
          found := found + [newClass];
        }
      }
      assert contourGroups[..|contourGroups|] == contourGroups;
    }

    /** `_extract_classes`: one new class entity per group of exactly three
        contours, each owning three new shapes built from the group's contours. */
    method ExtractClasses() returns (found: seq<GenericEntity>)
      requires shapeDetector.contours.Some? && shapeDetector.hierarchy.Some?
      ensures ClassesFor(found, ClassGroups(shapeDetector.SortContoursByParent(), shapeDetector.toolkit.groupByX),
                         shapeDetector.toolkit)
      ensures forall k :: 0 <= k < |found| ==> fresh(found[k])
      ensures Distinct(found)
    {
      var tk := shapeDetector.toolkit;
      var sorted := shapeDetector.SortContoursByParent();
      found := [];
      for i := 0 to |sorted|
        invariant ClassesFor(found, ClassGroups(sorted[..i], tk.groupByX), tk)
        invariant forall k :: 0 <= k < |found| ==> fresh(found[k])
        invariant Distinct(found)
      {
        var more := ClassesOfGroups(tk.groupByX(sorted[i]), tk);
        ClassGroupsStep(sorted, i, tk.groupByX);
        ClassesForAppend(found, ClassGroups(sorted[..i], tk.groupByX), more, Select(tk.groupByX(sorted[i]), HasThree), tk);
        forall a, b | 0 <= a < |found| && 0 <= b < |more|
          ensures found[a] != more[b]
        {
        }
        DistinctAppend(found, more);
        found := found + more;
      }
      assert sorted[..|sorted|] == sorted;
    }

    /** `_extract_associations`, given what the segment detector reports on
        the image with the classes painted out: one new association entity per
        merged line, in line order, with that line as its only part. */
    method ExtractAssociations(detected: seq<seq<Segment>>) returns (found: seq<GenericEntity>)
      ensures AssociationsFor(found, LD.Merged(LD.LinesOf(detected)))
      ensures forall k :: 0 <= k < |found| ==> fresh(found[k])
      ensures Distinct(found)
    {
      var lineDetector := new LD.LineDetector();
      var _ := lineDetector.FindLines(detected);
      assert lineDetector.lines == LD.LinesOf(detected);
      var lines := lineDetector.MergedLines();
      found := [];
      for i := 0 to |lines|
        invariant AssociationsFor(found, lines[..i])
        invariant forall k :: 0 <= k < |found| ==> fresh(found[k])
        invariant Distinct(found)
      {
        var association := new GenericEntity(Some(AssociationEntity));
        association.AddShape(LinePart(lines[i]));
        found := found + [association];
      }
      assert lines[..|lines|] == lines;
    }

    /** The inner loop of `_link_associations_with_classes` for one class:
        each association's data map takes one `LinkStep`; no parts change. */
    static method LinkOneClass(c: GenericEntity, box: Rect, assocs: seq<GenericEntity>,
                               inArea: ((real, real), Rect) -> bool)
      requires Distinct(assocs)
      requires forall k :: 0 <= k < |assocs| ==> |assocs[k].shapes| > 0 && assocs[k].shapes[0].LinePart?
      modifies assocs
      ensures forall o :: o in assocs ==> o.shapes == old(o.shapes)
      ensures forall k :: 0 <= k < |assocs| ==>
        assocs[k].data == LinkStep(old(assocs[k].data), assocs[k].shapes[0].line, c, box, inArea)
    {
      for ai := 0 to |assocs|
        invariant forall o :: o in assocs ==> o.shapes == old(o.shapes)
        invariant forall k :: 0 <= k < ai ==>
          assocs[k].data == LinkStep(old(assocs[k].data), assocs[k].shapes[0].line, c, box, inArea)
        invariant forall k :: ai <= k < |assocs| ==> assocs[k].data == old(assocs[k].data)
      {
        var association := assocs[ai];
        var line := association.shapes[0].line;
        if inArea(line.StartXY(), box) {
          association.Set(AssociationFrom, c);
        }
        if inArea(line.EndXY(), box) {
          association.Set(AssociationTo, c);
        }
      }
    }

    /** The two loops of `_link_associations_with_classes`, over `classes`
        and then over `assocs`: each association's data map becomes `Link` of
        its old map; no parts change. */
    static method LinkAll(classes: seq<GenericEntity>, assocs: seq<GenericEntity>,
                          boundingBox: seq<Part> -> Rect, inArea: ((real, real), Rect) -> bool)
      requires Distinct(assocs)
      requires forall k :: 0 <= k < |assocs| ==> |assocs[k].shapes| > 0 && assocs[k].shapes[0].LinePart?
      modifies assocs
      ensures forall o :: o in assocs ==> o.shapes == old(o.shapes)
      ensures forall k :: 0 <= k < |assocs| ==>
        assocs[k].data == Link(old(assocs[k].data), old(assocs[k].shapes[0].line), classes,
                               old(BoxesOf(classes, boundingBox)), inArea)
    {
      ghost var boxes := BoxesOf(classes, boundingBox);
      ghost var oldData: seq<map<string, GenericEntity>> :=
        seq(|assocs|, k reads assocs requires 0 <= k < |assocs| => assocs[k].data);
      ghost var lines: seq<L.Line> :=
        seq(|assocs|, k reads assocs requires 0 <= k < |assocs| && assocs[k].shapes != [] && assocs[k].shapes[0].LinePart? =>
          assocs[k].shapes[0].line);
      for ci := 0 to |classes|
        invariant forall o :: o in assocs ==> o.shapes == old(o.shapes)
        invariant forall k :: 0 <= k < |assocs| ==> assocs[k].data == Link(oldData[k], lines[k], classes[..ci], boxes[..ci], inArea)
      {
        var c := classes[ci];
        var box := boundingBox(c.shapes);
        assert box == boxes[ci];
        assert classes[..ci + 1][..ci] == classes[..ci];
        assert boxes[..ci + 1][..ci] == boxes[..ci];
        LinkOneClass(c, box, assocs, inArea);
      }
      assert classes[..|classes|] == classes;
      assert boxes[..|classes|] == boxes;
    }

    /** `_link_associations_with_classes`: with `classes` what the class query
        returns (every entity) and their bounding boxes, each association's
        data map becomes `Link` of its old map; only associations change, and
        only their data maps. */
    method LinkAssociationsWithClasses(boundingBox: seq<Part> -> Rect)
      requires AssociationsHaveLines(genericEntities) && Distinct(genericEntities)
      modifies EntitiesOfType(genericEntities, Some(AssociationEntity))
      ensures Relinked(genericEntities, GetGenericEntities(Some(ClassEntity)),
                       old(BoxesOf(GetGenericEntities(Some(ClassEntity)), boundingBox)), shapeDetector.toolkit.pointInArea)
    {
      var entities := genericEntities;
      var classes := GetGenericEntities(Some(ClassEntity));
      var assocs := GetGenericEntities(Some(AssociationEntity));
      SubsequenceMembers(assocs, entities);
      SubsequenceDistinct(assocs, entities);
      forall k | 0 <= k < |assocs|
        ensures |assocs[k].shapes| > 0 && assocs[k].shapes[0].LinePart?
      {
        assert assocs[k] in assocs;
        var i :| 0 <= i < |entities| && entities[i] == assocs[k];
      }
      LinkAll(classes, assocs, boundingBox, shapeDetector.toolkit.pointInArea);
      forall i | 0 <= i < |entities| && entities[i].entityType == Some(AssociationEntity)
        ensures entities[i].data ==
          Link(old(entities[i].data), old(entities[i].shapes[0].line), classes,
               old(BoxesOf(classes, boundingBox)), shapeDetector.toolkit.pointInArea)
      {
        var k :| 0 <= k < |assocs| && assocs[k] == entities[i];
      }
      forall i | 0 <= i < |entities| && entities[i].entityType != Some(AssociationEntity)
        ensures entities[i].data == old(entities[i].data)
      {
        AssociationQueryExact(entities, entities[i]);
      }
    }

    /** `convert`. The base converter raises; the use-case converter does
        nothing and returns `None`; the class-diagram converter appends the
        extracted classes, then the extracted associations, to its entity list,
        links them (see `ConvertClassDiagram`), and returns the list. */
    method Convert(detected: seq<seq<Segment>>, boundingBox: seq<Part> -> Rect)
      returns (r: Result<Option<seq<GenericEntity>>>, ghost classes: seq<GenericEntity>, ghost assocs: seq<GenericEntity>)
      requires kind == ClassDiagramConverter ==>
        && shapeDetector.contours.Some? && shapeDetector.hierarchy.Some?
        && AssociationsHaveLines(genericEntities) && Distinct(genericEntities)
      modifies this, genericEntities
      ensures kind == BaseConverter ==> r == Failure(NotImplementedError)
      ensures kind == UseCaseDiagramConverter ==> r == Success(None)
      ensures kind != ClassDiagramConverter ==>
        genericEntities == old(genericEntities) && unchanged(old(genericEntities))
      ensures kind == ClassDiagramConverter ==>
        && r == Success(Some(genericEntities))
        && genericEntities == old(genericEntities) + classes + assocs
        && (forall k :: 0 <= k < |classes| ==> fresh(classes[k]))
        && (forall k :: 0 <= k < |assocs| ==> fresh(assocs[k]))
        && ClassesFor(classes, ClassGroups(old(shapeDetector.SortContoursByParent()), shapeDetector.toolkit.groupByX),
                      shapeDetector.toolkit)
        && LinkedAssociationsFor(assocs, LD.Merged(LD.LinesOf(detected)), genericEntities,
                                 BoxesOf(genericEntities, boundingBox), shapeDetector.toolkit.pointInArea)
        && Relinked(old(genericEntities), genericEntities, BoxesOf(genericEntities, boundingBox),
                    shapeDetector.toolkit.pointInArea)
    {
      classes, assocs := [], [];
      match kind {
        case BaseConverter =>
          r := Failure(NotImplementedError);
        case UseCaseDiagramConverter =>
          r := Success(None);
        case ClassDiagramConverter =>
          classes, assocs := ConvertClassDiagram(detected, boundingBox);
          r := Success(Some(genericEntities));
      }
    }

    /** The class-diagram `convert`: the entity list becomes the old list, then
        one new class per three-contour group, then one new association per
        merged line; each new association's data map is linked from empty over
        the whole list (the class query returns everything) and its boxes. */
    method ConvertClassDiagram(detected: seq<seq<Segment>>, boundingBox: seq<Part> -> Rect)
      returns (classes: seq<GenericEntity>, assocs: seq<GenericEntity>)
      requires shapeDetector.contours.Some? && shapeDetector.hierarchy.Some?
      requires AssociationsHaveLines(genericEntities) && Distinct(genericEntities)
      modifies this, genericEntities
      ensures genericEntities == old(genericEntities) + classes + assocs
      ensures forall k :: 0 <= k < |classes| ==> fresh(classes[k])
      ensures forall k :: 0 <= k < |assocs| ==> fresh(assocs[k])
      ensures ClassesFor(classes, ClassGroups(old(shapeDetector.SortContoursByParent()), shapeDetector.toolkit.groupByX),
                         shapeDetector.toolkit)
      ensures LinkedAssociationsFor(assocs, LD.Merged(LD.LinesOf(detected)), genericEntities,
                                    BoxesOf(genericEntities, boundingBox), shapeDetector.toolkit.pointInArea)
      ensures Relinked(old(genericEntities), genericEntities, BoxesOf(genericEntities, boundingBox),
                       shapeDetector.toolkit.pointInArea)
    {
      var before := genericEntities;
      ghost var data := DataOf(before);
      ghost var parts := PartsOf(before);
      ghost var groups := ClassGroups(shapeDetector.SortContoursByParent(), shapeDetector.toolkit.groupByX);
      classes, assocs := AddEntities(detected);
      LinkAppended(before, classes, assocs, LD.Merged(LD.LinesOf(detected)), groups, data, parts, boundingBox);
    }

    /** The linking step of `convert` on the list just extended by `classes`
        and `assocs`: the classes do not change, and each new association is
        linked from its empty map over the whole list. */
    method LinkAppended(before: seq<GenericEntity>, classes: seq<GenericEntity>, assocs: seq<GenericEntity>,
                        ghost lines: seq<L.Line>, ghost groups: seq<seq<Contour>>,
                        ghost data: seq<map<string, GenericEntity>>, ghost parts: seq<seq<Part>>,
                        boundingBox: seq<Part> -> Rect)
      requires genericEntities == before + classes + assocs
      requires DataOf(before) == data && PartsOf(before) == parts
      requires AssociationsHaveLines(genericEntities) && Distinct(genericEntities)
      requires ClassesFor(classes, groups, shapeDetector.toolkit)
      requires AssociationsFor(assocs, lines)
      modifies before, assocs
      ensures unchanged(classes) && ClassesFor(classes, groups, shapeDetector.toolkit)
      ensures RelinkedFrom(before, data, parts, genericEntities, BoxesOf(genericEntities, boundingBox),
                           shapeDetector.toolkit.pointInArea)
      ensures LinkedAssociationsFor(assocs, lines, genericEntities,
                                    BoxesOf(genericEntities, boundingBox), shapeDetector.toolkit.pointInArea)
    {
      ghost var all := genericEntities;
      ghost var boxes := BoxesOf(all, boundingBox);
      ghost var inArea := shapeDetector.toolkit.pointInArea;
      ghost var allData, allParts := DataOf(all), PartsOf(all);
      AppendedSnapshot(before, classes, assocs, lines, all);
      ghost var linked := EntitiesOfType(all, Some(AssociationEntity));
      forall o | o in linked
        ensures (o in before || o in assocs) && o.entityType == Some(AssociationEntity)
      {
        AssociationQueryExact(all, o);
        assert o !in classes;
      }
      assert forall o :: o in classes ==> o !in linked;
      ClassQueryReturnsEverything(all);
      LinkAssociationsWithClasses(boundingBox);
      assert BoxesOf(genericEntities, boundingBox) == boxes;
      assert RelinkedFrom(genericEntities, allData, allParts, genericEntities, BoxesOf(genericEntities, boundingBox), inArea);
      AppendedRelinked(before, classes, assocs, lines, genericEntities, allData, allParts,
                       BoxesOf(genericEntities, boundingBox), inArea);
    }

    /** The two reassignments of `self.generic_entities` in `convert`. */
    method AddEntities(detected: seq<seq<Segment>>) returns (classes: seq<GenericEntity>, assocs: seq<GenericEntity>)
      requires shapeDetector.contours.Some? && shapeDetector.hierarchy.Some?
      requires AssociationsHaveLines(genericEntities) && Distinct(genericEntities)
      modifies this`genericEntities
      ensures genericEntities == old(genericEntities) + classes + assocs
      ensures forall k :: 0 <= k < |classes| ==> fresh(classes[k])
      ensures forall k :: 0 <= k < |assocs| ==> fresh(assocs[k])
      ensures ClassesFor(classes, ClassGroups(old(shapeDetector.SortContoursByParent()), shapeDetector.toolkit.groupByX),
                         shapeDetector.toolkit)
      ensures AssociationsFor(assocs, LD.Merged(LD.LinesOf(detected)))
      ensures AssociationsHaveLines(genericEntities) && Distinct(genericEntities)
    {
      classes := AddClasses();
      assocs := AddAssociations(detected);
    }

    /** `self.generic_entities = self.generic_entities + self._extract_classes()`. */
    method AddClasses() returns (added: seq<GenericEntity>)
      requires shapeDetector.contours.Some? && shapeDetector.hierarchy.Some?
      requires AssociationsHaveLines(genericEntities) && Distinct(genericEntities)
      modifies this`genericEntities
      ensures genericEntities == old(genericEntities) + added
      ensures ClassesFor(added, ClassGroups(shapeDetector.SortContoursByParent(), shapeDetector.toolkit.groupByX),
                         shapeDetector.toolkit)
      ensures forall k :: 0 <= k < |added| ==> fresh(added[k])
      ensures AssociationsHaveLines(genericEntities) && Distinct(genericEntities)
    {
      added := ExtractClasses();
      DistinctAppend(genericEntities, added);
      AppendKeepsLines(genericEntities, added);
      genericEntities := genericEntities + added;
    }

    /** `self.generic_entities = self.generic_entities + self._extract_associations()`. */
    method AddAssociations(detected: seq<seq<Segment>>) returns (added: seq<GenericEntity>)
      requires AssociationsHaveLines(genericEntities) && Distinct(genericEntities)
      modifies this`genericEntities
      ensures genericEntities == old(genericEntities) + added
      ensures AssociationsFor(added, LD.Merged(LD.LinesOf(detected)))
      ensures forall k :: 0 <= k < |added| ==> fresh(added[k])
      ensures AssociationsHaveLines(genericEntities) && Distinct(genericEntities)
    {
      added := ExtractAssociations(detected);
      DistinctAppend(genericEntities, added);
      AppendKeepsLines(genericEntities, added);
      genericEntities := genericEntities + added;
    }
  }
}
