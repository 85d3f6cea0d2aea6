/** `detector/primitives/generic_entity.py`: a typed container of parts (shapes
    or lines) with a string-keyed map of related entities. */
module GenericEntities {
  import opened Wrappers
  import opened Geometry
  import opened Shapes
  import L = LegacyLines

  /** What `add_shape` is given: a `Shape`, or a `Line` for an association. */
  datatype Part = ShapePart(shape: Shape) | LinePart(line: L.Line)

  /** `[s.contour for s in parts]`: a line part has no `contour` attribute. */
  function ContoursOf(parts: seq<Part>): (r: Result<seq<Contour>>)
    ensures r.Success? <==> forall i :: 0 <= i < |parts| ==> parts[i].ShapePart?
    ensures r.Success? ==> |r.value| == |parts|
    ensures r.Success? ==> forall i :: 0 <= i < |parts| ==> r.value[i] == parts[i].shape.contour
    ensures r.Failure? ==> r.error == AttributeError("contour")
    decreases |parts|
  {
    if |parts| == 0 then Success([])
    else
      var init := ContoursOf(parts[..|parts| - 1]);
      var last := parts[|parts| - 1];
      if init.Failure? then init
      else if last.LinePart? then Failure(AttributeError("contour"))
      else Success(init.value + [last.shape.contour])
  }

  class GenericEntity {
    /** The entity type; `None` when constructed without one. */
    const entityType: Option<int>
    var data: map<string, GenericEntity>
    var shapes: seq<Part>

    constructor (entityType: Option<int>)
      ensures this.entityType == entityType && data == map[] && shapes == []
    {
      this.entityType := entityType;
      data := map[];
      shapes := [];
    }

    /** `add_shape`: append one part; the data map is untouched. */
    method AddShape(part: Part)
      modifies this`shapes
      ensures shapes == old(shapes) + [part]
    {
      shapes := shapes + [part];
    }

    /** `set(name, data)`: bind or rebind one key; the parts are untouched. */
    method Set(name: string, value: GenericEntity)
      modifies this`data
      ensures data == old(data)[name := value]
    {
      data := data[name := value];
    }

    /** `get(name)`: the bound entity, or a `KeyError` for a missing key. */
    function Get(name: string): (r: Result<GenericEntity>)
      reads this
      ensures r.Success? <==> name in data
      ensures r.Success? ==> r.value == data[name]
      ensures r.Failure? ==> r.error == KeyError
    {
      if name in data then Success(data[name]) else Failure(KeyError)
    }

    /** `get_all_contours`. */
    function GetAllContours(): (r: Result<seq<Contour>>)
      reads this
    {
      ContoursOf(shapes)
    }
  }

  /** `set` followed by `get` of the same key returns what was set, and
      another key reads as before. */
  method SetThenGet(e: GenericEntity, name: string, other: string, value: GenericEntity)
    returns (got: Result<GenericEntity>, otherBefore: Result<GenericEntity>, otherAfter: Result<GenericEntity>)
    requires other != name
    modifies e
    ensures got == Success(value)
    ensures otherAfter == otherBefore
  {
    otherBefore := e.Get(other);
    e.Set(name, value);
    got := e.Get(name);
    otherAfter := e.Get(other);
  }
}
