/** `detector/detector/diagram_type_detector.py`: choosing the converter for
    the detected shapes by asking each known converter, in order, whether the
    shapes form its kind of diagram. */
module DiagramTypes {
  import opened Wrappers
  import opened Converters
  import opened ShapeDetection

  /** `CONVERTERS`, in the order they are asked. */
  const ConverterKinds: seq<ConverterKind> := [ClassDiagramConverter, UseCaseDiagramConverter]

  /** Every converter before index `i` declines. */
  predicate AllDecline(converters: seq<ConverterKind>, i: int)
    requires i <= |converters|
  {
    forall j :: 0 <= j < i ==> IsDiagram(converters[j]) == Success(false)
  }

  /** The answer of the `find_converter` loop over `converters`: the first
      converter that accepts, `None` when every one declines, and the error of
      the first that raises before any accepts. */
  function FirstAccepting(converters: seq<ConverterKind>): (r: Result<Option<ConverterKind>>)
    ensures r.Success? && r.value.Some? ==>
      exists i :: 0 <= i < |converters| && converters[i] == r.value.value
        && IsDiagram(converters[i]) == Success(true) && AllDecline(converters, i)
    ensures r == Success(None) <==> AllDecline(converters, |converters|)
    ensures r.Failure? <==>
      exists i :: 0 <= i < |converters| && IsDiagram(converters[i]).Failure? && AllDecline(converters, i)
    ensures r.Failure? ==> r.error == NotImplementedError
  {
    if |converters| == 0 then Success(None)
    else
      match IsDiagram(converters[0])
      case Failure(e) => Failure(e)
      case Success(accepted) =>
        if accepted then Success(Some(converters[0]))
        else
          var rest := FirstAccepting(converters[1..]);
          assert forall j :: 0 <= j < |converters| - 1 ==> converters[1..][j] == converters[j + 1];
          assert rest.Success? && rest.value.Some? ==>
            exists i :: 0 <= i < |converters| && converters[i] == rest.value.value
              && IsDiagram(converters[i]) == Success(true) && AllDecline(converters, i) by {
            if rest.Success? && rest.value.Some? {
              var i :| 0 <= i < |converters[1..]| && converters[1..][i] == rest.value.value
                && IsDiagram(converters[1..][i]) == Success(true) && AllDecline(converters[1..], i);
              assert AllDecline(converters, i + 1);
            }
          }
          assert rest.Failure? ==>
            exists i :: 0 <= i < |converters| && IsDiagram(converters[i]).Failure? && AllDecline(converters, i) by {
            if rest.Failure? {
              var i :| 0 <= i < |converters[1..]| && IsDiagram(converters[1..][i]).Failure? && AllDecline(converters[1..], i);
              assert AllDecline(converters, i + 1);
            }
          }
          rest
  }

  /** With the converters as listed, the class-diagram converter is asked
      first and always accepts, so it is always the one chosen and the
      use-case converter is never asked. */
  lemma ClassDiagramConverterChosen()
    ensures FirstAccepting(ConverterKinds) == Success(Some(ClassDiagramConverter))
  {
  }

  /** The `find_converter` loop over `converters`: a new converter of the
      first accepting kind, built on `sd`; `None` when none accepts. */
  method FindConverterAmong(converters: seq<ConverterKind>, sd: ShapeDetector)
    returns (r: Result<Option<DiagramConverter>>)
    ensures r.Failure? <==> FirstAccepting(converters).Failure?
    ensures r.Failure? ==> r.error == FirstAccepting(converters).error
    ensures r == Success(None) <==> FirstAccepting(converters) == Success(None)
    ensures r.Success? && r.value.Some? ==>
      && FirstAccepting(converters) == Success(Some(r.value.value.kind))
      && fresh(r.value.value)
      && r.value.value.shapeDetector == sd
      && r.value.value.genericEntities == []
  {
    for i := 0 to |converters|
      invariant AllDecline(converters, i)
      invariant FirstAccepting(converters) == FirstAccepting(converters[i..])
    {
      assert converters[i..][1..] == converters[i + 1..];
      var accepted := IsDiagram(converters[i]);
      if accepted.Failure? {
        return Failure(accepted.error);
      }
      if accepted.value {
        var converter := new DiagramConverter(converters[i], sd);
        return Success(Some(converter));
      }
    }
    r := Success(None);
  }

  /** `find_converter`: with the converters as listed, always a new
      class-diagram converter on `sd` with no entities. */
  method FindConverter(sd: ShapeDetector) returns (r: Result<Option<DiagramConverter>>)
    ensures r.Success? && r.value.Some?
    ensures r.value.value.kind == ClassDiagramConverter
    ensures fresh(r.value.value) && r.value.value.shapeDetector == sd && r.value.value.genericEntities == []
  {
    ClassDiagramConverterChosen();
    r := FindConverterAmong(ConverterKinds, sd);
  }
}
