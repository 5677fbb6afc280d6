/**
 * The recipe manager's pan request, as decoded from the HTTP body: every
 * measure is a string, and mapping a request to the balancer's pan records
 * parses the measures the pan's shape uses, discarding parse errors.
 */
module PanRequest {
  import opened Wrappers
  import opened GoInt
  import opened PanGeometry
  import opened BalancerDomain
  import Sequences

  /** The request's measure strings; an omitted one decodes as "". */
  datatype RequestMeasures = RequestMeasures(diameter: string, edge: string, width: string, length: string)

  datatype RequestPan = RequestPan(shape: string, measures: RequestMeasures)

  /**
   * The measures of one requested pan: for a registered shape exactly its
   * fields, each the integer `Atoi` reads (0 when it cannot read one); for
   * any other shape none at all.
   */
  function MeasuresOf(shape: string, m: RequestMeasures): (r: Measures)
    ensures ShapeOf(shape).Some? ==> CarriesOnly(ShapeOf(shape).value, r)
    ensures ShapeOf(shape).None? ==> r == NoMeasures
    ensures r.diameter.Some? ==> r.diameter.value == Atoi(m.diameter).value
    ensures r.edge.Some? ==> r.edge.value == Atoi(m.edge).value
    ensures r.width.Some? ==> r.width.value == Atoi(m.width).value
    ensures r.length.Some? ==> r.length.value == Atoi(m.length).value
  {
    if shape == "round" then NoMeasures.(diameter := Some(Atoi(m.diameter).value))
    else if shape == "square" then NoMeasures.(edge := Some(Atoi(m.edge).value))
    else if shape == "rectangular" then NoMeasures.(width := Some(Atoi(m.width).value), length := Some(Atoi(m.length).value))
    else NoMeasures
  }

  function PanToDomain(p: RequestPan): WeightPan {
    WeightPan(p.shape, MeasuresOf(p.shape, p.measures), 0.0)
  }

  /**
   * `PanRequest.ToDomain`: one pan per requested pan, in request order, with
   * the shape copied verbatim, the measures parsed, no dough weight yet and
   * no total.
   */
  function ToDomain(request: seq<RequestPan>): (r: WeightPans)
    ensures |r.pans| == |request| && r.totalDoughWeight == 0.0
    ensures forall i :: 0 <= i < |request| ==>
      && r.pans[i].shape == request[i].shape
      && r.pans[i].doughWeight == 0.0
      && r.pans[i].measures == MeasuresOf(request[i].shape, request[i].measures)
  {
    WeightPans(Sequences.Map(request, PanToDomain), 0.0)
  }

  /** The measure strings a client would send for `m`: each carried field in decimal, the others omitted. */
  function Encode(m: Measures): RequestMeasures {
    RequestMeasures(EncodeField(m.diameter), EncodeField(m.edge), EncodeField(m.width), EncodeField(m.length))
  }

  function EncodeField(field: Option<int>): string {
    if field.Some? then Itoa(field.value) else ""
  }

  /** Measures that fit Go's int survive being sent as a request and mapped back. */
  lemma MeasuresRoundTrip(s: Shape, m: Measures)
    requires CarriesOnly(s, m)
    requires m.diameter.Some? ==> IsInt64(m.diameter.value)
    requires m.edge.Some? ==> IsInt64(m.edge.value)
    requires m.width.Some? ==> IsInt64(m.width.value)
    requires m.length.Some? ==> IsInt64(m.length.value)
    ensures ToDomain([RequestPan(ShapeName(s), Encode(m))]).pans == [WeightPan(ShapeName(s), m, 0.0)]
  {
    match s
    case Round =>
      AtoiItoaRoundTrip(m.diameter.value);
    case Square =>
      AtoiItoaRoundTrip(m.edge.value);
    case Rectangular =>
      AtoiItoaRoundTrip(m.width.value);
      AtoiItoaRoundTrip(m.length.value);
  }

  /** A measure string `Atoi` rejects as malformed becomes 0, for every shape that reads it. */
  lemma UnparsableMeasureReadsAsZero(text: string)
    requires !WellFormed(text)
    ensures MeasuresOf("round", RequestMeasures(text, "", "", "")).diameter == Some(0)
    ensures MeasuresOf("square", RequestMeasures("", text, "", "")).edge == Some(0)
    ensures MeasuresOf("rectangular", RequestMeasures("", "", text, text)) == Measures(None, None, Some(0), Some(0))
  {
  }

  /** A shape outside the three registered ones keeps no measures, whatever strings the request carries. */
  lemma UnknownShapeCarriesNothing(p: RequestPan)
    requires p.shape !in {"round", "square", "rectangular"}
    ensures ToDomain([p]).pans == [WeightPan(p.shape, NoMeasures, 0.0)]
  {
  }

  /** Two pans keep their order and their own measures. */
  lemma ToDomainExample()
    ensures ToDomain([
      RequestPan("round", RequestMeasures("30", "", "", "")),
      RequestPan("rectangular", RequestMeasures("", "", "20", "x"))]) == WeightPans([
      WeightPan("round", Measures(Some(30), None, None, None), 0.0),
      WeightPan("rectangular", Measures(None, None, Some(20), Some(0)), 0.0)], 0.0)
  {
    RoundThirty();
    RectangleWithBadLength();
  }

  lemma RoundThirty()
    ensures MeasuresOf("round", RequestMeasures("30", "", "", "")) == Measures(Some(30), None, None, None)
  {
    AtoiItoaRoundTrip(30);
    assert Itoa(30) == "30";
  }

  lemma RectangleWithBadLength()
    ensures MeasuresOf("rectangular", RequestMeasures("", "", "20", "x")) == Measures(None, None, Some(20), Some(0))
  {
    AtoiItoaRoundTrip(20);
    assert Itoa(20) == "20";
    assert !WellFormed("x");
  }
}
