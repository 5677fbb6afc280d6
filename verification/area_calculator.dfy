/**
 * The calculator of the dough-calculator service: a map from shape name to
 * strategy, raw (unhalved) areas, measure parse errors discarded, and pans of
 * an unknown shape skipped rather than rejected.
 */
module AreaCalculator {
  import opened Wrappers
  import opened GoInt
  import opened PanGeometry
  import opened Sequences
  import BalancerDomain
  import PanStrategies

  /** A pan of this service: the plain area, not halved. */
  datatype Pan = Pan(shape: string, measures: Measures, area: real)

  datatype Pans = Pans(pans: seq<Pan>, total: real)

  /** One decoded request pan: the `shape` and `measures` entries of the JSON object. */
  datatype RawPan = RawPan(shape: string, measures: map<string, string>)

  /** A registered shape comes with every measure key its strategy reads (a missing key panics in the source). */
  predicate Readable(p: RawPan) {
    ShapeOf(p.shape).Some? ==> KeysOf(ShapeOf(p.shape).value) <= p.measures.Keys
  }

  predicate AllReadable(items: seq<RawPan>) {
    forall i :: 0 <= i < |items| ==> Readable(items[i])
  }

  const InvalidJson: string := "invalid JSON format"

  /**
   * An entry of the `strategies` map. It never fails: a measure that does not
   * parse is read as whatever `Atoi` returned alongside its error.
   */
  function Strategy(s: Shape, data: map<string, string>): (pan: Pan)
    requires KeysOf(s) <= data.Keys
    ensures pan.shape == ShapeName(s) && CarriesOnly(s, pan.measures)
    ensures ReadFrom(pan.measures, data)
    ensures pan.area == MeasuredArea(s, pan.measures)
  {
    match s
    case Round =>
      var diameter := Atoi(data[DiameterKey]).value;
      Pan("round", Measures(Some(diameter), None, None, None), CircleArea(diameter))
    case Square =>
      var edge := Atoi(data[EdgeKey]).value;
      Pan("square", Measures(None, Some(edge), None, None), SquareArea(edge))
    case Rectangular =>
      var width := Atoi(data[WidthKey]).value;
      var length := Atoi(data[LengthKey]).value;
      Pan("rectangular", Measures(None, None, Some(width), Some(length)), RectangleArea(width, length))
  }

  /** The map lookup: a registered shape is resolved, any other is skipped (only logged in the source). */
  function Lookup(p: RawPan): (r: Option<Pan>)
    requires Readable(p)
    ensures r.Some? <==> ShapeOf(p.shape).Some?
  {
    match ShapeOf(p.shape)
    case None => None
    case Some(s) => Some(Strategy(s, p.measures))
  }

  function SumAreas(pans: seq<Pan>): real {
    if |pans| == 0 then 0.0 else SumAreas(pans[..|pans| - 1]) + pans[|pans| - 1].area
  }

  /**
   * `TotalPansWeight`. Only an undecodable body is an error. Otherwise the result
   * holds one pan per request pan of a registered shape, taken in request order,
   * and the total is the sum of their areas.
   */
  function TotalPansWeight(body: Option<seq<RawPan>>): (r: Result<Pans, string>)
    requires body.Some? ==> AllReadable(body.value)
    ensures r.Failure? <==> body.None?
    ensures r.Failure? ==> r.error == InvalidJson
    ensures r.Success? ==> r.value.total == SumAreas(r.value.pans)
    ensures r.Success? ==> |r.value.pans| == |KeptIndices(body.value, Lookup)|
    ensures r.Success? ==> forall j :: 0 <= j < |r.value.pans| ==>
      var p := body.value[KeptIndices(body.value, Lookup)[j]];
      ShapeOf(p.shape).Some? && r.value.pans[j] == Strategy(ShapeOf(p.shape).value, p.measures)
  {
    match body
    case None => Failure(InvalidJson)
    case Some(items) =>
      var pans := FilterMap(items, Lookup);
      Success(Pans(pans, SumAreas(pans)))
  }

  /**
   * The pans returned are taken from strictly increasing request positions, and
   * a request pan is taken exactly when its shape is registered.
   */
  lemma KeepsRegisteredShapesInOrder(items: seq<RawPan>)
    requires AllReadable(items)
    ensures StrictlyIncreasing(KeptIndices(items, Lookup))
    ensures forall i :: 0 <= i < |items| ==> (i in KeptIndices(items, Lookup) <==> ShapeOf(items[i].shape).Some?)
  {
    KeptIndicesExactly(items, Lookup);
  }

  /** A measure that is not a decimal integer reads as 0, so the pan's area is 0. */
  lemma UnparsableMeasureReadsAsZero(s: Shape, data: map<string, string>)
    requires KeysOf(s) <= data.Keys
    requires exists k :: k in KeysOf(s) && !WellFormed(data[k])
    ensures Strategy(s, data).area == 0.0
  {
    var k :| k in KeysOf(s) && !WellFormed(data[k]);
    assert Atoi(data[k]).value == 0;
    match s
    case Round =>
    case Square =>
    case Rectangular =>
      var w, l := Atoi(data[WidthKey]).value, Atoi(data[LengthKey]).value;
      assert w == 0 || l == 0;
      assert w * l == 0;
  }

  /** Request pans of an unregistered shape are skipped, so they never change the result. */
  lemma UnregisteredShapeIsSkipped(items: seq<RawPan>, p: RawPan)
    requires AllReadable(items) && ShapeOf(p.shape).None?
    ensures TotalPansWeight(Some(items + [p])) == TotalPansWeight(Some(items))
  {
    assert (items + [p])[..|items|] == items;
    assert Lookup(p).None?;
    assert FilterMap(items + [p], Lookup) == FilterMap(items, Lookup);
  }

  /**
   * Across the two services: when every measure parses, the ingredients-balancer
   * strategy yields the same pan with half of this service's area as its dough weight.
   */
  lemma WeightIsHalfTheArea(s: Shape, data: map<string, string>)
    requires KeysOf(s) <= data.Keys
    requires forall k :: k in KeysOf(s) ==> Atoi(data[k]).err.None?
    ensures var pan := Strategy(s, data);
      PanStrategies.Calculate(s, data) == Success(BalancerDomain.WeightPan(pan.shape, pan.measures, pan.area / 2.0))
  {
    var r := PanStrategies.Calculate(s, data);
    var pan := Strategy(s, data);
    ReadingIsUnique(s, r.value.measures, pan.measures, data);
  }

  lemma RoundTwentyArea()
    ensures Lookup(RawPan("round", map[DiameterKey := "20"])) ==
      Some(Pan("round", Measures(Some(20), None, None, None), PI * 100.0))
  {
    AtoiItoaRoundTrip(20);
    assert Itoa(20) == "20";
  }

  lemma SquareTwentyArea()
    ensures Lookup(RawPan("square", map[EdgeKey := "20"])) ==
      Some(Pan("square", Measures(None, Some(20), None, None), 400.0))
  {
    AtoiItoaRoundTrip(20);
    assert Itoa(20) == "20";
    SmallProductsDoNotWrap(20, 20);
  }

  /** A round pan of diameter 20, a triangle and a square pan of edge 20: the triangle is skipped. */
  lemma TotalPansWeightExample()
    ensures TotalPansWeight(Some([
        RawPan("round", map[DiameterKey := "20"]),
        RawPan("triangle", map[]),
        RawPan("square", map[EdgeKey := "20"])])) == Success(Pans([
        Pan("round", Measures(Some(20), None, None, None), PI * 100.0),
        Pan("square", Measures(None, Some(20), None, None), 400.0)], PI * 100.0 + 400.0))
  {
    assert ShapeOf("round") == Some(Round) && ShapeOf("square") == Some(Square);
    RoundTwentyArea();
    SquareTwentyArea();
    var round, triangle, square :=
      RawPan("round", map[DiameterKey := "20"]), RawPan("triangle", map[]), RawPan("square", map[EdgeKey := "20"]);
    assert ShapeOf("triangle") == None;
    assert Readable(round) && Readable(triangle) && Readable(square);
    assert Lookup(round).Some? && Lookup(triangle).None? && Lookup(square).Some?;
    FilterMapSkipsMiddle(round, triangle, square, Lookup);
    SumOfTwo(Lookup(round).value, Lookup(square).value);
  }

  lemma SumOfTwo(a: Pan, b: Pan)
    ensures SumAreas([a, b]) == a.area + b.area
  {
    assert [a][..0] == [];
    assert SumAreas([a]) == a.area;
    assert [a, b][..1] == [a];
  }

  /** A body that does not decode is the only failure. */
  lemma UndecodableBodyFails()
    ensures TotalPansWeight(None) == Failure("invalid JSON format")
  {
  }
}
