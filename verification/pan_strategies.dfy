/**
 * The shape strategies of the ingredients-balancer service: the strategy is
 * chosen by name, reads its measures as decimal strings, and reports half
 * the pan's area as its dough weight.
 */
module PanStrategies {
  import opened Wrappers
  import opened GoInt
  import opened PanGeometry
  import opened BalancerDomain

  /** The strategy registry: exactly the three shape names, any other is refused by name. */
  function GetStrategy(shape: string): (r: Result<Shape, string>)
    ensures r.Success? <==> shape == "round" || shape == "square" || shape == "rectangular"
    ensures r.Success? ==> ShapeName(r.value) == shape
    ensures r.Failure? ==> r.error == "unsupported shape: " + shape
  {
    match ShapeOf(shape)
    case Some(s) => Success(s)
    case None => Failure("unsupported shape: " + shape)
  }

  /** The measures map holds every key the strategy reads (a missing key panics in the source). */
  predicate HasKeysFor(s: Shape, measures: map<string, string>) {
    KeysOf(s) <= measures.Keys
  }

  /** The error text each strategy returns when a measure does not parse. */
  function InvalidMeasureMessage(s: Shape): string {
    match s
    case Round => "invalid diameter"
    case Square => "invalid edge"
    case Rectangular => "invalid width or length"
  }

  function CalculateRound(measures: map<string, string>): Result<WeightPan, string>
    requires DiameterKey in measures
  {
    var diameter := Atoi(measures[DiameterKey]);
    if diameter.err.Some? then Failure("invalid diameter")
    else
      var area := CircleArea(diameter.value);
      Success(WeightPan("round", Measures(Some(diameter.value), None, None, None), area / 2.0))
  }

  function CalculateSquare(measures: map<string, string>): Result<WeightPan, string>
    requires EdgeKey in measures
  {
    var edge := Atoi(measures[EdgeKey]);
    if edge.err.Some? then Failure("invalid edge")
    else
      var area := SquareArea(edge.value);
      Success(WeightPan("square", Measures(None, Some(edge.value), None, None), area / 2.0))
  }

  function CalculateRectangular(measures: map<string, string>): Result<WeightPan, string>
    requires WidthKey in measures && LengthKey in measures
  {
    var width := Atoi(measures[WidthKey]);
    var length := Atoi(measures[LengthKey]);
    if width.err.Some? || length.err.Some? then Failure("invalid width or length")
    else
      var area := RectangleArea(width.value, length.value);
      Success(WeightPan("rectangular", Measures(None, None, Some(width.value), Some(length.value)), area / 2.0))
  }

  /**
   * The `Calculate` method of the strategy for shape `s`. It fails exactly when
   * one of the shape's measures does not parse; otherwise the pan carries the
   * canonical shape name, only that shape's measures, and half their area.
   */
  function Calculate(s: Shape, measures: map<string, string>): (r: Result<WeightPan, string>)
    requires HasKeysFor(s, measures)
    ensures r.Success? <==> forall k :: k in KeysOf(s) ==> Atoi(measures[k]).err.None?
    ensures r.Failure? ==> r.error == InvalidMeasureMessage(s)
    ensures r.Success? ==> r.value.shape == ShapeName(s) && CarriesOnly(s, r.value.measures)
    ensures r.Success? ==> ReadFrom(r.value.measures, measures)
    ensures r.Success? ==> r.value.doughWeight * 2.0 == MeasuredArea(s, r.value.measures)
  {
    match s
    case Round => CalculateRound(measures)
    case Square => CalculateSquare(measures)
    case Rectangular => CalculateRectangular(measures)
  }

  /**
   * Parsing is the only failure: any int64 written as a decimal string, zero and
   * negatives included, yields a pan whose weight is half the shape's area.
   */
  lemma AnyParsedMeasureYieldsPan(d: int, w: int, l: int)
    requires IsInt64(d) && IsInt64(w) && IsInt64(l)
    ensures Calculate(Round, map[DiameterKey := Itoa(d)]) ==
      Success(WeightPan("round", Measures(Some(d), None, None, None), CircleArea(d) / 2.0))
    ensures Calculate(Square, map[EdgeKey := Itoa(d)]) ==
      Success(WeightPan("square", Measures(None, Some(d), None, None), SquareArea(d) / 2.0))
    ensures Calculate(Rectangular, map[WidthKey := Itoa(w), LengthKey := Itoa(l)]) ==
      Success(WeightPan("rectangular", Measures(None, None, Some(w), Some(l)), RectangleArea(w, l) / 2.0))
  {
    ParsedRound(d);
    ParsedSquare(d);
    ParsedRectangular(w, l);
  }

  lemma ParsedRound(d: int)
    requires IsInt64(d)
    ensures CalculateRound(map[DiameterKey := Itoa(d)]) ==
      Success(WeightPan("round", Measures(Some(d), None, None, None), CircleArea(d) / 2.0))
  {
    AtoiItoaRoundTrip(d);
    assert map[DiameterKey := Itoa(d)][DiameterKey] == Itoa(d);
  }

  lemma ParsedSquare(e: int)
    requires IsInt64(e)
    ensures CalculateSquare(map[EdgeKey := Itoa(e)]) ==
      Success(WeightPan("square", Measures(None, Some(e), None, None), SquareArea(e) / 2.0))
  {
    AtoiItoaRoundTrip(e);
    assert map[EdgeKey := Itoa(e)][EdgeKey] == Itoa(e);
  }

  lemma ParsedRectangular(w: int, l: int)
    requires IsInt64(w) && IsInt64(l)
    ensures CalculateRectangular(map[WidthKey := Itoa(w), LengthKey := Itoa(l)]) ==
      Success(WeightPan("rectangular", Measures(None, None, Some(w), Some(l)), RectangleArea(w, l) / 2.0))
  {
    AtoiItoaRoundTrip(w);
    AtoiItoaRoundTrip(l);
    var m := map[WidthKey := Itoa(w), LengthKey := Itoa(l)];
    assert WidthKey != LengthKey;
    assert m[WidthKey] == Itoa(w) && m[LengthKey] == Itoa(l);
  }

  /** A 20 cm round pan: its area is 100 PI and, halved, that is its dough weight. */
  lemma RoundStrategyExample()
    ensures Calculate(Round, map[DiameterKey := "20"]) ==
      Success(WeightPan("round", Measures(Some(20), None, None, None), PI * 100.0 / 2.0))
  {
    assert Itoa(20) == "20";
    ParsedRound(20);
    assert CircleArea(20) == PI * 100.0;
  }

  /** A 20 cm square weighs half its area of 400, and a 20 x 30 rectangle half of 600. */
  lemma SquareAndRectangularStrategyExamples()
    ensures Calculate(Square, map[EdgeKey := "20"]) ==
      Success(WeightPan("square", Measures(None, Some(20), None, None), 200.0))
    ensures Calculate(Rectangular, map[WidthKey := "20", LengthKey := "30"]) ==
      Success(WeightPan("rectangular", Measures(None, None, Some(20), Some(30)), 300.0))
  {
    assert Itoa(20) == "20";
    assert Itoa(30) == "30";
    ParsedSquare(20);
    ParsedRectangular(20, 30);
    SmallProductsDoNotWrap(20, 20);
    SmallProductsDoNotWrap(20, 30);
  }

  /** A malformed diameter and an unknown shape name both fail, each with its own message. */
  lemma FailingStrategyExamples()
    ensures Calculate(Round, map[DiameterKey := "invalid"]) == Failure("invalid diameter")
    ensures GetStrategy("triangle") == Failure("unsupported shape: triangle")
  {
    AtoiRejections();
    assert "unsupported shape: " + "triangle" == "unsupported shape: triangle";
  }
}
