/**
 * The calculator of the ingredients-balancer service: resolve every requested
 * pan through its shape strategy and total the dough weights, aborting on the
 * first pan that cannot be resolved.
 */
module WeightCalculator {
  import opened Wrappers
  import opened PanGeometry
  import opened BalancerDomain
  import opened PanStrategies
  import opened Sequences

  /** One decoded request pan: a shape name and its string-encoded measures. */
  datatype PanInput = PanInput(shape: string, measures: map<string, string>)

  /** A supported shape comes with every measure key its strategy reads (a missing key panics in the source). */
  predicate Readable(p: PanInput) {
    GetStrategy(p.shape).Success? ==> HasKeysFor(GetStrategy(p.shape).value, p.measures)
  }

  predicate AllReadable(items: seq<PanInput>) {
    forall i :: 0 <= i < |items| ==> Readable(items[i])
  }

  const InvalidJson: string := "invalid JSON format"
  const UnsupportedShape: string := "unsupported shape"
  const ErrorProcessingPan: string := "error processing pan"

  /** One iteration of the loop: the calculator's own error text replaces the strategy's. */
  function ResolvePan(p: PanInput): (r: Result<WeightPan, string>)
    requires Readable(p)
    ensures r.Failure? && GetStrategy(p.shape).Failure? ==> r.error == UnsupportedShape
    ensures r.Failure? && GetStrategy(p.shape).Success? ==> r.error == ErrorProcessingPan
    ensures r.Success? <==> GetStrategy(p.shape).Success? && Calculate(GetStrategy(p.shape).value, p.measures).Success?
    ensures r.Success? ==> r == Calculate(GetStrategy(p.shape).value, p.measures)
  {
    match GetStrategy(p.shape)
    case Failure(_) => Failure(UnsupportedShape)
    case Success(strategy) =>
      match Calculate(strategy, p.measures)
      case Failure(_) => Failure(ErrorProcessingPan)
      case Success(pan) => Success(pan)
  }

  /**
   * The loop over the request pans. It succeeds exactly when every pan resolves,
   * and then returns the resolved pans one-to-one and in order, with their
   * weights summed into the total.
   */
  function ResolveAll(items: seq<PanInput>): (r: Result<WeightPans, string>)
    requires AllReadable(items)
    ensures r.Success? <==> forall i :: 0 <= i < |items| ==> ResolvePan(items[i]).Success?
    ensures r.Success? ==> |r.value.pans| == |items|
    ensures r.Success? ==> forall i :: 0 <= i < |items| ==> ResolvePan(items[i]) == Success(r.value.pans[i])
    ensures r.Success? ==> r.value.totalDoughWeight == SumWeights(r.value.pans)
  {
    match MapUntilFailure(items, ResolvePan)
    case Failure(e) => Failure(e)
    case Success(pans) => Success(WeightPans(pans, SumWeights(pans)))
  }

  /** `TotalDoughWeightByPans`: an undecodable body is the only error before the loop. */
  function TotalDoughWeightByPans(body: Option<seq<PanInput>>): (r: Result<WeightPans, string>)
    requires body.Some? ==> AllReadable(body.value)
    ensures body.None? ==> r == Failure(InvalidJson)
    ensures body.Some? ==> r == ResolveAll(body.value)
  {
    match body
    case None => Failure(InvalidJson)
    case Some(items) => ResolveAll(items)
  }

  /** The first pan that fails decides the error; nothing after it is looked at. */
  lemma FirstUnresolvedPanWins(items: seq<PanInput>, k: nat)
    requires AllReadable(items)
    requires k < |items| && ResolvePan(items[k]).Failure?
    requires forall i :: 0 <= i < k ==> ResolvePan(items[i]).Success?
    ensures ResolveAll(items) == Failure(ResolvePan(items[k]).error)
  {
    FirstFailureWins(items, ResolvePan, k);
  }

  /** Aborting is all or nothing: when any pan is unsupported there is no partial result. */
  lemma UnsupportedShapeAborts(items: seq<PanInput>, k: nat)
    requires AllReadable(items)
    requires k < |items| && GetStrategy(items[k].shape).Failure?
    ensures ResolveAll(items).Failure?
    ensures (forall i :: 0 <= i < k ==> ResolvePan(items[i]).Success?) ==>
      ResolveAll(items) == Failure(UnsupportedShape)
  {
    if forall i :: 0 <= i < k ==> ResolvePan(items[i]).Success? {
      FirstUnresolvedPanWins(items, k);
    }
  }

  /** The calculator test table: round 20 plus square 20, and an empty request. */
  lemma CalculatorExamples()
    ensures TotalDoughWeightByPans(Some([])) == Success(WeightPans([], 0.0))
    ensures var r := TotalDoughWeightByPans(Some([
        PanInput("round", map[DiameterKey := "20"]),
        PanInput("square", map[EdgeKey := "20"])]));
      r.Success? && |r.value.pans| == 2 && r.value.totalDoughWeight == (PI * 100.0 + 400.0) / 2.0
  {
    var items := [PanInput("round", map[DiameterKey := "20"]), PanInput("square", map[EdgeKey := "20"])];
    RoundStrategyExample();
    SquareAndRectangularStrategyExamples();
    assert ResolvePan(items[0]).Success? && ResolvePan(items[1]).Success?;
    var pans := ResolveAll(items).value.pans;
    assert pans[..1][..0] == [];
    assert SumWeights(pans[..1]) == pans[0].doughWeight;
    assert SumWeights(pans) == pans[0].doughWeight + pans[1].doughWeight;
  }

  /** The calculator test table: an unknown shape and an unparsable measure. */
  lemma CalculatorFailureExamples()
    ensures TotalDoughWeightByPans(Some([PanInput("triangle", map[WidthKey := "20", LengthKey := "30"])]))
      == Failure(UnsupportedShape)
    ensures TotalDoughWeightByPans(Some([PanInput("round", map[DiameterKey := "invalid"])]))
      == Failure(ErrorProcessingPan)
  {
    FailingStrategyExamples();
    FirstUnresolvedPanWins([PanInput("triangle", map[WidthKey := "20", LengthKey := "30"])], 0);
    FirstUnresolvedPanWins([PanInput("round", map[DiameterKey := "invalid"])], 0);
  }
}
