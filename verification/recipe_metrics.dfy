/**
 * The recipe manager's domain metrics: every call on the metrics sink is an
 * event, and a recorder is the sequence of events it emits. Durations are
 * `time.Duration` values, nanoseconds as an integer.
 */
module RecipeMetrics {
  /** One call on the metrics sink, with its arguments. */
  datatype Event =
    | RecipeRetrieval(recipeUuid: string)
    | RetrievalDuration(duration: int)
    | RetrievalError(errorType: string)
    | RecipeAggregation(recipeType: string)
    | AggregationDuration(duration: int)
    | AggregationError(errorType: string)
    | CalculatorServiceCall(success: bool)
    | CalculatorServiceDuration(duration: int)
    | BalancerServiceCall(success: bool)
    | BalancerServiceDuration(duration: int)
    | DatabaseOperation(operation: string, success: bool)
    | DatabaseOperationDuration(operation: string, duration: int)
    | HttpRequest(httpMethod: string, endpoint: string, statusCode: int)
    | HttpRequestDuration(httpMethod: string, endpoint: string, duration: int)
    | ActiveHttpConnections(count: int)
    | RecipeByAuthor(author: string)
    | RecipeComplexity(complexity: int)
    | PanSize(panSize: string)
    | IngredientVariations(variationCount: int)

  /** An event that reports a failure of a recipe operation. */
  predicate IsErrorEvent(e: Event) {
    e.RetrievalError? || e.AggregationError?
  }

  /** An event only a successful recipe operation reports. */
  predicate IsSuccessEvent(e: Event) {
    e.RecipeAggregation? || e.RecipeByAuthor? || e.RecipeComplexity? || e.IngredientVariations?
  }

  datatype RecipeOperationResult = RecipeOperationResult(
    operationType: string,
    duration: int,
    success: bool,
    errorType: string,
    recipeUuid: string,
    recipeAuthor: string,
    pansCount: int,
    complexity: int)

  /**
   * `MetricsRecorder.RecordRecipeOperation`. Always the retrieval duration,
   * then a retrieval for the recipe; on success the aggregation, the author,
   * the complexity and, with pans, the number of pans; on failure both error
   * counters with the result's error type.
   */
  function RecordRecipeOperation(result: RecipeOperationResult): (events: seq<Event>)
    ensures |events| >= 4
    ensures events[..2] == [RetrievalDuration(result.duration), RecipeRetrieval(result.recipeUuid)]
    ensures result.success ==>
      && |events| >= 5
      && events[2..5] == [RecipeAggregation(result.operationType), RecipeByAuthor(result.recipeAuthor),
                          RecipeComplexity(result.complexity)]
    ensures IngredientVariations(result.pansCount) in events <==> result.success && result.pansCount > 0
    ensures !result.success ==>
      events[2..] == [RetrievalError(result.errorType), AggregationError(result.errorType)]
    ensures forall e :: e in events && IsErrorEvent(e) ==> !result.success
    ensures forall e :: e in events && IsSuccessEvent(e) ==> result.success
  {
    var common := [RetrievalDuration(result.duration), RecipeRetrieval(result.recipeUuid)];
    if result.success then
      var variations := if result.pansCount > 0 then [IngredientVariations(result.pansCount)] else [];
      common + [RecipeAggregation(result.operationType), RecipeByAuthor(result.recipeAuthor),
                RecipeComplexity(result.complexity)] + variations
    else
      common + [RetrievalError(result.errorType), AggregationError(result.errorType)]
  }

  /**
   * A successful and a failed operation share no event after the common
   * retrieval prefix: success and failure are told apart by the events alone.
   */
  lemma OutcomesDisjoint(ok: RecipeOperationResult, failed: RecipeOperationResult)
    requires ok.success && !failed.success
    ensures forall e :: e in RecordRecipeOperation(ok)[2..] ==> e !in RecordRecipeOperation(failed)[2..]
  {
    var a := RecordRecipeOperation(ok);
    var b := RecordRecipeOperation(failed);
    forall e | e in a[2..]
      ensures e !in b[2..]
    {
      assert e in a;
      assert IsSuccessEvent(e) || e.IngredientVariations?;
    }
  }

  /** The number of events of an operation: 4 on failure, 5 or 6 on success. */
  lemma OperationEventCount(result: RecipeOperationResult)
    ensures |RecordRecipeOperation(result)| ==
      if !result.success then 4 else if result.pansCount > 0 then 6 else 5
  {
  }

  /** `RecordCalculatorCall`: the call counter, then the duration. */
  function RecordCalculatorCall(duration: int, success: bool): (events: seq<Event>)
    ensures |events| == 2 && events[0].CalculatorServiceCall? && events[1].CalculatorServiceDuration?
    ensures events[0].success == success && events[1].duration == duration
  {
    [CalculatorServiceCall(success), CalculatorServiceDuration(duration)]
  }

  /** `RecordBalancerCall`: the call counter, then the duration. */
  function RecordBalancerCall(duration: int, success: bool): (events: seq<Event>)
    ensures |events| == 2 && events[0].BalancerServiceCall? && events[1].BalancerServiceDuration?
    ensures events[0].success == success && events[1].duration == duration
  {
    [BalancerServiceCall(success), BalancerServiceDuration(duration)]
  }

  /** `RecordDatabaseOperation`: the operation counter, then its duration, both under the operation's name. */
  function RecordDatabaseOperation(operation: string, duration: int, success: bool): (events: seq<Event>)
    ensures |events| == 2 && events[0].DatabaseOperation? && events[1].DatabaseOperationDuration?
    ensures events[0].operation == operation && events[1].operation == operation
    ensures events[0].success == success && events[1].duration == duration
  {
    [DatabaseOperation(operation, success), DatabaseOperationDuration(operation, duration)]
  }
}
