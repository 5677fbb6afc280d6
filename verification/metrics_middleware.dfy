/**
 * The recipe manager's HTTP metrics middleware: for every request, the
 * events it emits on the domain metrics around the handler, given the
 * request's method, route template, final status code and duration.
 */
module MetricsMiddleware {
  import opened RecipeMetrics

  const ClientError: string := "client_error"
  const ServerError: string := "server_error"
  const UnknownError: string := "unknown_error"

  /** `getErrorType`: 4xx is a client error, 5xx and above a server error, anything else unknown. */
  function GetErrorType(statusCode: int): (r: string)
    ensures r == ClientError <==> 400 <= statusCode < 500
    ensures r == ServerError <==> statusCode >= 500
    ensures r == UnknownError <==> statusCode < 400
  {
    if statusCode >= 400 && statusCode < 500 then ClientError
    else if statusCode >= 500 then ServerError
    else UnknownError
  }

  const RecipeEndpoints: seq<string> := [
    "/api/v1/recipes",
    "/api/v1/recipes/:id",
    "/api/v1/recipes/search",
    "/api/v1/recipes/aggregate",
    "/api/v1/recipes/author/:author"]

  const RetrievalEndpoints: seq<string> := [
    "/api/v1/recipes/:id",
    "/api/v1/recipes/search",
    "/api/v1/recipes/author/:author"]

  const AggregationEndpoint: string := "/api/v1/recipes/aggregate"

  /** The collection route; every recipe route lies beneath it. */
  const RecipesRoot: string := "/api/v1/recipes"

  /**
   * The search loop of `isRecipeEndpoint` and `isRecipeRetrievalEndpoint`:
   * front to back, the first equal entry ends it.
   */
  function Contains(endpoints: seq<string>, endpoint: string): (found: bool)
    ensures found <==> endpoint in endpoints
  {
    if |endpoints| == 0 then false
    else if endpoints[0] == endpoint then true
    else Contains(endpoints[1..], endpoint)
  }

  /** `isRecipeEndpoint`: one of the five recipe routes, all of them under the collection route. */
  function IsRecipeEndpoint(endpoint: string): (b: bool)
    ensures b ==> |RecipesRoot| <= |endpoint| && endpoint[..|RecipesRoot|] == RecipesRoot
  {
    endpoint in RecipeEndpoints
  }

  /** `isRecipeRetrievalEndpoint`: one of the three retrieval routes, all of them recipe routes. */
  function IsRetrievalEndpoint(endpoint: string): (b: bool)
    ensures b ==> IsRecipeEndpoint(endpoint) && endpoint != RecipesRoot
  {
    endpoint in RetrievalEndpoints
  }

  /** `isRecipeAggregationEndpoint`: a recipe route, and not a retrieval one. */
  function IsAggregationEndpoint(endpoint: string): (b: bool)
    ensures b ==> IsRecipeEndpoint(endpoint) && !IsRetrievalEndpoint(endpoint)
  {
    endpoint == AggregationEndpoint
  }

  /** The search loops of both classifiers answer as membership in their lists does. */
  lemma SearchLoopsClassify(endpoint: string)
    ensures Contains(RecipeEndpoints, endpoint) == IsRecipeEndpoint(endpoint)
    ensures Contains(RetrievalEndpoints, endpoint) == IsRetrievalEndpoint(endpoint)
  {
  }

  /**
   * Retrieval endpoints are recipe endpoints; the aggregation endpoint is a
   * recipe endpoint and not a retrieval one; the collection endpoint is the
   * one recipe endpoint that is neither.
   */
  lemma EndpointClasses(endpoint: string)
    ensures IsRetrievalEndpoint(endpoint) ==> IsRecipeEndpoint(endpoint)
    ensures IsAggregationEndpoint(endpoint) ==> IsRecipeEndpoint(endpoint) && !IsRetrievalEndpoint(endpoint)
    ensures IsRecipeEndpoint(endpoint) && !IsRetrievalEndpoint(endpoint) && !IsAggregationEndpoint(endpoint)
      <==> endpoint == RecipesRoot
  {
  }

  predicate Succeeded(statusCode: int) {
    200 <= statusCode < 300
  }

  /**
   * `recordRecipeMetrics`: on a retrieval endpoint a 2xx status records the
   * retrieval duration and any other one a retrieval error of its type; the
   * aggregation endpoint likewise with the aggregation counters; any other
   * endpoint records nothing.
   */
  function RecordRecipeMetrics(endpoint: string, statusCode: int, duration: int): (events: seq<Event>)
    ensures IsRetrievalEndpoint(endpoint) ==>
      events == if Succeeded(statusCode) then [RetrievalDuration(duration)]
                else [RetrievalError(GetErrorType(statusCode))]
    ensures IsAggregationEndpoint(endpoint) ==>
      events == if Succeeded(statusCode) then [AggregationDuration(duration)]
                else [AggregationError(GetErrorType(statusCode))]
    ensures !IsRetrievalEndpoint(endpoint) && !IsAggregationEndpoint(endpoint) ==> events == []
  {
    if IsRetrievalEndpoint(endpoint) then
      if Succeeded(statusCode) then [RetrievalDuration(duration)]
      else [RetrievalError(GetErrorType(statusCode))]
    else if IsAggregationEndpoint(endpoint) then
      if Succeeded(statusCode) then [AggregationDuration(duration)]
      else [AggregationError(GetErrorType(statusCode))]
    else []
  }

  /**
   * The events of one request through `HTTPMetricsMiddleware`. The active
   * connection gauge is set from a counter that always reads 0, so to 1
   * before the handler and to -1 after it.
   */
  function HandleRequest(httpMethod: string, endpoint: string, statusCode: int, duration: int): (events: seq<Event>)
    ensures |events| >= 4
    ensures events[0] == ActiveHttpConnections(1) && events[|events| - 1] == ActiveHttpConnections(-1)
    ensures events[1..3] == [HttpRequest(httpMethod, endpoint, statusCode), HttpRequestDuration(httpMethod, endpoint, duration)]
    ensures events[3..|events| - 1] ==
      if IsRecipeEndpoint(endpoint) then RecordRecipeMetrics(endpoint, statusCode, duration) else []
    ensures !IsRecipeEndpoint(endpoint) ==> |events| == 4
  {
    [ActiveHttpConnections(1), HttpRequest(httpMethod, endpoint, statusCode), HttpRequestDuration(httpMethod, endpoint, duration)]
      + RecipeEventsOf(endpoint, statusCode, duration) + [ActiveHttpConnections(-1)]
  }

  /** Every request counts once and records one duration, both under its method and route template. */
  lemma OneCountOneDurationPerRequest(httpMethod: string, endpoint: string, statusCode: int, duration: int)
    ensures var events := HandleRequest(httpMethod, endpoint, statusCode, duration);
      && multiset(events)[HttpRequest(httpMethod, endpoint, statusCode)] == 1
      && multiset(events)[HttpRequestDuration(httpMethod, endpoint, duration)] == 1
  {
    var request := HttpRequest(httpMethod, endpoint, statusCode);
    var timing := HttpRequestDuration(httpMethod, endpoint, duration);
    var head := [ActiveHttpConnections(1), request, timing];
    var recipe := RecipeEventsOf(endpoint, statusCode, duration);
    var tail := [ActiveHttpConnections(-1)];
    assert HandleRequest(httpMethod, endpoint, statusCode, duration) == head + recipe + tail;
    RecipeEventsAreNotHttp(endpoint, statusCode, duration);
    OnlyInHead(head, recipe, tail, request);
    OnlyInHead(head, recipe, tail, timing);
    HeadCounts(request, timing);
  }

  /** The recipe-specific events of a request: those of `recordRecipeMetrics`, on a recipe endpoint only. */
  function RecipeEventsOf(endpoint: string, statusCode: int, duration: int): seq<Event> {
    if IsRecipeEndpoint(endpoint) then RecordRecipeMetrics(endpoint, statusCode, duration) else []
  }

  lemma RecipeEventsAreNotHttp(endpoint: string, statusCode: int, duration: int)
    ensures forall e :: e in RecipeEventsOf(endpoint, statusCode, duration) ==> !e.HttpRequest? && !e.HttpRequestDuration?
  {
  }

  /** The request's count and duration are the only HTTP events of the request. */
  lemma NoOtherHttpEvents(httpMethod: string, endpoint: string, statusCode: int, duration: int)
    ensures forall e :: e in HandleRequest(httpMethod, endpoint, statusCode, duration) ==>
      (e.HttpRequest? ==> e == HttpRequest(httpMethod, endpoint, statusCode))
      && (e.HttpRequestDuration? ==> e == HttpRequestDuration(httpMethod, endpoint, duration))
  {
    assert HandleRequest(httpMethod, endpoint, statusCode, duration) ==
      [ActiveHttpConnections(1), HttpRequest(httpMethod, endpoint, statusCode),
       HttpRequestDuration(httpMethod, endpoint, duration)] + RecipeEventsOf(endpoint, statusCode, duration)
      + [ActiveHttpConnections(-1)];
    RecipeEventsAreNotHttp(endpoint, statusCode, duration);
  }

  lemma HeadCounts(request: Event, timing: Event)
    requires request.HttpRequest? && timing.HttpRequestDuration?
    ensures multiset([ActiveHttpConnections(1), request, timing])[request] == 1
    ensures multiset([ActiveHttpConnections(1), request, timing])[timing] == 1
  {
    assert multiset([ActiveHttpConnections(1), request, timing])
      == multiset{ActiveHttpConnections(1)} + multiset{request} + multiset{timing};
  }

  /** An event absent from the middle and the end is counted as often as the beginning holds it. */
  lemma OnlyInHead(head: seq<Event>, middle: seq<Event>, tail: seq<Event>, x: Event)
    requires x !in middle && x !in tail
    ensures multiset(head + middle + tail)[x] == multiset(head)[x]
  {
    assert multiset(head + middle + tail) == multiset(head) + multiset(middle) + multiset(tail);
  }

  /** A recipe endpoint other than the collection gets exactly one recipe-specific event. */
  lemma OneRecipeEventPerRecipeRequest(httpMethod: string, endpoint: string, statusCode: int, duration: int)
    requires IsRetrievalEndpoint(endpoint) || IsAggregationEndpoint(endpoint)
    ensures |HandleRequest(httpMethod, endpoint, statusCode, duration)| == 5
  {
    EndpointClasses(endpoint);
  }

  /** A successful and a failing request to a recipe by id. */
  lemma RetrievalExamples()
    ensures HandleRequest("GET", "/api/v1/recipes/:id", 200, 7)[3] == RetrievalDuration(7)
    ensures var events := HandleRequest("GET", "/api/v1/recipes/:id", 404, 7);
      events[3] == RetrievalError(ClientError) && forall e :: e in events ==> !e.RetrievalDuration?
  {
    ById();
  }

  lemma ById()
    ensures IsRecipeEndpoint("/api/v1/recipes/:id") && IsRetrievalEndpoint("/api/v1/recipes/:id")
  {
    assert RecipeEndpoints[1] == "/api/v1/recipes/:id";
    assert RetrievalEndpoints[0] == "/api/v1/recipes/:id";
  }

  /** The collection route and a route outside the recipes record nothing beyond the HTTP metrics. */
  lemma NonRetrievalExamples()
    ensures |HandleRequest("GET", "/api/v1/recipes", 200, 7)| == 4
    ensures |HandleRequest("GET", "/health", 200, 7)| == 4
  {
    EndpointClasses("/api/v1/recipes");
    assert !IsRecipeEndpoint("/health");
  }

  /** The classification of status codes the middleware's tests list. */
  lemma ErrorTypeExamples()
    ensures GetErrorType(200) == UnknownError
    ensures GetErrorType(400) == ClientError && GetErrorType(404) == ClientError
    ensures GetErrorType(500) == ServerError && GetErrorType(503) == ServerError
  {
  }
}
