/**
 * The recipe manager's `RecipeService.Handle`: size the pans with the
 * calculator, fetch the recipe from the repository, and balance the recipe
 * over the sized pans, stopping at the first collaborator that fails. The
 * collaborators are parameters; the result comes with the calls made, in order.
 */
module RecipeService {
  import opened Wrappers

  /** A call `Handle` makes to one of its collaborators. */
  datatype Call<Id> = CalculatorCall | RepositoryCall(uuid: Id) | BalancerCall

  /**
   * `Handle`. `P` is the pans type, `Id` the recipe identifier, `R` the
   * recipe, `A` the aggregate and `E` the error.
   */
  function Handle<P, Id, R, A, E>(
    calculator: P -> Result<P, E>,
    repository: Id -> Result<R, E>,
    balancer: (R, P) -> Result<A, E>,
    uuid: Id,
    request: P): (out: (Result<A, E>, seq<Call<Id>>))
    ensures calculator(request).Failure? ==>
      out == (Failure(calculator(request).error), [CalculatorCall])
    ensures calculator(request).Success? && repository(uuid).Failure? ==>
      out == (Failure(repository(uuid).error), [CalculatorCall, RepositoryCall(uuid)])
    ensures calculator(request).Success? && repository(uuid).Success? ==>
      out == (balancer(repository(uuid).value, calculator(request).value),
              [CalculatorCall, RepositoryCall(uuid), BalancerCall])
  {
    match calculator(request)
    case Failure(e) => (Failure(e), [CalculatorCall])
    case Success(pans) =>
      match repository(uuid)
      case Failure(e) => (Failure(e), [CalculatorCall, RepositoryCall(uuid)])
      case Success(recipe) => (balancer(recipe, pans), [CalculatorCall, RepositoryCall(uuid), BalancerCall])
  }

  /**
   * `Handle` succeeds exactly when all three collaborators do, and then
   * returns the balancer's aggregate for the fetched recipe and the sized
   * pans; otherwise its error is the first collaborator's error.
   */
  lemma SucceedsIffAllSucceed<P, Id, R, A, E>(
    calculator: P -> Result<P, E>,
    repository: Id -> Result<R, E>,
    balancer: (R, P) -> Result<A, E>,
    uuid: Id,
    request: P)
    ensures var (result, _) := Handle(calculator, repository, balancer, uuid, request);
      result.Success? <==>
        && calculator(request).Success?
        && repository(uuid).Success?
        && balancer(repository(uuid).value, calculator(request).value).Success?
    ensures var (result, _) := Handle(calculator, repository, balancer, uuid, request);
      result.Success? ==> result.value == balancer(repository(uuid).value, calculator(request).value).value
    ensures var (result, _) := Handle(calculator, repository, balancer, uuid, request);
      result.Failure? ==> result.error == FirstError(calculator, repository, balancer, uuid, request)
  {
  }

  /** The error of the first collaborator, in calling order, that fails. */
  function FirstError<P, Id, R, A, E>(
    calculator: P -> Result<P, E>,
    repository: Id -> Result<R, E>,
    balancer: (R, P) -> Result<A, E>,
    uuid: Id,
    request: P): E
    requires
      || calculator(request).Failure?
      || repository(uuid).Failure?
      || balancer(repository(uuid).value, calculator(request).value).Failure?
  {
    if calculator(request).Failure? then calculator(request).error
    else if repository(uuid).Failure? then repository(uuid).error
    else balancer(repository(uuid).value, calculator(request).value).error
  }

  /** The balancer is consulted only after the calculator and the repository have both succeeded. */
  lemma BalancerCalledLast<P, Id, R, A, E>(
    calculator: P -> Result<P, E>,
    repository: Id -> Result<R, E>,
    balancer: (R, P) -> Result<A, E>,
    uuid: Id,
    request: P)
    ensures var (_, calls) := Handle(calculator, repository, balancer, uuid, request);
      && 1 <= |calls| <= 3
      && calls[0] == CalculatorCall
      && (BalancerCall in calls <==> calculator(request).Success? && repository(uuid).Success?)
      && (RepositoryCall(uuid) in calls <==> calculator(request).Success?)
  {
  }
}
