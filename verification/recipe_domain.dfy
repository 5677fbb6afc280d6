/**
 * The recipe records shared by the services: a recipe with its dough and
 * topping as ingredient lists, and the aggregate a balancer returns.
 */
module RecipeDomain {
  datatype Ingredient = Ingredient(name: string, amount: real)

  datatype Dough = Dough(name: string, percentVariation: real, ingredients: seq<Ingredient>)

  datatype Topping = Topping(name: string, referenceArea: real, ingredients: seq<Ingredient>)

  /** The preparation steps; the record declares no fields. */
  datatype Steps = Steps

  /** `uuid` stands for the recipe's UUID value, which no modelled operation inspects. */
  datatype Recipe = Recipe(
    id: int,
    uuid: string,
    name: string,
    description: string,
    author: string,
    dough: Dough,
    topping: Topping,
    steps: Steps)

  datatype SplitIngredients = SplitIngredients(splitDough: seq<Dough>, splitTopping: seq<Topping>)

  datatype RecipeAggregate = RecipeAggregate(recipe: Recipe, splitIngredients: SplitIngredients)

  /** The sum of the amounts, accumulated front to back. */
  function TotalAmount(ingredients: seq<Ingredient>): real {
    if |ingredients| == 0 then 0.0
    else TotalAmount(ingredients[..|ingredients| - 1]) + ingredients[|ingredients| - 1].amount
  }

  /** Everything but the dough and the topping is the same in both recipes. */
  predicate SameHeader(r: Recipe, r': Recipe) {
    r.id == r'.id && r.uuid == r'.uuid && r.name == r'.name && r.description == r'.description
    && r.author == r'.author && r.steps == r'.steps
  }
}
