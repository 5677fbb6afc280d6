# Recipe manager: pan-to-ingredient scaling, in Dafny

This project models the computational core of the recipe manager, a set of
Go services. The recipe manager fetches a stored recipe and rescales its
ingredient amounts to a set of baking pans given at request time. The model
covers these parts of the services:

- **Pan geometry** (`PanGeometry`, `PanStrategies`, `GoInt`). Pans are round, square or
  rectangular, and each carries its measures as optional integers. A strategy reads
  the measures from decimal strings with `strconv.Atoi` and computes an area. The
  ingredients-balancer service's strategies report half the area as the pan's
  dough weight. Go's 64-bit `int` multiplication wraps around, and the model
  writes that out.
- **Pan aggregation**, in two versions:
  - `WeightCalculator` is the ingredients-balancer calculator. It aborts on the first
    pan it cannot resolve.
  - `AreaCalculator` is the dough-calculator service. It keeps the raw area, reads a
    malformed measure as 0 (and decimal text beyond int64 as the int64 maximum or
    minimum) and skips pans of an unknown shape.
- **Balancing**, in two generations:
  - `IngredientsBalancer` works on lists of ingredients. The dough weight is half the
    total area.
  - `DoughBalancer` is the older five-field dough. The dough weight is the total
    dough weight itself.

  Both derive a conversion ratio from that weight and the recipe's percent
  variation. Every amount is scaled and rounded to one decimal (`Rounding`). The
  dough is then split per pan, in proportion to each pan's share. When the shares
  add up to the whole, the split doughs add up to the balanced dough within 0.05
  per pan.
- **Orchestration** (`RecipeService`). The calculator runs first, then the repository,
  then the balancer. The first error is returned, and the result comes with the
  trace of calls made.
- **Request mapping** (`PanRequest`). The HTTP request's string measures are mapped
  to pan records, and parse errors are discarded.
- **Reading a recipe from storage** (`RecipeRepository`). The dough column is a
  JSON object of amounts. It becomes a sorted ingredient list plus a percent
  variation.
- **Metrics** (`RecipeMetrics`, `MetricsMiddleware`). Every call on the metrics
  sink is modelled as an event. A recorder, or one request through the HTTP
  middleware, is modelled as the sequence of events it emits.

Quantities are `real`. `Round1` is Go's `math.Round(x*10)/10`, which rounds half
away from zero, computed exactly. The generic loop shapes the services use live
in `Sequences`:

- map every item;
- map every item and stop at the first failure;
- keep the items a partial step accepts.

`Wrappers` holds `Option` and `Result`.

Where the prose description of the system and the code disagree, the model
follows the code:

- The strategies accept any integer that parses, zero and negatives included.
  They do not reject non-positive measures.
- No calculator derives a display name for a pan.
- The dough-calculator service swallows two errors instead of reporting them.
  It skips unknown shapes, and it keeps whatever `Atoi` returned for a measure
  that does not parse: 0 for malformed text, the int64 extreme for text beyond int64.
- The list balancer scales to half the total area. So a total area of 1000 gives
  dough amounts summing to about 500, not 1000.

## Model

| member | source | states |
|---|---|---|
| Rounding.Round1 | internal/ingredients-balancer/application/ingredients_balancer_service.go:87-89 | the result is a whole number of tenths, within 0.05 of the input, with the input's sign |
| Rounding.Round1IsNearestTenth | internal/ingredients-balancer/application/ingredients_balancer_service.go:87-89 | no tenth is closer to the input than the rounded value |
| Rounding.Round1HalfAwayFromZero | internal/ingredients-balancer/application/ingredients_balancer_service.go:87-89 | an exact half between two tenths rounds away from zero, for positive and negative inputs |
| Rounding.Round1KeepsTenths | internal/ingredients-balancer/application/ingredients_balancer_service.go:87-89 | rounding is the identity on values that already have one decimal |
| Rounding.Round1Odd | internal/ingredients-balancer/application/dough_balancer_service.go:67-69 | rounding a negated value gives the negated rounding |
| Rounding.Round1Examples | internal/ingredients-balancer/application/ingredients_balancer_service_test.go:217-256 | the rounding table: 10.56 gives 10.6, 10.54 gives 10.5, 10.50 stays, 0 stays, -10.56 gives -10.6 |
| GoInt.Wrap64 | internal/ingredients-balancer/domain/strategies/pan_strategies.go:57 | a wrapped value is an int64, and an int64 is left unchanged |
| GoInt.Wrap64Congruent | internal/ingredients-balancer/domain/strategies/pan_strategies.go:75 | wrapping moves a value only by whole multiples of 2^64 |
| GoInt.Mul64 | internal/dough-calculator/application/dough_calculator_service.go:60 | `edge * edge` on Go's int is an int64 and equals the true product whenever that fits |
| GoInt.SmallProductsDoNotWrap | internal/dough-calculator/application/dough_calculator_service.go:72 | products of measures below 2^31 in magnitude never wrap |
| GoInt.Atoi | internal/ingredients-balancer/domain/strategies/pan_strategies.go:34 | no error exactly for a sign plus digits whose value fits int64, and then the value; a syntax error exactly for malformed text, with value 0; a range error clamps to the extreme of the sign |
| GoInt.AtoiItoaRoundTrip | internal/recipe-manager/infrastructure/http/dto/request.go:35 | reading back the decimal text of any int64 gives that integer without error |
| GoInt.AtoiRejections | internal/ingredients-balancer/domain/strategies/pan_strategies.go:34-37 | the empty string, a bare sign, letters and a decimal point are syntax errors read as 0 |
| GoInt.AtoiClampsOverflow | internal/dough-calculator/application/dough_calculator_service.go:47 | decimal text beyond int64 reads as the int64 maximum or minimum, with a range error |
| PanGeometry.ShapeOf | internal/ingredients-balancer/domain/strategies/pan_strategies.go:20-31 | a name is recognised exactly when it is the name of one of the three shapes, and then it is that shape's name |
| PanGeometry.SquareArea | internal/ingredients-balancer/domain/strategies/pan_strategies.go:57 | `edge * edge` on Go's int: always an int64 value, and the true, non-negative square whenever that fits |
| PanGeometry.RectangleArea | internal/ingredients-balancer/domain/strategies/pan_strategies.go:75 | `width * length` on Go's int: always an int64 value, and the true product whenever it fits, non-negative when the sides share a sign |
| PanGeometry.CircleArea | internal/ingredients-balancer/domain/strategies/pan_strategies.go:39-40 | a round pan's area, pi times the square of half the diameter, is never negative |
| PanGeometry.ReadingIsUnique | internal/ingredients-balancer/domain/strategies/pan_strategies.go:42-47 | two readings of the same request that carry the same shape's fields are equal |
| PanStrategies.GetStrategy | internal/ingredients-balancer/domain/strategies/pan_strategies.go:20-31 | succeeds exactly for "round", "square" and "rectangular", returning that shape; any other name fails with "unsupported shape: " followed by the name |
| PanStrategies.Calculate | internal/ingredients-balancer/domain/strategies/pan_strategies.go:33-85 | fails exactly when one of the shape's measures does not parse, with that shape's message; otherwise the pan has the canonical shape, only that shape's measure fields, each read by `Atoi`, and a dough weight of half the shape's area |
| PanStrategies.AnyParsedMeasureYieldsPan | internal/ingredients-balancer/domain/strategies/pan_strategies.go:34-48 | any int64 written in decimal, zero and negatives included, yields a pan with half the area as its weight |
| PanStrategies.RoundStrategyExample | internal/ingredients-balancer/domain/strategies/pan_strategies.go:33-48 | a 20 cm round pan carries only its diameter and weighs half its area of 100 pi |
| PanStrategies.SquareAndRectangularStrategyExamples | internal/ingredients-balancer/domain/strategies/pan_strategies.go:51-85 | a 20 cm square weighs half of 400 and a 20 x 30 rectangle half of 600, each carrying only its own measures |
| PanStrategies.FailingStrategyExamples | internal/ingredients-balancer/domain/strategies/pan_strategies.go:20-37 | a malformed diameter fails with "invalid diameter"; "triangle" is refused with "unsupported shape: triangle" |
| WeightCalculator.ResolvePan | internal/ingredients-balancer/application/dough_calculator_service.go:34-42 | an unknown shape fails with "unsupported shape" and a strategy failure with "error processing pan"; otherwise the result is the strategy's pan |
| WeightCalculator.ResolveAll | internal/ingredients-balancer/application/dough_calculator_service.go:32-47 | succeeds exactly when every pan resolves, and then returns the resolved pans one-to-one in order, with the total equal to the sum of their dough weights |
| WeightCalculator.TotalDoughWeightByPans | internal/ingredients-balancer/application/dough_calculator_service.go:26-48 | an undecodable body fails with "invalid JSON format"; a decoded one gives the loop's result |
| WeightCalculator.FirstUnresolvedPanWins | internal/ingredients-balancer/application/dough_calculator_service.go:33-42 | the error is the first failing pan's error; no later pan matters |
| WeightCalculator.UnsupportedShapeAborts | internal/ingredients-balancer/application/dough_calculator_service.go:34-37 | any unsupported shape makes the whole call fail, with "unsupported shape" when every earlier pan resolved |
| WeightCalculator.CalculatorExamples | internal/ingredients-balancer/application/dough_calculator_service_test.go:20-40 | an empty request gives no pans and total 0; round 20 plus square 20 totals (100 pi + 400) / 2 |
| WeightCalculator.CalculatorFailureExamples | internal/ingredients-balancer/application/dough_calculator_service_test.go:41-68 | a triangle fails with "unsupported shape"; an unparsable diameter fails with "error processing pan" |
| AreaCalculator.Strategy | internal/dough-calculator/application/dough_calculator_service.go:45-82 | the pan has the canonical shape, only that shape's measure fields, each the value `Atoi` returned even on error, and the raw unhalved area |
| AreaCalculator.Lookup | internal/dough-calculator/application/dough_calculator_service.go:32-38 | a pan is resolved exactly when its shape is registered |
| AreaCalculator.TotalPansWeight | internal/dough-calculator/application/dough_calculator_service.go:19-41 | fails only on an undecodable body, with "invalid JSON format"; otherwise one pan per request pan of a registered shape, taken in request order, each the strategy's pan, and the total is the sum of their areas |
| AreaCalculator.KeepsRegisteredShapesInOrder | internal/dough-calculator/application/dough_calculator_service.go:28-36 | the returned pans come from strictly increasing request positions, and a position is taken exactly when its shape is registered |
| AreaCalculator.UnparsableMeasureReadsAsZero | internal/dough-calculator/application/dough_calculator_service.go:47-72 | a measure that is not a decimal integer makes the pan's area 0 |
| AreaCalculator.UnregisteredShapeIsSkipped | internal/dough-calculator/application/dough_calculator_service.go:36-38 | appending a pan of an unknown shape leaves the result unchanged |
| AreaCalculator.WeightIsHalfTheArea | internal/ingredients-balancer/domain/strategies/pan_strategies.go:47 | when every measure parses, the ingredients-balancer strategy gives the same pan with half this service's area as its weight |
| AreaCalculator.TotalPansWeightExample | internal/dough-calculator/application/dough_calculator_service.go:28-39 | round 20, a triangle and square 20 give the two known pans and total 100 pi + 400 |
| AreaCalculator.UndecodableBodyFails | internal/dough-calculator/application/dough_calculator_service.go:23-25 | an undecodable body fails with "invalid JSON format" |
| Sequences.MapUntilFailure | internal/ingredients-balancer/application/dough_calculator_service.go:33-46 | succeeds exactly when every item does, and then holds each item's result in order |
| Sequences.FirstFailureWins | internal/ingredients-balancer/application/dough_calculator_service.go:33-42 | the error is that of the first failing item |
| Sequences.FilterMap | internal/dough-calculator/application/dough_calculator_service.go:28-39 | the results are those of the accepted items, at the kept positions |
| Sequences.KeptIndicesExactly | internal/dough-calculator/application/dough_calculator_service.go:28-39 | the kept positions increase strictly and are exactly the accepted items |
| IngredientsBalancer.FirstAmount | internal/ingredients-balancer/application/ingredients_balancer_service.go:80-85 | the first ingredient's amount when there is one; a non-zero result means the list is not empty |
| IngredientsBalancer.BalanceIngredients | internal/ingredients-balancer/application/ingredients_balancer_service.go:69-78 | same length and order, every name kept, every amount the rounded product with the ratio |
| IngredientsBalancer.SplitDoughs | internal/ingredients-balancer/application/ingredients_balancer_service.go:51-67 | one dough per pan, in pan order, named after the pan, with the total's ingredients scaled by the pan's area over the total area |
| IngredientsBalancer.CalculateSplitDoughs | internal/ingredients-balancer/application/ingredients_balancer_service.go:51-67 | one dough per pan, in pan order, named after the pan, with no percent variation and the total's ingredients scaled by the pan's share |
| IngredientsBalancer.Balance | internal/ingredients-balancer/application/ingredients_balancer_service.go:19-49 | fails exactly for a non-positive total area or a non-positive first dough amount, with "invalid dough weight"; otherwise the header is unchanged, the dough is scaled by half the area grown by the percent variation over 100, the topping by the area over its reference area, the split is per pan and no topping is split |
| IngredientsBalancer.SplitAddsUpToWhole | internal/ingredients-balancer/application/ingredients_balancer_service.go:51-67 | when the pans' areas add up to the total area, every ingredient's amounts over the split doughs add up to the whole amount within 0.05 per pan |
| IngredientsBalancer.SplitColumnNear | internal/ingredients-balancer/application/ingredients_balancer_service.go:54-64 | doughs scaled by their pans' area shares hold between them the exact sum of the pans' portions, within 0.05 per pan |
| IngredientsBalancer.PortionsAreShare | internal/ingredients-balancer/application/ingredients_balancer_service.go:54-55 | the pans' exact portions add up to the amount times the pans' total area over the total |
| IngredientsBalancer.PortionsOfWhole | internal/ingredients-balancer/application/ingredients_balancer_service.go:54-55 | pans whose areas add up to the total ask for exactly the whole amount |
| IngredientsBalancer.BalancedSplitAddsUp | internal/ingredients-balancer/application/ingredients_balancer_service.go:19-67 | after balancing over pans whose areas add up to the total area, the split doughs hold every balanced amount within 0.05 per pan |
| IngredientsBalancer.ScaledTotalWithinRounding | internal/ingredients-balancer/application/ingredients_balancer_service.go:69-78 | the scaled list's total is within 0.05 per ingredient of the exactly scaled total |
| IngredientsBalancer.ScaledIsNearlyScaled | internal/ingredients-balancer/application/ingredients_balancer_service.go:74 | every scaled amount is within 0.05 of the exact product |
| IngredientsBalancer.NearlyScaledTotal | internal/ingredients-balancer/application/ingredients_balancer_service.go:69-78 | amounts each within 0.05 of their exact products add up to within 0.05 per ingredient of the exact total |
| IngredientsBalancer.ScalingByOneKeepsTenths | internal/ingredients-balancer/application/ingredients_balancer_service.go:87-89 | amounts on the tenths grid are unchanged by a ratio of 1 |
| IngredientsBalancer.SinglePanSplitIsWhole | internal/ingredients-balancer/application/ingredients_balancer_service.go:55-61 | a single pan covering the whole area gets the whole dough's ingredients |
| IngredientsBalancer.SinglePanGetsWholeDough | internal/ingredients-balancer/application/ingredients_balancer_service_test.go:177-198 | after balancing, a single pan covering the whole area gets exactly the balanced ingredients |
| IngredientsBalancer.ScaledAreTenths | internal/ingredients-balancer/application/ingredients_balancer_service.go:74 | every balanced amount lies on the tenths grid |
| IngredientsBalancer.RejectionExamples | internal/ingredients-balancer/application/ingredients_balancer_service_test.go:88-116 | a non-positive total area and an empty dough are both rejected |
| IngredientsBalancer.NoPansNoSplit | internal/ingredients-balancer/application/ingredients_balancer_service_test.go:200-214 | no pans give no split doughs |
| IngredientsBalancer.ExampleDoughScaled | internal/ingredients-balancer/application/ingredients_balancer_service.go:24-30 | area 1000 without variation converts at ratio 5 and area 2000 with 10 percent at 11; the example recipe scales to 278.5/208/5.5/5.5/2.5 and 612.7/457.6/12.1/12.1/5.5 |
| IngredientsBalancer.ExampleTotals | internal/ingredients-balancer/application/ingredients_balancer_service_test.go:51-84 | the two balanced example doughs weigh 500 and 1100 |
| IngredientsBalancer.BalanceExampleWithoutVariation | internal/ingredients-balancer/application/ingredients_balancer_service_test.go:21-52 | `Balance` of the example recipe at total area 1000 without variation succeeds with amounts 278.5/208/5.5/5.5/2.5, summing to 500 |
| IngredientsBalancer.BalanceExampleWithVariation | internal/ingredients-balancer/application/ingredients_balancer_service_test.go:54-85 | `Balance` of the example recipe at total area 2000 with 10 percent succeeds with amounts 612.7/457.6/12.1/12.1/5.5, summing to 1100 |
| DoughBalancer.ScaleDough | internal/ingredients-balancer/application/dough_balancer_service.go:26-32 | each of the five amounts is the rounded product with the ratio, and the percent variation is not carried over |
| DoughBalancer.CalculateSplitDoughs | internal/ingredients-balancer/application/dough_balancer_service.go:48-65 | one dough per pan, in pan order, each amount scaled by the pan's dough weight over the total |
| DoughBalancer.Balance | internal/ingredients-balancer/application/dough_balancer_service.go:19-46 | fails exactly for a non-positive total dough weight or flour, with "invalid dough weight"; otherwise only the dough changes, scaled by the weight grown by the percent variation over 100, the split is per pan and no topping is split |
| DoughBalancer.SplitAddsUpToWhole | internal/ingredients-balancer/application/dough_balancer_service.go:48-65 | when the pans' dough weights add up to the total, each of the five amounts over the split doughs adds up to the whole within 0.05 per pan |
| DoughBalancer.SplitFieldNear | internal/ingredients-balancer/application/dough_balancer_service.go:52-62 | doughs near their pans' weight shares hold between them the exact sum of the pans' portions, within 0.05 per pan |
| DoughBalancer.FieldIsNear | internal/ingredients-balancer/application/dough_balancer_service.go:55-59 | an amount of a dough within 0.05 of its scaled base on all five fields is so on the chosen one |
| DoughBalancer.PortionsAreShare | internal/ingredients-balancer/application/dough_balancer_service.go:51-53 | the pans' exact portions add up to the amount times the pans' total weight over the total |
| DoughBalancer.PortionsOfWhole | internal/ingredients-balancer/application/dough_balancer_service.go:51-53 | pans whose weights add up to the total ask for exactly the whole amount |
| DoughBalancer.BalancedSplitAddsUp | internal/ingredients-balancer/application/dough_balancer_service.go:19-65 | after balancing over pans whose weights add up to the total, the split doughs hold each balanced amount within 0.05 per pan |
| DoughBalancer.ZeroWeightPanGetsNothing | internal/ingredients-balancer/application/dough_balancer_service_test.go:174-207 | a pan without dough weight gets an all-zero dough |
| DoughBalancer.NoPansNoSplit | internal/ingredients-balancer/application/dough_balancer_service_test.go:209-230 | no pans give no split doughs |
| DoughBalancer.ScalingByOneKeepsTenths | internal/ingredients-balancer/application/dough_balancer_service.go:53-59 | amounts on the tenths grid are unchanged by a ratio of 1 |
| DoughBalancer.SinglePanGetsWholeDough | internal/ingredients-balancer/application/dough_balancer_service_test.go:143-172 | a single pan holding the whole weight gets exactly the balanced dough |
| DoughBalancer.WholeShare | internal/ingredients-balancer/application/dough_balancer_service.go:48-65 | a pan holding the whole dough weight gets a dough on the tenths grid unchanged |
| DoughBalancer.BalancedWeightNearTotal | internal/ingredients-balancer/application/dough_balancer_service_test.go:91-99 | a recipe whose five amounts sum to 100 balances, without variation, to amounts summing to the total weight within 0.25 |
| DoughBalancer.ScaledWeightNear | internal/ingredients-balancer/application/dough_balancer_service.go:26-32 | amounts scaled from a base summing to 100 sum to 100 times the ratio within 0.25 |
| DoughBalancer.ScaledIsNear | internal/ingredients-balancer/application/dough_balancer_service.go:26-32 | each of the five scaled amounts is within 0.05 of its exact product |
| DoughBalancer.NearlySum | internal/ingredients-balancer/application/dough_balancer_service.go:26-32 | five amounts each within 0.05 of their scaled bases, with bases summing to 100, sum to within 0.25 of 100 times the ratio |
| DoughBalancer.RatioWithoutVariation | internal/ingredients-balancer/application/dough_balancer_service.go:24-25 | without variation, 100 times the ratio is the total dough weight |
| DoughBalancer.BalanceExample | internal/ingredients-balancer/application/dough_balancer_service_test.go:22-49 | the example dough balanced to 1000 is 557/416/11/11/5, summing to exactly 1000 |
| DoughBalancer.SplitExample | internal/ingredients-balancer/application/dough_balancer_service_test.go:105-141 | pans of 500, 300 and 200 of 1000 get flour 500, 300 and 200 and proportional other amounts |
| DoughBalancer.ZeroWeightExample | internal/ingredients-balancer/application/dough_balancer_service_test.go:174-207 | a zero-weight pan next to a full one gets nothing, and the full one everything |
| RecipeService.Handle | internal/recipe-manager/application/recipe_service.go:37-54 | a calculator error is returned after one call; a repository error after two, the repository asked for the given id; otherwise the balancer's result for the fetched recipe and the calculator's pans, after three calls |
| RecipeService.SucceedsIffAllSucceed | internal/recipe-manager/application/recipe_service.go:37-54 | succeeds exactly when all three collaborators do, returning the balancer's aggregate unchanged; otherwise the error is the first failing collaborator's |
| RecipeService.BalancerCalledLast | internal/recipe-manager/application/recipe_service.go:38-48 | the calculator is always called first; the repository exactly when the calculator succeeded; the balancer exactly when both succeeded |
| PanRequest.MeasuresOf | internal/recipe-manager/infrastructure/http/dto/request.go:33-45 | a registered shape sets exactly its own measure fields, each the value `Atoi` returned; any other shape sets none |
| PanRequest.ToDomain | internal/recipe-manager/infrastructure/http/dto/request.go:25-53 | one pan per requested pan, in order, with the shape copied, the measures parsed, no dough weight, and a zero total |
| PanRequest.MeasuresRoundTrip | internal/recipe-manager/infrastructure/http/dto/request.go:33-45 | measures that fit int64, sent in decimal and mapped back, are recovered exactly |
| PanRequest.UnparsableMeasureReadsAsZero | internal/recipe-manager/infrastructure/http/dto/request.go:35-42 | a malformed measure string becomes 0 for every shape that reads it |
| PanRequest.UnknownShapeCarriesNothing | internal/recipe-manager/infrastructure/http/dto/request.go:33-45 | a shape outside the three keeps no measures, whatever the request carries |
| PanRequest.ToDomainExample | internal/recipe-manager/infrastructure/http/dto/request.go:25-53 | a round and a rectangular pan keep their order and measures, and "x" reads as 0 |
| RecipeRepository.LexLessIrreflexive | internal/recipe-manager/infrastructure/mysql/recipe_repository.go:60 | no name is less than itself |
| RecipeRepository.LexLessAsymmetric | internal/recipe-manager/infrastructure/mysql/recipe_repository.go:60 | string order is asymmetric |
| RecipeRepository.LexLessTransitive | internal/recipe-manager/infrastructure/mysql/recipe_repository.go:60 | string order is transitive |
| RecipeRepository.LexLessTotal | internal/recipe-manager/infrastructure/mysql/recipe_repository.go:60 | two different strings are ordered one way or the other |
| RecipeRepository.CompareIsBefore | internal/recipe-manager/infrastructure/mysql/recipe_repository.go:55-67 | the comparator answers -1 exactly when the first ingredient has the larger amount, or the same amount and the smaller name, and 1 otherwise |
| RecipeRepository.BeforeAsymmetric | internal/recipe-manager/infrastructure/mysql/recipe_repository.go:55-67 | the ingredient order is asymmetric |
| RecipeRepository.BeforeTransitive | internal/recipe-manager/infrastructure/mysql/recipe_repository.go:55-67 | the ingredient order is transitive |
| RecipeRepository.BeforeTotal | internal/recipe-manager/infrastructure/mysql/recipe_repository.go:55-67 | two different ingredients are ordered one way or the other |
| RecipeRepository.Insert | internal/recipe-manager/infrastructure/mysql/recipe_repository.go:55-67 | inserting keeps the list sorted and adds exactly the new ingredient |
| RecipeRepository.Sort | internal/recipe-manager/infrastructure/mysql/recipe_repository.go:55-67 | the result is sorted and a permutation of the input |
| RecipeRepository.SortedUnique | internal/recipe-manager/infrastructure/mysql/recipe_repository.go:55-67 | two sorted lists holding the same ingredients are equal |
| RecipeRepository.Entries | internal/recipe-manager/infrastructure/mysql/recipe_repository.go:44-53 | one ingredient per key other than `percentVariation`, with its value, each once |
| RecipeRepository.GetRecipeByUuid | internal/recipe-manager/infrastructure/mysql/recipe_repository.go:21-75 | a query or decode failure is returned as it is; otherwise the header is the row's, the percent variation is the object's (0 when absent), the ingredients are exactly the other entries, sorted by amount descending then by name, and the topping is empty |
| RecipeRepository.OrderDoesNotMatter | internal/recipe-manager/infrastructure/mysql/recipe_repository.go:48-67 | the recipe does not depend on the order the map is ranged over |
| RecipeRepository.DecodedUnique | internal/recipe-manager/infrastructure/mysql/recipe_repository.go:47-67 | there is only one sorted list of a dough object's entries |
| RecipeRepository.ExampleRow | internal/recipe-manager/infrastructure/mysql/recipe_repository_test.go:23-49 | an example dough object with lowercase keys decodes to percent variation -10 and its five amounts, largest first |
| RecipeRepository.ExampleDecoded | internal/recipe-manager/infrastructure/mysql/recipe_repository_test.go:23-49 | the expected example list holds exactly the object's entries, sorted |
| RecipeRepository.TieBrokenByName | internal/recipe-manager/infrastructure/mysql/recipe_repository.go:59-63 | equal amounts are ordered by name |
| RecipeMetrics.RecordRecipeOperation | internal/recipe-manager/domain/metrics/recipe_metrics.go:62-77 | the retrieval duration then the retrieval for the uuid; on success the aggregation, author and complexity, and the pan count exactly when the operation succeeded with pans; on failure both error counters with the error type; error events only on failure, success events only on success |
| RecipeMetrics.OutcomesDisjoint | internal/recipe-manager/domain/metrics/recipe_metrics.go:66-76 | after the common prefix, a success and a failure share no event |
| RecipeMetrics.OperationEventCount | internal/recipe-manager/domain/metrics/recipe_metrics.go:62-77 | 4 events on failure, 6 on success with pans, 5 otherwise |
| RecipeMetrics.RecordCalculatorCall | internal/recipe-manager/domain/metrics/recipe_metrics.go:79-82 | the call counter with the outcome, then the duration |
| RecipeMetrics.RecordBalancerCall | internal/recipe-manager/domain/metrics/recipe_metrics.go:84-87 | the call counter with the outcome, then the duration |
| RecipeMetrics.RecordDatabaseOperation | internal/recipe-manager/domain/metrics/recipe_metrics.go:89-92 | the operation counter with the outcome, then the duration, both under the operation's name |
| MetricsMiddleware.GetErrorType | internal/recipe-manager/infrastructure/http/middleware/metrics_middleware.go:104-113 | "client_error" exactly for 400-499, "server_error" exactly from 500, "unknown_error" exactly below 400 |
| MetricsMiddleware.Contains | internal/recipe-manager/infrastructure/http/middleware/metrics_middleware.go:77-82 | the search loop, front to back with an early return, finds the endpoint exactly when it is in the list |
| MetricsMiddleware.IsRecipeEndpoint | internal/recipe-manager/infrastructure/http/middleware/metrics_middleware.go:68-83 | every recipe route lies under "/api/v1/recipes" |
| MetricsMiddleware.IsRetrievalEndpoint | internal/recipe-manager/infrastructure/http/middleware/metrics_middleware.go:85-98 | every retrieval route is a recipe route other than the collection |
| MetricsMiddleware.IsAggregationEndpoint | internal/recipe-manager/infrastructure/http/middleware/metrics_middleware.go:100-102 | the aggregation route is a recipe route and not a retrieval one |
| MetricsMiddleware.SearchLoopsClassify | internal/recipe-manager/infrastructure/http/middleware/metrics_middleware.go:68-98 | the search loops over the recipe and the retrieval lists answer exactly as membership in those lists |
| MetricsMiddleware.EndpointClasses | internal/recipe-manager/infrastructure/http/middleware/metrics_middleware.go:68-102 | retrieval endpoints are recipe endpoints; the aggregation endpoint is a recipe endpoint and not a retrieval one; "/api/v1/recipes" is the only recipe endpoint in neither class |
| MetricsMiddleware.RecordRecipeMetrics | internal/recipe-manager/infrastructure/http/middleware/metrics_middleware.go:51-66 | on a retrieval endpoint a 2xx records the retrieval duration and any other status a retrieval error of its type; the aggregation endpoint likewise; any other endpoint records nothing |
| MetricsMiddleware.HandleRequest | internal/recipe-manager/infrastructure/http/middleware/metrics_middleware.go:27-49 | the connection gauge set to 1 first and to -1 last, the request count and duration second and third, and in between exactly the recipe metrics on a recipe endpoint and nothing on any other |
| MetricsMiddleware.OneCountOneDurationPerRequest | internal/recipe-manager/infrastructure/http/middleware/metrics_middleware.go:40-41 | every request records its count exactly once and its duration exactly once |
| MetricsMiddleware.NoOtherHttpEvents | internal/recipe-manager/infrastructure/http/middleware/metrics_middleware.go:40-45 | the only HTTP count and duration events are the request's own, under its method and route template |
| MetricsMiddleware.OneRecipeEventPerRecipeRequest | internal/recipe-manager/infrastructure/http/middleware/metrics_middleware.go:43-45 | a retrieval or aggregation request gets exactly one recipe-specific event |
| MetricsMiddleware.RetrievalExamples | internal/recipe-manager/infrastructure/http/middleware/metrics_middleware_test.go:71-141 | a 200 on a recipe by id records its duration, a 404 a client error and no duration |
| MetricsMiddleware.NonRetrievalExamples | internal/recipe-manager/infrastructure/http/middleware/metrics_middleware.go:43-45 | the collection route and a route outside the recipes record only the four HTTP events |
| MetricsMiddleware.ErrorTypeExamples | internal/recipe-manager/infrastructure/http/middleware/metrics_middleware_test.go:166-184 | 200 is unknown, 400 and 404 client errors, 500 and 503 server errors |

## Left out

- Floating point. Amounts are exact reals, so IEEE 754 rounding, including the double rounding of `x*10`, is not modelled. Neither are NaN and infinities.
- `PanGeometry.PI` is the shortest decimal that rounds to `float64(math.Pi)`, not `math.Pi` itself. Areas involving it are only ever stated symbolically, as multiples of `PI`.
- JSON decoding. Decoded bodies, rows and dough objects are inputs wrapped in `Option` or `Result`.
- The Go type assertions that panic on a missing or non-string measure. They become preconditions: `Readable`, `HasKeysFor` and `KeysOf(s) <= data.Keys`.
- GoInt.Atoi: for text that is both malformed and too long, Go may report the range error first. The model always reports a syntax error for malformed text. This only matters where the error is discarded.
- IngredientsBalancer.Balance: the division by a zero reference area is unguarded in the source. The model requires a non-zero reference area whenever the topping has ingredients and the guard passes. A zero reference area with no ingredients scales nothing.
- IngredientsBalancer.CalculateSplitDoughs, DoughBalancer.CalculateSplitDoughs: they require a non-zero total, or no pans. Both balancers only call them after their guard, which ensures a positive total. In Go a non-zero share over a zero total gives an infinity, and 0 over 0 gives NaN.
- RecipeRepository.Sort: the source sorts with `slices.SortFunc`, a pattern-defeating quicksort. The model uses insertion sort. `SortedUnique` shows that the sorted result is unique, so any correct sort returns the same list.
- The order in which a Go map is ranged over is a parameter (`order`). `OrderDoesNotMatter` shows the result does not depend on it.
- The database query, migrations and the SQL driver. The query's outcome is an input.
- The gRPC clients and remote service adapters. These include their int-to-int32 narrowing, which depends on generated protocol types that are not part of this model.
- HTTP plumbing: gin routing, handlers, binding tags, UUID parsing, CORS and server start-up.
- The recipe manager's own `Pans` type is not part of this model. `RecipeService` is generic in the pans, recipe and aggregate types.
- Logging, tracing, Prometheus registration and configuration lookups. They depend on the environment and on library registries.
- Clocks. Durations are integer parameters (nanoseconds).
- The active-connection gauge is modelled as the source computes it: a counter that always reads 0, so the gauge is set to 1 and then to -1.
- `IncrementPansSizes` is declared on the metrics sink, but no modelled operation emits it. The `PanSize` event exists and is never produced.
- The empty `Dough`, `Topping` and `Steps` records of internal/recipe-manager/domain/recipe.go:26-30 conflict with the ingredient-list records. The model takes the ingredient-list records that the services use. The five-field dough lives only in `DoughBalancer`.
- Stale source files that no longer compile against the current domain: the older controller, the older repository, and the ingredients-balancer strategy test, which expects `Area` and `Name` fields the current pan no longer has and an empty-measures case on which the current strategies' type assertion panics. The strategy examples state what the current strategies compute.
