/**
 * The list-of-ingredients balancer of the ingredients-balancer service: scale
 * a recipe's dough to the pans' total area, scale its topping by the ratio of
 * that area to the topping's reference area, and split the dough per pan.
 */
module IngredientsBalancer {
  import opened Wrappers
  import opened Rounding
  import opened BalancerDomain
  import opened RecipeDomain
  import opened Sequences

  /** A recipe's percentages are relative to this total. */
  const TotalPercentage: real := 100.0

  const InvalidDoughWeight: string := "invalid dough weight"

  /** The same ingredient with its amount multiplied by `ratio` and rounded to one decimal. */
  function Scale(ingredient: Ingredient, ratio: real): Ingredient {
    Ingredient(ingredient.name, Round1(ingredient.amount * ratio))
  }

  /** `scaled` is `base` with every name kept in place and every amount scaled by `ratio`. */
  predicate ScaledBy(scaled: seq<Ingredient>, base: seq<Ingredient>, ratio: real) {
    |scaled| == |base| && forall i :: 0 <= i < |base| ==> scaled[i] == Scale(base[i], ratio)
  }

  /** `balanceIngredients`. */
  function BalanceIngredients(ingredients: seq<Ingredient>, ratio: real): (r: seq<Ingredient>)
    ensures ScaledBy(r, ingredients, ratio)
  {
    Map(ingredients, (ingredient: Ingredient) => Scale(ingredient, ratio))
  }

  /** `getFirstIngredientAmount`: an empty list counts as amount 0. */
  function FirstAmount(ingredients: seq<Ingredient>): (r: real)
    ensures |ingredients| > 0 ==> r == ingredients[0].amount
    ensures r != 0.0 ==> |ingredients| > 0
  {
    if |ingredients| == 0 then 0.0 else ingredients[0].amount
  }

  /** The dough weight of a total area is half of it. */
  function DoughWeightOf(totalArea: real): real {
    totalArea / 2.0
  }

  /** The weight, grown by the recipe's percent variation, as a multiple of the recipe's 100 units. */
  function ConversionRatio(weight: real, percentVariation: real): real {
    (weight + weight * percentVariation / 100.0) / TotalPercentage
  }

  /** The split of a dough over pans; a pan's share is its area over `totalArea`. */
  function SplitDoughs(total: Dough, pans: seq<AreaPan>, totalArea: real): (r: seq<Dough>)
    requires totalArea != 0.0 || |pans| == 0
    ensures |r| == |pans|
    ensures forall i :: 0 <= i < |pans| ==>
      r[i].name == pans[i].name && r[i].percentVariation == 0.0
      && ScaledBy(r[i].ingredients, total.ingredients, pans[i].area / totalArea)
  {
    if |pans| == 0 then []
    else
      var pan := pans[|pans| - 1];
      SplitDoughs(total, pans[..|pans| - 1], totalArea)
        + [Dough(pan.name, 0.0, BalanceIngredients(total.ingredients, pan.area / totalArea))]
  }

  /** `calculateSplitDoughs`: one dough per pan, in pan order. */
  function CalculateSplitDoughs(total: Dough, pans: AreaPans): (r: seq<Dough>)
    requires pans.totalArea != 0.0 || |pans.pans| == 0
    ensures |r| == |pans.pans|
    ensures forall i :: 0 <= i < |r| ==>
      r[i].name == pans.pans[i].name && r[i].percentVariation == 0.0
      && ScaledBy(r[i].ingredients, total.ingredients, pans.pans[i].area / pans.totalArea)
  {
    SplitDoughs(total, pans.pans, pans.totalArea)
  }

  /** The amount of the `k`-th ingredient added up over the doughs (0 for a dough without one). */
  function ColumnTotal(doughs: seq<Dough>, k: nat): real {
    if |doughs| == 0 then 0.0
    else
      var last := doughs[|doughs| - 1];
      ColumnTotal(doughs[..|doughs| - 1], k) + (if k < |last.ingredients| then last.ingredients[k].amount else 0.0)
  }

  /** The exact amounts the pans' shares of `totalArea` ask for, added up. */
  function Portions(pans: seq<AreaPan>, totalArea: real, amount: real): real
    requires totalArea != 0.0
  {
    if |pans| == 0 then 0.0
    else Portions(pans[..|pans| - 1], totalArea, amount) + (pans[|pans| - 1].area / totalArea) * amount
  }

  /**
   * When the pans' areas add up to the total area, the split doughs hold
   * between them the whole amount of every ingredient, up to 0.05 of
   * rounding per pan.
   */
  lemma SplitAddsUpToWhole(total: Dough, pans: AreaPans, k: nat)
    requires pans.totalArea != 0.0 && SumAreas(pans.pans) == pans.totalArea
    requires k < |total.ingredients|
    ensures var column := ColumnTotal(CalculateSplitDoughs(total, pans), k);
      var slack := 0.05 * |pans.pans| as real;
      total.ingredients[k].amount - slack <= column <= total.ingredients[k].amount + slack
  {
    var split := CalculateSplitDoughs(total, pans);
    forall i | 0 <= i < |pans.pans|
      ensures AmountNear(split[i], total.ingredients, pans.pans[i].area / pans.totalArea, k)
    {
      ScaledIsNearlyScaled(split[i].ingredients, total.ingredients, pans.pans[i].area / pans.totalArea);
    }
    SplitColumnNear(split, pans.pans, total.ingredients, pans.totalArea, k);
    PortionsOfWhole(pans.pans, pans.totalArea, total.ingredients[k].amount);
  }

  /** The `k`-th amount of `dough` is within 0.05 of the base amount times `ratio`. */
  predicate AmountNear(dough: Dough, base: seq<Ingredient>, ratio: real, k: nat)
    requires k < |base|
  {
    && k < |dough.ingredients|
    && ratio * base[k].amount - 0.05 <= dough.ingredients[k].amount <= ratio * base[k].amount + 0.05
  }

  /** Doughs near their pans' shares hold between them the pans' portions, up to 0.05 per pan. */
  lemma {:induction false} SplitColumnNear(split: seq<Dough>, pans: seq<AreaPan>, base: seq<Ingredient>,
                                           totalArea: real, k: nat)
    requires totalArea != 0.0 && k < |base| && |split| == |pans|
    requires forall i :: 0 <= i < |pans| ==> AmountNear(split[i], base, pans[i].area / totalArea, k)
    ensures Portions(pans, totalArea, base[k].amount) - 0.05 * |pans| as real <= ColumnTotal(split, k)
    ensures ColumnTotal(split, k) <= Portions(pans, totalArea, base[k].amount) + 0.05 * |pans| as real
  {
    if |pans| > 0 {
      var n := |pans| - 1;
      SplitColumnNear(split[..n], pans[..n], base, totalArea, k);
      assert AmountNear(split[n], base, pans[n].area / totalArea, k);
    }
  }

  /** The portions of all the pans are the amount scaled by the pans' share of the total area. */
  lemma {:induction false} PortionsAreShare(pans: seq<AreaPan>, totalArea: real, amount: real)
    requires totalArea != 0.0
    ensures Portions(pans, totalArea, amount) == (SumAreas(pans) / totalArea) * amount
  {
    if |pans| > 0 {
      var n := |pans| - 1;
      PortionsAreShare(pans[..n], totalArea, amount);
      SharesAdd(amount, SumAreas(pans[..n]), pans[n].area, totalArea);
    }
  }

  /** Pans whose areas add up to the total area ask for exactly the whole amount. */
  lemma PortionsOfWhole(pans: seq<AreaPan>, totalArea: real, amount: real)
    requires totalArea != 0.0 && SumAreas(pans) == totalArea
    ensures Portions(pans, totalArea, amount) == amount
  {
    PortionsAreShare(pans, totalArea, amount);
    assert SumAreas(pans) / totalArea == 1.0;
  }

  /** The shares of two areas add up to the share of their sum. */
  lemma SharesAdd(amount: real, before: real, area: real, totalArea: real)
    requires totalArea != 0.0
    ensures ((before + area) / totalArea) * amount == (before / totalArea) * amount + (area / totalArea) * amount
  {
    assert (before + area) / totalArea == before / totalArea + area / totalArea;
  }

  /** The inputs `Balance` rejects. */
  predicate Rejected(recipe: Recipe, pans: AreaPans) {
    pans.totalArea <= 0.0 || FirstAmount(recipe.dough.ingredients) <= 0.0
  }

  /**
   * A topping with ingredients needs a non-zero reference area: the source
   * divides by it unguarded.
   */
  predicate ToppingScalable(recipe: Recipe) {
    recipe.topping.referenceArea != 0.0 || |recipe.topping.ingredients| == 0
  }

  /**
   * The factor a topping is scaled by: the total area over the reference area.
   * A zero reference area only occurs with no topping ingredients, where the
   * factor is never used; the model then takes 0.
   */
  function ToppingRatio(totalArea: real, referenceArea: real): real {
    if referenceArea == 0.0 then 0.0 else totalArea / referenceArea
  }

  /** The balanced dough: unnamed, the recipe's percent variation, every amount scaled by the conversion ratio. */
  predicate DoughBalanced(dough: Dough, recipe: Recipe, totalArea: real) {
    && dough.name == ""
    && dough.percentVariation == recipe.dough.percentVariation
    && ScaledBy(dough.ingredients, recipe.dough.ingredients,
                ConversionRatio(DoughWeightOf(totalArea), recipe.dough.percentVariation))
  }

  /** The balanced topping: unnamed, the recipe's reference area, every amount scaled by the area ratio. */
  predicate ToppingBalanced(topping: Topping, recipe: Recipe, totalArea: real) {
    && topping.name == ""
    && topping.referenceArea == recipe.topping.referenceArea
    && ScaledBy(topping.ingredients, recipe.topping.ingredients, ToppingRatio(totalArea, recipe.topping.referenceArea))
  }

  /**
   * `Balance`. Rejects a non-positive total area and a dough whose first
   * amount is not positive. Otherwise the dough is scaled to half the total
   * area grown by its percent variation, the topping by the area over its
   * reference area, the dough is split per pan, and nothing else changes.
   */
  function Balance(recipe: Recipe, pans: AreaPans): (r: Result<RecipeAggregate, string>)
    requires !Rejected(recipe, pans) ==> ToppingScalable(recipe)
    ensures r.Failure? <==> Rejected(recipe, pans)
    ensures r.Failure? ==> r.error == InvalidDoughWeight
    ensures r.Success? ==> SameHeader(r.value.recipe, recipe)
    ensures r.Success? ==> DoughBalanced(r.value.recipe.dough, recipe, pans.totalArea)
    ensures r.Success? ==> ToppingBalanced(r.value.recipe.topping, recipe, pans.totalArea)
    ensures r.Success? ==> r.value.splitIngredients.splitTopping == []
    ensures r.Success? ==> r.value.splitIngredients.splitDough == CalculateSplitDoughs(r.value.recipe.dough, pans)
  {
    if Rejected(recipe, pans) then Failure(InvalidDoughWeight)
    else
      var ratio := ConversionRatio(DoughWeightOf(pans.totalArea), recipe.dough.percentVariation);
      var dough := Dough("", recipe.dough.percentVariation, BalanceIngredients(recipe.dough.ingredients, ratio));
      var toppingRatio := ToppingRatio(pans.totalArea, recipe.topping.referenceArea);
      var topping := Topping("", recipe.topping.referenceArea, BalanceIngredients(recipe.topping.ingredients, toppingRatio));
      var split := SplitIngredients(CalculateSplitDoughs(dough, pans), []);
      Success(RecipeAggregate(recipe.(dough := dough, topping := topping), split))
  }

  /** Every amount of `scaled` is within 0.05 of the exactly scaled base amount. */
  predicate NearlyScaled(scaled: seq<Ingredient>, base: seq<Ingredient>, ratio: real) {
    |scaled| == |base|
    && forall i :: 0 <= i < |base| ==>
         ratio * base[i].amount - 0.05 <= scaled[i].amount <= ratio * base[i].amount + 0.05
  }

  lemma ScaledIsNearlyScaled(scaled: seq<Ingredient>, base: seq<Ingredient>, ratio: real)
    requires ScaledBy(scaled, base, ratio)
    ensures NearlyScaled(scaled, base, ratio)
  {
    forall i | 0 <= i < |base|
      ensures ratio * base[i].amount - 0.05 <= scaled[i].amount <= ratio * base[i].amount + 0.05
    {
      assert scaled[i] == Scale(base[i], ratio);
      assert base[i].amount * ratio == ratio * base[i].amount;
    }
  }

  /**
   * Rounding each amount moves it by at most 0.05, so the scaled list's total
   * is within 0.05 per ingredient of the exactly scaled total.
   */
  lemma ScaledTotalWithinRounding(scaled: seq<Ingredient>, base: seq<Ingredient>, ratio: real)
    requires ScaledBy(scaled, base, ratio)
    ensures ratio * TotalAmount(base) - 0.05 * |base| as real <= TotalAmount(scaled)
    ensures TotalAmount(scaled) <= ratio * TotalAmount(base) + 0.05 * |base| as real
  {
    ScaledIsNearlyScaled(scaled, base, ratio);
    NearlyScaledTotal(scaled, base, ratio);
  }

  lemma {:induction false} NearlyScaledTotal(scaled: seq<Ingredient>, base: seq<Ingredient>, ratio: real)
    requires NearlyScaled(scaled, base, ratio)
    ensures ratio * TotalAmount(base) - 0.05 * |base| as real <= TotalAmount(scaled)
    ensures TotalAmount(scaled) <= ratio * TotalAmount(base) + 0.05 * |base| as real
  {
    if |base| > 0 {
      var n := |base| - 1;
      assert NearlyScaled(scaled[..n], base[..n], ratio);
      NearlyScaledTotal(scaled[..n], base[..n], ratio);
      var before, last := TotalAmount(base[..n]), base[n].amount;
      assert TotalAmount(base) == before + last;
      assert TotalAmount(scaled) == TotalAmount(scaled[..n]) + scaled[n].amount;
      Distribute(ratio, before, last);
    }
  }

  lemma Distribute(x: real, a: real, b: real)
    ensures x * (a + b) == x * a + x * b
  {
  }

  /**
   * After balancing over pans whose areas add up to the total area, the pans'
   * doughs hold between them every balanced amount, up to 0.05 per pan.
   */
  lemma BalancedSplitAddsUp(recipe: Recipe, pans: AreaPans, k: nat)
    requires !Rejected(recipe, pans) && ToppingScalable(recipe)
    requires SumAreas(pans.pans) == pans.totalArea && k < |recipe.dough.ingredients|
    ensures var r := Balance(recipe, pans).value;
      var amount := r.recipe.dough.ingredients[k].amount;
      var column := ColumnTotal(r.splitIngredients.splitDough, k);
      amount - 0.05 * |pans.pans| as real <= column <= amount + 0.05 * |pans.pans| as real
  {
    SplitAddsUpToWhole(Balance(recipe, pans).value.recipe.dough, pans, k);
  }

  /** Amounts already on the tenths grid are unchanged by a ratio of 1. */
  lemma {:induction false} ScalingByOneKeepsTenths(scaled: seq<Ingredient>, base: seq<Ingredient>)
    requires forall i :: 0 <= i < |base| ==> IsTenth(base[i].amount)
    requires ScaledBy(scaled, base, 1.0)
    ensures scaled == base
  {
    forall i | 0 <= i < |base|
      ensures scaled[i] == base[i]
    {
      Round1KeepsTenths(base[i].amount);
    }
  }

  /** A single pan covering the whole area gets the dough on the tenths grid unchanged. */
  lemma SinglePanSplitIsWhole(total: Dough, pan: AreaPan)
    requires pan.area != 0.0
    requires forall i :: 0 <= i < |total.ingredients| ==> IsTenth(total.ingredients[i].amount)
    ensures CalculateSplitDoughs(total, AreaPans([pan], pan.area)) == [Dough(pan.name, 0.0, total.ingredients)]
  {
    var split := CalculateSplitDoughs(total, AreaPans([pan], pan.area));
    assert pan.area / pan.area == 1.0;
    ScalingByOneKeepsTenths(split[0].ingredients, total.ingredients);
  }

  /**
   * So after balancing, a single pan covering the whole area gets exactly the
   * balanced dough's ingredients: balanced amounts are on the tenths grid.
   */
  lemma SinglePanGetsWholeDough(recipe: Recipe, pan: AreaPan)
    requires pan.area > 0.0 && FirstAmount(recipe.dough.ingredients) > 0.0 && ToppingScalable(recipe)
    ensures var r := Balance(recipe, AreaPans([pan], pan.area));
      r.Success? && r.value.splitIngredients.splitDough == [Dough(pan.name, 0.0, r.value.recipe.dough.ingredients)]
  {
    var r := Balance(recipe, AreaPans([pan], pan.area));
    assert !Rejected(recipe, AreaPans([pan], pan.area));
    var dough := r.value.recipe.dough;
    ScaledAreTenths(dough.ingredients, recipe.dough.ingredients,
      ConversionRatio(DoughWeightOf(pan.area), recipe.dough.percentVariation));
    SinglePanSplitIsWhole(dough, pan);
  }

  lemma ScaledAreTenths(scaled: seq<Ingredient>, base: seq<Ingredient>, ratio: real)
    requires ScaledBy(scaled, base, ratio)
    ensures forall i :: 0 <= i < |scaled| ==> IsTenth(scaled[i].amount)
  {
    forall i | 0 <= i < |scaled|
      ensures IsTenth(scaled[i].amount)
    {
      assert scaled[i] == Scale(base[i], ratio);
    }
  }

  /** Both rejections of the guard, and an empty dough counting as amount 0. */
  lemma RejectionExamples(recipe: Recipe, pans: AreaPans)
    ensures pans.totalArea <= 0.0 ==> Balance(recipe, pans) == Failure("invalid dough weight")
    ensures recipe.dough.ingredients == [] ==> Balance(recipe, pans) == Failure("invalid dough weight")
  {
  }

  /** With no pans there is nothing to split. */
  lemma NoPansNoSplit(total: Dough, totalArea: real)
    ensures CalculateSplitDoughs(total, AreaPans([], totalArea)) == []
  {
  }

  /** The base recipe of the balancer's examples, in percent of the dough weight. */
  const ExampleDough: seq<Ingredient> := [
    Ingredient("flour", 55.7), Ingredient("water", 41.6), Ingredient("salt", 1.1),
    Ingredient("evoOil", 1.1), Ingredient("yeast", 0.5)]

  lemma TotalOfFive(a: Ingredient, b: Ingredient, c: Ingredient, d: Ingredient, e: Ingredient)
    ensures TotalAmount([a, b, c, d, e]) == a.amount + b.amount + c.amount + d.amount + e.amount
  {
    assert [a][..0] == [];
    assert TotalAmount([a]) == a.amount;
    assert [a, b][..1] == [a];
    assert TotalAmount([a, b]) == a.amount + b.amount;
    assert [a, b, c][..2] == [a, b];
    assert TotalAmount([a, b, c]) == a.amount + b.amount + c.amount;
    assert [a, b, c, d][..3] == [a, b, c];
    assert TotalAmount([a, b, c, d]) == a.amount + b.amount + c.amount + d.amount;
    assert [a, b, c, d, e][..4] == [a, b, c, d];
  }

  /** The example recipe balanced to total area 1000 without variation, and to 2000 with 10 percent. */
  const ExampleAt1000: seq<Ingredient> := [
    Ingredient("flour", 278.5), Ingredient("water", 208.0), Ingredient("salt", 5.5),
    Ingredient("evoOil", 5.5), Ingredient("yeast", 2.5)]

  const ExampleAt2000: seq<Ingredient> := [
    Ingredient("flour", 612.7), Ingredient("water", 457.6), Ingredient("salt", 12.1),
    Ingredient("evoOil", 12.1), Ingredient("yeast", 5.5)]

  /**
   * Area 1000 without variation converts at 5, area 2000 with 10 percent at
   * 11, and every product of the example recipe is already on the tenths grid.
   */
  lemma ExampleDoughScaled()
    ensures ConversionRatio(DoughWeightOf(1000.0), 0.0) == 5.0
    ensures ConversionRatio(DoughWeightOf(2000.0), 10.0) == 11.0
    ensures BalanceIngredients(ExampleDough, 5.0) == ExampleAt1000
    ensures BalanceIngredients(ExampleDough, 11.0) == ExampleAt2000
  {
    Round1KeepsTenths(Tenths(2785));
    Round1KeepsTenths(Tenths(2080));
    Round1KeepsTenths(Tenths(55));
    Round1KeepsTenths(Tenths(25));
    Round1KeepsTenths(Tenths(6127));
    Round1KeepsTenths(Tenths(4576));
    Round1KeepsTenths(Tenths(121));
  }

  /** The balanced example doughs weigh 500 and 1100: half the area, grown by the variation. */
  lemma ExampleTotals()
    ensures TotalAmount(ExampleAt1000) == 500.0
    ensures TotalAmount(ExampleAt2000) == 1100.0
  {
    TotalOfFive(ExampleAt1000[0], ExampleAt1000[1], ExampleAt1000[2], ExampleAt1000[3], ExampleAt1000[4]);
    TotalOfFive(ExampleAt2000[0], ExampleAt2000[1], ExampleAt2000[2], ExampleAt2000[3], ExampleAt2000[4]);
  }

  /** `Balance` on the example recipe at area 1000 without variation: a dough of 500 with flour 278.5. */
  lemma BalanceExampleWithoutVariation(recipe: Recipe, pans: AreaPans)
    requires recipe.dough.ingredients == ExampleDough && recipe.dough.percentVariation == 0.0
    requires pans.totalArea == 1000.0 && ToppingScalable(recipe)
    ensures var r := Balance(recipe, pans);
      && r.Success?
      && r.value.recipe.dough.ingredients == ExampleAt1000
      && TotalAmount(r.value.recipe.dough.ingredients) == 500.0
  {
    ExampleDoughScaled();
    ExampleTotals();
  }

  /** `Balance` on the example recipe at area 2000 with 10 percent variation: a dough of 1100 with flour 612.7. */
  lemma BalanceExampleWithVariation(recipe: Recipe, pans: AreaPans)
    requires recipe.dough.ingredients == ExampleDough && recipe.dough.percentVariation == 10.0
    requires pans.totalArea == 2000.0 && ToppingScalable(recipe)
    ensures var r := Balance(recipe, pans);
      && r.Success?
      && r.value.recipe.dough.ingredients == ExampleAt2000
      && TotalAmount(r.value.recipe.dough.ingredients) == 1100.0
  {
    ExampleDoughScaled();
    ExampleTotals();
  }
}
