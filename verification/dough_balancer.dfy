/**
 * The older balancer of the ingredients-balancer service, over a dough with
 * five fixed fields: scale the dough to the pans' total dough weight grown by
 * the recipe's percent variation, split it per pan in proportion to each
 * pan's dough weight, and leave the rest of the recipe alone.
 */
module DoughBalancer {
  import opened Wrappers
  import opened Rounding
  import opened BalancerDomain
  import RecipeDomain
  import IngredientsBalancer
  import PanGeometry
  import Sequences

  /** The five-field dough, amounts in percent of the dough weight before balancing. */
  datatype FiveDough = FiveDough(
    percentVariation: real,
    flour: real,
    water: real,
    salt: real,
    evoOil: real,
    yeast: real)

  /** A recipe of that generation; its topping and steps are those of the current recipe records. */
  datatype FiveRecipe = FiveRecipe(
    id: int,
    uuid: string,
    name: string,
    description: string,
    author: string,
    dough: FiveDough,
    topping: RecipeDomain.Topping,
    steps: RecipeDomain.Steps)

  datatype FiveSplit = FiveSplit(splitDough: seq<FiveDough>, splitTopping: seq<RecipeDomain.Topping>)

  datatype FiveAggregate = FiveAggregate(recipe: FiveRecipe, splitIngredients: FiveSplit)

  /**
   * `scaled` has every amount of `base` multiplied by `ratio` and rounded to
   * one decimal, and no percent variation: the source never copies that field.
   */
  predicate ScaledFrom(scaled: FiveDough, base: FiveDough, ratio: real) {
    && scaled.percentVariation == 0.0
    && scaled.flour == Round1(base.flour * ratio)
    && scaled.water == Round1(base.water * ratio)
    && scaled.salt == Round1(base.salt * ratio)
    && scaled.evoOil == Round1(base.evoOil * ratio)
    && scaled.yeast == Round1(base.yeast * ratio)
  }

  /** Every amount lies on the tenths grid. */
  predicate InTenths(d: FiveDough) {
    IsTenth(d.flour) && IsTenth(d.water) && IsTenth(d.salt) && IsTenth(d.evoOil) && IsTenth(d.yeast)
  }

  function ScaleDough(base: FiveDough, ratio: real): (r: FiveDough)
    ensures ScaledFrom(r, base, ratio)
  {
    FiveDough(0.0, Round1(base.flour * ratio), Round1(base.water * ratio), Round1(base.salt * ratio),
      Round1(base.evoOil * ratio), Round1(base.yeast * ratio))
  }

  /** `calculateSplitDoughs`: one dough per pan, in pan order, scaled by the pan's share of the total weight. */
  function CalculateSplitDoughs(total: FiveDough, pans: WeightPans): (r: seq<FiveDough>)
    requires pans.totalDoughWeight != 0.0 || |pans.pans| == 0
    ensures |r| == |pans.pans|
    ensures forall i :: 0 <= i < |r| ==>
      ScaledFrom(r[i], total, pans.pans[i].doughWeight / pans.totalDoughWeight)
  {
    Sequences.Map(pans.pans,
      (pan: WeightPan) requires pans.totalDoughWeight != 0.0 =>
        ScaleDough(total, pan.doughWeight / pans.totalDoughWeight))
  }

  /** The five amounts of a dough, by name. */
  datatype Field = Flour | Water | Salt | EvoOil | Yeast

  function Amount(d: FiveDough, f: Field): real {
    match f
    case Flour => d.flour
    case Water => d.water
    case Salt => d.salt
    case EvoOil => d.evoOil
    case Yeast => d.yeast
  }

  /** One amount added up over the doughs. */
  function FieldTotal(doughs: seq<FiveDough>, f: Field): real {
    if |doughs| == 0 then 0.0 else FieldTotal(doughs[..|doughs| - 1], f) + Amount(doughs[|doughs| - 1], f)
  }

  /** The exact amounts the pans' shares of `totalDoughWeight` ask for, added up. */
  function Portions(pans: seq<WeightPan>, totalDoughWeight: real, amount: real): real
    requires totalDoughWeight != 0.0
  {
    if |pans| == 0 then 0.0
    else Portions(pans[..|pans| - 1], totalDoughWeight, amount) + (pans[|pans| - 1].doughWeight / totalDoughWeight) * amount
  }

  /** One amount of `d` is within 0.05 of the base amount times `ratio`. */
  predicate Near(d: FiveDough, base: FiveDough, ratio: real, f: Field) {
    Amount(base, f) * ratio - 0.05 <= Amount(d, f) <= Amount(base, f) * ratio + 0.05
  }

  /**
   * When the pans' dough weights add up to the total dough weight, the split
   * doughs hold between them the whole of every amount, up to 0.05 of
   * rounding per pan.
   */
  lemma SplitAddsUpToWhole(total: FiveDough, pans: WeightPans, f: Field)
    requires pans.totalDoughWeight != 0.0 && SumWeights(pans.pans) == pans.totalDoughWeight
    ensures var column := FieldTotal(CalculateSplitDoughs(total, pans), f);
      var slack := 0.05 * |pans.pans| as real;
      Amount(total, f) - slack <= column <= Amount(total, f) + slack
  {
    var split := CalculateSplitDoughs(total, pans);
    forall i | 0 <= i < |pans.pans|
      ensures Near(split[i], total, pans.pans[i].doughWeight / pans.totalDoughWeight, f)
    {
      var share := pans.pans[i].doughWeight / pans.totalDoughWeight;
      ScaledIsNear(split[i], total, share);
      FieldIsNear(split[i], total, share, f);
    }
    SplitFieldNear(split, pans.pans, total, pans.totalDoughWeight, f);
    PortionsOfWhole(pans.pans, pans.totalDoughWeight, Amount(total, f));
  }

  /**
   * After balancing over pans whose weights add up to the total dough weight,
   * the pans' doughs hold between them every balanced amount, up to 0.05 per pan.
   */
  lemma BalancedSplitAddsUp(recipe: FiveRecipe, pans: WeightPans, f: Field)
    requires !Rejected(recipe, pans) && SumWeights(pans.pans) == pans.totalDoughWeight
    ensures var r := Balance(recipe, pans).value;
      var column := FieldTotal(r.splitIngredients.splitDough, f);
      var slack := 0.05 * |pans.pans| as real;
      Amount(r.recipe.dough, f) - slack <= column <= Amount(r.recipe.dough, f) + slack
  {
    SplitAddsUpToWhole(Balance(recipe, pans).value.recipe.dough, pans, f);
  }

  /** Doughs near their pans' shares hold between them the pans' portions, up to 0.05 per pan. */
  lemma {:induction false} SplitFieldNear(split: seq<FiveDough>, pans: seq<WeightPan>, base: FiveDough,
                                          totalDoughWeight: real, f: Field)
    requires totalDoughWeight != 0.0 && |split| == |pans|
    requires forall i :: 0 <= i < |pans| ==> Near(split[i], base, pans[i].doughWeight / totalDoughWeight, f)
    ensures Portions(pans, totalDoughWeight, Amount(base, f)) - 0.05 * |pans| as real <= FieldTotal(split, f)
    ensures FieldTotal(split, f) <= Portions(pans, totalDoughWeight, Amount(base, f)) + 0.05 * |pans| as real
  {
    if |pans| > 0 {
      var n := |pans| - 1;
      SplitFieldNear(split[..n], pans[..n], base, totalDoughWeight, f);
      var share := pans[n].doughWeight / totalDoughWeight;
      assert Near(split[n], base, share, f);
      assert Amount(base, f) * share == share * Amount(base, f);
    }
  }

  /** Every amount of `d` is within 0.05 of the base amount times `ratio`. */
  predicate NearlyScaledFrom(d: FiveDough, base: FiveDough, ratio: real) {
    && base.flour * ratio - 0.05 <= d.flour <= base.flour * ratio + 0.05
    && base.water * ratio - 0.05 <= d.water <= base.water * ratio + 0.05
    && base.salt * ratio - 0.05 <= d.salt <= base.salt * ratio + 0.05
    && base.evoOil * ratio - 0.05 <= d.evoOil <= base.evoOil * ratio + 0.05
    && base.yeast * ratio - 0.05 <= d.yeast <= base.yeast * ratio + 0.05
  }

  lemma FieldIsNear(d: FiveDough, base: FiveDough, ratio: real, f: Field)
    requires NearlyScaledFrom(d, base, ratio)
    ensures Near(d, base, ratio, f)
  {
  }

  /** The portions of all the pans are the amount scaled by the pans' share of the total weight. */
  lemma {:induction false} PortionsAreShare(pans: seq<WeightPan>, totalDoughWeight: real, amount: real)
    requires totalDoughWeight != 0.0
    ensures Portions(pans, totalDoughWeight, amount) == (SumWeights(pans) / totalDoughWeight) * amount
  {
    if |pans| > 0 {
      var n := |pans| - 1;
      PortionsAreShare(pans[..n], totalDoughWeight, amount);
      IngredientsBalancer.SharesAdd(amount, SumWeights(pans[..n]), pans[n].doughWeight, totalDoughWeight);
    }
  }

  /** Pans whose weights add up to the total dough weight ask for exactly the whole amount. */
  lemma PortionsOfWhole(pans: seq<WeightPan>, totalDoughWeight: real, amount: real)
    requires totalDoughWeight != 0.0 && SumWeights(pans) == totalDoughWeight
    ensures Portions(pans, totalDoughWeight, amount) == amount
  {
    PortionsAreShare(pans, totalDoughWeight, amount);
    assert SumWeights(pans) / totalDoughWeight == 1.0;
  }

  /** The inputs `Balance` rejects. */
  predicate Rejected(recipe: FiveRecipe, pans: WeightPans) {
    pans.totalDoughWeight <= 0.0 || recipe.dough.flour <= 0.0
  }

  /** The factor the base dough is scaled by: the total weight grown by the percent variation, per 100. */
  function Ratio(recipe: FiveRecipe, pans: WeightPans): real {
    IngredientsBalancer.ConversionRatio(pans.totalDoughWeight, recipe.dough.percentVariation)
  }

  /**
   * `Balance`. Rejects a non-positive total dough weight and a non-positive
   * flour amount. Otherwise only the recipe's dough is replaced, by the scaled
   * dough, which is then split per pan; no topping is split.
   */
  function Balance(recipe: FiveRecipe, pans: WeightPans): (r: Result<FiveAggregate, string>)
    ensures r.Failure? <==> Rejected(recipe, pans)
    ensures r.Failure? ==> r.error == IngredientsBalancer.InvalidDoughWeight
    ensures r.Success? ==> r.value.recipe == recipe.(dough := r.value.recipe.dough)
    ensures r.Success? ==> ScaledFrom(r.value.recipe.dough, recipe.dough, Ratio(recipe, pans))
    ensures r.Success? ==> r.value.splitIngredients.splitTopping == []
    ensures r.Success? ==> r.value.splitIngredients.splitDough == CalculateSplitDoughs(r.value.recipe.dough, pans)
  {
    if Rejected(recipe, pans) then Failure(IngredientsBalancer.InvalidDoughWeight)
    else
      var dough := ScaleDough(recipe.dough, Ratio(recipe, pans));
      Success(FiveAggregate(recipe.(dough := dough), FiveSplit(CalculateSplitDoughs(dough, pans), [])))
  }

  /** A pan without dough weight gets a dough with every amount 0. */
  lemma ZeroWeightPanGetsNothing(total: FiveDough, pans: WeightPans, i: nat)
    requires pans.totalDoughWeight != 0.0 && i < |pans.pans| && pans.pans[i].doughWeight == 0.0
    ensures CalculateSplitDoughs(total, pans)[i] == FiveDough(0.0, 0.0, 0.0, 0.0, 0.0, 0.0)
  {
    assert pans.pans[i].doughWeight / pans.totalDoughWeight == 0.0;
    ScalingByZero(total);
  }

  lemma ScalingByZero(total: FiveDough)
    ensures ScaleDough(total, 0.0) == FiveDough(0.0, 0.0, 0.0, 0.0, 0.0, 0.0)
  {
    assert total.flour * 0.0 == 0.0 && total.water * 0.0 == 0.0 && total.salt * 0.0 == 0.0;
    assert total.evoOil * 0.0 == 0.0 && total.yeast * 0.0 == 0.0;
  }

  /** With no pans there is nothing to split. */
  lemma NoPansNoSplit(total: FiveDough, totalDoughWeight: real)
    ensures CalculateSplitDoughs(total, WeightPans([], totalDoughWeight)) == []
  {
  }

  /** Amounts on the tenths grid, such as balanced ones, survive a ratio of 1 unchanged. */
  lemma ScalingByOneKeepsTenths(total: FiveDough)
    requires InTenths(total)
    ensures ScaleDough(total, 1.0) == total.(percentVariation := 0.0)
  {
    Round1KeepsTenths(total.flour);
    Round1KeepsTenths(total.water);
    Round1KeepsTenths(total.salt);
    Round1KeepsTenths(total.evoOil);
    Round1KeepsTenths(total.yeast);
  }

  /** A single pan holding the whole dough weight gets the balanced dough unchanged. */
  lemma SinglePanGetsWholeDough(recipe: FiveRecipe, pan: WeightPan)
    requires pan.doughWeight > 0.0 && recipe.dough.flour > 0.0
    ensures var r := Balance(recipe, WeightPans([pan], pan.doughWeight));
      r.Success? && r.value.splitIngredients.splitDough == [r.value.recipe.dough]
  {
    var pans := WeightPans([pan], pan.doughWeight);
    var dough := Balance(recipe, pans).value.recipe.dough;
    ScaledInTenths(dough, recipe.dough, Ratio(recipe, pans));
    WholeShare(dough, pan);
  }

  /** Scaled amounts lie on the tenths grid. */
  lemma ScaledInTenths(scaled: FiveDough, base: FiveDough, ratio: real)
    requires ScaledFrom(scaled, base, ratio)
    ensures InTenths(scaled) && scaled.percentVariation == 0.0
  {
  }

  /** A pan holding the whole weight gets a dough on the tenths grid unchanged. */
  lemma WholeShare(dough: FiveDough, pan: WeightPan)
    requires InTenths(dough) && dough.percentVariation == 0.0 && pan.doughWeight != 0.0
    ensures CalculateSplitDoughs(dough, WeightPans([pan], pan.doughWeight)) == [dough]
  {
    assert pan.doughWeight / pan.doughWeight == 1.0;
    ScalingByOneKeepsTenths(dough);
  }

  /**
   * A recipe whose five amounts add up to 100 percent, without percent
   * variation, balances to amounts adding up to the total dough weight, up to
   * 0.05 of rounding per field.
   */
  lemma BalancedWeightNearTotal(recipe: FiveRecipe, pans: WeightPans)
    requires !Rejected(recipe, pans) && recipe.dough.percentVariation == 0.0
    requires recipe.dough.flour + recipe.dough.water + recipe.dough.salt + recipe.dough.evoOil + recipe.dough.yeast == 100.0
    ensures var d := Balance(recipe, pans).value.recipe.dough;
      && pans.totalDoughWeight - 0.25 <= d.flour + d.water + d.salt + d.evoOil + d.yeast
      && d.flour + d.water + d.salt + d.evoOil + d.yeast <= pans.totalDoughWeight + 0.25
  {
    RatioWithoutVariation(recipe, pans);
    ScaledWeightNear(recipe.dough, Balance(recipe, pans).value.recipe.dough, Ratio(recipe, pans));
  }

  lemma ScaledWeightNear(base: FiveDough, d: FiveDough, ratio: real)
    requires ScaledFrom(d, base, ratio)
    requires base.flour + base.water + base.salt + base.evoOil + base.yeast == 100.0
    ensures 100.0 * ratio - 0.25 <= d.flour + d.water + d.salt + d.evoOil + d.yeast <= 100.0 * ratio + 0.25
  {
    ScaledIsNear(d, base, ratio);
    NearlySum(base, d, ratio);
  }

  /** Five amounts each within 0.05 of their base times `ratio`, with bases adding up to 100. */
  lemma NearlySum(base: FiveDough, d: FiveDough, ratio: real)
    requires base.flour * ratio - 0.05 <= d.flour <= base.flour * ratio + 0.05
    requires base.water * ratio - 0.05 <= d.water <= base.water * ratio + 0.05
    requires base.salt * ratio - 0.05 <= d.salt <= base.salt * ratio + 0.05
    requires base.evoOil * ratio - 0.05 <= d.evoOil <= base.evoOil * ratio + 0.05
    requires base.yeast * ratio - 0.05 <= d.yeast <= base.yeast * ratio + 0.05
    requires base.flour + base.water + base.salt + base.evoOil + base.yeast == 100.0
    ensures 100.0 * ratio - 0.25 <= d.flour + d.water + d.salt + d.evoOil + d.yeast <= 100.0 * ratio + 0.25
  {
    FactorOut(base, ratio);
    SumWithin(base.flour * ratio, base.water * ratio, base.salt * ratio, base.evoOil * ratio, base.yeast * ratio,
      d.flour, d.water, d.salt, d.evoOil, d.yeast, 100.0 * ratio);
  }

  /** Each scaled amount is within 0.05 of its exact product. */
  lemma ScaledIsNear(d: FiveDough, base: FiveDough, ratio: real)
    requires ScaledFrom(d, base, ratio)
    ensures base.flour * ratio - 0.05 <= d.flour <= base.flour * ratio + 0.05
    ensures base.water * ratio - 0.05 <= d.water <= base.water * ratio + 0.05
    ensures base.salt * ratio - 0.05 <= d.salt <= base.salt * ratio + 0.05
    ensures base.evoOil * ratio - 0.05 <= d.evoOil <= base.evoOil * ratio + 0.05
    ensures base.yeast * ratio - 0.05 <= d.yeast <= base.yeast * ratio + 0.05
  {
    RoundedNear(base.flour * ratio, d.flour);
    RoundedNear(base.water * ratio, d.water);
    RoundedNear(base.salt * ratio, d.salt);
    RoundedNear(base.evoOil * ratio, d.evoOil);
    RoundedNear(base.yeast * ratio, d.yeast);
  }

  lemma RoundedNear(x: real, r: real)
    requires r == Round1(x)
    ensures x - 0.05 <= r <= x + 0.05
  {
  }

  /** Five values each within 0.05 of their targets add up to within 0.25 of the targets' sum. */
  lemma SumWithin(p1: real, p2: real, p3: real, p4: real, p5: real,
                  r1: real, r2: real, r3: real, r4: real, r5: real, total: real)
    requires p1 - 0.05 <= r1 <= p1 + 0.05 && p2 - 0.05 <= r2 <= p2 + 0.05 && p3 - 0.05 <= r3 <= p3 + 0.05
    requires p4 - 0.05 <= r4 <= p4 + 0.05 && p5 - 0.05 <= r5 <= p5 + 0.05
    requires p1 + p2 + p3 + p4 + p5 == total
    ensures total - 0.25 <= r1 + r2 + r3 + r4 + r5 <= total + 0.25
  {
  }

  lemma RatioWithoutVariation(recipe: FiveRecipe, pans: WeightPans)
    requires recipe.dough.percentVariation == 0.0
    ensures 100.0 * Ratio(recipe, pans) == pans.totalDoughWeight
  {
  }

  /** The scaled base amounts add up to the base total scaled. */
  lemma FactorOut(base: FiveDough, ratio: real)
    requires base.flour + base.water + base.salt + base.evoOil + base.yeast == 100.0
    ensures base.flour * ratio + base.water * ratio + base.salt * ratio + base.evoOil * ratio + base.yeast * ratio
      == 100.0 * ratio
  {
    assert base.flour * ratio + base.water * ratio + base.salt * ratio + base.evoOil * ratio + base.yeast * ratio
      == (base.flour + base.water + base.salt + base.evoOil + base.yeast) * ratio;
  }

  /** The base dough of the balancer's examples. */
  const ExampleDough: FiveDough := FiveDough(0.0, 55.7, 41.6, 1.1, 1.1, 0.5)

  /** Balanced to 1000 without variation, the example dough weighs exactly 1000, with flour 557. */
  lemma BalanceExample(recipe: FiveRecipe, pans: WeightPans)
    requires recipe.dough == ExampleDough && pans.totalDoughWeight == 1000.0
    ensures var r := Balance(recipe, pans);
      && r.Success?
      && r.value.recipe.dough == FiveDough(0.0, 557.0, 416.0, 11.0, 11.0, 5.0)
      && var d := r.value.recipe.dough; d.flour + d.water + d.salt + d.evoOil + d.yeast == 1000.0
  {
    assert Ratio(recipe, pans) == 10.0;
    Round1KeepsTenths(Tenths(5570));
    Round1KeepsTenths(Tenths(4160));
    Round1KeepsTenths(Tenths(110));
    Round1KeepsTenths(Tenths(50));
  }

  /** The whole dough of the split examples. */
  const SplitExampleDough: FiveDough := FiveDough(0.0, 1000.0, 700.0, 20.0, 50.0, 5.0)

  /** The example dough over pans of 500, 300 and 200 of 1000. */
  lemma SplitExample()
    ensures CalculateSplitDoughs(SplitExampleDough, WeightPans([
      WeightPan("round", PanGeometry.NoMeasures, 500.0),
      WeightPan("round", PanGeometry.NoMeasures, 300.0),
      WeightPan("round", PanGeometry.NoMeasures, 200.0)], 1000.0)) == [
      FiveDough(0.0, 500.0, 350.0, 10.0, 25.0, 2.5),
      FiveDough(0.0, 300.0, 210.0, 6.0, 15.0, 1.5),
      FiveDough(0.0, 200.0, 140.0, 4.0, 10.0, 1.0)]
  {
    HalfOfExample();
    ShareOfExample(3, FiveDough(0.0, 300.0, 210.0, 6.0, 15.0, 1.5));
    ShareOfExample(2, FiveDough(0.0, 200.0, 140.0, 4.0, 10.0, 1.0));
  }

  lemma HalfOfExample()
    ensures ScaleDough(SplitExampleDough, 0.5) == FiveDough(0.0, 500.0, 350.0, 10.0, 25.0, 2.5)
  {
    Round1KeepsTenths(Tenths(5000));
    Round1KeepsTenths(Tenths(3500));
    Round1KeepsTenths(Tenths(100));
    Round1KeepsTenths(Tenths(250));
    Round1KeepsTenths(Tenths(25));
  }

  /** Tenths of the example dough scaled by `tenths`/10: each amount is a whole number of tenths. */
  lemma ShareOfExample(tenths: int, expected: FiveDough)
    requires expected == FiveDough(0.0, 100.0 * tenths as real, 70.0 * tenths as real, 2.0 * tenths as real,
      5.0 * tenths as real, 0.5 * tenths as real)
    ensures ScaleDough(SplitExampleDough, tenths as real / 10.0) == expected
  {
    Round1KeepsTenths(Tenths(1000 * tenths));
    Round1KeepsTenths(Tenths(700 * tenths));
    Round1KeepsTenths(Tenths(20 * tenths));
    Round1KeepsTenths(Tenths(50 * tenths));
    Round1KeepsTenths(Tenths(5 * tenths));
  }

  /** A zero-weight pan next to a full one: nothing for the first, everything for the second. */
  lemma ZeroWeightExample()
    ensures CalculateSplitDoughs(SplitExampleDough, WeightPans([
      WeightPan("round", PanGeometry.NoMeasures, 0.0),
      WeightPan("round", PanGeometry.NoMeasures, 1000.0)], 1000.0)) == [
      FiveDough(0.0, 0.0, 0.0, 0.0, 0.0, 0.0), SplitExampleDough]
  {
    var pans := WeightPans([
      WeightPan("round", PanGeometry.NoMeasures, 0.0),
      WeightPan("round", PanGeometry.NoMeasures, 1000.0)], 1000.0);
    ZeroWeightPanGetsNothing(SplitExampleDough, pans, 0);
    assert 1000.0 / 1000.0 == 1.0;
    ScalingByOneKeepsTenths(SplitExampleDough);
  }
}
