/**
 * The pan records of the ingredients-balancer service. Two generations coexist:
 * the strategies, the calculator and the five-field balancer use a pan with a
 * `DoughWeight` and a `TotalDoughWeight`, while the list balancer is called with
 * pans carrying a `Name`, an `Area` and a `TotalArea`.
 */
module BalancerDomain {
  import opened PanGeometry

  datatype WeightPan = WeightPan(shape: string, measures: Measures, doughWeight: real)

  datatype WeightPans = WeightPans(pans: seq<WeightPan>, totalDoughWeight: real)

  datatype AreaPan = AreaPan(shape: string, measures: Measures, name: string, area: real)

  datatype AreaPans = AreaPans(pans: seq<AreaPan>, totalArea: real)

  /** The sum of the pans' dough weights, accumulated front to back. */
  function SumWeights(pans: seq<WeightPan>): real {
    if |pans| == 0 then 0.0 else SumWeights(pans[..|pans| - 1]) + pans[|pans| - 1].doughWeight
  }

  /** The sum of the pans' areas, accumulated front to back. */
  function SumAreas(pans: seq<AreaPan>): real {
    if |pans| == 0 then 0.0 else SumAreas(pans[..|pans| - 1]) + pans[|pans| - 1].area
  }
}
