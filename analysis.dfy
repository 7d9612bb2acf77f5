/** The deviation calculator of `src/pages/Analysis.tsx`: money per class, ratios guarded by
    `totalValue > 0`, the four per-class deviations with the 5/15 bands (shared with
    `usePortfolio`), and the overall deviation with its own 10/20 bands. */
module Analysis {
  import opened Seqs
  import opened PortfolioTypes

  /** The per-class severity band: low up to 5, medium up to 15, high beyond. */
  function ClassLevel(deviation: real): (r: Level)
    ensures r == Low <==> Abs(deviation) <= 5.0
    ensures r == Medium <==> 5.0 < Abs(deviation) <= 15.0
    ensures r == High <==> Abs(deviation) > 15.0
  {
    if Abs(deviation) <= 5.0 then Low
    else if Abs(deviation) <= 15.0 then Medium
    else High
  }

  /** `getOverallLevel`: low up to 10, medium up to 20, high beyond (no absolute value). */
  function OverallLevel(deviation: real): (r: Level)
    ensures r == Low <==> deviation <= 10.0
    ensures r == Medium <==> 10.0 < deviation <= 20.0
    ensures r == High <==> deviation > 20.0
  {
    if deviation <= 10.0 then Low
    else if deviation <= 20.0 then Medium
    else High
  }

  /** The four deviation records, in the order stock, bond, gold, cash. */
  function Deviations(current: Allocation, target: Allocation): (r: seq<Deviation>)
    ensures |r| == 4
    ensures forall i :: 0 <= i < 4 ==>
      var c := Classes[i];
      && r[i].kind == c
      && r[i].name == ClassLabel(c)
      && r[i].current == current.Get(c)
      && r[i].target == target.Get(c)
      && r[i].deviation == current.Get(c) - target.Get(c)
      && r[i].level == ClassLevel(r[i].deviation)
  {
    seq(4, i requires 0 <= i < 4 =>
      var c := Classes[i];
      Deviation(c, ClassLabel(c), current.Get(c), target.Get(c),
                current.Get(c) - target.Get(c), ClassLevel(current.Get(c) - target.Get(c))))
  }

  /** The four deviations add up to the difference of the two totals. */
  lemma DeviationsSum(current: Allocation, target: Allocation)
    ensures var r := Deviations(current, target);
      r[0].deviation + r[1].deviation + r[2].deviation + r[3].deviation == current.Total() - target.Total()
  {
    var r := Deviations(current, target);
    assert r[0].deviation == current.stock - target.stock by { assert Classes[0] == Stock; }
    assert r[1].deviation == current.bond - target.bond by { assert Classes[1] == Bond; }
    assert r[2].deviation == current.gold - target.gold by { assert Classes[2] == Gold; }
    assert r[3].deviation == current.cash - target.cash by { assert Classes[3] == Cash; }
  }

  /** `actualRatios`: each class's share of the total in percent, all zero unless the
      total is positive. */
  function ActualRatios(allocation: Allocation, totalValue: real): (r: Allocation)
    ensures totalValue <= 0.0 ==> r == ZeroAllocation
    ensures totalValue > 0.0 ==> forall c :: r.Get(c) == allocation.Get(c) / totalValue * 100.0
    ensures totalValue > 0.0 && allocation.Total() == totalValue ==> r.Total() == 100.0
  {
    if totalValue > 0.0 then
      var r := Allocation(allocation.stock / totalValue * 100.0, allocation.bond / totalValue * 100.0,
                          allocation.gold / totalValue * 100.0, allocation.cash / totalValue * 100.0);
      assert r.Total() == allocation.Total() / totalValue * 100.0;
      r
    else ZeroAllocation
  }

  /** `actualDeviations` for the holdings' money split against a strategy's targets. */
  function ActualDeviations(assets: seq<Asset>, strategy: Strategy): (r: seq<Deviation>)
    ensures |r| == 4
    ensures forall i :: 0 <= i < 4 ==>
      && r[i].kind == Classes[i]
      && r[i].deviation == ActualRatios(AllocationOf(assets, ByValue), Total(assets, ByValue)).Get(Classes[i])
                           - strategy.allocations.Get(Classes[i])
  {
    Deviations(ActualRatios(AllocationOf(assets, ByValue), Total(assets, ByValue)), strategy.allocations)
  }

  function AbsDeviations(devs: seq<Deviation>): (r: seq<real>)
    ensures |r| == |devs| && forall i :: 0 <= i < |devs| ==> r[i] == Abs(devs[i].deviation)
  {
    seq(|devs|, i requires 0 <= i < |devs| => Abs(devs[i].deviation))
  }

  /** `overallDeviation`: the largest absolute deviation over the records. */
  function OverallDeviation(devs: seq<Deviation>): (d: real)
    requires |devs| > 0
    ensures forall i :: 0 <= i < |devs| ==> Abs(devs[i].deviation) <= d
    ensures exists i :: 0 <= i < |devs| && Abs(devs[i].deviation) == d
  {
    Max(AbsDeviations(devs))
  }
}
