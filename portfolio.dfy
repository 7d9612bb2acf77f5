/** The selected-strategy state of `src/hooks/usePortfolio.ts` and what it derives from a
    holdings list: the strategy lookup with its fallback, the allocation summed by
    `currentRatio`, the four deviations, and the fixed post-rebalancing allocation. The
    hook's literal holdings and trades are sample data and are not modelled. */
module Portfolio {
  import opened Wrappers
  import opened PortfolioTypes
  import opened Analysis

  /** The index of the first strategy with the id, if any. */
  function FindStrategy(strategies: seq<Strategy>, id: string): (r: Option<nat>)
    ensures r.None? <==> forall i :: 0 <= i < |strategies| ==> strategies[i].id != id
    ensures r.Some? ==> r.value < |strategies| && strategies[r.value].id == id
    ensures r.Some? ==> forall i :: 0 <= i < r.value ==> strategies[i].id != id
  {
    if strategies == [] then None
    else if strategies[0].id == id then Some(0)
    else match FindStrategy(strategies[1..], id)
         case None => None
         case Some(k) => Some(k + 1)
  }

  /** `STRATEGIES.find((s) => s.id === id) || STRATEGIES[0]`. */
  function LookupStrategy(id: string): (r: Strategy)
    ensures r in STRATEGIES
    ensures (exists i :: 0 <= i < |STRATEGIES| && STRATEGIES[i].id == id) ==> r.id == id
    ensures (forall i :: 0 <= i < |STRATEGIES| ==> STRATEGIES[i].id != id) ==> r == STRATEGIES[0]
  {
    match FindStrategy(STRATEGIES, id)
    case Some(k) => STRATEGIES[k]
    case None => STRATEGIES[0]
  }

  /** `currentAllocation`: per class, the sum of the holdings' `currentRatio` (not of their
      values). */
  function CurrentAllocation(assets: seq<Asset>): (r: Allocation)
    ensures forall c :: r.Get(c) == ClassTotal(assets, c, ByCurrentRatio)
    ensures r.Total() == Total(assets, ByCurrentRatio)
  {
    AllocationOf(assets, ByCurrentRatio)
  }

  /** `deviations`: the records of the shared deviation calculator, against the selected
      strategy's targets. */
  function PortfolioDeviations(assets: seq<Asset>, strategy: Strategy): (r: seq<Deviation>)
    ensures |r| == 4
    ensures forall i :: 0 <= i < 4 ==>
      && r[i].kind == Classes[i]
      && r[i].deviation == ClassTotal(assets, Classes[i], ByCurrentRatio) - strategy.allocations.Get(Classes[i])
      && r[i].level == ClassLevel(r[i].deviation)
  {
    Deviations(CurrentAllocation(assets), strategy.allocations)
  }

  /** `postRebalancingAllocation`: a quarter in each class, whatever the strategy. */
  const POST_REBALANCING_ALLOCATION := Allocation(25.0, 25.0, 25.0, 25.0)

  class PortfolioState {
    var currentStrategyId: string

    constructor ()
      ensures currentStrategyId == "harry-browne"
      ensures CurrentStrategy() == STRATEGIES[0]
    {
      currentStrategyId := "harry-browne";
    }

    /** `selectStrategy`: the only state change the hook has. */
    method SelectStrategy(strategyId: string)
      modifies this
      ensures currentStrategyId == strategyId
    {
      currentStrategyId := strategyId;
    }

    /** `portfolio.currentStrategy`. */
    function CurrentStrategy(): (r: Strategy)
      reads this
      ensures r in STRATEGIES
    {
      LookupStrategy(currentStrategyId)
    }

    /** The post-rebalancing allocation, which does not depend on the selection. */
    function PostRebalancingAllocation(): (r: Allocation)
      reads this
      ensures forall c :: r.Get(c) == 25.0
      ensures r.Total() == 100.0
    {
      POST_REBALANCING_ALLOCATION
    }
  }

  /** Each strategy id of the table selects its own row; any other id the first. */
  lemma LookupTable()
    ensures LookupStrategy("harry-browne").allocations == Allocation(25.0, 25.0, 25.0, 25.0)
    ensures LookupStrategy("all-weather").allocations == Allocation(30.0, 40.0, 15.0, 15.0)
    ensures LookupStrategy("golden-balance").allocations == Allocation(60.0, 0.0, 40.0, 0.0)
    ensures LookupStrategy("custom").allocations == ZeroAllocation
    ensures LookupStrategy("none") == STRATEGIES[0]
  {
    assert STRATEGIES[1].id == "all-weather";
    assert STRATEGIES[2].id == "golden-balance";
    assert STRATEGIES[3].id == "custom";
  }

  /** The table's ids are distinct, so a found strategy is the only one with its id. */
  lemma StrategyIdsDistinct()
    ensures forall i, j :: 0 <= i < j < |STRATEGIES| ==> STRATEGIES[i].id != STRATEGIES[j].id
  {
    assert STRATEGIES[0].id == "harry-browne";
    assert STRATEGIES[1].id == "all-weather";
    assert STRATEGIES[2].id == "golden-balance";
    assert STRATEGIES[3].id == "custom";
  }

  /** The four deviations add up to the holdings' ratio total minus the strategy's total. */
  lemma DeviationsAddUp(assets: seq<Asset>, strategy: Strategy)
    ensures var r := PortfolioDeviations(assets, strategy);
      r[0].deviation + r[1].deviation + r[2].deviation + r[3].deviation
        == Total(assets, ByCurrentRatio) - strategy.allocations.Total()
  {
    DeviationsSum(CurrentAllocation(assets), strategy.allocations);
  }
}
