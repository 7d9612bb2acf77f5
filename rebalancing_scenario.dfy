/** A worked example of the trade generator and the deviation calculator: four holdings
    worth 6000/2000/1000/1000 against the equal-weight 25/25/25/25 target. */
module RebalancingScenario {
  import opened Wrappers
  import opened Seqs
  import opened PortfolioTypes
  import Analysis
  import opened Rebalancing

  function Holding(id: string, value: real, kind: AssetClass): Asset {
    Asset(id, id, id, value, 25.0, 0.0, 0.0, 0.0, kind, None, None)
  }

  const Holdings: seq<Asset> := [Holding("s", 6000.0, Stock), Holding("b", 2000.0, Bond),
                                 Holding("g", 1000.0, Gold), Holding("c", 1000.0, Cash)]

  const EqualWeight := Allocation(25.0, 25.0, 25.0, 25.0)

  /** The deviation bands for the example: stock 35 points over (high), bond 5 under (low,
      on the boundary), gold and cash 15 under (medium, on the boundary). */
  lemma ScenarioDeviations()
    ensures var d := Analysis.Deviations(Analysis.ActualRatios(AllocationOf(Holdings, ByValue),
                                                               Total(Holdings, ByValue)), EqualWeight);
      && d[0].deviation == 35.0 && d[0].level == High
      && d[1].deviation == -5.0 && d[1].level == Low
      && d[2].deviation == -15.0 && d[2].level == Medium
      && d[3].deviation == -15.0 && d[3].level == Medium
  {
    ScenarioTotals();
  }

  lemma ScenarioTotals()
    ensures Total(Holdings, ByValue) == 10000.0
    ensures AllocationOf(Holdings, ByValue) == Allocation(6000.0, 2000.0, 1000.0, 1000.0)
  {
    assert Holdings[1..][1..][1..][1..] == [];
  }

  lemma ScenarioClassTrade(c: AssetClass, held: real, tag: string, reason: string, amount: real)
    requires ClassTradeLabel(c) == tag && reason == "减少" + tag + "仓位"
    requires held == AllocationOf(Holdings, ByValue).Get(c) && 100.0 <= held
    requires amount == 10000.0 * ((held - 25.0) / 100.0)
    requires EqualWeight.Get(c) == 25.0
    ensures ClassLevelTrade(c, EqualWeight, AllocationOf(Holdings, ByValue), 10000.0)
         == [Trade(Sell, tag, amount, Some(reason), None)]
  {
  }

  const ClassSells: seq<Trade> := [
    Trade(Sell, "债券类资产", 197500.0, Some("减少债券类资产仓位"), None),
    Trade(Sell, "黄金类资产", 97500.0, Some("减少黄金类资产仓位"), None),
    Trade(Sell, "现金类资产", 97500.0, Some("减少现金类资产仓位"), None)]

  const BondBuy := Trade(Buy, "b", 500.0, Some("补充仓位"), Some(0.0))
  const GoldBuy := Trade(Buy, "g", 1000.0, Some("补充仓位"), Some(0.0))
  const CashBuy := Trade(Buy, "c", 1000.0, Some("补充仓位"), Some(0.0))

  const Expected: seq<Trade> := ClassSells + [BondBuy, GoldBuy, CashBuy]

  lemma ExpectedIsMaterial()
    ensures forall i :: 0 <= i < |Expected| ==> IsMaterial(10000.0)(Expected[i])
  {
    forall i | 0 <= i < |Expected|
      ensures IsMaterial(10000.0)(Expected[i])
    {
      assert Expected[i].amount >= 100.0;
    }
  }

  /** Because the class-level step compares the target percentage (25) with the money held
      (2000, 1000, 1000), it emits large sells of bond, gold and cash; the per-holding step
      then buys the money those classes lack. No stock trade is produced at all. */
  lemma ScenarioTrades()
    ensures PlannedTrades(Holdings, Some(EqualWeight)) == Expected
  {
    ScenarioTotals();
    ScenarioClassLevel();
    ScenarioHoldingLevel();
    PlannedTradesUnfolded(Holdings, EqualWeight);
    ExpectedIsMaterial();
    FilterKeepsAll(Expected, IsMaterial(10000.0));
  }

  lemma ScenarioClassLevel()
    ensures ClassLevelTrades(EqualWeight, AllocationOf(Holdings, ByValue), 10000.0) == ClassSells
  {
    ScenarioTotals();
    ScenarioClassTrade(Bond, 2000.0, "债券类资产", "减少债券类资产仓位", 197500.0);
    ScenarioClassTrade(Gold, 1000.0, "黄金类资产", "减少黄金类资产仓位", 97500.0);
    ScenarioClassTrade(Cash, 1000.0, "现金类资产", "减少现金类资产仓位", 97500.0);
  }

  lemma ScenarioHoldingLevel()
    ensures HoldingLevelTrades(Holdings, EqualWeight) == [BondBuy, GoldBuy, CashBuy]
  {
    ScenarioStockHoldings();
    ScenarioBondHoldings();
    ScenarioGoldHoldings();
    ScenarioCashHoldings();
    HoldingLevelOf(Holdings, EqualWeight, [], [BondBuy], [GoldBuy], [CashBuy]);
    BuysConcat();
  }

  lemma BuysConcat()
    ensures [] + [BondBuy] + [GoldBuy] + [CashBuy] == [BondBuy, GoldBuy, CashBuy]
  {
  }

  /** The per-holding step concatenates the four classes' trades in class order. */
  lemma HoldingLevelOf(assets: seq<Asset>, target: Allocation, s: seq<Trade>, b: seq<Trade>,
                       g: seq<Trade>, c: seq<Trade>)
    requires ClassHoldingTrades(assets, target, Stock) == s
    requires ClassHoldingTrades(assets, target, Bond) == b
    requires ClassHoldingTrades(assets, target, Gold) == g
    requires ClassHoldingTrades(assets, target, Cash) == c
    ensures HoldingLevelTrades(assets, target) == s + b + g + c
  {
  }

  lemma ScenarioStockHoldings()
    ensures ClassHoldingTrades(Holdings, EqualWeight, Stock) == []
  {
    ScenarioTotals();
    ScenarioHolding(Stock, 0, 2500.0 - 6000.0, -35.0);
    ScenarioBuys();
  }

  lemma ScenarioBondHoldings()
    ensures ClassHoldingTrades(Holdings, EqualWeight, Bond) == [BondBuy]
  {
    ScenarioTotals();
    ScenarioHolding(Bond, 1, 500.0, 5.0);
    ScenarioBuys();
  }

  lemma ScenarioGoldHoldings()
    ensures ClassHoldingTrades(Holdings, EqualWeight, Gold) == [GoldBuy]
  {
    ScenarioTotals();
    ScenarioHolding(Gold, 2, 1500.0, 15.0);
    ScenarioBuys();
  }

  lemma ScenarioCashHoldings()
    ensures ClassHoldingTrades(Holdings, EqualWeight, Cash) == [CashBuy]
  {
    ScenarioTotals();
    ScenarioHolding(Cash, 3, 1500.0, 15.0);
    ScenarioBuys();
  }

  /** What the per-holding step does with each single-holding class. */
  lemma ScenarioBuys()
    ensures HoldingTrades([Holdings[0]], 2500.0 - 6000.0, 0.0, -35.0) == []
    ensures HoldingTrades([Holdings[1]], 500.0, 0.0, 5.0) == [BondBuy]
    ensures HoldingTrades([Holdings[2]], 1500.0, 0.0, 15.0) == [GoldBuy]
    ensures HoldingTrades([Holdings[3]], 1500.0, 0.0, 15.0) == [CashBuy]
  {
    assert [Holdings[1]][1..] == [] && [Holdings[2]][1..] == [] && [Holdings[3]][1..] == [];
  }

  lemma ScenarioHolding(c: AssetClass, k: nat, need: real, deviation: real)
    requires k < 4 && Holdings[k].kind == c
    requires need == 2500.0 - AllocationOf(Holdings, ByValue).Get(c)
    requires deviation == 25.0 - AllocationOf(Holdings, ByValue).Get(c) / 100.0
    ensures ClassHoldingTrades(Holdings, EqualWeight, c) == HoldingTrades([Holdings[k]], need, 0.0, deviation)
  {
    ScenarioTotals();
    assert Matching(Holdings, c) == [Holdings[k]];
    NeedAmountUnfolded(Holdings, EqualWeight, c, 10000.0, AllocationOf(Holdings, ByValue).Get(c));
    RatioDeviationUnfolded(Holdings, EqualWeight, c, 10000.0, AllocationOf(Holdings, ByValue).Get(c));
  }
}
