/** The trade generator of `src/hooks/useRebalancing.ts`, as written: class totals and
    ratios, the class-level trades for bond, gold and cash (which compare a target
    percentage with a current money amount), the per-holding trades of `rebalanceAsset`,
    the final 1% materiality filter, the post-rebalancing allocation and the summary. */
module Rebalancing {
  import opened Wrappers
  import opened Seqs
  import opened PortfolioTypes
  import Analysis

  /** `currentRatios`: each class's share of the total in percent, all zero when the
      total is exactly zero. */
  function CurrentRatios(allocation: Allocation, totalValue: real): (r: Allocation)
    ensures totalValue == 0.0 ==> r == ZeroAllocation
    ensures totalValue != 0.0 ==> forall c :: r.Get(c) == allocation.Get(c) / totalValue * 100.0
    ensures totalValue != 0.0 && allocation.Total() == totalValue ==> r.Total() == 100.0
  {
    if totalValue == 0.0 then ZeroAllocation
    else
      var r := Allocation(allocation.stock / totalValue * 100.0, allocation.bond / totalValue * 100.0,
                          allocation.gold / totalValue * 100.0, allocation.cash / totalValue * 100.0);
      assert r.Total() == allocation.Total() / totalValue * 100.0;
      r
  }

  /** The hook guards `total === 0`, the analysis page `total > 0`: they differ only for a
      negative total, which non-negative holdings never produce. */
  lemma RatioGuardsAgree(allocation: Allocation, totalValue: real)
    requires totalValue >= 0.0
    ensures CurrentRatios(allocation, totalValue) == Analysis.ActualRatios(allocation, totalValue)
  {
  }

  /** The aggregate label a class-level trade carries (`'债券类资产'`, ...). */
  function ClassTradeLabel(c: AssetClass): string {
    ClassLabel(c) + "类资产"
  }

  /** The stock label differs from the other three in its first character. */
  lemma LabelsDiffer()
    ensures ClassTradeLabel(Stock) != ClassTradeLabel(Bond)
    ensures ClassTradeLabel(Stock) != ClassTradeLabel(Gold)
    ensures ClassTradeLabel(Stock) != ClassTradeLabel(Cash)
  {
    assert ClassTradeLabel(Stock)[0] != ClassTradeLabel(Bond)[0];
    assert ClassTradeLabel(Stock)[0] != ClassTradeLabel(Gold)[0];
    assert ClassTradeLabel(Stock)[0] != ClassTradeLabel(Cash)[0];
  }

  /** One step of `calculateTradeForType`: it compares the target PERCENTAGE of class `c`
      with the class's current MONEY amount, emits a trade when they differ by at least
      1% of the total value, and sizes it as that difference taken as a percentage of the
      total. */
  function ClassLevelTrade(c: AssetClass, target: Allocation, allocation: Allocation, totalValue: real)
    : (r: seq<Trade>)
    ensures |r| <= 1
    ensures r != [] <==> Abs(target.Get(c) - allocation.Get(c)) >= totalValue * 0.01
    ensures r != [] ==>
      && r[0].assetName == ClassTradeLabel(c)
      && r[0].amount == Abs(totalValue * ((target.Get(c) - allocation.Get(c)) / 100.0))
      && (r[0].kind == Buy <==> target.Get(c) > allocation.Get(c))
      && r[0].currentProfit == None
  {
    var deviation := target.Get(c) - allocation.Get(c);
    if Abs(deviation) >= totalValue * 0.01 then
      [Trade(if deviation > 0.0 then Buy else Sell,
             ClassTradeLabel(c),
             Abs(totalValue * (deviation / 100.0)),
             Some(if deviation > 0.0 then "补充" + ClassTradeLabel(c) + "仓位"
                  else "减少" + ClassTradeLabel(c) + "仓位"),
             None)]
    else []
  }

  /** `assets.filter(a => a.type === c)`: every holding of class `c`, each as often as in
      `assets`, in their order, and nothing else. */
  function Matching(assets: seq<Asset>, c: AssetClass): (r: seq<Asset>)
    ensures forall i :: 0 <= i < |r| ==> r[i] in assets && r[i].kind == c
    ensures forall i :: 0 <= i < |assets| && assets[i].kind == c ==> assets[i] in r
    ensures IsSubsequence(r, assets)
    ensures forall i {:trigger multiset(r)[assets[i]]} :: 0 <= i < |assets| ==>
              multiset(r)[assets[i]] == (if assets[i].kind == c then multiset(assets)[assets[i]] else 0)
  {
    Filter(assets, IsKind(c))
  }

  /** The predicate of the class filter, named so that every use of it is the same function. */
  function IsKind(c: AssetClass): Asset -> bool {
    (a: Asset) => a.kind == c
  }

  function Min(x: real, y: real): real { if x <= y then x else y }

  /** The trade `rebalanceAsset` pushes for one holding. */
  function HoldingTrade(a: Asset, amount: real, deviation: real): Trade {
    Trade(if deviation > 0.0 then Buy else Sell, a.name, amount,
          Some(if deviation > 0.0 then "补充仓位" else "减少仓位"), Some(a.profitPercent))
  }

  /** The `forEach` of `rebalanceAsset` over `matching`, entered with `adjusted` already
      moved: a holding is skipped once `adjusted >= needAmount`; otherwise it is traded for
      `min(value, needAmount - adjusted)`, the trade is kept only when it is at least 1%
      of the holding's value, and `adjusted` grows by the amount either way. */
  function HoldingTrades(matching: seq<Asset>, needAmount: real, adjusted: real, deviation: real)
    : (r: seq<Trade>)
    ensures |r| <= |matching|
    decreases |matching|
  {
    if matching == [] then []
    else if adjusted >= needAmount then HoldingTrades(matching[1..], needAmount, adjusted, deviation)
    else
      var a := matching[0];
      var amount := Min(a.value, needAmount - adjusted);
      (if amount >= a.value * 0.01 then [HoldingTrade(a, amount, deviation)] else [])
      + HoldingTrades(matching[1..], needAmount, adjusted + amount, deviation)
  }

  /** The amount `adjusted` has moved after `rebalanceAsset` looks at holding `a`. */
  function Advance(a: Asset, needAmount: real, adjusted: real): real {
    if adjusted >= needAmount then adjusted else adjusted + Min(a.value, needAmount - adjusted)
  }

  /** The trades `rebalanceAsset` emits for holding `a` alone. */
  function Emitted(a: Asset, needAmount: real, adjusted: real, deviation: real): seq<Trade> {
    if adjusted >= needAmount then []
    else
      var amount := Min(a.value, needAmount - adjusted);
      if amount >= a.value * 0.01 then [HoldingTrade(a, amount, deviation)] else []
  }

  lemma HoldingTradesStep(matching: seq<Asset>, needAmount: real, adjusted: real, deviation: real)
    requires matching != []
    ensures HoldingTrades(matching, needAmount, adjusted, deviation)
         == Emitted(matching[0], needAmount, adjusted, deviation)
            + HoldingTrades(matching[1..], needAmount, Advance(matching[0], needAmount, adjusted), deviation)
  {
    if adjusted >= needAmount {
      assert Emitted(matching[0], needAmount, adjusted, deviation) == [];
    }
  }

  /** `t` is a trade `rebalanceAsset` may emit for holding `a`: it names the holding, carries
      its profit percent, and its amount lies between 1% of the holding's value and the value. */
  predicate TradeOfHolding(t: Trade, a: Asset) {
    && t.assetName == a.name
    && t.currentProfit == Some(a.profitPercent)
    && a.value * 0.01 <= t.amount <= a.value
  }

  /** Every per-holding trade comes from one of the holdings scanned, and its direction is
      the sign of the class's ratio deviation. */
  lemma {:induction false} HoldingTradesOrigin(matching: seq<Asset>, needAmount: real, adjusted: real, deviation: real)
    ensures forall t :: t in HoldingTrades(matching, needAmount, adjusted, deviation) ==>
      && (exists a :: a in matching && TradeOfHolding(t, a))
      && (t.kind == Buy <==> deviation > 0.0)
    decreases |matching|
  {
    if matching != [] {
      var next := Advance(matching[0], needAmount, adjusted);
      HoldingTradesStep(matching, needAmount, adjusted, deviation);
      HoldingTradesOrigin(matching[1..], needAmount, next, deviation);
      var head := Emitted(matching[0], needAmount, adjusted, deviation);
      var rest := HoldingTrades(matching[1..], needAmount, next, deviation);
      forall t | t in head + rest
        ensures exists a :: a in matching && TradeOfHolding(t, a)
        ensures t.kind == Buy <==> deviation > 0.0
      {
        if t in head {
          assert TradeOfHolding(t, matching[0]);
        } else {
          var a :| a in matching[1..] && TradeOfHolding(t, a);
          assert a in matching;
        }
      }
    }
  }

  /** Nothing is emitted once `adjusted` has reached the need, in particular when a class
      needs nothing (`needAmount <= 0` at the start). */
  lemma {:induction false} HoldingTradesWithoutNeed(matching: seq<Asset>, needAmount: real, adjusted: real, deviation: real)
    requires adjusted >= needAmount
    ensures HoldingTrades(matching, needAmount, adjusted, deviation) == []
    decreases |matching|
  {
    if matching != [] {
      HoldingTradesWithoutNeed(matching[1..], needAmount, adjusted, deviation);
    }
  }

  /** With non-negative holdings the amounts emitted add up to at most what was still
      needed: the cumulative amount never exceeds `needAmount`. */
  lemma {:induction false} HoldingTradesWithinNeed(matching: seq<Asset>, needAmount: real, adjusted: real, deviation: real)
    requires NonNegativeValues(matching)
    ensures var r := HoldingTrades(matching, needAmount, adjusted, deviation);
      SumAmounts(r) <= (if needAmount > adjusted then needAmount - adjusted else 0.0)
    decreases |matching|
  {
    if matching != [] {
      assert NonNegativeValues(matching[1..]) by {
        assert forall j :: 0 <= j < |matching[1..]| ==> matching[1..][j] == matching[j + 1];
      }
      var a := matching[0];
      assert a.value >= 0.0;
      var next := Advance(a, needAmount, adjusted);
      HoldingTradesStep(matching, needAmount, adjusted, deviation);
      HoldingTradesWithinNeed(matching[1..], needAmount, next, deviation);
      var head := Emitted(a, needAmount, adjusted, deviation);
      var rest := HoldingTrades(matching[1..], needAmount, next, deviation);
      SumAmountsConcat(head, rest);
      if adjusted < needAmount {
        var amount := Min(a.value, needAmount - adjusted);
        assert 0.0 <= amount <= needAmount - adjusted;
        assert SumAmounts(head) <= amount;
      } else {
        HoldingTradesWithoutNeed(matching, needAmount, adjusted, deviation);
      }
    }
  }

  /** The body of `rebalanceAsset`'s loop for one holding: the trade it emits, if any, and
      the new `adjustedAmount`. */
  method VisitHolding(asset: Asset, needAmount: real, adjusted: real, deviation: real)
    returns (emitted: seq<Trade>, next: real)
    ensures emitted == Emitted(asset, needAmount, adjusted, deviation)
    ensures next == Advance(asset, needAmount, adjusted)
  {
    emitted := [];
    next := adjusted;
    if adjusted < needAmount {
      var available := needAmount - adjusted;
      var tradeAmount := Min(asset.value, available);
      if tradeAmount >= asset.value * 0.01 {
        emitted := [HoldingTrade(asset, tradeAmount, deviation)];
      }
      next := adjusted + tradeAmount;
    }
  }

  /** `rebalanceAsset(c, needAmount)`, with the class's ratio deviation passed in. */
  method RebalanceAsset(assets: seq<Asset>, c: AssetClass, needAmount: real, deviation: real)
    returns (trades: seq<Trade>)
    ensures trades == HoldingTrades(Matching(assets, c), needAmount, 0.0, deviation)
  {
    trades := VisitHoldings(Matching(assets, c), needAmount, deviation);
  }

  /** The `forEach` of `rebalanceAsset` over the holdings of the class, in order. */
  method VisitHoldings(matching: seq<Asset>, needAmount: real, deviation: real)
    returns (trades: seq<Trade>)
    ensures trades == HoldingTrades(matching, needAmount, 0.0, deviation)
  {
    var adjusted := 0.0;
    trades := [];
    for i := 0 to |matching|
      invariant trades + HoldingTrades(matching[i..], needAmount, adjusted, deviation)
             == HoldingTrades(matching, needAmount, 0.0, deviation)
    {
      HoldingTradesStep(matching[i..], needAmount, adjusted, deviation);
      assert matching[i..][1..] == matching[i + 1..];
      var emitted, next := VisitHolding(matching[i], needAmount, adjusted, deviation);
      ghost var rest := HoldingTrades(matching[i + 1..], needAmount, next, deviation);
      assert trades + (emitted + rest) == (trades + emitted) + rest;
      trades := trades + emitted;
      adjusted := next;
    }
    assert matching[|matching|..] == [];
  }

  /** The final `trades.filter(t => t.amount >= totalAssetsValue * 0.01)`: exactly the
      trades of at least 1 % of the total, each as often as before, in their order. */
  function KeepMaterial(trades: seq<Trade>, totalValue: real): (r: seq<Trade>)
    ensures forall i :: 0 <= i < |r| ==> r[i] in trades && r[i].amount >= totalValue * 0.01
    ensures forall i :: 0 <= i < |trades| && trades[i].amount >= totalValue * 0.01 ==> trades[i] in r
    ensures IsSubsequence(r, trades)
    ensures forall i {:trigger multiset(r)[trades[i]]} :: 0 <= i < |trades| ==>
              multiset(r)[trades[i]] == (if trades[i].amount >= totalValue * 0.01 then multiset(trades)[trades[i]] else 0)
  {
    Filter(trades, IsMaterial(totalValue))
  }

  /** The predicate of the final filter, named so that every use of it is the same function. */
  function IsMaterial(totalValue: real): Trade -> bool {
    (t: Trade) => t.amount >= totalValue * 0.01
  }

  /** The class-level trades, in the order bond, gold, cash; stock never gets one because
      the helper that would build it is never called. */
  function ClassLevelTrades(target: Allocation, allocation: Allocation, totalValue: real): (r: seq<Trade>)
    ensures |r| <= 3
    ensures forall i :: 0 <= i < |r| ==> r[i].assetName != ClassTradeLabel(Stock) && r[i].currentProfit == None
  {
    LabelsDiffer();
    ClassLevelTrade(Bond, target, allocation, totalValue)
    + ClassLevelTrade(Gold, target, allocation, totalValue)
    + ClassLevelTrade(Cash, target, allocation, totalValue)
  }

  /** The money class `c` lacks: `total * (target/100) - currentAmount`. */
  function NeedAmount(assets: seq<Asset>, target: Allocation, c: AssetClass): real {
    Total(assets, ByValue) * (target.Get(c) / 100.0) - AllocationOf(assets, ByValue).Get(c)
  }

  /** The class's ratio deviation `target - current` that decides a per-holding trade's direction. */
  function RatioDeviation(assets: seq<Asset>, target: Allocation, c: AssetClass): real {
    target.Get(c) - CurrentRatios(AllocationOf(assets, ByValue), Total(assets, ByValue)).Get(c)
  }

  function ClassHoldingTrades(assets: seq<Asset>, target: Allocation, c: AssetClass): seq<Trade> {
    HoldingTrades(Matching(assets, c), NeedAmount(assets, target, c), 0.0, RatioDeviation(assets, target, c))
  }

  function HoldingLevelTrades(assets: seq<Asset>, target: Allocation): seq<Trade> {
    ClassHoldingTrades(assets, target, Stock) + ClassHoldingTrades(assets, target, Bond)
    + ClassHoldingTrades(assets, target, Gold) + ClassHoldingTrades(assets, target, Cash)
  }

  /** The trade list the `trades` memo returns: nothing without a target, and otherwise
      only trades of at least 1% of the total value. */
  function PlannedTrades(assets: seq<Asset>, target: Option<Allocation>): (r: seq<Trade>)
    ensures target.None? ==> r == []
    ensures forall i :: 0 <= i < |r| ==> r[i].amount >= Total(assets, ByValue) * 0.01
  {
    if target.None? then []
    else
      var totalValue := Total(assets, ByValue);
      KeepMaterial(ClassLevelTrades(target.value, AllocationOf(assets, ByValue), totalValue)
                   + HoldingLevelTrades(assets, target.value), totalValue)
  }

  /** With a total of exactly 0 the 1% threshold is 0, so bond, gold and cash each pass
      `|deviation| >= 0` and the final filter (`0 >= 0`): the plan opens with three
      class-level trades of amount 0, whatever the target. */
  lemma {:induction false} ZeroTotalTrades(assets: seq<Asset>, target: Allocation)
    requires Total(assets, ByValue) == 0.0
    ensures |PlannedTrades(assets, Some(target))| >= 3
    ensures PlannedTrades(assets, Some(target))[0].assetName == ClassTradeLabel(Bond)
    ensures PlannedTrades(assets, Some(target))[1].assetName == ClassTradeLabel(Gold)
    ensures PlannedTrades(assets, Some(target))[2].assetName == ClassTradeLabel(Cash)
    ensures PlannedTrades(assets, Some(target))[0].amount == 0.0
    ensures PlannedTrades(assets, Some(target))[1].amount == 0.0
    ensures PlannedTrades(assets, Some(target))[2].amount == 0.0
  {
    var plan := PlannedTrades(assets, Some(target));
    var pushed := ClassLevelTrades(target, AllocationOf(assets, ByValue), 0.0);
    var rest := HoldingLevelTrades(assets, target);
    PlannedTradesUnfolded(assets, target);
    assert plan == KeepMaterial(pushed + rest, 0.0);
    ZeroTotalClassTrades(target, AllocationOf(assets, ByValue));
    ZeroThresholdKeepsPrefix(pushed, rest);
    assert plan[..3] == pushed;
    assert plan[0] == pushed[0] && plan[1] == pushed[1] && plan[2] == pushed[2];
  }

  /** With threshold 0 the final filter keeps every trade of non-negative amount at the front. */
  lemma ZeroThresholdKeepsPrefix(pushed: seq<Trade>, rest: seq<Trade>)
    requires forall i :: 0 <= i < |pushed| ==> pushed[i].amount >= 0.0
    ensures |KeepMaterial(pushed + rest, 0.0)| >= |pushed|
    ensures KeepMaterial(pushed + rest, 0.0)[..|pushed|] == pushed
  {
    FilterConcat(pushed, rest, IsMaterial(0.0));
    FilterKeepsAll(pushed, IsMaterial(0.0));
    assert (pushed + Filter(rest, IsMaterial(0.0)))[..|pushed|] == pushed;
  }

  /** The class-level half of it: three trades of amount 0, in the order bond, gold, cash. */
  lemma ZeroTotalClassTrades(target: Allocation, allocation: Allocation)
    ensures |ClassLevelTrades(target, allocation, 0.0)| == 3
    ensures ClassLevelTrades(target, allocation, 0.0)[0].assetName == ClassTradeLabel(Bond)
    ensures ClassLevelTrades(target, allocation, 0.0)[1].assetName == ClassTradeLabel(Gold)
    ensures ClassLevelTrades(target, allocation, 0.0)[2].assetName == ClassTradeLabel(Cash)
    ensures forall i :: 0 <= i < 3 ==> ClassLevelTrades(target, allocation, 0.0)[i].amount == 0.0
  {
    var b := ClassLevelTrade(Bond, target, allocation, 0.0);
    var g := ClassLevelTrade(Gold, target, allocation, 0.0);
    var c := ClassLevelTrade(Cash, target, allocation, 0.0);
    assert |b| == 1 && |g| == 1 && |c| == 1;
    assert ClassLevelTrades(target, allocation, 0.0) == [b[0], g[0], c[0]];
  }

  /** The `trades` memo: pushes the class-level trades, runs `rebalanceAsset` for each
      class, and filters out trades below 1% of the total value. */
  method GenerateTrades(assets: seq<Asset>, target: Option<Allocation>) returns (trades: seq<Trade>)
    ensures trades == PlannedTrades(assets, target)
    ensures target.None? ==> trades == []
    ensures forall i :: 0 <= i < |trades| ==> trades[i].amount >= Total(assets, ByValue) * 0.01
  {
    if target.None? {
      return [];
    }
    var t := target.value;
    var currentAllocation := AllocationOf(assets, ByValue);
    var totalValue := Total(assets, ByValue);
    var pushed := ClassLevelTrade(Bond, t, currentAllocation, totalValue)
                  + ClassLevelTrade(Gold, t, currentAllocation, totalValue)
                  + ClassLevelTrade(Cash, t, currentAllocation, totalValue);
    var stockTrades := RebalanceAsset(assets, Stock, NeedAmount(assets, t, Stock), RatioDeviation(assets, t, Stock));
    var bondTrades := RebalanceAsset(assets, Bond, NeedAmount(assets, t, Bond), RatioDeviation(assets, t, Bond));
    var goldTrades := RebalanceAsset(assets, Gold, NeedAmount(assets, t, Gold), RatioDeviation(assets, t, Gold));
    var cashTrades := RebalanceAsset(assets, Cash, NeedAmount(assets, t, Cash), RatioDeviation(assets, t, Cash));
    pushed := pushed + (stockTrades + bondTrades + goldTrades + cashTrades);
    trades := KeepMaterial(pushed, totalValue);
  }

  /** Per-holding trades are only ever buys: `rebalanceAsset` does nothing unless the class
      lacks money, and with non-negative holdings that happens exactly when the class's
      ratio is below its target, i.e. when the deviation passed in is positive. */
  lemma ClassHoldingTradesAreBuys(assets: seq<Asset>, target: Allocation, c: AssetClass)
    requires NonNegativeValues(assets)
    ensures forall t :: t in ClassHoldingTrades(assets, target, c) ==> t.kind == Buy
  {
    var need := NeedAmount(assets, target, c);
    var deviation := RatioDeviation(assets, target, c);
    var matching := Matching(assets, c);
    if need <= 0.0 {
      HoldingTradesWithoutNeed(matching, need, 0.0, deviation);
    } else {
      LackMeansUnderweight(assets, target, c);
      HoldingTradesOrigin(matching, need, 0.0, deviation);
    }
  }

  /** With non-negative holdings, a class that lacks money is below its target ratio. */
  lemma LackMeansUnderweight(assets: seq<Asset>, target: Allocation, c: AssetClass)
    requires NonNegativeValues(assets)
    requires NeedAmount(assets, target, c) > 0.0
    ensures RatioDeviation(assets, target, c) > 0.0
  {
    var total := Total(assets, ByValue);
    var held := AllocationOf(assets, ByValue).Get(c);
    ClassTotalBounds(assets, c);
    NeedAmountUnfolded(assets, target, c, total, held);
    NeedMeansUnderweight(total, held, target.Get(c));
    RatioDeviationUnfolded(assets, target, c, total, held);
  }

  /** `NeedAmount` and `RatioDeviation` spelled out, so that callers see the arithmetic
      as one fact instead of unfolding it next to other products. */
  lemma NeedAmountUnfolded(assets: seq<Asset>, target: Allocation, c: AssetClass, total: real, held: real)
    requires total == Total(assets, ByValue) && held == AllocationOf(assets, ByValue).Get(c)
    ensures NeedAmount(assets, target, c) == total * (target.Get(c) / 100.0) - held
  {
  }

  lemma RatioDeviationUnfolded(assets: seq<Asset>, target: Allocation, c: AssetClass, total: real, held: real)
    requires total == Total(assets, ByValue) && held == AllocationOf(assets, ByValue).Get(c)
    requires total != 0.0
    ensures RatioDeviation(assets, target, c) == target.Get(c) - held / total * 100.0
  {
  }

  /** The arithmetic behind it: a class with `0 <= amount <= total` that lacks money is
      below its target ratio. */
  lemma NeedMeansUnderweight(total: real, amount: real, target: real)
    requires 0.0 <= amount <= total
    requires total * (target / 100.0) - amount > 0.0
    ensures total > 0.0
    ensures target - amount / total * 100.0 > 0.0
  {
    var q := amount / total;
    assert amount == q * total;
    assert q * total < (target / 100.0) * total;
  }

  /** A planned trade is either the class-level trade of bond, gold or cash (never of stock),
      or a trade of one of the holdings, for at most its value and at least 1% of it. */
  predicate ClassLevelOrigin(t: Trade, c: AssetClass) {
    c != Stock && t.assetName == ClassTradeLabel(c) && t.currentProfit == None
  }

  lemma ClassLevelTradesOrigin(target: Allocation, allocation: Allocation, totalValue: real)
    ensures forall t :: t in ClassLevelTrades(target, allocation, totalValue) ==> exists c :: ClassLevelOrigin(t, c)
  {
    var b := ClassLevelTrade(Bond, target, allocation, totalValue);
    var g := ClassLevelTrade(Gold, target, allocation, totalValue);
    var k := ClassLevelTrade(Cash, target, allocation, totalValue);
    forall t | t in b + g + k
      ensures exists c :: ClassLevelOrigin(t, c)
    {
      if t in b {
        assert ClassLevelOrigin(t, Bond);
      } else if t in g {
        assert ClassLevelOrigin(t, Gold);
      } else {
        assert ClassLevelOrigin(t, Cash);
      }
    }
  }

  lemma HoldingLevelTradesOrigin(assets: seq<Asset>, target: Allocation)
    ensures forall t :: t in HoldingLevelTrades(assets, target) ==> exists a :: a in assets && TradeOfHolding(t, a)
  {
    forall t | t in HoldingLevelTrades(assets, target)
      ensures exists a :: a in assets && TradeOfHolding(t, a)
    {
      var s := ClassHoldingTrades(assets, target, Stock);
      var b := ClassHoldingTrades(assets, target, Bond);
      var g := ClassHoldingTrades(assets, target, Gold);
      var k := ClassHoldingTrades(assets, target, Cash);
      assert t in s || t in b || t in g || t in k;
      if t in s {
        ClassHoldingTradeOrigin(assets, target, Stock, t);
      } else if t in b {
        ClassHoldingTradeOrigin(assets, target, Bond, t);
      } else if t in g {
        ClassHoldingTradeOrigin(assets, target, Gold, t);
      } else {
        ClassHoldingTradeOrigin(assets, target, Cash, t);
      }
    }
  }

  lemma ClassHoldingTradeOrigin(assets: seq<Asset>, target: Allocation, c: AssetClass, t: Trade)
    requires t in ClassHoldingTrades(assets, target, c)
    ensures exists a :: a in assets && TradeOfHolding(t, a)
  {
    HoldingTradesOrigin(Matching(assets, c), NeedAmount(assets, target, c), 0.0, RatioDeviation(assets, target, c));
    var a :| a in Matching(assets, c) && TradeOfHolding(t, a);
    assert a in assets;
  }

  /** Where a planned trade can come from: a class-level trade or a holding's trade. */
  predicate PlannedOrigin(t: Trade, assets: seq<Asset>) {
    (exists c :: ClassLevelOrigin(t, c)) || (exists a :: a in assets && TradeOfHolding(t, a))
  }

  lemma PlannedTradesOrigin(assets: seq<Asset>, target: Allocation)
    ensures forall t :: t in PlannedTrades(assets, Some(target)) ==> PlannedOrigin(t, assets)
  {
    forall t | t in PlannedTrades(assets, Some(target))
      ensures PlannedOrigin(t, assets)
    {
      PlannedTradeOrigin(assets, target, t);
    }
  }

  lemma PlannedTradeOrigin(assets: seq<Asset>, target: Allocation, t: Trade)
    requires t in PlannedTrades(assets, Some(target))
    ensures PlannedOrigin(t, assets)
  {
    var totalValue := Total(assets, ByValue);
    var classLevel := ClassLevelTrades(target, AllocationOf(assets, ByValue), totalValue);
    var holdings := HoldingLevelTrades(assets, target);
    PlannedTradesUnfolded(assets, target);
    KeptFrom(classLevel + holdings, totalValue);
    if t in classLevel {
      ClassLevelTradesOrigin(target, AllocationOf(assets, ByValue), totalValue);
    } else {
      HoldingLevelTradesOrigin(assets, target);
    }
  }

  lemma PlannedTradesUnfolded(assets: seq<Asset>, target: Allocation)
    ensures var totalValue := Total(assets, ByValue);
      PlannedTrades(assets, Some(target))
      == KeepMaterial(ClassLevelTrades(target, AllocationOf(assets, ByValue), totalValue)
                      + HoldingLevelTrades(assets, target), totalValue)
  {
  }

  lemma KeptFrom(trades: seq<Trade>, totalValue: real)
    ensures forall t :: t in KeepMaterial(trades, totalValue) ==> t in trades
  {
    forall t | t in KeepMaterial(trades, totalValue)
      ensures t in trades
    {
      var i :| 0 <= i < |KeepMaterial(trades, totalValue)| && KeepMaterial(trades, totalValue)[i] == t;
    }
  }

  /** The 1% filter keeps the order of the trades, so every surviving class-level trade
      precedes every surviving per-holding trade. */
  lemma PlannedTradesOrder(assets: seq<Asset>, target: Allocation)
    ensures var totalValue := Total(assets, ByValue);
      PlannedTrades(assets, Some(target))
      == KeepMaterial(ClassLevelTrades(target, AllocationOf(assets, ByValue), totalValue), totalValue)
         + KeepMaterial(HoldingLevelTrades(assets, target), totalValue)
  {
    var totalValue := Total(assets, ByValue);
    PlannedTradesUnfolded(assets, target);
    FilterConcat(ClassLevelTrades(target, AllocationOf(assets, ByValue), totalValue),
                 HoldingLevelTrades(assets, target), IsMaterial(totalValue));
  }

  /** `postRebalancingAllocation`: the strategy's targets, or all zero without them. */
  function PostRebalancing(target: Option<Allocation>): (r: Allocation)
    ensures target.Some? ==> forall c :: r.Get(c) == target.value.Get(c)
    ensures target.None? ==> forall c :: r.Get(c) == 0.0
  {
    if target.None? then ZeroAllocation else target.value
  }

  datatype RebalancingSummary = RebalancingSummary(
    totalBuyAmount: real, totalSellAmount: real, netAmount: real, maxDeviation: real)

  /** `Math.round(x * 100) / 100` for the non-negative `x` it is applied to: the nearest
      multiple of 0.01, halves rounded up. */
  function RoundToCents(x: real): (r: real)
    ensures x - 0.005 < r <= x + 0.005
  {
    ((x * 100.0 + 0.5).Floor as real) / 100.0
  }

  /** `|post - current|` for the four classes in key order. */
  function PostGaps(current: Allocation, post: Allocation): (r: seq<real>)
    ensures |r| == 4 && forall i :: 0 <= i < 4 ==> r[i] == Abs(post.Get(Classes[i]) - current.Get(Classes[i]))
  {
    seq(4, i requires 0 <= i < 4 => Abs(post.Get(Classes[i]) - current.Get(Classes[i])))
  }

  /** The `summary` memo: buy and sell totals, their difference, and the largest
      post-rebalancing gap rounded to cents. */
  function Summary(trades: seq<Trade>, current: Allocation, post: Allocation): (r: RebalancingSummary)
    ensures r.totalBuyAmount == AmountOf(trades, Buy) && r.totalSellAmount == AmountOf(trades, Sell)
    ensures r.totalBuyAmount + r.totalSellAmount == SumAmounts(trades)
    ensures r.netAmount == r.totalBuyAmount - r.totalSellAmount
    ensures forall c :: r.maxDeviation >= Abs(post.Get(c) - current.Get(c)) - 0.005
    ensures exists c :: Abs(r.maxDeviation - Abs(post.Get(c) - current.Get(c))) <= 0.005
  {
    AmountOfSplits(trades);
    var m := Max(PostGaps(current, post));
    forall c | true
      ensures Abs(post.Get(c) - current.Get(c)) <= m
    {
      GapBelowMax(current, post, c);
    }
    MaxGapAttained(current, post);
    var buy := AmountOf(trades, Buy);
    var sell := AmountOf(trades, Sell);
    RebalancingSummary(buy, sell, buy - sell, RoundToCents(m))
  }

  /** Each class's gap is one of the four gaps, so at most their maximum. */
  lemma GapBelowMax(current: Allocation, post: Allocation, c: AssetClass)
    ensures Abs(post.Get(c) - current.Get(c)) <= Max(PostGaps(current, post))
  {
    var gaps := PostGaps(current, post);
    var k := if c == Stock then 0 else if c == Bond then 1 else if c == Gold then 2 else 3;
    assert Classes[k] == c;
    assert gaps[k] == Abs(post.Get(c) - current.Get(c));
  }

  /** The maximum gap is the gap of some class. */
  lemma MaxGapAttained(current: Allocation, post: Allocation)
    ensures exists c :: Max(PostGaps(current, post)) == Abs(post.Get(c) - current.Get(c))
  {
    var gaps := PostGaps(current, post);
    var i :| 0 <= i < 4 && gaps[i] == Max(gaps);
    assert gaps[i] == Abs(post.Get(Classes[i]) - current.Get(Classes[i]));
  }
}
