/** The records of `src/types/portfolio.ts`, the strategy table and class labels of
    `src/utils/constants.ts`, and the folds over holdings and trades that several hooks
    and pages share. Money and percentages are exact reals. */
module PortfolioTypes {
  import opened Wrappers

  datatype AssetClass = Stock | Bond | Gold | Cash

  /** The canonical order stock, bond, gold, cash used by every per-class list. */
  const Classes: seq<AssetClass> := [Stock, Bond, Gold, Cash]

  datatype Asset = Asset(
    id: string,
    name: string,
    symbol: string,
    value: real,
    targetRatio: real,
    currentRatio: real,
    profit: real,
    profitPercent: real,
    kind: AssetClass,
    recent5DaysChange: Option<real>,
    recent3DaysChange: Option<real>)

  /** A value per asset class: the `{ stock, bond, gold, cash }` records. */
  datatype Allocation = Allocation(stock: real, bond: real, gold: real, cash: real) {
    function Get(c: AssetClass): real {
      match c
      case Stock => stock
      case Bond => bond
      case Gold => gold
      case Cash => cash
    }

    function Total(): real { stock + bond + gold + cash }
  }

  const ZeroAllocation := Allocation(0.0, 0.0, 0.0, 0.0)

  datatype Strategy = Strategy(id: string, name: string, description: string, allocations: Allocation)

  datatype TradeType = Buy | Sell

  datatype Trade = Trade(
    kind: TradeType,
    assetName: string,
    amount: real,
    reason: Option<string>,
    currentProfit: Option<real>)

  datatype Level = Low | Medium | High

  datatype Deviation = Deviation(
    kind: AssetClass,
    name: string,
    current: real,
    target: real,
    deviation: real,
    level: Level)

  datatype RuleType = ChasingHigh | ProfitTake | GoldRule | LeftSide

  datatype WarningLevel = Advisory | Blocking

  datatype DisciplineWarning = DisciplineWarning(
    rule: RuleType,
    level: WarningLevel,
    assetId: string,
    assetName: string)

  datatype DisciplineCheck = DisciplineCheck(
    passed: bool,
    warnings: seq<DisciplineWarning>,
    blocking: seq<DisciplineWarning>)

  /** A confirmed rebalance; `timestamp` is the epoch-millisecond instant. */
  datatype RebalanceHistory = RebalanceHistory(
    id: string,
    timestamp: int,
    strategyId: string,
    strategyName: string,
    trades: seq<Trade>,
    preDeviation: real,
    postDeviation: real,
    totalBuyAmount: real,
    totalSellAmount: real)

  datatype RebalanceHistorySummary = RebalanceHistorySummary(totalCount: nat, totalDeviationSaved: real)

  // ---------------------------------------------------------------------------
  // Constants (src/utils/constants.ts)

  const STRATEGIES: seq<Strategy> := [
    Strategy("harry-browne", "哈利·布朗永久组合", "25%股票 + 25%债券 + 25%黄金 + 25%现金",
      Allocation(25.0, 25.0, 25.0, 25.0)),
    Strategy("all-weather", "桥水全天候", "30%股票 + 40%长债 + 15%中债 + 15%商品",
      Allocation(30.0, 40.0, 15.0, 15.0)),
    Strategy("golden-balance", "四六股金平衡", "60%股票 + 40%黄金",
      Allocation(60.0, 0.0, 40.0, 0.0)),
    Strategy("custom", "自定义", "自由配置各项资产比例",
      Allocation(0.0, 0.0, 0.0, 0.0))
  ]

  /** `ASSET_TYPE_LABELS`. */
  function ClassLabel(c: AssetClass): string {
    match c
    case Stock => "股票"
    case Bond => "债券"
    case Gold => "黄金"
    case Cash => "现金"
  }

  // ---------------------------------------------------------------------------
  // Folds over holdings

  /** Which numeric field of a holding a fold adds up. */
  datatype Measure = ByValue | ByCurrentRatio | ByProfit

  function MeasureOf(a: Asset, m: Measure): real {
    match m
    case ByValue => a.value
    case ByCurrentRatio => a.currentRatio
    case ByProfit => a.profit
  }

  /** `assets.reduce((sum, a) => sum + a.<field>, 0)`. */
  function Total(assets: seq<Asset>, m: Measure): real {
    if assets == [] then 0.0 else MeasureOf(assets[0], m) + Total(assets[1..], m)
  }

  /** The `acc[asset.type] += asset.<field>` entry of one class. */
  function ClassTotal(assets: seq<Asset>, c: AssetClass, m: Measure): real {
    if assets == [] then 0.0
    else (if assets[0].kind == c then MeasureOf(assets[0], m) else 0.0) + ClassTotal(assets[1..], c, m)
  }

  /** The per-class totals of a field, as the hooks' class-keyed reduce builds them. */
  function AllocationOf(assets: seq<Asset>, m: Measure): (r: Allocation)
    ensures forall c :: r.Get(c) == ClassTotal(assets, c, m)
    ensures r.Total() == Total(assets, m)
  {
    ClassTotalsAddUp(assets, m);
    Allocation(ClassTotal(assets, Stock, m), ClassTotal(assets, Bond, m),
               ClassTotal(assets, Gold, m), ClassTotal(assets, Cash, m))
  }

  lemma {:induction false} ClassTotalsAddUp(assets: seq<Asset>, m: Measure)
    ensures ClassTotal(assets, Stock, m) + ClassTotal(assets, Bond, m)
          + ClassTotal(assets, Gold, m) + ClassTotal(assets, Cash, m) == Total(assets, m)
  {
    if assets != [] {
      ClassTotalsAddUp(assets[1..], m);
    }
  }

  predicate NonNegativeValues(assets: seq<Asset>) {
    forall i :: 0 <= i < |assets| ==> assets[i].value >= 0.0
  }

  /** With non-negative values, each class holds between nothing and everything. */
  lemma {:induction false} ClassTotalBounds(assets: seq<Asset>, c: AssetClass)
    requires NonNegativeValues(assets)
    ensures 0.0 <= ClassTotal(assets, c, ByValue) <= Total(assets, ByValue)
  {
    if assets != [] {
      assert NonNegativeValues(assets[1..]) by {
        assert forall i :: 0 <= i < |assets[1..]| ==> assets[1..][i] == assets[i + 1];
      }
      ClassTotalBounds(assets[1..], c);
    }
  }

  /** A fold of a field that is nowhere negative is not negative. */
  lemma {:induction false} TotalNonNegative(assets: seq<Asset>, m: Measure)
    ensures (forall i :: 0 <= i < |assets| ==> MeasureOf(assets[i], m) >= 0.0) ==> Total(assets, m) >= 0.0
  {
    if assets != [] {
      assert forall i :: 0 <= i < |assets[1..]| ==> assets[1..][i] == assets[i + 1];
      TotalNonNegative(assets[1..], m);
    }
  }

  lemma {:induction false} TotalConcat(a: seq<Asset>, b: seq<Asset>, m: Measure)
    ensures Total(a + b, m) == Total(a, m) + Total(b, m)
  {
    if a == [] {
      assert a + b == b;
    } else {
      assert (a + b)[1..] == a[1..] + b;
      TotalConcat(a[1..], b, m);
    }
  }

  // ---------------------------------------------------------------------------
  // Folds over trades

  /** `trades.filter(t => t.type === kind).reduce((sum, t) => sum + t.amount, 0)`. */
  function AmountOf(trades: seq<Trade>, kind: TradeType): real {
    if trades == [] then 0.0
    else (if trades[0].kind == kind then trades[0].amount else 0.0) + AmountOf(trades[1..], kind)
  }

  lemma {:induction false} AmountOfConcat(a: seq<Trade>, b: seq<Trade>, kind: TradeType)
    ensures AmountOf(a + b, kind) == AmountOf(a, kind) + AmountOf(b, kind)
  {
    if a == [] {
      assert a + b == b;
    } else {
      assert (a + b)[1..] == a[1..] + b;
      AmountOfConcat(a[1..], b, kind);
    }
  }

  /** Totals by direction never count a trade of the other direction. */
  lemma {:induction false} AmountOfOtherKind(trades: seq<Trade>, kind: TradeType)
    requires forall i :: 0 <= i < |trades| ==> trades[i].kind != kind
    ensures AmountOf(trades, kind) == 0.0
  {
    if trades != [] {
      assert forall i :: 0 <= i < |trades[1..]| ==> trades[1..][i] == trades[i + 1];
      AmountOfOtherKind(trades[1..], kind);
    }
  }

  /** Buy and sell totals together account for every trade's amount. */
  lemma {:induction false} AmountOfSplits(trades: seq<Trade>)
    ensures AmountOf(trades, Buy) + AmountOf(trades, Sell) == SumAmounts(trades)
  {
    if trades != [] {
      AmountOfSplits(trades[1..]);
    }
  }

  function SumAmounts(trades: seq<Trade>): real {
    if trades == [] then 0.0 else trades[0].amount + SumAmounts(trades[1..])
  }

  lemma {:induction false} SumAmountsConcat(a: seq<Trade>, b: seq<Trade>)
    ensures SumAmounts(a + b) == SumAmounts(a) + SumAmounts(b)
  {
    if a == [] {
      assert a + b == b;
    } else {
      assert (a + b)[1..] == a[1..] + b;
      SumAmountsConcat(a[1..], b);
    }
  }
}
