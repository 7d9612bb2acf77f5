# SmartPortfolio core in Dafny

SmartPortfolio is a client-side tool for disciplined asset allocation. A user keeps a
list of holdings. Each holding is a stock, bond, gold or cash position with a money
value, a profit and recent price changes. The user picks a target strategy, such as the
Harry Browne permanent portfolio (25 % in each class), All Weather or Golden Balance, or
sets a custom split with four sliders. The application then:

- computes how far each asset class has drifted from its target, with a low, medium or
  high severity;
- generates a list of buy and sell trades, dropping any trade below 1 % of the portfolio;
- checks each trade against four discipline rules (chasing highs, taking profit, the
  gold rule, the left-side reminder). Blocking warnings stop a rebalance; advisory
  ones only inform;
- keeps a history of executed rebalances, newest first, with a summary of how much
  deviation they removed;
- imports holdings from the text of a screenshot of a fund app (the OCR parser).

This project models that core as Dafny datatypes, functions, methods and classes, and
proves the properties the code promises about them. The modules are:

| module | models |
|---|---|
| `PortfolioTypes` | the records of `src/types/portfolio.ts`, the strategy table and class labels of `src/utils/constants.ts`, and the per-class folds the hooks build with `reduce` |
| `Rebalancing` | `src/hooks/useRebalancing.ts`: class totals, ratios, class-level and per-holding trades, the 1 % filter and the summary |
| `RebalancingScenario` | a worked example of the trade generator and the deviation bands (6000/2000/1000/1000 against 25/25/25/25) |
| `Analysis` | the deviation calculator of `src/pages/Analysis.tsx`: ratios, the four deviation records, the overall deviation and its band |
| `Portfolio` | the selected-strategy state of `src/hooks/usePortfolio.ts` and what it derives |
| `AssetStore` | `src/hooks/useAssets.ts` as a class `AssetBook`: load, ratio recomputation, add, update, delete, totals |
| `History` | `src/hooks/useRebalanceHistory.ts` as a class `RebalanceLedger`: load, save, get, delete, summary |
| `Discipline` | `src/hooks/useDisciplineCheck.ts`: the four rules, the collection over a trade list, de-duplication and the blocking/advisory split |
| `Ocr`, `OcrText` | `src/utils/ocrParser.ts`: the line walk with its table of pending holdings, and the text cleaning, code, amount, shares and name patterns |
| `NumberInput` | the keystroke filter, `parseNumber`, the clamp and `formatNumber` of `src/components/common/NumberInput.tsx` |
| `CustomStrategy` | the sliders and save button of `src/components/analysis/CustomStrategyConfig.tsx` |
| `AssetForm` | the defaults and submit guard of `src/components/dashboard/AssetForm.tsx` |
| `ProfitAttribution` | the ordering, totals and bar widths of `src/components/dashboard/ProfitAttribution.tsx` |
| `JsText`, `Seqs`, `Sorting`, `Wrappers` | the JavaScript primitives the code relies on (`trim`, `includes`, `parseFloat`, `toString`, `filter`, `Math.max`, a key-ordered `sort`) and `Option` |

State that the source changes in place is modelled as classes. These are the holding
list (`AssetStore.AssetBook`), the history list (`History.RebalanceLedger`) and the
selected strategy id (`Portfolio.PortfolioState`). What the browser storage would
return at load time is a constructor parameter. Loops in the source are methods with
loop invariants, each proved equal to a specification function: the per-holding loop
of `rebalanceAsset`, the token scans and the line walk of the OCR parser, and the
trade loop of `checkAllTrades`. Properties are then proved about those functions.

Money and percentages are exact reals. The source computes them in IEEE doubles.

### Where the code departs from its evident intent

The code is followed everywhere.

- **What the class-level trade compares.** A rebalancer is evidently meant to compare
  money with money. In `calculateTradeForType`
  (`src/hooks/useRebalancing.ts:60-79`) the code compares the target *percentage* of a
  class with the *money* held in it. Only bond, gold and cash get such a trade; stock
  never does (lines 81-83).
- **The per-holding step only buys.** The per-holding step (`rebalanceAsset`, lines
  86-114) can only buy. For an overweight class the need is negative, so its loop emits
  nothing (`Rebalancing.HoldingTradesWithoutNeed`,
  `Rebalancing.ClassHoldingTradesAreBuys`).
- **An example.** Take holdings of 6000 stock, 2000 bond, 1000 gold and 1000 cash
  against 25 % targets. One would expect a sell of stock and buys of bond, gold and
  cash, whose amounts net to the stock overweight of 3500. The code gives something
  else, as `RebalancingScenario.ScenarioTrades` proves:
  - class-level sells of bond, gold and cash of 197500, 97500 and 97500;
  - then per-holding buys of 500, 1000 and 1000;
  - no stock trade at all.

  The deviation bands of the same holdings are as one would expect: stock high, bond
  low, gold and cash medium (`RebalancingScenario.ScenarioDeviations`).
- **A zero total still yields trades.** With a total of exactly 0 the 1 % threshold is
  0. Bond, gold and cash each pass `|deviation| >= 0` (line 69) with an amount of 0, and
  all three survive the final filter `0 >= 0` (line 128). So the plan opens with three
  class-level trades of amount 0, whatever the target (`Rebalancing.ZeroTotalTrades`).
- **When a ratio counts as zero.** A zero total evidently means every ratio is 0. The
  hook tests `total === 0`; the analysis page tests `total > 0`. The two agree for
  every non-negative total (`Rebalancing.RatioGuardsAgree`).

## Model

| member | source | states |
|---|---|---|
| PortfolioTypes.AllocationOf | src/hooks/useRebalancing.ts:11-19 | each class entry is the sum of the holdings of that class, and the four entries add up to the sum over all holdings |
| PortfolioTypes.ClassTotalsAddUp | src/hooks/useRebalancing.ts:11-19 | the stock, bond, gold and cash totals together are the portfolio total |
| PortfolioTypes.ClassTotalBounds | src/hooks/useRebalancing.ts:11-19 | with non-negative values, a class holds between 0 and the whole portfolio |
| PortfolioTypes.TotalConcat | src/hooks/useAssets.ts:77 | the total of a concatenation is the sum of the totals |
| PortfolioTypes.Total | src/hooks/useAssets.ts:77 | the `reduce` that adds one field over all holdings; its properties are stated by `TotalConcat`, `TotalNonNegative` and `ClassTotalsAddUp` |
| PortfolioTypes.TotalNonNegative | src/hooks/useAssets.ts:77 | a field that is nowhere negative adds up to a non-negative total |
| PortfolioTypes.AmountOfConcat | src/hooks/useRebalancing.ts:146-147 | the buy (or sell) total of a concatenation is the sum of the parts' totals |
| PortfolioTypes.AmountOf | src/hooks/useRebalancing.ts:146-147 | the amounts of the trades of one direction added up; its properties are stated by `AmountOfConcat`, `AmountOfOtherKind` and `AmountOfSplits` |
| PortfolioTypes.AmountOfOtherKind | src/hooks/useRebalancing.ts:146-147 | a list without trades of one direction has a total of 0 in that direction |
| PortfolioTypes.AmountOfSplits | src/hooks/useRebalancing.ts:146-147 | buy total plus sell total is the sum of all trade amounts |
| Rebalancing.CurrentRatios | src/hooks/useRebalancing.ts:22-32 | all ratios are 0 when the total is 0; otherwise each is the class's share of the total in percent, and they add up to 100 when the classes make up the total |
| Rebalancing.RatioGuardsAgree | src/hooks/useRebalancing.ts:22-32 | for non-negative totals the hook's `=== 0` guard and the analysis page's `> 0` guard give the same ratios |
| Rebalancing.ClassLevelTrade | src/hooks/useRebalancing.ts:60-79 | a class gets at most one trade, and gets one exactly when the gap between its target percentage and its money reaches 1 % of the total; the trade buys when the target is larger and its amount is the total times the gap in percent |
| Rebalancing.Matching | src/hooks/useRebalancing.ts:90 | every holding of the class and no other, each as often as in the input, in their original order |
| Rebalancing.HoldingTrades | src/hooks/useRebalancing.ts:93-113 | the `forEach` of `rebalanceAsset` emits at most one trade per holding it scans |
| Rebalancing.HoldingTradesOrigin | src/hooks/useRebalancing.ts:93-113 | each per-holding trade names one of the scanned holdings, carries its profit percent, has an amount between 1 % of that holding's value and the value, and buys exactly when the class's ratio deviation is positive |
| Rebalancing.HoldingTradesWithoutNeed | src/hooks/useRebalancing.ts:93-113 | once the amount already moved reaches the need (in particular a negative need), nothing more is emitted |
| Rebalancing.HoldingTradesWithinNeed | src/hooks/useRebalancing.ts:93-113 | with non-negative holdings, the amounts emitted add up to at most what was still needed |
| Rebalancing.VisitHolding | src/hooks/useRebalancing.ts:94-112 | the loop body for one holding: the trade emitted (none for a skipped holding or one below 1 % of its value) and the new moved amount |
| Rebalancing.RebalanceAsset | src/hooks/useRebalancing.ts:86-114 | returns the per-holding specification's trades for the holdings of the class, started from nothing moved |
| Rebalancing.VisitHoldings | src/hooks/useRebalancing.ts:93-113 | the loop over the given holdings returns the trades of the per-holding specification, started from nothing moved |
| Rebalancing.KeepMaterial | src/hooks/useRebalancing.ts:128 | keeps exactly the trades of at least 1 % of the total, each as often as in the input, in their order |
| Rebalancing.ZeroTotalTrades | src/hooks/useRebalancing.ts:60-128 | with a total of 0 the plan opens with class-level trades of bond, gold and cash of amount 0, for any target |
| Rebalancing.ZeroTotalClassTrades | src/hooks/useRebalancing.ts:60-83 | with a total of 0 the class-level step yields three trades of amount 0: bond, gold, cash |
| Rebalancing.ZeroThresholdKeepsPrefix | src/hooks/useRebalancing.ts:128 | with a threshold of 0 the final filter keeps a leading run of non-negative trades intact |
| Rebalancing.LabelsDiffer | src/hooks/useRebalancing.ts:81-83 | the stock label differs from the bond, gold and cash labels |
| Rebalancing.ClassLevelTrades | src/hooks/useRebalancing.ts:81-83 | at most three class-level trades, none of them labelled as stock and none with a profit figure |
| Rebalancing.NeedAmount | src/hooks/useRebalancing.ts:117-125 | the money a class lacks, target share of the total minus what it holds; `LackMeansUnderweight` states what a positive need implies |
| Rebalancing.RatioDeviation | src/hooks/useRebalancing.ts:99-102 | the target ratio minus the current ratio that decides a holding trade's direction; `HoldingTradesOrigin` states that it does |
| Rebalancing.HoldingLevelTrades | src/hooks/useRebalancing.ts:122-125 | the `rebalanceAsset` trades of stock, bond, gold and cash in that order; `HoldingLevelTradesOrigin` and `ClassHoldingTradesAreBuys` state their origin and direction |
| Rebalancing.PlannedTrades | src/hooks/useRebalancing.ts:35-128 | no trades without a target, and otherwise only trades of at least 1 % of the total value |
| Rebalancing.GenerateTrades | src/hooks/useRebalancing.ts:35-129 | the `trades` memo: no trades without a strategy, and every trade returned is at least 1 % of the portfolio total |
| Rebalancing.ClassHoldingTradesAreBuys | src/hooks/useRebalancing.ts:93-113 | with non-negative holdings, every per-holding trade is a buy |
| Rebalancing.LackMeansUnderweight | src/hooks/useRebalancing.ts:95-102 | a class that lacks money (positive need) is below its target ratio, so its trades are buys |
| Rebalancing.ClassLevelTradesOrigin | src/hooks/useRebalancing.ts:81-83 | every class-level trade is that of bond, gold or cash, never of stock |
| Rebalancing.HoldingLevelTradesOrigin | src/hooks/useRebalancing.ts:116-125 | every per-holding trade comes from a holding of the portfolio |
| Rebalancing.PlannedTradesOrigin | src/hooks/useRebalancing.ts:81-128 | every generated trade is a class-level trade or a holding's trade |
| Rebalancing.PlannedTradesOrder | src/hooks/useRebalancing.ts:81-128 | the output keeps the order class-level trades first, then per-holding trades class by class |
| Rebalancing.PostRebalancing | src/hooks/useRebalancing.ts:132-142 | the post-rebalancing allocation is the strategy's targets, or all zero without a strategy |
| Rebalancing.RoundToCents | src/hooks/useRebalancing.ts:162 | the rounded value is within half a cent of the exact one |
| Rebalancing.PostGaps | src/hooks/useRebalancing.ts:150-155 | the four absolute gaps between post and current allocation, in class order |
| Rebalancing.Summary | src/hooks/useRebalancing.ts:145-164 | buy and sell totals by direction, together all trade amounts, net = buy − sell, and a max deviation within half a cent of the largest class gap |
| Rebalancing.GapBelowMax | src/hooks/useRebalancing.ts:150-156 | each class's gap is at most the maximum gap |
| Rebalancing.MaxGapAttained | src/hooks/useRebalancing.ts:150-156 | the maximum gap is the gap of some class |
| RebalancingScenario.ScenarioTotals | src/hooks/useRebalancing.ts:11-19 | the example portfolio totals 10000, split 6000/2000/1000/1000 |
| RebalancingScenario.ScenarioDeviations | src/pages/Analysis.tsx:35-88 | against 25 % targets the example is stock +35 high, bond −5 low, gold −15 medium, cash −15 medium |
| RebalancingScenario.ScenarioClassTrade | src/hooks/useRebalancing.ts:60-79 | a class holding at least 100 gets a class-level sell of 10000 × (held − 25) / 100 |
| RebalancingScenario.ExpectedIsMaterial | src/hooks/useRebalancing.ts:128 | every trade of the example passes the 1 % filter |
| RebalancingScenario.ScenarioClassLevel | src/hooks/useRebalancing.ts:81-83 | the example's class-level trades are sells of 197500 bond, 97500 gold and 97500 cash |
| RebalancingScenario.ScenarioHoldingLevel | src/hooks/useRebalancing.ts:116-125 | the example's per-holding trades are buys of 500 bond, 1000 gold and 1000 cash |
| RebalancingScenario.HoldingLevelOf | src/hooks/useRebalancing.ts:122-125 | the per-holding trades are those of stock, bond, gold and cash in that order |
| RebalancingScenario.ScenarioStockHoldings | src/hooks/useRebalancing.ts:122 | the overweight stock class gets no per-holding trade |
| RebalancingScenario.ScenarioBondHoldings | src/hooks/useRebalancing.ts:123 | the bond holding gets a buy of 500 |
| RebalancingScenario.ScenarioGoldHoldings | src/hooks/useRebalancing.ts:124 | the gold holding gets a buy of 1000 |
| RebalancingScenario.ScenarioCashHoldings | src/hooks/useRebalancing.ts:125 | the cash holding gets a buy of 1000 |
| RebalancingScenario.ScenarioBuys | src/hooks/useRebalancing.ts:93-113 | the per-holding loop on each single holding: nothing for a negative need; otherwise a buy capped at the need below the holding's value |
| RebalancingScenario.ScenarioHolding | src/hooks/useRebalancing.ts:116-125 | for a class with a single holding, the per-holding trades are the loop run on that holding with the class's need and deviation |
| RebalancingScenario.ScenarioTrades | src/hooks/useRebalancing.ts:35-128 | the whole trade list of the example: three class-level sells, then three per-holding buys, no stock trade |
| Analysis.ClassLevel | src/pages/Analysis.tsx:42-47 | low iff \|deviation\| ≤ 5, medium iff 5 < \|deviation\| ≤ 15, high iff above 15 |
| Analysis.OverallLevel | src/pages/Analysis.tsx:95-99 | low iff ≤ 10, medium iff in (10, 20], high iff above 20 |
| Analysis.Deviations | src/pages/Analysis.tsx:35-88 | four records in the order stock, bond, gold, cash, each with current, target, deviation = current − target and its band |
| Analysis.DeviationsSum | src/pages/Analysis.tsx:35-88 | the four deviations add up to current total minus target total |
| Analysis.ActualRatios | src/pages/Analysis.tsx:27-32 | all zero unless the total is positive; otherwise each class's share in percent, adding up to 100 |
| Analysis.ActualDeviations | src/pages/Analysis.tsx:16-88 | the deviation records of the holdings' money ratios against the strategy |
| Analysis.AbsDeviations | src/pages/Analysis.tsx:92 | the absolute deviations, record by record |
| Analysis.OverallDeviation | src/pages/Analysis.tsx:91-93 | the overall deviation bounds every record's absolute deviation and equals one of them |
| Portfolio.FindStrategy | src/hooks/usePortfolio.ts:13 | the first strategy with the id, or none iff no strategy has it |
| Portfolio.LookupStrategy | src/hooks/usePortfolio.ts:13 | always a table strategy: the one with the id if there is one, otherwise the first |
| Portfolio.CurrentAllocation | src/hooks/usePortfolio.ts:140-146 | per class the sum of the holdings' current ratios, adding up to the ratio total |
| Portfolio.PortfolioDeviations | src/hooks/usePortfolio.ts:149-202 | the four records of the shared deviation calculator for the ratio sums against the selected strategy |
| Portfolio.PortfolioState.constructor | src/hooks/usePortfolio.ts:6 | starts on `harry-browne`, which selects the first table strategy |
| Portfolio.PortfolioState.SelectStrategy | src/hooks/usePortfolio.ts:242-244 | the selected id becomes the given one |
| Portfolio.PortfolioState.CurrentStrategy | src/hooks/usePortfolio.ts:13 | always a strategy of the table |
| Portfolio.PortfolioState.PostRebalancingAllocation | src/hooks/usePortfolio.ts:235-240 | 25 in every class, 100 in total, whatever is selected |
| Portfolio.LookupTable | src/utils/constants.ts:3-28 | each table id selects its own targets (25/25/25/25, 30/40/15/15, 60/0/40/0, all zero for custom), and an unknown id the first strategy |
| Portfolio.StrategyIdsDistinct | src/utils/constants.ts:3-28 | the table's ids are pairwise distinct |
| Portfolio.DeviationsAddUp | src/hooks/usePortfolio.ts:149-202 | the four deviations add up to the ratio total minus the strategy's total |
| AssetStore.WithRatios | src/hooks/useAssets.ts:82-85 | same list with each ratio set to value/total × 100 (0 for a non-positive total) |
| AssetStore.RecalculateRatios | src/hooks/useAssets.ts:80-86 | same assets in the same order, only their current ratio replaced by their share of the total value |
| AssetStore.RatioOf | src/hooks/useAssets.ts:84 | `total > 0 ? value / total * 100 : 0`, the ratio of one holding; `RatioOfBounds` states its meaning |
| AssetStore.RatioOfBounds | src/hooks/useAssets.ts:84 | a ratio times a positive total gives the value in percent, lies in [0, 100] for a part of the total, and is 0 for a total that is not positive |
| AssetStore.HasRatioChange | src/hooks/useAssets.ts:94-96 | the test fires only when recomputing the ratios would change the list |
| AssetStore.RecalculateKeepsTotals | src/hooks/useAssets.ts:80-86 | recomputing ratios keeps total value and total profit |
| AssetStore.RecalculateIdempotent | src/hooks/useAssets.ts:80-86 | recomputing twice gives what recomputing once gave |
| AssetStore.RatiosSumTo100 | src/hooks/useAssets.ts:80-86 | with a positive total value the ratios add up to 100 |
| AssetStore.RatiosZeroWithoutValue | src/hooks/useAssets.ts:84 | with no positive total value every ratio is 0 |
| AssetStore.Merge | src/hooks/useAssets.ts:121 | `{...asset, ...updates}`: for each of the eleven fields, a given value replaces the asset's and an absent one keeps it; an empty update changes nothing |
| AssetStore.NewAsset | src/hooks/useAssets.ts:105-113 | the new asset's id is the clock reading, its entered fields (name, symbol, value, type, 5- and 3-day changes) are the draft's, and its target, ratio and profits are 0 |
| AssetStore.Appended | src/hooks/useAssets.ts:114 | the old list with the new asset at the end |
| AssetStore.Updated | src/hooks/useAssets.ts:119-123 | assets with the id are merged with the update; the others are unchanged |
| AssetStore.AssetBook.Load | src/hooks/useAssets.ts:55-74 | a stored list is loaded with its ratios recomputed; without one the default holdings are used |
| AssetStore.AssetBook.SyncRatios | src/hooks/useAssets.ts:89-103 | the ratios are rewritten only when one is off by more than 0.01, and afterwards none is |
| AssetStore.AssetBook.AddAsset | src/hooks/useAssets.ts:105-116 | the list becomes the old one plus the new asset, ratios recomputed; total value grows by the draft's value and total profit is unchanged |
| AssetStore.AssetBook.UpdateAsset | src/hooks/useAssets.ts:118-125 | the list becomes the merged list, ratios recomputed |
| AssetStore.AssetBook.DeleteAsset | src/hooks/useAssets.ts:127-132 | the list becomes the filtered list, ratios recomputed |
| AssetStore.AssetBook.TotalAssetsValue | src/hooks/useAssets.ts:77 | the sum of the values, not negative when no value is |
| AssetStore.AssetBook.TotalProfit | src/hooks/useAssets.ts:135 | the sum of the profits, not negative when no holding lost money |
| AssetStore.UpdateTouchesOnlyId | src/hooks/useAssets.ts:118-125 | after an update, assets with the id carry the merged fields and the others are unchanged except for their ratio |
| AssetStore.UpdateUnknownId | src/hooks/useAssets.ts:118-125 | an update for an id no asset has only recomputes ratios |
| AssetStore.DeleteRemovesId | src/hooks/useAssets.ts:127-132 | after a delete no asset has the id, and every other asset is still there, up to its ratio |
| AssetStore.DeleteUndoesAdd | src/hooks/useAssets.ts:105-132 | when its id was new, deleting the asset just added leaves the first entries of the recomputed list: as many as before the add, each equal to the old asset up to its ratio |
| History.NewRecord | src/hooks/useRebalanceHistory.ts:28-48 | the record's id is the clock reading; its totals are the buy and sell amounts, together all trade amounts; the other fields are carried unchanged |
| History.DeviationSavedConcat | src/hooks/useRebalanceHistory.ts:84 | the deviation saved by two lists together is the sum of theirs |
| History.SummaryOf | src/hooks/useRebalanceHistory.ts:81-86 | the count is the number of records |
| History.DeviationSaved | src/hooks/useRebalanceHistory.ts:84 | the saved deviation is not negative when no rebalance made its deviation worse, and 0 when none changed it |
| History.RebalanceLedger.Load | src/hooks/useRebalanceHistory.ts:15-19 | nothing stored gives an empty list; otherwise the same records sorted newest first |
| History.RebalanceLedger.SaveRebalance | src/hooks/useRebalanceHistory.ts:28-61 | returns the new record and puts it in front; the count grows by one and the deviation saved by pre − post; the list stays newest first when no record is later than now |
| History.RebalanceLedger.GetHistory | src/hooks/useRebalanceHistory.ts:64-66 | returns the current list |
| History.RebalanceLedger.DeleteHistory | src/hooks/useRebalanceHistory.ts:69-71 | the list loses exactly the records with the id and stays newest first |
| History.RebalanceLedger.Summary | src/hooks/useRebalanceHistory.ts:81-86 | `getSummary`: one count per record, and a non-negative saved deviation when no rebalance made things worse |
| History.DeleteUndoesSave | src/hooks/useRebalanceHistory.ts:50-71 | deleting the id just saved gives back the old list, when that id was new |
| History.DeleteAbsentId | src/hooks/useRebalanceHistory.ts:70 | deleting an absent id is a no-op |
| History.SummaryScenario | src/hooks/useRebalanceHistory.ts:81-86 | three rebalances 20→10, 15→5, 8→12 give count 3 and 16 saved |
| Discipline.TradeWarningsUnfolded | src/hooks/useDisciplineCheck.ts:20-70 | the warnings of one trade are those of the rules in order: chasing high, profit taking, gold rule, left side |
| Discipline.Triggers | src/hooks/useDisciplineCheck.ts:22-68 | a rule that fires is the profit-taking rule exactly when the trade is a sell |
| Discipline.RuleWarnings | src/hooks/useDisciplineCheck.ts:20-70 | at most one warning per rule tested |
| Discipline.TradeWarnings | src/hooks/useDisciplineCheck.ts:15-71 | `checkTrade` raises at most four warnings |
| Discipline.CollectWarnings | src/hooks/useDisciplineCheck.ts:75-84 | the `forEach` collects at most four warnings per trade |
| Discipline.RuleWarningsSound | src/hooks/useDisciplineCheck.ts:20-70 | every warning comes from a rule that fires, names the holding and carries that rule's level |
| Discipline.RuleWarningsComplete | src/hooks/useDisciplineCheck.ts:20-70 | every rule that fires contributes its warning |
| Discipline.RuleWarningsDistinct | src/hooks/useDisciplineCheck.ts:20-70 | one trade never raises the same rule twice |
| Discipline.TradeWarningsSpec | src/hooks/useDisciplineCheck.ts:15-71 | a rule is raised iff its trigger holds (buy with 5-day change above 5; sell with profit above 15; gold buy with 3-day change above 6; any buy), with no duplicates |
| Discipline.TradeWarningsByDirection | src/hooks/useDisciplineCheck.ts:22-68 | a sell can raise only profit taking; a buy always raises the left-side warning |
| Discipline.CheckTrade | src/hooks/useDisciplineCheck.ts:15-71 | the four conditional pushes yield exactly the warnings of the rule specification, in rule order; the amount plays no part |
| Discipline.FindByName | src/hooks/useDisciplineCheck.ts:79 | the first holding with the trade's name, or none iff no holding has it |
| Discipline.DedupMembers | src/hooks/useDisciplineCheck.ts:87-91 | de-duplication keeps only warnings of the input |
| Discipline.DedupPositions | src/hooks/useDisciplineCheck.ts:87-91 | the result is the input read at increasing positions, and those positions are exactly the ones where a (rule, holding) key first occurs |
| Discipline.FirstOfKeyPrefix | src/hooks/useDisciplineCheck.ts:87-91 | whether a position is the first of its key does not depend on what follows it |
| Discipline.Dedup | src/hooks/useDisciplineCheck.ts:87-91 | de-duplication never yields more warnings than it is given |
| Discipline.DedupKeepsOrder | src/hooks/useDisciplineCheck.ts:87-91 | the de-duplicated list is a subsequence of the input |
| Discipline.DedupDistinct | src/hooks/useDisciplineCheck.ts:87-91 | no two kept warnings share a (rule, holding) key |
| Discipline.DedupKeepsFirst | src/hooks/useDisciplineCheck.ts:87-91 | a warning whose key first occurs at its position is kept |
| Discipline.FirstOccurrence | src/hooks/useDisciplineCheck.ts:87-91 | every key of the input has a first occurrence |
| Discipline.DedupCoversKeys | src/hooks/useDisciplineCheck.ts:87-91 | every key of the input is represented in the result |
| Discipline.CheckAllTrades | src/hooks/useDisciplineCheck.ts:74-102 | the loop over the trades returns the check result specification: collected, de-duplicated, split into blocking and advisory, passed iff nothing blocks |
| Discipline.CheckResult | src/hooks/useDisciplineCheck.ts:93-101 | `blocking` holds only blocking warnings, `warnings` only advisory ones, and the check passes exactly when `blocking` is empty |
| Discipline.UnmatchedTradeIgnored | src/hooks/useDisciplineCheck.ts:79-83 | a trade whose name matches no holding adds no warning |
| Discipline.CollectAppend | src/hooks/useDisciplineCheck.ts:77-84 | appending one trade appends its warnings at the end |
| Discipline.CollectConcat | src/hooks/useDisciplineCheck.ts:77-84 | the warnings of a concatenation of trade lists are those of the first list followed by those of the second |
| Discipline.CollectIncludes | src/hooks/useDisciplineCheck.ts:77-84 | all warnings of each matched trade are collected |
| Discipline.CollectFrom | src/hooks/useDisciplineCheck.ts:77-84 | every collected warning comes from some trade and its matched holding |
| Discipline.CollectedWellLeveled | src/hooks/useDisciplineCheck.ts:25-66 | collected warnings are blocking exactly when they are gold-rule warnings |
| Discipline.BlockingIsGold | src/hooks/useDisciplineCheck.ts:46-57 | among the warnings of one trade, exactly the gold-rule ones are blocking |
| Discipline.BlockedTradeWarning | src/hooks/useDisciplineCheck.ts:46-57 | a trade is blocked (its holding is found and the gold rule fires) exactly when its warnings include a blocking one; among a trade's warnings exactly the gold-rule ones are blocking |
| Discipline.BlockingSurvivesDedup | src/hooks/useDisciplineCheck.ts:86-94 | de-duplication keeps some blocking warning when there was one |
| Discipline.BlockedTradeBlocks | src/hooks/useDisciplineCheck.ts:94-98 | a blocked trade makes the blocking list non-empty, with a gold-rule warning in it |
| Discipline.BlockingHasCause | src/hooks/useDisciplineCheck.ts:94-98 | a non-empty blocking list implies that some trade is blocked |
| Discipline.BlockingCauses | src/hooks/useDisciplineCheck.ts:77-98 | every blocking warning is a gold-rule warning raised by a blocked trade of the plan |
| Discipline.PassedIffNoBlockedTrade | src/hooks/useDisciplineCheck.ts:98 | the check passes iff no trade is a blocked gold buy |
| Discipline.SplitIsPartition | src/hooks/useDisciplineCheck.ts:94-100 | blocking and advisory lists partition the de-duplicated warnings by level |
| Discipline.ReportedDistinct | src/hooks/useDisciplineCheck.ts:87-91 | no key appears twice in the reported warnings |
| Ocr.Scan | src/utils/ocrParser.ts:89-99 | the token scan sets the amount only to numbers above 1000, and shares, once set, only to numbers in (0, 1000] |
| Ocr.ScanStep | src/utils/ocrParser.ts:90-98 | one token sets the amount only to a number above 1000, keeps shares once set, and sets empty shares only to a number in (0, 1000] |
| Ocr.FirstLarge | src/utils/ocrParser.ts:121-133 | the second-next-line scan finds only numbers above 1000 |
| Ocr.LargeOr | src/utils/ocrParser.ts:121-133 | the amount after the second-next-line scan is the one found there, above 1000, or the amount as it was when nothing was found |
| Ocr.ScanTokens | src/utils/ocrParser.ts:89-99 | the token loop returns the result of the scan specification |
| Ocr.ScanLarge | src/utils/ocrParser.ts:121-133 | the loop that stops at the first large number returns it, or the amount it was given |
| Ocr.View | src/utils/ocrParser.ts:46-60 | a line yields a code only if it passes the keyword filter, and the code is six digits |
| Ocr.IndexOfCode | src/utils/ocrParser.ts:63 | the position of the code in the table, or none iff no entry has it |
| Ocr.UpdateShares | src/utils/ocrParser.ts:63-77 | a known code changes at most its own entry's shares, leaving every other entry and field alone |
| Ocr.ScanAround | src/utils/ocrParser.ts:83-133 | shares found around a new code lie in (0, 1000] |
| Ocr.NewHolding | src/utils/ocrParser.ts:79-160 | a new holding has the line's code, the fund type, an amount in (0, 100000000], a clean name whose JavaScript `length` (UTF-16 code units) is at least 2, and positive shares if any |
| Ocr.LineAction | src/utils/ocrParser.ts:45-60 | a line has a code iff it passes the filter and holds six digits; an excluded line does nothing |
| Ocr.LineActions | src/utils/ocrParser.ts:45 | one action per line, computed from the lines alone |
| Ocr.ReadAmount | src/utils/ocrParser.ts:86-133 | the three scans return the amount and shares of the specification |
| Ocr.ReadHolding | src/utils/ocrParser.ts:79-158 | the end of the loop body returns the holding of the specification |
| Ocr.ParseCoded | src/utils/ocrParser.ts:62-160 | the loop body for a coded line returns the table after that line's action |
| Ocr.ParseLine | src/utils/ocrParser.ts:45-160 | the loop body for any line returns the table after that line's action |
| Ocr.ParseLines | src/utils/ocrParser.ts:45-161 | the loop over the lines returns the table after all lines' actions |
| Ocr.ParseOcrText | src/utils/ocrParser.ts:13-167 | `parseOCRText` returns the holdings of the specification |
| Ocr.Apply | src/utils/ocrParser.ts:62-160 | one line leaves the table as it was, fills in shares, or appends one holding: the table never shrinks and grows by at most one |
| Ocr.ApplyKeepsWellFormed | src/utils/ocrParser.ts:62-160 | one line's action keeps the table well formed |
| Ocr.UpdateKeepsWellFormed | src/utils/ocrParser.ts:63-77 | filling in shares keeps the table well formed |
| Ocr.AppendKeepsWellFormed | src/utils/ocrParser.ts:152-160 | appending a well-formed holding with a new code keeps the table well formed |
| Ocr.RunWellFormed | src/utils/ocrParser.ts:45-161 | the table stays well formed through the whole walk |
| Ocr.ParseOcr | src/utils/ocrParser.ts:45-166 | every returned holding has a six-digit code, an amount in (0, 100000000], a clean name of `length` two or more and positive shares if any, and no two share a code |
| Ocr.ApplyAppendsOrFillsShares | src/utils/ocrParser.ts:63-160 | a line either appends its new holding at the end or only fills in one stored holding's shares |
| Ocr.ExcludedLineIgnored | src/utils/ocrParser.ts:49-51 | a line with an excluded keyword leaves the table as it was |
| Ocr.KnownCodeSetsOnlyShares | src/utils/ocrParser.ts:63-76 | a known code changes only that holding's shares, and only when they were missing or zero |
| Ocr.RunCodesFromActions | src/utils/ocrParser.ts:54-160 | each stored code is the code of an earlier line |
| Ocr.ParseCodesFromLines | src/utils/ocrParser.ts:54-59 | each returned code is the first six-digit run of one of the text's lines |
| Ocr.RunPrefix | src/utils/ocrParser.ts:160-164 | the table only grows at its end; earlier entries change at most in their shares, so output order is discovery order |
| OcrText.ReplaceCrLf | src/utils/ocrParser.ts:18 | never lengthens the text, introduces no new character, and leaves a text without CR unchanged |
| OcrText.ReplaceCr | src/utils/ocrParser.ts:19 | every CR becomes LF and every other character is kept |
| OcrText.SkipRun | src/utils/ocrParser.ts:20 | a suffix of the input that does not start inside the run |
| OcrText.Collapse | src/utils/ocrParser.ts:20 | empty iff the input is; a leading run becomes one space and any other first character is kept |
| OcrText.CollapseCharFrom | src/utils/ocrParser.ts:137-138 | each non-blank character of the result is a character of the input |
| OcrText.CollapseNoDoubleBlankAt | src/utils/ocrParser.ts:138 | no two blank characters are adjacent in the result |
| OcrText.SplitLines | src/utils/ocrParser.ts:24 | at least one piece, none containing a line feed |
| OcrText.JoinSplitLines | src/utils/ocrParser.ts:24 | joining the pieces with line feeds gives the text back |
| OcrText.Lines | src/utils/ocrParser.ts:17-24 | the lines the walk sees are non-blank and contain no line feed |
| OcrText.IncludesAnyIsSome | src/utils/ocrParser.ts:49 | `some(includes)` holds iff some keyword occurs in the line |
| OcrText.ExcludedMeansKeyword | src/utils/ocrParser.ts:33-49 | a line is excluded iff it contains one of the keywords of the list |
| OcrText.FindCode | src/utils/ocrParser.ts:27 | the first position followed by six digits, or none iff there is no such position |
| OcrText.CodeRemovedAtMatch | src/utils/ocrParser.ts:60 | the code occurs nowhere before its match, so `replace` removes the matched digits |
| OcrText.CommaGroups | src/utils/ocrParser.ts:87 | the length of the `,ddd` groups is within the text |
| OcrText.CentsSuffix | src/utils/ocrParser.ts:87 | the length of the `.dd` suffix is within the text |
| OcrText.TokenLength | src/utils/ocrParser.ts:87 | a match starting on a digit is at least one character and within the text |
| OcrText.NumberTokens | src/utils/ocrParser.ts:87 | every match of the amount pattern is non-empty and starts with a digit |
| OcrText.TokenValue | src/utils/ocrParser.ts:90 | `parseFloat` of a token without commas, never negative for a token without a minus sign |
| OcrText.DigitCommaRun | src/utils/ocrParser.ts:65 | the leading run of digits and commas, and no more |
| OcrText.SharesToken | src/utils/ocrParser.ts:65 | the first shares match starts on a digit or comma, and none exists iff the text has neither |
| OcrText.RemoveNoise | src/utils/ocrParser.ts:137 | what remains are input characters outside the noise class |
| OcrText.CleanName | src/utils/ocrParser.ts:136-139 | the cleaned name has no noise character, no two adjacent whitespace characters and no leading or trailing whitespace |
| OcrText.CleanNameClean | src/utils/ocrParser.ts:136-139 | removing noise, collapsing whitespace and trimming yields a clean name |
| OcrText.TrimKeepsClean | src/utils/ocrParser.ts:139 | trimming a text without noise or doubled whitespace keeps it so |
| OcrText.DetermineFundType | src/utils/ocrParser.ts:172-191 | a stock iff the name contains 股份 or 公司, otherwise a fund |
| OcrText.GroupedAmountIsOneToken | src/utils/ocrParser.ts:87 | `12,345.67` is read as one amount |
| OcrText.UngroupedAmountSplits | src/utils/ocrParser.ts:87 | `12345.67` falls apart into `123` and `45.67` |
| OcrText.UngroupedLead | src/utils/ocrParser.ts:87 | without a comma the pattern takes at most three leading digits |
| OcrText.CentsToken | src/utils/ocrParser.ts:87 | `45.67` is one token with its cents |
| JsText.Trim | src/utils/ocrParser.ts:46 | the result neither starts nor ends with whitespace, and is empty iff the text is all whitespace |
| JsText.TrimIsInfix | src/utils/ocrParser.ts:46 | `trim()` returns a contiguous piece of its argument |
| JsText.IncludesIsContains | src/utils/ocrParser.ts:49 | the left-to-right search succeeds iff the substring occurs |
| JsText.Remove | src/components/common/NumberInput.tsx:24 | no occurrence of the character is left; every other character is kept as often as before, in its order |
| JsText.Utf16Length | src/utils/ocrParser.ts:142 | JavaScript's `length` counts UTF-16 code units: between the number of characters and twice it |
| JsText.Utf16LengthOfBmp | src/utils/ocrParser.ts:142 | on text inside the Basic Multilingual Plane, `length` is the number of characters |
| JsText.AstralCharIsTwoUnits | src/utils/ocrParser.ts:142 | a name of one character outside that plane has `length` 2, so it passes the name check |
| JsText.NatToString | src/hooks/useAssets.ts:108 | decimal digits with no leading zero |
| JsText.ParseFloat | src/components/common/NumberInput.tsx:25 | a number iff the unsigned text starts with a decimal literal, its sign following the minus |
| JsText.ParseFloatOfNatToString | src/components/common/NumberInput.tsx:65 | reading back the decimal text of a whole number gives that number |
| NumberInput.CleanNumber | src/components/common/NumberInput.tsx:24 | keeps exactly the digits, points and minus signs of the input, each as often as in the input, in their order |
| NumberInput.ParseNumber | src/components/common/NumberInput.tsx:23-26 | 0 for an empty cleaned text or NaN, otherwise the parsed value; negative only when the text has a minus |
| NumberInput.PatternRun | src/components/common/NumberInput.tsx:48 | the leading run of digits and commas, and no more |
| NumberInput.HandleChange | src/components/common/NumberInput.tsx:44-56 | accepted iff the filter matches; an accepted value is at least min, at most max when max ≥ min, and the parsed value when it is in bounds |
| NumberInput.NumberPattern | src/components/common/NumberInput.tsx:48 | the regular expression `^[-+]?[0-9,]*\.?[0-9]*$` written out; `PatternChars` and `DigitsAcceptedUnchanged` state its meaning |
| NumberInput.Accepts | src/components/common/NumberInput.tsx:48 | the empty text, or a text whose comma-free form matches the pattern; `AcceptedChars` states its meaning |
| NumberInput.PatternChars | src/components/common/NumberInput.tsx:48 | a text matching the pattern holds only digits, commas, points and signs |
| NumberInput.AcceptedChars | src/components/common/NumberInput.tsx:48 | an accepted text holds only digits, commas, points and signs, so any other character is refused |
| NumberInput.FormatNumber | src/components/common/NumberInput.tsx:14-20 | empty for NaN and 0, otherwise the localized text |
| NumberInput.FormatZeroReadsZero | src/components/common/NumberInput.tsx:14-26 | the empty display of 0 or NaN reads back as 0 |
| NumberInput.DigitsAcceptedUnchanged | src/components/common/NumberInput.tsx:48 | a digit string passes the filter and is not changed by cleaning |
| NumberInput.FocusRoundTrip | src/components/common/NumberInput.tsx:63-66 | the focus text of a whole number in bounds, typed back, gives the number |
| NumberInput.FocusText | src/components/common/NumberInput.tsx:65 | the focus text is empty exactly for 0, and otherwise the decimal digits that spell the number |
| NumberInput.AcceptedTextIsClean | src/components/common/NumberInput.tsx:24 | an accepted text without `+` or commas survives cleaning unchanged |
| NumberInput.LetterRefused | src/components/common/NumberInput.tsx:48 | a text with a letter is refused |
| NumberInput.NegativeRaised | src/components/common/NumberInput.tsx:52-54 | a negative value is raised to the default minimum 0 |
| CustomStrategy.InitialSliders | src/components/analysis/CustomStrategyConfig.tsx:17-20 | the sliders start at the current strategy's targets |
| CustomStrategy.SetSlider | src/components/analysis/CustomStrategyConfig.tsx:59-65 | the moved class takes the value; the others keep theirs |
| CustomStrategy.SliderTotal | src/components/analysis/CustomStrategyConfig.tsx:22 | the sum of the four sliders |
| CustomStrategy.IsOverLimit | src/components/analysis/CustomStrategyConfig.tsx:23 | an over-limit total needs some slider above 25 |
| CustomStrategy.SavedStrategy | src/components/analysis/CustomStrategyConfig.tsx:25-31 | the saved strategy has id `custom`, the custom name and the sliders' values |
| CustomStrategy.PressSave | src/components/analysis/CustomStrategyConfig.tsx:146-147 | a strategy is saved iff the total is not over 100 |
| CustomStrategy.SavedWithinLimit | src/components/analysis/CustomStrategyConfig.tsx:146-147 | whatever was saved sums to at most 100 and has id `custom` |
| CustomStrategy.LimitBoundary | src/components/analysis/CustomStrategyConfig.tsx:23 | exactly 100, or anything under it, is not over the limit |
| CustomStrategy.SetSliderTotal | src/components/analysis/CustomStrategyConfig.tsx:22 | moving a slider changes the total by the new minus the old value |
| CustomStrategy.SetSliderKeepsWhole | src/components/analysis/CustomStrategyConfig.tsx:59-66 | slider moves keep every value a whole percentage in [0, 100] |
| CustomStrategy.TableStartsWhole | src/components/analysis/CustomStrategyConfig.tsx:17-20 | every table strategy starts the sliders at whole percentages |
| CustomStrategy.FourMovesFixAll | src/components/analysis/CustomStrategyConfig.tsx:59-66 | one move per class sets all four values, from any start |
| AssetForm.InitialFields | src/components/dashboard/AssetForm.tsx:11-16 | empty name and symbol, 0 and stock for a new asset; the asset's own name, symbol, value and type when editing |
| AssetForm.Submit | src/components/dashboard/AssetForm.tsx:18-28 | refused iff name or symbol is empty or the value is not positive; otherwise exactly the four fields |
| AssetForm.FreshFormRefused | src/components/dashboard/AssetForm.tsx:11-20 | a fresh form cannot be submitted |
| AssetForm.UntouchedEditRoundTrip | src/components/dashboard/AssetForm.tsx:11-27 | submitting an untouched edit gives back the asset's fields when it has a name, symbol and positive value, and is refused otherwise |
| AssetForm.TypeDoesNotGate | src/components/dashboard/AssetForm.tsx:20 | the chosen type never decides whether the form can be submitted |
| ProfitAttribution.SortedAssets | src/components/dashboard/ProfitAttribution.tsx:9-11 | a reordering of the holdings, largest absolute profit first |
| ProfitAttribution.TotalProfit | src/components/dashboard/ProfitAttribution.tsx:13 | the sum of the profits, not negative when no holding lost money |
| ProfitAttribution.TotalLoss | src/components/dashboard/ProfitAttribution.tsx:14 | the total loss is never positive |
| ProfitAttribution.LossesNonPositive | src/components/dashboard/ProfitAttribution.tsx:14 | a sum of losses is not positive |
| ProfitAttribution.DisplayedGain | src/components/dashboard/ProfitAttribution.tsx:35 | the headline gain is the total profit when positive, else 0 |
| ProfitAttribution.DisplayedLoss | src/components/dashboard/ProfitAttribution.tsx:41 | the headline loss is the size of the total loss |
| ProfitAttribution.Profits | src/components/dashboard/ProfitAttribution.tsx:23 | the profits in display order |
| ProfitAttribution.BarWidthBounded | src/components/dashboard/ProfitAttribution.tsx:49-52 | with scales taken from the bars' own profits, each width lies in [0, 100] |
| ProfitAttribution.BarWidth | src/components/dashboard/ProfitAttribution.tsx:49-52 | the width formula of one bar; `BarWidthScale` and `BarWidthBounded` state its meaning |
| ProfitAttribution.BarWidthScale | src/components/dashboard/ProfitAttribution.tsx:49-52 | a gain's bar times the largest profit, or a loss's bar times the largest loss, is the profit's size in percent; with no positive scale the bar has no width |
| ProfitAttribution.WidthsOf | src/components/dashboard/ProfitAttribution.tsx:23-52 | one width per holding, each in [0, 100] |
| ProfitAttribution.BarWidths | src/components/dashboard/ProfitAttribution.tsx:48-52 | one width per holding in display order, each in [0, 100] |
| ProfitAttribution.BarsBounded | src/components/dashboard/ProfitAttribution.tsx:23-52 | every bar width of a list is in [0, 100] |
| ProfitAttribution.RenderedWidth | src/components/dashboard/ProfitAttribution.tsx:78 | the drawn width is at least 1 and at least the computed one, and equal to it from 1 up |
| ProfitAttribution.RenderedWidthsBounded | src/components/dashboard/ProfitAttribution.tsx:78 | every drawn width lies in [1, 100] |
| ProfitAttribution.ProfitSplits | src/components/dashboard/ProfitAttribution.tsx:13-14 | total profit is total loss plus the sum of the gains |
| ProfitAttribution.TotalIgnoresOrder | src/components/dashboard/ProfitAttribution.tsx:9-13 | the same holdings in any order have the same total |
| ProfitAttribution.SortedTotals | src/components/dashboard/ProfitAttribution.tsx:9-14 | sorting for display changes neither total |
| ProfitAttribution.FullBarOf | src/components/dashboard/ProfitAttribution.tsx:23-51 | in a list with a positive profit, the largest profit gets a full bar |
| ProfitAttribution.LargestProfitFullBar | src/components/dashboard/ProfitAttribution.tsx:23-51 | whenever some holding made a profit, some bar is drawn at 100 |
| Sorting.SortDesc | src/components/dashboard/ProfitAttribution.tsx:9-11 | a permutation of the input, ordered by the key from largest to smallest |
| Sorting.SortDescStable | src/components/dashboard/ProfitAttribution.tsx:9-11 | the sort is stable: the elements of each key come out in their input order |
| Sorting.InsertStable | src/components/dashboard/ProfitAttribution.tsx:9-11 | an insertion keeps the new element ahead of the elements of its key |
| Sorting.FilterKeepsSorted | src/hooks/useRebalanceHistory.ts:70 | filtering a sorted list keeps it sorted |
| Sorting.ConsSorted | src/hooks/useRebalanceHistory.ts:50 | putting an element with the largest key in front keeps the list sorted |
| Seqs.Max | src/pages/Analysis.tsx:91-93 | `Math.max` of a non-empty list bounds every element and equals one of them |
| Seqs.Min | src/components/dashboard/ProfitAttribution.tsx:24 | `Math.min` of a non-empty list is below every element and equals one of them |
| Seqs.Filter | src/hooks/useRebalancing.ts:128 | `filter` keeps exactly the elements satisfying the predicate, each as often as in the input, in order |
| Seqs.SubsequenceTrans | src/components/common/NumberInput.tsx:24 | two filters in a row keep the order: a subsequence of a subsequence is one of the original |
| Seqs.WithoutKey | src/hooks/useAssets.ts:128-130 | exactly the elements whose id differs from the given one, each as often as in the input, in their order; `deleteAsset` and `deleteHistory` (src/hooks/useRebalanceHistory.ts:70) both filter this way |

## Left out

- Browser storage and JSON: the value loaded from storage is a constructor parameter (`None` for missing or unreadable data), and each save to storage is left out. Storage write failures are left out too.
- The clock: `Date.now()` is the `now` parameter of `SaveRebalance`, `NewAsset` and `AddAsset`. The ISO timestamp text of a history record is not modelled.
- History.NewRecord: one `now` serves as both the record's id and its timestamp. The source reads the clock twice (`Date.now()` for the id and `new Date()` for the timestamp, src/hooks/useRebalanceHistory.ts:39-40), and the two readings may differ by a millisecond.
- React state plumbing: `useState`, `useMemo`, the dialog open/close state and the `displayValue` state of the number input are left out. A state change is a method of the class that owns it.
- The `useEffect` of `src/hooks/useAssets.ts:89-103` is modelled as one call to `AssetBook.SyncRatios`, not as an effect that runs again after it.
- Number formatting (`toFixed`, `toLocaleString`) is presentation. `FormatNumber` takes the localized text of a non-zero number as a parameter.
- The text of warning messages, trade reasons and the custom strategy description beyond what the contracts name is left out. `SavedStrategy` takes the description as given.
- Floating point: every amount, ratio and percentage is an exact real. The rounding drift of IEEE doubles is not modelled.
- `Rebalancing.RoundToCents`: stated as "within half a cent of the exact value" rather than as `Math.round`'s exact tie rule.
- NaN is modelled as `None`.
- `parseFloat` is modelled only for text without leading whitespace, an exponent or `Infinity`. That covers every text reaching it after the cleaning of the number input and the OCR amount pattern.
- Regular expressions are written out as functions over strings. There is no general regex engine.
- `calculateTrade` (`src/hooks/useRebalancing.ts:43-58`) is never called and is not modelled.
- `Math.max()` and `Math.min()` of an empty list (−∞ and +∞) are never used, because there are no bars to draw; `ProfitAttribution.WidthsOf` returns no widths for an empty list.
- `Analysis.OverallDeviation`: requires a non-empty list of records. The page always passes four.
- The mock holdings and figures of `src/hooks/usePortfolio.ts:8-137` are data, not behaviour. `Portfolio` takes the holdings as a parameter.
- `Ocr.ParseLines` takes the keyword list as a parameter, and `Ocr.ParseOcrText` passes the source's list.
- `determineFundType` is modelled (`OcrText.DetermineFundType`), but `parseOCRText` never calls it and always sets the type to fund; the model does the same.
- Image recognition itself, and the import dialog around the parser, are not part of this model.
