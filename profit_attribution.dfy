/** The profit attribution panel of `src/components/dashboard/ProfitAttribution.tsx`: the
    holdings ordered by the size of their profit, the total profit and total loss shown
    at the top, and the width of each holding's bar. Number formatting is presentation
    and is not modelled. */
module ProfitAttribution {
  import opened Seqs
  import opened Sorting
  import opened PortfolioTypes

  function AbsProfit(): Asset -> real { (a: Asset) => Abs(a.profit) }

  /** `[...assets].sort((a, b) => Math.abs(b.profit) - Math.abs(a.profit))`: a reordered
      copy, largest absolute profit first. */
  function SortedAssets(assets: seq<Asset>): (r: seq<Asset>)
    ensures multiset(r) == multiset(assets)
    ensures SortedDesc(r, AbsProfit())
  {
    SortDesc(assets, AbsProfit())
  }

  /** `totalProfit`: the sum of all profits, not negative when no holding lost money. */
  function TotalProfit(assets: seq<Asset>): (r: real)
    ensures (forall i :: 0 <= i < |assets| ==> assets[i].profit >= 0.0) ==> r >= 0.0
  {
    TotalNonNegative(assets, ByProfit);
    Total(assets, ByProfit)
  }

  function IsLoss(): Asset -> bool { (a: Asset) => a.profit < 0.0 }

  function IsGain(): Asset -> bool { (a: Asset) => a.profit >= 0.0 }

  /** `totalLoss`: the sum of the negative profits, so never positive. */
  function TotalLoss(assets: seq<Asset>): (r: real)
    ensures r <= 0.0
  {
    LossesNonPositive(Filter(assets, IsLoss()));
    Total(Filter(assets, IsLoss()), ByProfit)
  }

  lemma {:induction false} LossesNonPositive(losses: seq<Asset>)
    requires forall i :: 0 <= i < |losses| ==> losses[i].profit < 0.0
    ensures Total(losses, ByProfit) <= 0.0
    decreases |losses|
  {
    if losses != [] {
      assert forall i :: 0 <= i < |losses[1..]| ==> losses[1..][i] == losses[i + 1];
      LossesNonPositive(losses[1..]);
    }
  }

  /** The headline gain: the total profit when it is positive, else 0. */
  function DisplayedGain(assets: seq<Asset>): (r: real)
    ensures r >= 0.0 && r >= TotalProfit(assets)
    ensures r == TotalProfit(assets) || r == 0.0
  {
    if TotalProfit(assets) > 0.0 then TotalProfit(assets) else 0.0
  }

  /** The headline loss: the size of the total loss. */
  function DisplayedLoss(assets: seq<Asset>): (r: real)
    ensures r >= 0.0 && r == -TotalLoss(assets)
  {
    Abs(TotalLoss(assets))
  }

  // ---------------------------------------------------------------------------
  // Bars

  /** `sortedAssets.map(a => a.profit)`. */
  function Profits(assets: seq<Asset>): (r: seq<real>)
    ensures |r| == |assets| && forall i :: 0 <= i < |r| ==> r[i] == assets[i].profit
  {
    seq(|assets|, i requires 0 <= i < |assets| => assets[i].profit)
  }

  /** `barWidth`: a profit as a percentage of the largest profit, a loss as a percentage
      of the largest loss, 0 when the scale is not positive. */
  function BarWidth(profit: real, maxProfit: real, maxLoss: real): real {
    if profit >= 0.0 then (if maxProfit > 0.0 then profit / maxProfit * 100.0 else 0.0)
    else (if maxLoss > 0.0 then Abs(profit) / maxLoss * 100.0 else 0.0)
  }

  /** A gain's bar is the gain in percent of the largest profit, a loss's bar the loss in
      percent of the largest loss, and a bar has no width when its scale is not positive. */
  lemma BarWidthScale(profit: real, maxProfit: real, maxLoss: real)
    ensures profit >= 0.0 && maxProfit > 0.0 ==> BarWidth(profit, maxProfit, maxLoss) * maxProfit == profit * 100.0
    ensures profit < 0.0 && maxLoss > 0.0 ==> BarWidth(profit, maxProfit, maxLoss) * maxLoss == -profit * 100.0
    ensures profit >= 0.0 && maxProfit <= 0.0 ==> BarWidth(profit, maxProfit, maxLoss) == 0.0
    ensures profit < 0.0 && maxLoss <= 0.0 ==> BarWidth(profit, maxProfit, maxLoss) == 0.0
  {
    if profit >= 0.0 && maxProfit > 0.0 {
      var q := profit / maxProfit;
      assert q * maxProfit == profit;
    } else if profit < 0.0 && maxLoss > 0.0 {
      var q := Abs(profit) / maxLoss;
      assert q * maxLoss == -profit;
    }
  }

  /** A part of a positive whole is at most the whole in percent. */
  lemma PartOfWhole(part: real, whole: real)
    requires 0.0 <= part <= whole && whole > 0.0
    ensures 0.0 <= part / whole * 100.0 <= 100.0
  {
    var q := part / whole;
    assert q * whole == part;
  }

  /** With the scales taken from the bars' own profits, each width lies in [0, 100]. */
  lemma BarWidthBounded(profit: real, maxProfit: real, maxLoss: real)
    requires profit >= 0.0 ==> profit <= maxProfit
    requires profit < 0.0 ==> -profit <= maxLoss
    ensures 0.0 <= BarWidth(profit, maxProfit, maxLoss) <= 100.0
  {
    if profit >= 0.0 {
      if maxProfit > 0.0 {
        PartOfWhole(profit, maxProfit);
      }
    } else {
      PartOfWhole(-profit, maxLoss);
    }
  }

  /** The width of each bar of an already sorted list; no bars when it is empty (the
      scales `Math.max()` and `Math.min()` of nothing are then never used). */
  function WidthsOf(sorted: seq<Asset>): (r: seq<real>)
    ensures |r| == |sorted|
    ensures forall i :: 0 <= i < |r| ==> 0.0 <= r[i] <= 100.0
  {
    if sorted == [] then []
    else
      var profits := Profits(sorted);
      var maxProfit := Max(profits);
      var maxLoss := Abs(Min(profits));
      BarsBounded(sorted, maxProfit, maxLoss);
      seq(|sorted|, i requires 0 <= i < |sorted| => BarWidth(sorted[i].profit, maxProfit, maxLoss))
  }

  /** The bar widths, in display order. */
  function BarWidths(assets: seq<Asset>): (r: seq<real>)
    ensures |r| == |assets|
    ensures forall i :: 0 <= i < |r| ==> 0.0 <= r[i] <= 100.0
  {
    WidthsOf(SortedAssets(assets))
  }

  lemma BarsBounded(sorted: seq<Asset>, maxProfit: real, maxLoss: real)
    requires sorted != []
    requires maxProfit == Max(Profits(sorted)) && maxLoss == Abs(Min(Profits(sorted)))
    ensures forall i :: 0 <= i < |sorted| ==> 0.0 <= BarWidth(sorted[i].profit, maxProfit, maxLoss) <= 100.0
  {
    var profits := Profits(sorted);
    forall i | 0 <= i < |sorted|
      ensures 0.0 <= BarWidth(sorted[i].profit, maxProfit, maxLoss) <= 100.0
    {
      assert profits[i] == sorted[i].profit;
      BarWidthBounded(sorted[i].profit, maxProfit, maxLoss);
    }
  }

  /** `Math.max(barWidth, 1)`: the drawn width, never thinner than 1%. */
  function RenderedWidth(width: real): (r: real)
    ensures r >= 1.0 && r >= width
    ensures width >= 1.0 ==> r == width
  {
    if width >= 1.0 then width else 1.0
  }

  lemma RenderedWidthsBounded(assets: seq<Asset>)
    ensures forall i :: 0 <= i < |BarWidths(assets)| ==> 1.0 <= RenderedWidth(BarWidths(assets)[i]) <= 100.0
  {
  }

  // ---------------------------------------------------------------------------
  // Properties

  /** The total profit is the total loss plus the sum of the non-negative profits. */
  lemma {:induction false} ProfitSplits(assets: seq<Asset>)
    ensures TotalProfit(assets)
         == TotalLoss(assets) + Total(Filter(assets, IsGain()), ByProfit)
    decreases |assets|
  {
    if assets != [] {
      ProfitSplits(assets[1..]);
      FilterStep(assets, IsLoss());
      FilterStep(assets, IsGain());
    }
  }

  /** Sorting for display does not change the totals. */
  lemma {:induction false} TotalIgnoresOrder(a: seq<Asset>, b: seq<Asset>, m: Measure)
    requires multiset(a) == multiset(b)
    ensures Total(a, m) == Total(b, m)
    decreases |a|
  {
    if a == [] {
      assert b == [];
    } else {
      var x := a[0];
      var j := IndexIn(b, x);
      var rest := b[..j] + b[j + 1..];
      RemoveAt(a, b, j);
      TotalIgnoresOrder(a[1..], rest, m);
      TotalAround(b, j, m);
    }
  }

  lemma IndexIn(b: seq<Asset>, x: Asset) returns (j: nat)
    requires x in multiset(b)
    ensures j < |b| && b[j] == x
  {
    assert x in b;
    j :| 0 <= j < |b| && b[j] == x;
  }

  /** Taking the first element off `a` and its match off `b` leaves equal multisets. */
  lemma RemoveAt(a: seq<Asset>, b: seq<Asset>, j: nat)
    requires multiset(a) == multiset(b) && a != [] && j < |b| && b[j] == a[0]
    ensures multiset(a[1..]) == multiset(b[..j] + b[j + 1..])
  {
    assert a == [a[0]] + a[1..];
    assert multiset(a) == multiset{a[0]} + multiset(a[1..]);
    assert b == b[..j] + [b[j]] + b[j + 1..];
    assert multiset(b) == multiset(b[..j]) + multiset{b[j]} + multiset(b[j + 1..]);
    assert multiset(b[..j] + b[j + 1..]) == multiset(b[..j]) + multiset(b[j + 1..]);
    assert multiset(a[1..]) == multiset(a) - multiset{a[0]};
    assert multiset(b[..j] + b[j + 1..]) == multiset(b) - multiset{b[j]};
  }

  /** The total with one element taken out, plus that element. */
  lemma TotalAround(b: seq<Asset>, j: nat, m: Measure)
    requires j < |b|
    ensures Total(b, m) == Total(b[..j] + b[j + 1..], m) + MeasureOf(b[j], m)
  {
    assert b == (b[..j] + [b[j]]) + b[j + 1..];
    TotalConcat(b[..j] + [b[j]], b[j + 1..], m);
    TotalConcat(b[..j], [b[j]], m);
    TotalConcat(b[..j], b[j + 1..], m);
    assert Total([b[j]], m) == MeasureOf(b[j], m);
  }

  lemma SortedTotals(assets: seq<Asset>)
    ensures TotalProfit(SortedAssets(assets)) == TotalProfit(assets)
    ensures TotalLoss(SortedAssets(assets)) <= 0.0
  {
    TotalIgnoresOrder(SortedAssets(assets), assets, ByProfit);
  }

  /** In a list with a positive profit, the largest profit gets the full bar. */
  lemma FullBarOf(sorted: seq<Asset>, k: nat)
    requires k < |sorted| && sorted[k].profit > 0.0
    ensures exists i :: 0 <= i < |WidthsOf(sorted)| && WidthsOf(sorted)[i] == 100.0
  {
    var profits := Profits(sorted);
    assert profits[k] > 0.0;
    var maxProfit := Max(profits);
    var i :| 0 <= i < |profits| && profits[i] == maxProfit;
    assert sorted[i].profit == maxProfit && maxProfit > 0.0;
    FullScale(maxProfit, Abs(Min(profits)));
    assert WidthsOf(sorted)[i] == BarWidth(maxProfit, maxProfit, Abs(Min(profits)));
  }

  lemma FullScale(maxProfit: real, maxLoss: real)
    requires maxProfit > 0.0
    ensures BarWidth(maxProfit, maxProfit, maxLoss) == 100.0
  {
    assert maxProfit / maxProfit == 1.0;
  }

  /** Whenever some holding made a profit, some bar is drawn at full width. */
  lemma LargestProfitFullBar(assets: seq<Asset>, k: nat)
    requires k < |assets| && assets[k].profit > 0.0
    ensures exists i :: 0 <= i < |BarWidths(assets)| && BarWidths(assets)[i] == 100.0
  {
    var sorted := SortedAssets(assets);
    var j := IndexIn(sorted, assets[k]);
    FullBarOf(sorted, j);
    assert BarWidths(assets) == WidthsOf(sorted);
  }
}
