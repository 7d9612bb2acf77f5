/** The holdings store of `src/hooks/useAssets.ts`: the asset list, the recomputation of
    every `currentRatio` after each edit, add / update-by-id / delete-by-id, and the two
    totals. Browser storage is not modelled: what was stored is passed to the constructor,
    and the clock reading that names a new asset is a parameter. */
module AssetStore {
  import opened Wrappers
  import opened Seqs
  import opened JsText
  import opened PortfolioTypes

  /** `total > 0 ? (value / total) * 100 : 0`. */
  function RatioOf(value: real, total: real): real {
    if total > 0.0 then value / total * 100.0 else 0.0
  }

  /** A ratio is the value's share of a positive total in percent, so in [0, 100] for a
      part of the total, and 0 when the total is not positive. */
  lemma RatioOfBounds(value: real, total: real)
    ensures total > 0.0 ==> RatioOf(value, total) * total == value * 100.0
    ensures total > 0.0 && 0.0 <= value <= total ==> 0.0 <= RatioOf(value, total) <= 100.0
    ensures total <= 0.0 ==> RatioOf(value, total) == 0.0
  {
    if total > 0.0 {
      var q := value / total;
      assert q * total == value;
    }
  }

  /** The asset with only its current ratio replaced. */
  predicate SameExceptRatio(a: Asset, b: Asset) {
    a == b.(currentRatio := a.currentRatio)
  }

  /** Every asset's ratio against a fixed total. */
  function WithRatios(assets: seq<Asset>, total: real): (r: seq<Asset>)
    ensures |r| == |assets|
    ensures forall i :: 0 <= i < |r| ==> r[i] == assets[i].(currentRatio := RatioOf(assets[i].value, total))
  {
    seq(|assets|, i requires 0 <= i < |assets| => assets[i].(currentRatio := RatioOf(assets[i].value, total)))
  }

  /** `recalculateRatios`: same assets in the same order, each with its percentage share
      of the total value, or 0 when the total is not positive. */
  function RecalculateRatios(assets: seq<Asset>): (r: seq<Asset>)
    ensures |r| == |assets|
    ensures forall i :: 0 <= i < |r| ==> SameExceptRatio(r[i], assets[i])
    ensures forall i :: 0 <= i < |r| ==> r[i].currentRatio == RatioOf(assets[i].value, Total(assets, ByValue))
  {
    WithRatios(assets, Total(assets, ByValue))
  }

  /** Two lists that agree index by index on a field have the same total of it. */
  lemma {:induction false} TotalPointwise(a: seq<Asset>, b: seq<Asset>, m: Measure)
    requires |a| == |b|
    requires forall i :: 0 <= i < |a| ==> MeasureOf(a[i], m) == MeasureOf(b[i], m)
    ensures Total(a, m) == Total(b, m)
  {
    if a != [] {
      assert forall i :: 0 <= i < |a| - 1 ==> a[1..][i] == a[i + 1] && b[1..][i] == b[i + 1];
      TotalPointwise(a[1..], b[1..], m);
    }
  }

  /** Recomputing ratios leaves total value and total profit alone. */
  lemma RecalculateKeepsTotals(assets: seq<Asset>)
    ensures Total(RecalculateRatios(assets), ByValue) == Total(assets, ByValue)
    ensures Total(RecalculateRatios(assets), ByProfit) == Total(assets, ByProfit)
  {
    var r := RecalculateRatios(assets);
    TotalPointwise(r, assets, ByValue);
    TotalPointwise(r, assets, ByProfit);
  }

  /** Recomputing twice gives what recomputing once gave. */
  lemma RecalculateIdempotent(assets: seq<Asset>)
    ensures RecalculateRatios(RecalculateRatios(assets)) == RecalculateRatios(assets)
  {
    RecalculateKeepsTotals(assets);
  }

  lemma {:induction false} WithRatiosSum(assets: seq<Asset>, total: real)
    requires total > 0.0
    ensures Total(WithRatios(assets, total), ByCurrentRatio) == Total(assets, ByValue) / total * 100.0
  {
    if assets != [] {
      assert WithRatios(assets, total)[1..] == WithRatios(assets[1..], total);
      WithRatiosSum(assets[1..], total);
    }
  }

  /** With a positive total value the ratios add up to 100. */
  lemma RatiosSumTo100(assets: seq<Asset>)
    requires Total(assets, ByValue) > 0.0
    ensures Total(RecalculateRatios(assets), ByCurrentRatio) == 100.0
  {
    var total := Total(assets, ByValue);
    WithRatiosSum(assets, total);
    assert total / total == 1.0;
  }

  /** With a total value of zero or less, every ratio is 0. */
  lemma RatiosZeroWithoutValue(assets: seq<Asset>)
    requires Total(assets, ByValue) <= 0.0
    ensures forall i :: 0 <= i < |assets| ==> RecalculateRatios(assets)[i].currentRatio == 0.0
  { }

  // ---------------------------------------------------------------------------
  // Edits

  /** The fields `addAsset` is given: everything but id, ratios and profit figures. */
  datatype AssetDraft = AssetDraft(
    name: string,
    symbol: string,
    value: real,
    kind: AssetClass,
    recent5DaysChange: Option<real>,
    recent3DaysChange: Option<real>)

  /** `Partial<Asset>`: each field is either given or absent. */
  datatype AssetUpdate = AssetUpdate(
    id: Option<string>,
    name: Option<string>,
    symbol: Option<string>,
    value: Option<real>,
    targetRatio: Option<real>,
    currentRatio: Option<real>,
    profit: Option<real>,
    profitPercent: Option<real>,
    kind: Option<AssetClass>,
    recent5DaysChange: Option<Option<real>>,
    recent3DaysChange: Option<Option<real>>)

  function Pick<T>(given: Option<T>, current: T): T {
    if given.Some? then given.value else current
  }

  /** `{ ...asset, ...updates }`. */
  function Merge(a: Asset, u: AssetUpdate): (r: Asset)
    ensures u == AssetUpdate(None, None, None, None, None, None, None, None, None, None, None) ==> r == a
    ensures u.id.Some? ==> r.id == u.id.value
    ensures u.id.None? ==> r.id == a.id
    ensures u.name.Some? ==> r.name == u.name.value
    ensures u.name.None? ==> r.name == a.name
    ensures u.symbol.Some? ==> r.symbol == u.symbol.value
    ensures u.symbol.None? ==> r.symbol == a.symbol
    ensures u.value.Some? ==> r.value == u.value.value
    ensures u.value.None? ==> r.value == a.value
    ensures u.targetRatio.Some? ==> r.targetRatio == u.targetRatio.value
    ensures u.targetRatio.None? ==> r.targetRatio == a.targetRatio
    ensures u.currentRatio.Some? ==> r.currentRatio == u.currentRatio.value
    ensures u.currentRatio.None? ==> r.currentRatio == a.currentRatio
    ensures u.profit.Some? ==> r.profit == u.profit.value
    ensures u.profit.None? ==> r.profit == a.profit
    ensures u.profitPercent.Some? ==> r.profitPercent == u.profitPercent.value
    ensures u.profitPercent.None? ==> r.profitPercent == a.profitPercent
    ensures u.kind.Some? ==> r.kind == u.kind.value
    ensures u.kind.None? ==> r.kind == a.kind
    ensures u.recent5DaysChange.Some? ==> r.recent5DaysChange == u.recent5DaysChange.value
    ensures u.recent5DaysChange.None? ==> r.recent5DaysChange == a.recent5DaysChange
    ensures u.recent3DaysChange.Some? ==> r.recent3DaysChange == u.recent3DaysChange.value
    ensures u.recent3DaysChange.None? ==> r.recent3DaysChange == a.recent3DaysChange
  {
    Asset(Pick(u.id, a.id), Pick(u.name, a.name), Pick(u.symbol, a.symbol), Pick(u.value, a.value),
          Pick(u.targetRatio, a.targetRatio), Pick(u.currentRatio, a.currentRatio),
          Pick(u.profit, a.profit), Pick(u.profitPercent, a.profitPercent), Pick(u.kind, a.kind),
          Pick(u.recent5DaysChange, a.recent5DaysChange), Pick(u.recent3DaysChange, a.recent3DaysChange))
  }

  /** The asset `addAsset` builds at clock reading `now`: no target, no ratio, no profit. */
  function NewAsset(draft: AssetDraft, now: nat): (r: Asset)
    ensures r.id == NatToString(now)
    ensures r.name == draft.name && r.symbol == draft.symbol && r.value == draft.value && r.kind == draft.kind
    ensures r.recent5DaysChange == draft.recent5DaysChange && r.recent3DaysChange == draft.recent3DaysChange
    ensures r.targetRatio == 0.0 && r.currentRatio == 0.0 && r.profit == 0.0 && r.profitPercent == 0.0
  {
    Asset(NatToString(now), draft.name, draft.symbol, draft.value, 0.0, 0.0, 0.0, 0.0, draft.kind,
          draft.recent5DaysChange, draft.recent3DaysChange)
  }

  /** The list `addAsset` passes to `recalculateRatios`. */
  function Appended(assets: seq<Asset>, draft: AssetDraft, now: nat): (r: seq<Asset>)
    ensures |r| == |assets| + 1 && r[..|assets|] == assets && r[|assets|] == NewAsset(draft, now)
  {
    assets + [NewAsset(draft, now)]
  }

  /** The list `updateAsset` passes to `recalculateRatios`. */
  function Updated(assets: seq<Asset>, id: string, u: AssetUpdate): (r: seq<Asset>)
    ensures |r| == |assets|
    ensures forall i :: 0 <= i < |r| && assets[i].id == id ==> r[i] == Merge(assets[i], u)
    ensures forall i :: 0 <= i < |r| && assets[i].id != id ==> r[i] == assets[i]
  {
    seq(|assets|, i requires 0 <= i < |assets| => if assets[i].id == id then Merge(assets[i], u) else assets[i])
  }

  /** An asset's id, the key `deleteAsset` filters on. */
  function AssetId(): Asset -> string {
    (a: Asset) => a.id
  }

  /** The built-in holdings used when nothing was stored; their ratios start at 0. */
  const DEFAULT_ASSETS: seq<Asset> := [
    Asset("1", "全球科技ETF", "513100", 35000.0, 25.0, 0.0, 4200.0, 12.0, Stock, None, None),
    Asset("2", "黄金ETF", "518880", 25000.0, 25.0, 0.0, 750.0, 3.0, Gold, None, None),
    Asset("3", "货币基金", "000198", 20000.0, 25.0, 0.0, 20.0, 0.1, Cash, None, None),
    Asset("4", "短债ETF", "511010", 10000.0, 25.0, 0.0, 200.0, 2.0, Bond, None, None)
  ]

  /** The save effect's test: some asset's ratio is more than 0.01 away from the
      recomputed one. */
  predicate HasRatioChange(assets: seq<Asset>)
    ensures HasRatioChange(assets) ==> RecalculateRatios(assets) != assets
  {
    var recomputed := RecalculateRatios(assets);
    exists i :: 0 <= i < |assets| && Abs(assets[i].currentRatio - recomputed[i].currentRatio) > 0.01
  }

  class AssetBook {
    var assets: seq<Asset>

    /** The initial state: the stored list with ratios recomputed, or the defaults when
        nothing usable was stored. */
    constructor Load(stored: Option<seq<Asset>>)
      ensures stored.Some? ==> assets == RecalculateRatios(stored.value)
      ensures stored.None? ==> assets == DEFAULT_ASSETS
    {
      if stored.Some? {
        assets := RecalculateRatios(stored.value);
      } else {
        assets := DEFAULT_ASSETS;
      }
    }

    /** The save effect: store the recomputed ratios only when one of them moved by more
        than 0.01. */
    method SyncRatios()
      modifies this
      ensures HasRatioChange(old(assets)) ==> assets == RecalculateRatios(old(assets))
      ensures !HasRatioChange(old(assets)) ==> assets == old(assets)
      ensures !HasRatioChange(assets)
    {
      if HasRatioChange(assets) {
        RecalculateIdempotent(assets);
        assets := RecalculateRatios(assets);
      }
    }

    /** `addAsset`, named by the clock reading `now`. */
    method AddAsset(draft: AssetDraft, now: nat)
      modifies this
      ensures assets == RecalculateRatios(Appended(old(assets), draft, now))
      ensures TotalAssetsValue() == old(TotalAssetsValue()) + draft.value
      ensures TotalProfit() == old(TotalProfit())
    {
      var before := assets;
      assets := RecalculateRatios(Appended(assets, draft, now));
      RecalculateKeepsTotals(Appended(before, draft, now));
      TotalConcat(before, [NewAsset(draft, now)], ByValue);
      TotalConcat(before, [NewAsset(draft, now)], ByProfit);
    }

    /** `updateAsset`. */
    method UpdateAsset(id: string, u: AssetUpdate)
      modifies this
      ensures assets == RecalculateRatios(Updated(old(assets), id, u))
    {
      assets := RecalculateRatios(Updated(assets, id, u));
    }

    /** `deleteAsset`. */
    method DeleteAsset(id: string)
      modifies this
      ensures assets == RecalculateRatios(WithoutKey(old(assets), AssetId(), id))
    {
      assets := RecalculateRatios(WithoutKey(assets, AssetId(), id));
    }

    /** `totalAssetsValue`: the sum of all values, not negative when no value is. */
    function TotalAssetsValue(): (r: real)
      reads this
      ensures (forall i :: 0 <= i < |assets| ==> assets[i].value >= 0.0) ==> r >= 0.0
    {
      TotalNonNegative(assets, ByValue);
      Total(assets, ByValue)
    }

    /** `totalProfit`: the sum of all profits, not negative when no holding lost money. */
    function TotalProfit(): (r: real)
      reads this
      ensures (forall i :: 0 <= i < |assets| ==> assets[i].profit >= 0.0) ==> r >= 0.0
    {
      TotalNonNegative(assets, ByProfit);
      Total(assets, ByProfit)
    }
  }

  /** After an update, an asset with the id carries the merged fields and any other asset
      is unchanged, each up to its recomputed ratio. */
  lemma UpdateTouchesOnlyId(assets: seq<Asset>, id: string, u: AssetUpdate)
    ensures var r := RecalculateRatios(Updated(assets, id, u));
      |r| == |assets|
      && (forall i :: 0 <= i < |r| && assets[i].id == id ==> SameExceptRatio(r[i], Merge(assets[i], u)))
      && (forall i :: 0 <= i < |r| && assets[i].id != id ==> SameExceptRatio(r[i], assets[i]))
  { }

  /** An update whose id no asset has only recomputes ratios. */
  lemma UpdateUnknownId(assets: seq<Asset>, id: string, u: AssetUpdate)
    requires forall i :: 0 <= i < |assets| ==> assets[i].id != id
    ensures RecalculateRatios(Updated(assets, id, u)) == RecalculateRatios(assets)
  {
    assert Updated(assets, id, u) == assets;
  }

  /** After a delete, no asset has the id, and every other one is still there. */
  lemma DeleteRemovesId(assets: seq<Asset>, id: string)
    ensures var r := RecalculateRatios(WithoutKey(assets, AssetId(), id));
      && (forall i :: 0 <= i < |r| ==> r[i].id != id)
      && (forall i :: 0 <= i < |assets| && assets[i].id != id ==>
            exists j :: 0 <= j < |r| && SameExceptRatio(r[j], assets[i]))
  {
    var kept := WithoutKey(assets, AssetId(), id);
    var r := RecalculateRatios(kept);
    forall i | 0 <= i < |assets| && assets[i].id != id
      ensures exists j :: 0 <= j < |r| && SameExceptRatio(r[j], assets[i])
    {
      assert assets[i] in kept;
      var j :| 0 <= j < |kept| && kept[j] == assets[i];
      assert SameExceptRatio(r[j], kept[j]);
    }
  }

  /** Deleting the id of the asset just added undoes the add, up to ratios, when the id
      was new. */
  lemma DeleteUndoesAdd(assets: seq<Asset>, draft: AssetDraft, now: nat)
    requires forall i :: 0 <= i < |assets| ==> assets[i].id != NatToString(now)
    ensures WithoutKey(RecalculateRatios(Appended(assets, draft, now)), AssetId(), NatToString(now))
         == RecalculateRatios(Appended(assets, draft, now))[..|assets|]
    ensures var back := WithoutKey(RecalculateRatios(Appended(assets, draft, now)), AssetId(), NatToString(now));
      && |back| == |assets|
      && forall i :: 0 <= i < |assets| ==> SameExceptRatio(back[i], assets[i])
  {
    var id := NatToString(now);
    var appended := Appended(assets, draft, now);
    var r := RecalculateRatios(appended);
    assert r == r[..|assets|] + [r[|assets|]];
    FilterConcat(r[..|assets|], [r[|assets|]], KeyIsNot(AssetId(), id));
    FilterKeepsAll(r[..|assets|], KeyIsNot(AssetId(), id));
    FilterStep([r[|assets|]], KeyIsNot(AssetId(), id));
    forall i | 0 <= i < |assets|
      ensures SameExceptRatio(r[..|assets|][i], assets[i])
    {
      assert appended[i] == assets[i];
    }
  }
}
