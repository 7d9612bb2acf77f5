/** The discipline checker of `src/hooks/useDisciplineCheck.ts`: four rules that attach
    warnings to a single trade, and the check of a whole trade plan that joins each trade
    to its holding by name, drops repeated warnings and splits the rest into blocking and
    advisory ones. */
module Discipline {
  import opened Wrappers
  import opened Seqs
  import opened PortfolioTypes

  /** `DISCIPLINE_THRESHOLDS`, in percent. The day counts (5 and 3) only name which
      change field a rule reads. */
  const CHASING_HIGH_PERCENT := 5.0
  const PROFIT_TAKE_PERCENT := 15.0
  const GOLD_RULE_PERCENT := 6.0

  /** The rules in the order `checkTrade` tests them. */
  const RuleOrder := [ChasingHigh, ProfitTake, GoldRule, LeftSide]

  /** When each rule fires for a trade of `kind` on `asset`: the profit-taking rule only
      on sells, the other three only on buys. */
  predicate Triggers(rule: RuleType, asset: Asset, kind: TradeType)
    ensures Triggers(rule, asset, kind) ==> (rule == ProfitTake <==> kind == Sell)
  {
    match rule
    case ChasingHigh =>
      kind == Buy && asset.recent5DaysChange.Some? && asset.recent5DaysChange.value > CHASING_HIGH_PERCENT
    case ProfitTake =>
      kind == Sell && asset.profitPercent > PROFIT_TAKE_PERCENT
    case GoldRule =>
      kind == Buy && asset.kind == Gold && asset.recent3DaysChange.Some?
      && asset.recent3DaysChange.value > GOLD_RULE_PERCENT
    case LeftSide =>
      kind == Buy
  }

  /** Only the gold rule blocks; the other three are advisory (`'warning'`). */
  function LevelOf(rule: RuleType): WarningLevel {
    if rule == GoldRule then Blocking else Advisory
  }

  /** The warning a rule raises about `asset`. */
  function Warn(rule: RuleType, asset: Asset): DisciplineWarning {
    DisciplineWarning(rule, LevelOf(rule), asset.id, asset.name)
  }

  /** The warnings of the rules in `rules` that fire, in order: at most one per rule. */
  function RuleWarnings(rules: seq<RuleType>, asset: Asset, kind: TradeType): (r: seq<DisciplineWarning>)
    ensures |r| <= |rules|
  {
    if rules == [] then []
    else (if Triggers(rules[0], asset, kind) then [Warn(rules[0], asset)] else [])
         + RuleWarnings(rules[1..], asset, kind)
  }

  /** The warnings of one trade: in rule order, one for each rule that fires, so at most
      four. */
  function TradeWarnings(asset: Asset, kind: TradeType): (r: seq<DisciplineWarning>)
    ensures |r| <= 4
  {
    RuleWarnings(RuleOrder, asset, kind)
  }

  /** `ws` holds a warning of `rule`. */
  predicate Raises(ws: seq<DisciplineWarning>, rule: RuleType) {
    exists i :: 0 <= i < |ws| && ws[i].rule == rule
  }

  /** `TradeWarnings` with the recursion over the four rules spelled out. */
  lemma TradeWarningsUnfolded(asset: Asset, kind: TradeType)
    ensures TradeWarnings(asset, kind)
         == (if Triggers(ChasingHigh, asset, kind) then [Warn(ChasingHigh, asset)] else [])
          + (if Triggers(ProfitTake, asset, kind) then [Warn(ProfitTake, asset)] else [])
          + (if Triggers(GoldRule, asset, kind) then [Warn(GoldRule, asset)] else [])
          + (if Triggers(LeftSide, asset, kind) then [Warn(LeftSide, asset)] else [])
  {
    var rs := RuleOrder;
    assert rs[1..] == [ProfitTake, GoldRule, LeftSide];
    assert rs[1..][1..] == [GoldRule, LeftSide];
    assert rs[1..][1..][1..] == [LeftSide];
    assert rs[1..][1..][1..][1..] == [];
    assert [LeftSide][1..] == [];
    assert [GoldRule, LeftSide][1..] == [LeftSide];
    assert [ProfitTake, GoldRule, LeftSide][1..] == [GoldRule, LeftSide];
    var w3 := RuleWarnings([LeftSide], asset, kind);
    assert RuleWarnings([], asset, kind) == [];
    assert w3 == (if Triggers(LeftSide, asset, kind) then [Warn(LeftSide, asset)] else []);
    var w2 := RuleWarnings([GoldRule, LeftSide], asset, kind);
    assert w2 == (if Triggers(GoldRule, asset, kind) then [Warn(GoldRule, asset)] else []) + w3;
    var w1 := RuleWarnings([ProfitTake, GoldRule, LeftSide], asset, kind);
    assert w1 == (if Triggers(ProfitTake, asset, kind) then [Warn(ProfitTake, asset)] else []) + w2;
    assert RuleWarnings(rs, asset, kind)
        == (if Triggers(ChasingHigh, asset, kind) then [Warn(ChasingHigh, asset)] else []) + w1;
  }

  /** Each warning belongs to a rule of the list that fires. */
  lemma {:induction false} RuleWarningsSound(rules: seq<RuleType>, asset: Asset, kind: TradeType)
    ensures forall i :: 0 <= i < |RuleWarnings(rules, asset, kind)| ==>
      RuleWarnings(rules, asset, kind)[i] == Warn(RuleWarnings(rules, asset, kind)[i].rule, asset)
    ensures forall i :: 0 <= i < |RuleWarnings(rules, asset, kind)| ==>
      RuleWarnings(rules, asset, kind)[i].rule in rules
    ensures forall i :: 0 <= i < |RuleWarnings(rules, asset, kind)| ==>
      Triggers(RuleWarnings(rules, asset, kind)[i].rule, asset, kind)
    decreases |rules|
  {
    if rules != [] {
      RuleWarningsSound(rules[1..], asset, kind);
      var head: seq<DisciplineWarning> := if Triggers(rules[0], asset, kind) then [Warn(rules[0], asset)] else [];
      var rest := RuleWarnings(rules[1..], asset, kind);
      assert RuleWarnings(rules, asset, kind) == head + rest;
      forall i | |head| <= i < |head + rest|
        ensures (head + rest)[i].rule in rules
      {
        assert (head + rest)[i] == rest[i - |head|];
        assert rest[i - |head|].rule in rules[1..];
      }
    }
  }

  /** Every rule of the list that fires raises its warning. */
  lemma {:induction false} RuleWarningsComplete(rules: seq<RuleType>, asset: Asset, kind: TradeType)
    ensures forall rule :: rule in rules && Triggers(rule, asset, kind) ==> Raises(RuleWarnings(rules, asset, kind), rule)
    decreases |rules|
  {
    if rules != [] {
      RuleWarningsComplete(rules[1..], asset, kind);
      var head: seq<DisciplineWarning> := if Triggers(rules[0], asset, kind) then [Warn(rules[0], asset)] else [];
      var rest := RuleWarnings(rules[1..], asset, kind);
      var r := head + rest;
      forall rule | rule in rules && Triggers(rule, asset, kind)
        ensures Raises(r, rule)
      {
        if rule == rules[0] {
          assert r[0].rule == rule;
        } else {
          assert rule in rules[1..];
          var i :| 0 <= i < |rest| && rest[i].rule == rule;
          assert r[i + |head|].rule == rule;
        }
      }
    }
  }

  /** A list without repeated rules raises no rule twice. */
  lemma {:induction false} RuleWarningsDistinct(rules: seq<RuleType>, asset: Asset, kind: TradeType)
    requires forall i, j :: 0 <= i < j < |rules| ==> rules[i] != rules[j]
    ensures forall i, j :: 0 <= i < j < |RuleWarnings(rules, asset, kind)| ==>
      RuleWarnings(rules, asset, kind)[i].rule != RuleWarnings(rules, asset, kind)[j].rule
    decreases |rules|
  {
    if rules != [] {
      var rest := RuleWarnings(rules[1..], asset, kind);
      RuleWarningsDistinct(rules[1..], asset, kind);
      if Triggers(rules[0], asset, kind) {
        RuleWarningsSound(rules[1..], asset, kind);
        assert rules[0] !in rules[1..];
        var r := [Warn(rules[0], asset)] + rest;
        assert RuleWarnings(rules, asset, kind) == r;
        forall i, j | 0 <= i < j < |r|
          ensures r[i].rule != r[j].rule
        {
          assert r[j] == rest[j - 1];
          if i > 0 {
            assert r[i] == rest[i - 1];
          } else {
            assert rest[j - 1].rule in rules[1..];
          }
        }
      } else {
        assert RuleWarnings(rules, asset, kind) == rest;
      }
    }
  }

  /** A trade raises a rule's warning exactly when the rule fires; each warning names the
      holding and carries its rule's level; no rule is raised twice. */
  lemma TradeWarningsSpec(asset: Asset, kind: TradeType)
    ensures var r := TradeWarnings(asset, kind);
      && (forall rule :: Raises(r, rule) <==> Triggers(rule, asset, kind))
      && (forall i :: 0 <= i < |r| ==> r[i] == Warn(r[i].rule, asset) && Triggers(r[i].rule, asset, kind))
      && (forall i, j :: 0 <= i < j < |r| ==> r[i].rule != r[j].rule)
  {
    RuleWarningsSound(RuleOrder, asset, kind);
    RuleWarningsComplete(RuleOrder, asset, kind);
    RuleWarningsDistinct(RuleOrder, asset, kind);
    var r := TradeWarnings(asset, kind);
    forall rule
      ensures rule in RuleOrder
    {
      match rule
      case ChasingHigh => assert RuleOrder[0] == rule;
      case ProfitTake => assert RuleOrder[1] == rule;
      case GoldRule => assert RuleOrder[2] == rule;
      case LeftSide => assert RuleOrder[3] == rule;
    }
    forall rule | Raises(r, rule)
      ensures Triggers(rule, asset, kind)
    {
      var i :| 0 <= i < |r| && r[i].rule == rule;
    }
  }

  /** A sell can only raise the profit-taking reminder; a buy always asks for the
      right-side confirmation and never a profit-taking reminder. */
  lemma TradeWarningsByDirection(asset: Asset, kind: TradeType)
    ensures kind == Sell ==> forall i :: 0 <= i < |TradeWarnings(asset, kind)| ==>
      TradeWarnings(asset, kind)[i].rule == ProfitTake
    ensures kind == Buy ==>
      && Raises(TradeWarnings(asset, kind), LeftSide)
      && !Raises(TradeWarnings(asset, kind), ProfitTake)
  {
    TradeWarningsSpec(asset, kind);
  }

  /** `checkTrade`: pushes one warning per rule that fires, in rule order. The amount is
      accepted and not used. */
  method CheckTrade(asset: Asset, kind: TradeType, amount: real) returns (warnings: seq<DisciplineWarning>)
    ensures warnings == TradeWarnings(asset, kind)
  {
    TradeWarningsUnfolded(asset, kind);
    warnings := [];
    if kind == Buy && asset.recent5DaysChange.Some? {
      if asset.recent5DaysChange.value > CHASING_HIGH_PERCENT {
        warnings := warnings + [DisciplineWarning(ChasingHigh, Advisory, asset.id, asset.name)];
      }
    }
    if kind == Sell && asset.profitPercent > PROFIT_TAKE_PERCENT {
      warnings := warnings + [DisciplineWarning(ProfitTake, Advisory, asset.id, asset.name)];
    }
    if kind == Buy && asset.kind == Gold && asset.recent3DaysChange.Some? {
      if asset.recent3DaysChange.value > GOLD_RULE_PERCENT {
        warnings := warnings + [DisciplineWarning(GoldRule, Blocking, asset.id, asset.name)];
      }
    }
    if kind == Buy {
      warnings := warnings + [DisciplineWarning(LeftSide, Advisory, asset.id, asset.name)];
    }
  }

  /** `assets.find(a => a.name === name)`, as the index of the first holding of that name. */
  function FindByName(assets: seq<Asset>, name: string): (r: Option<nat>)
    ensures r.Some? ==>
      && r.value < |assets| && assets[r.value].name == name
      && forall j :: 0 <= j < r.value ==> assets[j].name != name
    ensures r.None? <==> forall j :: 0 <= j < |assets| ==> assets[j].name != name
  {
    if assets == [] then None
    else if assets[0].name == name then Some(0)
    else
      var rest := FindByName(assets[1..], name);
      assert forall j :: 1 <= j < |assets| ==> assets[j] == assets[1..][j - 1];
      if rest.None? then None else Some(rest.value + 1)
  }

  /** The warnings one trade contributes: none when no holding has its name. */
  function WarningsFor(trade: Trade, assets: seq<Asset>): seq<DisciplineWarning> {
    var found := FindByName(assets, trade.assetName);
    if found.None? then [] else TradeWarnings(assets[found.value], trade.kind)
  }

  /** `allWarnings` after the `forEach` over `trades`: at most four per trade. */
  function CollectWarnings(trades: seq<Trade>, assets: seq<Asset>): (r: seq<DisciplineWarning>)
    ensures |r| <= 4 * |trades|
    decreases |trades|
  {
    if trades == [] then []
    else CollectWarnings(trades[..|trades| - 1], assets) + WarningsFor(trades[|trades| - 1], assets)
  }

  /** The key the deduplication compares: rule and holding id. */
  function Key(w: DisciplineWarning): (RuleType, string) {
    (w.rule, w.assetId)
  }

  /** `index === self.findIndex(same key)`: no earlier warning has the same key. */
  predicate FirstOfKey(ws: seq<DisciplineWarning>, i: nat)
    requires i < |ws|
  {
    forall j :: 0 <= j < i ==> Key(ws[j]) != Key(ws[i])
  }

  /** `uniqueWarnings`: the warnings that are the first of their key, in order; never
      more than there were. */
  function Dedup(ws: seq<DisciplineWarning>): (r: seq<DisciplineWarning>)
    ensures |r| <= |ws|
    decreases |ws|
  {
    if ws == [] then []
    else
      var n := |ws| - 1;
      Dedup(ws[..n]) + (if FirstOfKey(ws, n) then [ws[n]] else [])
  }

  lemma {:induction false} DedupMembers(ws: seq<DisciplineWarning>)
    ensures forall u :: u in Dedup(ws) ==> u in ws
    decreases |ws|
  {
    if ws != [] {
      DedupMembers(ws[..|ws| - 1]);
    }
  }

  /** A position before `n` is the first of its key in `ws[..n]` exactly when it is in `ws`. */
  lemma FirstOfKeyPrefix(ws: seq<DisciplineWarning>, n: nat, i: nat)
    requires i < n <= |ws|
    ensures FirstOfKey(ws[..n], i) == FirstOfKey(ws, i)
  {
    assert forall j :: 0 <= j <= i ==> ws[..n][j] == ws[j];
  }

  /** Where the kept warnings come from: `Dedup(ws)` is `ws` read at the increasing list of
      positions `idx`, and those are exactly the positions where a key first occurs — the
      `index === self.findIndex(...)` test of the source. */
  lemma {:induction false} DedupPositions(ws: seq<DisciplineWarning>) returns (idx: seq<nat>)
    ensures |idx| == |Dedup(ws)|
    ensures forall k :: 0 <= k < |idx| ==>
              idx[k] < |ws| && Dedup(ws)[k] == ws[idx[k]] && FirstOfKey(ws, idx[k])
    ensures forall k, l :: 0 <= k < l < |idx| ==> idx[k] < idx[l]
    ensures forall i :: 0 <= i < |ws| && FirstOfKey(ws, i) ==> i in idx
    decreases |ws|
  {
    if ws == [] {
      idx := [];
    } else {
      var n := |ws| - 1;
      var prefix := ws[..n];
      var before := DedupPositions(prefix);
      var d := Dedup(prefix);
      var added := if FirstOfKey(ws, n) then [n] else [];
      idx := before + added;
      assert Dedup(ws) == d + (if FirstOfKey(ws, n) then [ws[n]] else []);
      forall k | 0 <= k < |idx|
        ensures idx[k] < |ws| && Dedup(ws)[k] == ws[idx[k]] && FirstOfKey(ws, idx[k])
      {
        if k < |before| {
          assert idx[k] == before[k] && Dedup(ws)[k] == d[k];
          FirstOfKeyPrefix(ws, n, before[k]);
        }
      }
      forall k, l | 0 <= k < l < |idx|
        ensures idx[k] < idx[l]
      {
        assert idx[k] == before[k];
        if l < |before| {
          assert idx[l] == before[l];
        }
      }
      forall i | 0 <= i < |ws| && FirstOfKey(ws, i)
        ensures i in idx
      {
        if i < n {
          FirstOfKeyPrefix(ws, n, i);
          assert i in before;
        } else {
          assert idx[|before|] == i;
        }
      }
    }
  }

  /** Deduplication keeps the warnings it keeps in their original order. */
  lemma {:induction false} DedupKeepsOrder(ws: seq<DisciplineWarning>)
    ensures IsSubsequence(Dedup(ws), ws)
    decreases |ws|
  {
    if ws != [] {
      var n := |ws| - 1;
      var d := Dedup(ws[..n]);
      DedupKeepsOrder(ws[..n]);
      SubsequenceSnoc(d, ws[..n], ws[n]);
      assert ws[..n] + [ws[n]] == ws;
      if FirstOfKey(ws, n) {
        assert Dedup(ws) == d + [ws[n]];
      } else {
        assert Dedup(ws) == d;
      }
    }
  }

  /** No two kept warnings share a key. */
  lemma {:induction false} DedupDistinct(ws: seq<DisciplineWarning>)
    ensures forall i, j :: 0 <= i < j < |Dedup(ws)| ==> Key(Dedup(ws)[i]) != Key(Dedup(ws)[j])
    decreases |ws|
  {
    if ws != [] {
      var n := |ws| - 1;
      var prefix := ws[..n];
      DedupDistinct(prefix);
      DedupMembers(prefix);
      var d := Dedup(prefix);
      if FirstOfKey(ws, n) {
        forall i | 0 <= i < |d|
          ensures Key(d[i]) != Key(ws[n])
        {
          assert d[i] in prefix;
          var j :| 0 <= j < n && prefix[j] == d[i];
          assert ws[j] == d[i];
        }
        var r := d + [ws[n]];
        forall i, j | 0 <= i < j < |r|
          ensures Key(r[i]) != Key(r[j])
        {
          if j < |d| {
            assert r[i] == d[i] && r[j] == d[j];
          }
        }
      }
    }
  }

  /** The first warning of each key is kept. */
  lemma {:induction false} DedupKeepsFirst(ws: seq<DisciplineWarning>, i: nat)
    requires i < |ws| && FirstOfKey(ws, i)
    ensures ws[i] in Dedup(ws)
    decreases |ws|
  {
    var n := |ws| - 1;
    if i < n {
      assert FirstOfKey(ws[..n], i) by {
        assert forall j :: 0 <= j <= i ==> ws[..n][j] == ws[j];
      }
      DedupKeepsFirst(ws[..n], i);
    }
  }

  /** Every warning has a first warning of its key at or before it. */
  lemma {:induction false} FirstOccurrence(ws: seq<DisciplineWarning>, i: nat) returns (j: nat)
    requires i < |ws|
    ensures j <= i && FirstOfKey(ws, j) && Key(ws[j]) == Key(ws[i])
    decreases i
  {
    if FirstOfKey(ws, i) {
      j := i;
    } else {
      var k :| 0 <= k < i && Key(ws[k]) == Key(ws[i]);
      j := FirstOccurrence(ws, k);
    }
  }

  /** `ws` holds a warning with the key of `w`. */
  predicate KeyKept(ws: seq<DisciplineWarning>, w: DisciplineWarning) {
    exists u :: u in ws && Key(u) == Key(w)
  }

  /** Every key present before deduplication is present after it. */
  lemma DedupCoversKeys(ws: seq<DisciplineWarning>)
    ensures forall i :: 0 <= i < |ws| ==> KeyKept(Dedup(ws), ws[i])
  {
    forall i | 0 <= i < |ws|
      ensures KeyKept(Dedup(ws), ws[i])
    {
      var j := FirstOccurrence(ws, i);
      DedupKeepsFirst(ws, j);
      assert ws[j] in Dedup(ws) && Key(ws[j]) == Key(ws[i]);
    }
  }

  function IsBlocking(): DisciplineWarning -> bool {
    (w: DisciplineWarning) => w.level == Blocking
  }

  function IsAdvisory(): DisciplineWarning -> bool {
    (w: DisciplineWarning) => w.level == Advisory
  }

  /** The `DisciplineCheck` that `checkAllTrades` returns: blocking warnings only in
      `blocking`, advisory ones only in `warnings`, and a pass exactly when nothing blocks. */
  function CheckResult(trades: seq<Trade>, assets: seq<Asset>): (r: DisciplineCheck)
    ensures r.passed <==> r.blocking == []
    ensures forall i :: 0 <= i < |r.blocking| ==> r.blocking[i].level == Blocking
    ensures forall i :: 0 <= i < |r.warnings| ==> r.warnings[i].level == Advisory
  {
    var unique := Dedup(CollectWarnings(trades, assets));
    var blocking := Filter(unique, IsBlocking());
    DisciplineCheck(|blocking| == 0, Filter(unique, IsAdvisory()), blocking)
  }

  /** `checkAllTrades`: the loop over the trades, then deduplication and the split. */
  method CheckAllTrades(trades: seq<Trade>, assets: seq<Asset>) returns (result: DisciplineCheck)
    ensures result == CheckResult(trades, assets)
  {
    var allWarnings: seq<DisciplineWarning> := [];
    for i := 0 to |trades|
      invariant allWarnings == CollectWarnings(trades[..i], assets)
    {
      assert trades[..i + 1][..i] == trades[..i];
      var found := FindByName(assets, trades[i].assetName);
      if found.Some? {
        var warnings := CheckTrade(assets[found.value], trades[i].kind, trades[i].amount);
        allWarnings := allWarnings + warnings;
      }
    }
    assert trades[..|trades|] == trades;
    var uniqueWarnings := Dedup(allWarnings);
    var blockingWarnings := Filter(uniqueWarnings, IsBlocking());
    var warningWarnings := Filter(uniqueWarnings, IsAdvisory());
    result := DisciplineCheck(|blockingWarnings| == 0, warningWarnings, blockingWarnings);
  }

  /** A trade whose name matches no holding contributes no warning. */
  lemma UnmatchedTradeIgnored(trades: seq<Trade>, trade: Trade, assets: seq<Asset>)
    requires FindByName(assets, trade.assetName).None?
    ensures CollectWarnings(trades + [trade], assets) == CollectWarnings(trades, assets)
  {
    CollectAppend(trades, trade, assets);
  }

  /** The `forEach` adds the warnings of the next trade at the end. */
  lemma CollectAppend(trades: seq<Trade>, trade: Trade, assets: seq<Asset>)
    ensures CollectWarnings(trades + [trade], assets) == CollectWarnings(trades, assets) + WarningsFor(trade, assets)
  {
    var all := trades + [trade];
    assert all[..|all| - 1] == trades;
  }

  /** The warnings of two trade lists played one after the other are those of the first
      list followed by those of the second. */
  lemma {:induction false} CollectConcat(first: seq<Trade>, second: seq<Trade>, assets: seq<Asset>)
    ensures CollectWarnings(first + second, assets)
         == CollectWarnings(first, assets) + CollectWarnings(second, assets)
    decreases |second|
  {
    if second == [] {
      assert first + second == first;
    } else {
      var n := |second| - 1;
      var init, last := second[..n], second[n];
      assert first + second == (first + init) + [last];
      assert second == init + [last];
      calc {
        CollectWarnings(first + second, assets);
        { CollectAppend(first + init, last, assets); }
        CollectWarnings(first + init, assets) + WarningsFor(last, assets);
        { CollectConcat(first, init, assets); }
        (CollectWarnings(first, assets) + CollectWarnings(init, assets)) + WarningsFor(last, assets);
        { AppendAssoc(CollectWarnings(first, assets), CollectWarnings(init, assets), WarningsFor(last, assets)); }
        CollectWarnings(first, assets) + (CollectWarnings(init, assets) + WarningsFor(last, assets));
        { CollectAppend(init, last, assets); }
        CollectWarnings(first, assets) + CollectWarnings(second, assets);
      }
    }
  }

  /** Every warning a trade's matched holding raises is collected. */
  lemma {:induction false} CollectIncludes(trades: seq<Trade>, assets: seq<Asset>)
    ensures forall i, w :: 0 <= i < |trades| && w in WarningsFor(trades[i], assets) ==>
      w in CollectWarnings(trades, assets)
    decreases |trades|
  {
    if trades != [] {
      var n := |trades| - 1;
      var prefix := trades[..n];
      CollectIncludes(prefix, assets);
      assert CollectWarnings(trades, assets) == CollectWarnings(prefix, assets) + WarningsFor(trades[n], assets);
      forall i, w | 0 <= i < n && w in WarningsFor(trades[i], assets)
        ensures w in CollectWarnings(prefix, assets)
      {
        assert prefix[i] == trades[i];
      }
    }
  }

  /** Every collected warning comes from some trade's matched holding. */
  lemma {:induction false} CollectFrom(trades: seq<Trade>, assets: seq<Asset>)
    ensures forall w :: w in CollectWarnings(trades, assets) ==>
      exists i :: 0 <= i < |trades| && w in WarningsFor(trades[i], assets)
    decreases |trades|
  {
    if trades != [] {
      var n := |trades| - 1;
      var prefix := trades[..n];
      CollectFrom(prefix, assets);
      assert CollectWarnings(trades, assets) == CollectWarnings(prefix, assets) + WarningsFor(trades[n], assets);
      forall w | w in CollectWarnings(prefix, assets)
        ensures exists i :: 0 <= i < |trades| && w in WarningsFor(trades[i], assets)
      {
        var i :| 0 <= i < n && w in WarningsFor(prefix[i], assets);
        assert prefix[i] == trades[i];
      }
    }
  }

  /** Every collected warning carries its rule's level. */
  predicate WellLeveled(ws: seq<DisciplineWarning>) {
    forall i :: 0 <= i < |ws| ==> ws[i].level == LevelOf(ws[i].rule)
  }

  lemma CollectedWellLeveled(trades: seq<Trade>, assets: seq<Asset>)
    ensures WellLeveled(CollectWarnings(trades, assets))
  {
    var ws := CollectWarnings(trades, assets);
    CollectFrom(trades, assets);
    forall k | 0 <= k < |ws|
      ensures ws[k].level == LevelOf(ws[k].rule)
    {
      assert ws[k] in ws;
      var i :| 0 <= i < |trades| && ws[k] in WarningsFor(trades[i], assets);
      var found := FindByName(assets, trades[i].assetName);
      assert found.Some?;
      var r := TradeWarnings(assets[found.value], trades[i].kind);
      TradeWarningsSpec(assets[found.value], trades[i].kind);
      var m :| 0 <= m < |r| && r[m] == ws[k];
    }
  }

  /** A trade the gold rule blocks: it is matched to a holding, and buying that holding
      fires the gold rule. */
  predicate BlockedTrade(trade: Trade, assets: seq<Asset>) {
    var found := FindByName(assets, trade.assetName);
    found.Some? && Triggers(GoldRule, assets[found.value], trade.kind)
  }

  /** Among the warnings of one trade, exactly the gold-rule ones are blocking. */
  lemma BlockingIsGold(trade: Trade, assets: seq<Asset>)
    ensures forall w :: w in WarningsFor(trade, assets) ==> (w.level == Blocking <==> w.rule == GoldRule)
  {
    var found := FindByName(assets, trade.assetName);
    if found.Some? {
      var r := TradeWarnings(assets[found.value], trade.kind);
      TradeWarningsSpec(assets[found.value], trade.kind);
      forall w | w in WarningsFor(trade, assets)
        ensures w.level == Blocking <==> w.rule == GoldRule
      {
        var m :| 0 <= m < |r| && r[m] == w;
      }
    }
  }

  /** A trade is blocked exactly when its warnings include a blocking one. */
  lemma BlockedTradeWarning(trade: Trade, assets: seq<Asset>)
    ensures BlockedTrade(trade, assets) <==> exists w :: w in WarningsFor(trade, assets) && w.level == Blocking
    ensures forall w :: w in WarningsFor(trade, assets) ==> (w.level == Blocking <==> w.rule == GoldRule)
  {
    var found := FindByName(assets, trade.assetName);
    if found.Some? {
      var r := TradeWarnings(assets[found.value], trade.kind);
      TradeWarningsSpec(assets[found.value], trade.kind);
      BlockingIsGold(trade, assets);
      if BlockedTrade(trade, assets) {
        var m :| 0 <= m < |r| && r[m].rule == GoldRule;
        assert r[m] in WarningsFor(trade, assets) && r[m].level == Blocking;
      }
      if exists w :: w in WarningsFor(trade, assets) && w.level == Blocking {
        var w :| w in WarningsFor(trade, assets) && w.level == Blocking;
        var m :| 0 <= m < |r| && r[m] == w;
        assert Raises(r, GoldRule);
      }
    }
  }

  /** Deduplication keeps a blocking warning when there is one, because the key includes
      the rule and the rule decides the level. */
  lemma BlockingSurvivesDedup(ws: seq<DisciplineWarning>, k: nat)
    requires WellLeveled(ws) && k < |ws| && ws[k].level == Blocking
    ensures exists u :: u in Dedup(ws) && u.level == Blocking
  {
    DedupMembers(ws);
    DedupCoversKeys(ws);
    assert KeyKept(Dedup(ws), ws[k]);
    var u :| u in Dedup(ws) && Key(u) == Key(ws[k]);
    var ku :| 0 <= ku < |ws| && ws[ku] == u;
    assert u.level == Blocking;
  }

  /** A blocked trade puts a blocking gold-rule warning in the report. */
  lemma BlockedTradeBlocks(trades: seq<Trade>, assets: seq<Asset>, i: nat)
    requires i < |trades| && BlockedTrade(trades[i], assets)
    ensures |CheckResult(trades, assets).blocking| > 0
    ensures exists w :: w in CheckResult(trades, assets).blocking && w.rule == GoldRule
  {
    var all := CollectWarnings(trades, assets);
    BlockedTradeWarning(trades[i], assets);
    var w :| w in WarningsFor(trades[i], assets) && w.level == Blocking;
    CollectIncludes(trades, assets);
    CollectedWellLeveled(trades, assets);
    assert w in all;
    var k :| 0 <= k < |all| && all[k] == w;
    BlockingSurvivesDedup(all, k);
    var unique := Dedup(all);
    var u :| u in unique && u.level == Blocking;
    var q :| 0 <= q < |unique| && unique[q] == u;
    assert IsBlocking()(unique[q]);
    DedupMembers(all);
    var ku :| 0 <= ku < |all| && all[ku] == u;
    assert u.rule == GoldRule;
    assert u in CheckResult(trades, assets).blocking;
  }

  /** Every blocking warning in the report is a gold-rule warning of a blocked trade. */
  lemma BlockingCauses(trades: seq<Trade>, assets: seq<Asset>)
    ensures forall w :: w in CheckResult(trades, assets).blocking ==>
      && w.rule == GoldRule
      && exists i :: 0 <= i < |trades| && w in WarningsFor(trades[i], assets) && BlockedTrade(trades[i], assets)
  {
    var all := CollectWarnings(trades, assets);
    var unique := Dedup(all);
    DedupMembers(all);
    CollectFrom(trades, assets);
    forall w | w in CheckResult(trades, assets).blocking
      ensures w.rule == GoldRule
      ensures exists i :: 0 <= i < |trades| && w in WarningsFor(trades[i], assets) && BlockedTrade(trades[i], assets)
    {
      assert w in unique && w.level == Blocking;
      assert w in all;
      var i :| 0 <= i < |trades| && w in WarningsFor(trades[i], assets);
      BlockedTradeWarning(trades[i], assets);
    }
  }

  /** A non-empty blocking list has a blocked trade behind it. */
  lemma BlockingHasCause(trades: seq<Trade>, assets: seq<Asset>)
    requires |CheckResult(trades, assets).blocking| > 0
    ensures exists i :: 0 <= i < |trades| && BlockedTrade(trades[i], assets)
  {
    var all := CollectWarnings(trades, assets);
    var unique := Dedup(all);
    var blocking := Filter(unique, IsBlocking());
    var w := blocking[0];
    assert w in unique && w.level == Blocking;
    DedupMembers(all);
    assert w in all;
    CollectFrom(trades, assets);
    var i :| 0 <= i < |trades| && w in WarningsFor(trades[i], assets);
    BlockedTradeWarning(trades[i], assets);
  }

  /** The plan passes exactly when none of its trades is a blocked one: buying gold after
      a three-day rise above 6% stops the plan, nothing else does. */
  lemma PassedIffNoBlockedTrade(trades: seq<Trade>, assets: seq<Asset>)
    ensures CheckResult(trades, assets).passed <==>
      forall i :: 0 <= i < |trades| ==> !BlockedTrade(trades[i], assets)
  {
    if exists i :: 0 <= i < |trades| && BlockedTrade(trades[i], assets) {
      var i :| 0 <= i < |trades| && BlockedTrade(trades[i], assets);
      BlockedTradeBlocks(trades, assets, i);
    } else if |CheckResult(trades, assets).blocking| > 0 {
      BlockingHasCause(trades, assets);
    }
  }

  /** Each kept warning is reported in exactly one of the two lists. */
  lemma SplitIsPartition(trades: seq<Trade>, assets: seq<Asset>)
    ensures var res := CheckResult(trades, assets);
      var unique := Dedup(CollectWarnings(trades, assets));
      && (forall i :: 0 <= i < |unique| ==> unique[i] in res.warnings || unique[i] in res.blocking)
      && (forall i :: 0 <= i < |res.warnings| ==> res.warnings[i] in unique && res.warnings[i] !in res.blocking)
      && (forall i :: 0 <= i < |res.blocking| ==> res.blocking[i] in unique && res.blocking[i].level == Blocking)
  {
    var res := CheckResult(trades, assets);
    var unique := Dedup(CollectWarnings(trades, assets));
    forall i | 0 <= i < |unique|
      ensures unique[i] in res.warnings || unique[i] in res.blocking
    {
      if unique[i].level == Blocking {
        assert IsBlocking()(unique[i]);
      } else {
        assert IsAdvisory()(unique[i]);
      }
    }
    assert forall k :: 0 <= k < |res.blocking| ==> IsBlocking()(res.blocking[k]);
    forall i | 0 <= i < |res.warnings|
      ensures res.warnings[i] !in res.blocking
    {
      assert IsAdvisory()(res.warnings[i]);
    }
  }

  /** No two reported warnings share a rule and a holding. */
  lemma ReportedDistinct(trades: seq<Trade>, assets: seq<Asset>)
    ensures var unique := Dedup(CollectWarnings(trades, assets));
      forall i, j :: 0 <= i < j < |unique| ==> Key(unique[i]) != Key(unique[j])
  {
    DedupDistinct(CollectWarnings(trades, assets));
  }
}
