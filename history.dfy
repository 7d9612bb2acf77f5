/** The rebalance history ledger of `src/hooks/useRebalanceHistory.ts`: the list of
    executed rebalances, newest first, with saving, deletion by id and a summary. The
    browser storage it mirrors itself into is not modelled; what it loads is passed in. */
module History {
  import opened Wrappers
  import opened Seqs
  import opened JsText
  import opened PortfolioTypes
  import opened Sorting

  function TimestampKey(): RebalanceHistory -> real {
    (h: RebalanceHistory) => h.timestamp as real
  }

  /** The load-time order: by timestamp, latest first. */
  ghost predicate NewestFirst(history: seq<RebalanceHistory>) {
    SortedDesc(history, TimestampKey())
  }

  /** The record `saveRebalance` builds at clock reading `now` (milliseconds): its id is
      the decimal text of `now`, and its totals are the buy and sell amounts of `trades`. */
  function NewRecord(strategyId: string, strategyName: string, trades: seq<Trade>,
                     preDeviation: real, postDeviation: real, now: nat): (r: RebalanceHistory)
    ensures r.id == NatToString(now) && r.timestamp == now
    ensures r.totalBuyAmount == AmountOf(trades, Buy) && r.totalSellAmount == AmountOf(trades, Sell)
    ensures r.totalBuyAmount + r.totalSellAmount == SumAmounts(trades)
    ensures r.strategyId == strategyId && r.strategyName == strategyName && r.trades == trades
    ensures r.preDeviation == preDeviation && r.postDeviation == postDeviation
  {
    AmountOfSplits(trades);
    RebalanceHistory(NatToString(now), now, strategyId, strategyName, trades, preDeviation, postDeviation,
                     AmountOf(trades, Buy), AmountOf(trades, Sell))
  }

  /** A record's id, the key `deleteHistory` filters on. */
  function RecordId(): RebalanceHistory -> string {
    (h: RebalanceHistory) => h.id
  }

  /** No record made its deviation worse. */
  predicate NoneWorse(history: seq<RebalanceHistory>) {
    forall i :: 0 <= i < |history| ==> history[i].postDeviation <= history[i].preDeviation
  }

  /** The sum of `preDeviation - postDeviation` over the records: not negative when no
      rebalance made things worse, and 0 when every one left its deviation unchanged. */
  function DeviationSaved(history: seq<RebalanceHistory>): (r: real)
    ensures NoneWorse(history) ==> r >= 0.0
    ensures (forall i :: 0 <= i < |history| ==> history[i].postDeviation == history[i].preDeviation) ==> r == 0.0
    decreases |history|
  {
    if history == [] then 0.0
    else
      assert forall i :: 0 <= i < |history[1..]| ==> history[1..][i] == history[i + 1];
      history[0].preDeviation - history[0].postDeviation + DeviationSaved(history[1..])
  }

  lemma {:induction false} DeviationSavedConcat(a: seq<RebalanceHistory>, b: seq<RebalanceHistory>)
    ensures DeviationSaved(a + b) == DeviationSaved(a) + DeviationSaved(b)
  {
    if a == [] {
      assert a + b == b;
    } else {
      assert (a + b)[1..] == a[1..] + b;
      DeviationSavedConcat(a[1..], b);
    }
  }

  function SummaryOf(history: seq<RebalanceHistory>): (r: RebalanceHistorySummary)
    ensures r.totalCount == |history|
  {
    RebalanceHistorySummary(|history|, DeviationSaved(history))
  }

  class RebalanceLedger {
    var history: seq<RebalanceHistory>

    /** The load effect: `stored` is the parsed array, or `None` when nothing was stored,
        the text did not parse or was not an array; records are sorted latest first. */
    constructor Load(stored: Option<seq<RebalanceHistory>>)
      ensures stored.None? ==> history == []
      ensures stored.Some? ==> multiset(history) == multiset(stored.value)
      ensures NewestFirst(history)
    {
      if stored.Some? {
        history := SortDesc(stored.value, TimestampKey());
      } else {
        history := [];
      }
    }

    /** `saveRebalance`: builds the record and puts it in front. When no stored record is
        later than `now`, the list stays newest first. */
    method SaveRebalance(strategyId: string, strategyName: string, trades: seq<Trade>,
                         preDeviation: real, postDeviation: real, now: nat)
      returns (record: RebalanceHistory)
      modifies this
      ensures record == NewRecord(strategyId, strategyName, trades, preDeviation, postDeviation, now)
      ensures history == [record] + old(history)
      ensures Summary().totalCount == old(Summary().totalCount) + 1
      ensures Summary().totalDeviationSaved
           == old(Summary().totalDeviationSaved) + (preDeviation - postDeviation)
      ensures NewestFirst(old(history)) && (forall i :: 0 <= i < |old(history)| ==> old(history)[i].timestamp <= now)
              ==> NewestFirst(history)
    {
      record := NewRecord(strategyId, strategyName, trades, preDeviation, postDeviation, now);
      if NewestFirst(history) && forall i :: 0 <= i < |history| ==> history[i].timestamp <= now {
        ConsSorted(record, history, TimestampKey());
      }
      history := [record] + history;
      assert history[1..] == old(history);
    }

    /** `getHistory`. */
    method GetHistory() returns (records: seq<RebalanceHistory>)
      ensures records == history
    {
      records := history;
    }

    /** `deleteHistory`: drops every record with that id; the rest keep their order. */
    method DeleteHistory(id: string)
      modifies this
      ensures history == WithoutKey(old(history), RecordId(), id)
      ensures NewestFirst(old(history)) ==> NewestFirst(history)
    {
      if NewestFirst(history) {
        FilterKeepsSorted(history, KeyIsNot(RecordId(), id), TimestampKey());
      }
      history := WithoutKey(history, RecordId(), id);
    }

    /** `getSummary`: one count per record, and a saved deviation that is not negative
        when no rebalance made things worse. */
    function Summary(): (r: RebalanceHistorySummary)
      reads this
      ensures r.totalCount == |history|
      ensures NoneWorse(history) ==> r.totalDeviationSaved >= 0.0
    {
      SummaryOf(history)
    }
  }

  /** Deleting the id just saved undoes the save, when no earlier record had that id. */
  lemma DeleteUndoesSave(history: seq<RebalanceHistory>, strategyId: string, strategyName: string,
                         trades: seq<Trade>, preDeviation: real, postDeviation: real, now: nat)
    requires forall i :: 0 <= i < |history| ==> history[i].id != NatToString(now)
    ensures var record := NewRecord(strategyId, strategyName, trades, preDeviation, postDeviation, now);
      WithoutKey([record] + history, RecordId(), record.id) == history
  {
    var record := NewRecord(strategyId, strategyName, trades, preDeviation, postDeviation, now);
    var p := KeyIsNot(RecordId(), record.id);
    FilterStep([record] + history, p);
    assert ([record] + history)[1..] == history;
    FilterKeepsAll(history, p);
  }

  /** Deleting an id no record has leaves the list as it was. */
  lemma DeleteAbsentId(history: seq<RebalanceHistory>, id: string)
    requires forall i :: 0 <= i < |history| ==> history[i].id != id
    ensures WithoutKey(history, RecordId(), id) == history
  {
    FilterKeepsAll(history, KeyIsNot(RecordId(), id));
  }

  /** Three rebalances that moved the deviation 20 to 10, 15 to 5 and 8 to 12 saved 16
      points in total: a rebalance that made things worse counts against the sum. */
  lemma SummaryScenario(a: RebalanceHistory, b: RebalanceHistory, c: RebalanceHistory)
    requires a.preDeviation == 20.0 && a.postDeviation == 10.0
    requires b.preDeviation == 15.0 && b.postDeviation == 5.0
    requires c.preDeviation == 8.0 && c.postDeviation == 12.0
    ensures SummaryOf([a, b, c]) == RebalanceHistorySummary(3, 16.0)
  {
    assert [a, b, c][1..] == [b, c] && [b, c][1..] == [c] && [c][1..] == [];
    assert DeviationSaved([c]) == -4.0;
    assert DeviationSaved([b, c]) == 6.0;
  }
}
