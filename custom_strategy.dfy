/** The custom strategy dialog of `src/components/analysis/CustomStrategyConfig.tsx`: four
    sliders for the class percentages, their total, the over-limit warning that disables
    saving, and the strategy the save button hands on. The dialog's open and close state
    and the description text are presentation and are not modelled. */
module CustomStrategy {
  import opened Wrappers
  import opened PortfolioTypes

  /** What a range input with `min="0" max="100" step="1"` can report. */
  type Percent = x: int | 0 <= x <= 100

  /** The four slider values, held as an allocation: `useState` starts them from the
      current strategy. */
  function InitialSliders(current: Strategy): (r: Allocation)
    ensures forall c :: r.Get(c) == current.allocations.Get(c)
  {
    current.allocations
  }

  /** Moving one slider: that class takes the reported value, the others keep theirs. */
  function SetSlider(sliders: Allocation, c: AssetClass, v: Percent): (r: Allocation)
    ensures r.Get(c) == v as real
    ensures forall d :: d != c ==> r.Get(d) == sliders.Get(d)
  {
    match c
    case Stock => sliders.(stock := v as real)
    case Bond => sliders.(bond := v as real)
    case Gold => sliders.(gold := v as real)
    case Cash => sliders.(cash := v as real)
  }

  /** `total`. */
  function SliderTotal(sliders: Allocation): (r: real)
    ensures r == sliders.Get(Stock) + sliders.Get(Bond) + sliders.Get(Gold) + sliders.Get(Cash)
  {
    sliders.stock + sliders.bond + sliders.gold + sliders.cash
  }

  /** `isOverLimit`: only a total above 100 is flagged; one below 100 is not. Four
      sliders can only pass 100 together when one of them is above 25. */
  predicate IsOverLimit(sliders: Allocation)
    ensures IsOverLimit(sliders) ==> exists c :: sliders.Get(c) > 25.0
  {
    SliderTotal(sliders) > 100.0
  }

  const CUSTOM_ID := "custom"
  const CUSTOM_NAME := "自定义策略"

  /** `handleSave`'s strategy; `description` spells the four numbers and is taken as given. */
  function SavedStrategy(sliders: Allocation, description: string): (r: Strategy)
    ensures r.id == CUSTOM_ID && r.name == CUSTOM_NAME
    ensures forall c :: r.allocations.Get(c) == sliders.Get(c)
  {
    Strategy(CUSTOM_ID, CUSTOM_NAME, description, sliders)
  }

  /** Pressing the save button: it is disabled while over the limit, so nothing is saved. */
  function PressSave(sliders: Allocation, description: string): (r: Option<Strategy>)
    ensures r.Some? <==> !IsOverLimit(sliders)
    ensures r.Some? ==> r.value == SavedStrategy(sliders, description)
  {
    if IsOverLimit(sliders) then None else Some(SavedStrategy(sliders, description))
  }

  /** A percentage a slider can show: a whole number from 0 to 100. */
  predicate IsWholePercent(x: real) {
    0.0 <= x <= 100.0 && x.Floor as real == x
  }

  predicate AllWholePercents(sliders: Allocation) {
    forall c :: IsWholePercent(sliders.Get(c))
  }

  // ---------------------------------------------------------------------------
  // Properties

  /** Whatever was saved through the button sums to at most 100. */
  lemma SavedWithinLimit(sliders: Allocation, description: string)
    requires PressSave(sliders, description).Some?
    ensures PressSave(sliders, description).value.allocations.Total() <= 100.0
    ensures PressSave(sliders, description).value.id == CUSTOM_ID
  {
  }

  /** Exactly 100 is allowed, as is anything under it. */
  lemma LimitBoundary(sliders: Allocation)
    ensures SliderTotal(sliders) == 100.0 ==> !IsOverLimit(sliders)
    ensures SliderTotal(sliders) < 100.0 ==> !IsOverLimit(sliders)
  {
  }

  /** Moving a slider changes the total by the difference between the new and old value. */
  lemma SetSliderTotal(sliders: Allocation, c: AssetClass, v: Percent)
    ensures SliderTotal(SetSlider(sliders, c, v)) == SliderTotal(sliders) - sliders.Get(c) + v as real
  {
  }

  /** Slider moves keep every value a whole percentage. */
  lemma SetSliderKeepsWhole(sliders: Allocation, c: AssetClass, v: Percent)
    requires AllWholePercents(sliders)
    ensures AllWholePercents(SetSlider(sliders, c, v))
  {
    var r := SetSlider(sliders, c, v);
    forall d
      ensures IsWholePercent(r.Get(d))
    {
      if d == c {
        assert r.Get(d) == v as real;
        assert (v as real).Floor == v;
      } else {
        assert IsWholePercent(sliders.Get(d));
      }
    }
  }

  /** Every strategy of the table starts the sliders at whole percentages. */
  lemma TableStartsWhole(i: nat)
    requires i < |STRATEGIES|
    ensures AllWholePercents(InitialSliders(STRATEGIES[i]))
  {
    var a := STRATEGIES[i].allocations;
    assert a == Allocation(25.0, 25.0, 25.0, 25.0) || a == Allocation(30.0, 40.0, 15.0, 15.0)
        || a == Allocation(60.0, 0.0, 40.0, 0.0) || a == ZeroAllocation;
  }

  /** Four slider moves from any start, one per class, fix all the values. */
  lemma FourMovesFixAll(start: Allocation, s: Percent, b: Percent, g: Percent, k: Percent)
    ensures var r := SetSlider(SetSlider(SetSlider(SetSlider(start, Stock, s), Bond, b), Gold, g), Cash, k);
      r == Allocation(s as real, b as real, g as real, k as real) && AllWholePercents(r)
  {
    var r := SetSlider(SetSlider(SetSlider(SetSlider(start, Stock, s), Bond, b), Gold, g), Cash, k);
    forall d
      ensures IsWholePercent(r.Get(d))
    {
      assert (s as real).Floor == s && (b as real).Floor == b;
      assert (g as real).Floor == g && (k as real).Floor == k;
    }
  }
}
