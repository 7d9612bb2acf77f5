/** The add/edit form of `src/components/dashboard/AssetForm.tsx`: the fields it starts
    from and the guard `handleSubmit` applies before it hands the fields on. Field edits
    are plain assignments of the typed text and are taken as the form's current state. */
module AssetForm {
  import opened Wrappers
  import opened PortfolioTypes

  /** The four fields the form keeps. */
  datatype FormFields = FormFields(name: string, symbol: string, value: real, kind: AssetClass)

  /** What `onSave` receives: exactly `{ name, symbol, value, type }`. */
  datatype SavedFields = SavedFields(name: string, symbol: string, value: real, kind: AssetClass)

  /** The `useState` defaults: the edited asset's fields, or empty text, 0 and `stock`.
      (`asset?.value || 0` gives the asset's value, or 0 for a zero value, which is the same.) */
  function InitialFields(asset: Option<Asset>): (r: FormFields)
    ensures asset.None? ==> r == FormFields([], [], 0.0, Stock)
    ensures asset.Some? ==>
      r.name == asset.value.name && r.symbol == asset.value.symbol
      && r.value == asset.value.value && r.kind == asset.value.kind
  {
    match asset
    case None => FormFields([], [], 0.0, Stock)
    case Some(a) => FormFields(a.name, a.symbol, a.value, a.kind)
  }

  /** `handleSubmit`: nothing (`None`) when the name or symbol is empty or the value is
      not positive, otherwise the four fields. */
  function Submit(form: FormFields): (r: Option<SavedFields>)
    ensures r.None? <==> form.name == [] || form.symbol == [] || form.value <= 0.0
    ensures r.Some? ==>
      r.value.name == form.name && r.value.symbol == form.symbol
      && r.value.value == form.value && r.value.kind == form.kind
  {
    if form.name == [] || form.symbol == [] || form.value <= 0.0 then None
    else Some(SavedFields(form.name, form.symbol, form.value, form.kind))
  }

  // ---------------------------------------------------------------------------
  // Properties

  /** A fresh form cannot be submitted until a name, a symbol and a value are entered. */
  lemma FreshFormRefused()
    ensures Submit(InitialFields(None)).None?
  {
  }

  /** Submitting an edited asset untouched hands back its own fields, provided it has a
      name, a symbol and a positive value; otherwise nothing is saved. */
  lemma UntouchedEditRoundTrip(a: Asset)
    ensures a.name != [] && a.symbol != [] && a.value > 0.0 ==>
      Submit(InitialFields(Some(a))) == Some(SavedFields(a.name, a.symbol, a.value, a.kind))
    ensures !(a.name != [] && a.symbol != [] && a.value > 0.0) ==> Submit(InitialFields(Some(a))).None?
  {
  }

  /** Choosing another type never changes whether the form can be submitted. */
  lemma TypeDoesNotGate(form: FormFields, c: AssetClass)
    ensures Submit(form.(kind := c)).Some? == Submit(form).Some?
    ensures Submit(form.(kind := c)).Some? ==> Submit(form.(kind := c)).value == Submit(form).value.(kind := c)
  {
  }
}
