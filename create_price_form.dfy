/**
 * The administrators' price form: its schema (with the rule that the
 * end date is not before the start date), the payload it sends, and the
 * choice between creating and updating.
 */
module CreatePriceForm {
  import opened Text
  import opened Domain
  import DataService
  import MockStore

  /** The form's values after coercion; an unset date is None. */
  datatype PriceFormData = PriceFormData(
    origin: string,
    destination: string,
    amount: int,
    currency: string,
    validFrom: Option<int>,
    validTo: Option<int>,
    kind: PriceType,
    carrier: Option<string>,
    notes: Option<string>)

  /** The schema's refinement: with both dates set, the end is not before the start. */
  predicate DatesOrdered(d: PriceFormData) {
    d.validFrom.None? || d.validTo.None? || d.validTo.value >= d.validFrom.value
  }

  /** The fields a validation message can be attached to. */
  datatype PriceFormField = OriginField | DestinationField | AmountField | CurrencyField | ValidToField

  /** The fields the schema reports; the date rule reports on `validTo`. */
  function Errors(d: PriceFormData): (errs: set<PriceFormField>)
    ensures ValidToField in errs <==> !DatesOrdered(d)
    ensures OriginField in errs <==> |d.origin| < 2
    ensures CurrencyField in errs <==> |d.currency| != 3
  {
    (if |d.origin| < 2 then {OriginField} else {}) +
    (if |d.destination| < 2 then {DestinationField} else {}) +
    (if d.amount <= 0 then {AmountField} else {}) +
    (if |d.currency| != 3 then {CurrencyField} else {}) +
    (if !DatesOrdered(d) then {ValidToField} else {})
  }

  predicate ValidPriceForm(d: PriceFormData) {
    Errors(d) == {}
  }

  /** A form with no errors has the lengths, the sign and the date order the schema asks for. */
  lemma ValidFormMeaning(d: PriceFormData)
    ensures ValidPriceForm(d) <==>
              |d.origin| >= 2 && |d.destination| >= 2 && d.amount > 0 && |d.currency| == 3 && DatesOrdered(d)
  {
    assert ValidPriceForm(d) ==> DestinationField !in Errors(d) && AmountField !in Errors(d);
  }

  /** The payload `{ ...data, validFrom: data.validFrom || undefined, validTo: ... }` as an update. */
  function UpdatePayload(d: PriceFormData): (u: PricePatch)
    ensures u.id.None? && u.validFrom == Some(d.validFrom) && u.validTo == Some(d.validTo)
  {
    PricePatch(None, Some(d.origin), Some(d.destination), Some(d.amount), Some(d.currency),
               Some(d.validFrom), Some(d.validTo), Some(d.kind), Some(d.carrier), Some(d.notes))
  }

  /** The same payload for `createPrice`; the id is chosen by the store. */
  function CreatePayload(d: PriceFormData): Price {
    Price("", d.origin, d.destination, d.amount, d.currency, d.validFrom, d.validTo, d.kind, d.carrier, d.notes)
  }

  datatype PriceCall = UpdatePriceCall(priceId: string, patch: PricePatch) | CreatePriceCall(data: Price)

  /** `onSubmit`: an existing price is updated under its own id, otherwise a price is created. */
  function Dispatch(existing: Option<Price>, d: PriceFormData): (c: PriceCall)
    ensures c.UpdatePriceCall? <==> existing.Some?
    ensures c.UpdatePriceCall? ==> c.priceId == existing.value.id && c.patch == UpdatePayload(d)
    ensures c.CreatePriceCall? ==> c.data == CreatePayload(d)
  {
    match existing
    case Some(p) => UpdatePriceCall(p.id, UpdatePayload(d))
    case None => CreatePriceCall(CreatePayload(d))
  }

  /** A valid form stores a price whose dates are in order, both when created and when edited. */
  lemma ValidFormStoresOrderedDates(d: PriceFormData, p: Price, newId: string)
    requires ValidPriceForm(d) && d.validFrom.Some? && d.validTo.Some?
    ensures var created := CreatePayload(d).(id := newId);
            created.validTo.value >= created.validFrom.value
    ensures var edited := DataService.MergeStored(p, UpdatePayload(d));
            edited.validTo.value >= edited.validFrom.value
    ensures var edited := MockStore.SpreadPrice(p, UpdatePayload(d));
            edited.validTo.value >= edited.validFrom.value
  {
    assert ValidToField !in Errors(d);
  }

  /**
   * Editing a price and leaving a date empty sends `undefined`: the
   * database keeps the stored date (the column is skipped), while the
   * in-memory store's spread clears it.
   */
  lemma EmptyDateOnEdit(p: Price, d: PriceFormData)
    requires d.validFrom.None? && p.validFrom.Some?
    ensures DataService.MergeStored(p, UpdatePayload(d)).validFrom == p.validFrom
    ensures MockStore.SpreadPrice(p, UpdatePayload(d)).validFrom == None
  {
  }

  /** Every filled-in field of the form reaches the stored row on an edit; the id stays. */
  lemma EditAppliesFields(p: Price, d: PriceFormData)
    ensures var r := DataService.MergeStored(p, UpdatePayload(d));
            r.id == p.id && r.origin == d.origin && r.destination == d.destination && r.amount == d.amount &&
            r.currency == d.currency && r.kind == d.kind &&
            (d.validFrom.Some? ==> r.validFrom == d.validFrom) && (d.validTo.Some? ==> r.validTo == d.validTo) &&
            (d.carrier.Some? ==> r.carrier == d.carrier) && (d.notes.Some? ==> r.notes == d.notes)
  {
  }
}
