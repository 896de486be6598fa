/**
 * The public RFQ form: its schema, the normalisation of the weight field
 * before the flow is called, and the reset that follows only a
 * successful submission.
 */
module RfqForm {
  import opened Text
  import opened Domain
  import opened Database
  import opened SubmitRfqFlow
  import DataService

  /** The weight field: left blank (`''`) or a coerced number. */
  datatype WeightInput = Blank | Given(n: int)

  datatype RfqFormData = RfqFormData(
    name: string,
    email: string,
    company: Option<string>,
    origin: string,
    destination: string,
    weight: WeightInput,
    freightType: Option<FreightType>,
    message: Option<string>)

  /** The form schema; email validity is the parameter `isEmail`. */
  predicate ValidRfqForm(d: RfqFormData, isEmail: string -> bool) {
    && |d.name| >= 2
    && isEmail(d.email)
    && |d.origin| >= 2
    && |d.destination| >= 2
    && (d.weight.Blank? || d.weight.n > 0)
    && (d.message.None? || |d.message.value| <= 500)
  }

  /** `data.weight ? Number(data.weight) : undefined`: blank (and zero) become undefined. */
  function NormalizedWeight(w: WeightInput): (r: Option<int>)
    ensures r.Some? <==> w.Given? && w.n != 0
    ensures r.Some? ==> r.value == w.n
  {
    match w
    case Blank => None
    case Given(n) => if n != 0 then Some(n) else None
  }

  /** The input handed to the flow. */
  function ToRfqInput(d: RfqFormData): RfqInput {
    RfqInput(d.name, d.email, d.company, d.origin, d.destination, NormalizedWeight(d.weight), d.freightType, d.message)
  }

  /** Whatever the form accepts, the flow's schema accepts too. */
  lemma FormValidImpliesFlowValid(d: RfqFormData, isEmail: string -> bool)
    requires ValidRfqForm(d, isEmail)
    ensures ValidRfqInput(ToRfqInput(d), isEmail)
  {
    var w := NormalizedWeight(d.weight);
    assert w.None? || w.value > 0;
  }

  /** The converse does not hold: the flow accepts a one-character name the form rejects. */
  lemma FlowLaxerThanForm(isEmail: string -> bool, email: string)
    requires isEmail(email)
    ensures var d := RfqFormData("A", email, None, "Shanghai", "Rotterdam", Blank, None, None);
            ValidRfqInput(ToRfqInput(d), isEmail) && !ValidRfqForm(d, isEmail)
  {
  }

  /** The values a fresh or reset form shows. */
  const DefaultValues: RfqFormData := RfqFormData("", "", Some(""), "", "", Blank, Some(Unspecified), Some(""))

  /** A fresh form does not pass its own schema. */
  lemma DefaultsInvalid(isEmail: string -> bool)
    ensures !ValidRfqForm(DefaultValues, isEmail)
  {
  }

  class RfqFormState {
    var values: RfqFormData

    constructor ()
      ensures values == DefaultValues
    {
      values := DefaultValues;
    }

    /**
     * Submitting: nothing is sent while the schema rejects the values; a
     * successful flow shows its message and resets the form, a failed one
     * leaves the values as typed.
     */
    method Submit(db: Tables, isEmail: string -> bool, now: nat, base36: string, newId: string, dbNow: int,
                  saveFails: bool, ai: AiOutput) returns (toast: Option<string>)
      modifies this, db`rfqs
      ensures !ValidRfqForm(old(values), isEmail) ==> toast.None? && values == old(values) && db.rfqs == old(db.rfqs)
      ensures toast.Some? <==> ValidRfqForm(old(values), isEmail) && !saveFails && newId !in old(db.rfqs)
      ensures toast.Some? ==> values == DefaultValues &&
                              toast.value == FinalMessage(ai, ToRfqInput(old(values)), SubmissionId(now, base36))
      ensures toast.None? ==> values == old(values)
      ensures toast.Some? ==> db.rfqs == old(db.rfqs)[newId := DataService.StoredRfq(ToRfqInput(old(values)), SubmissionId(now, base36), newId, dbNow)]
      ensures toast.None? ==> db.rfqs == old(db.rfqs)
    {
      if !ValidRfqForm(values, isEmail) {
        return None;
      }
      FormValidImpliesFlowValid(values, isEmail);
      var result := SubmitRfq(db, ToRfqInput(values), isEmail, now, base36, newId, dbNow, saveFails, ai);
      if result.Success? {
        toast := Some(result.value.message);
        values := DefaultValues;
      } else {
        toast := None;
      }
    }
  }
}
