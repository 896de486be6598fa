/**
 * The public RFQ submission flow: the input schema, the submission id
 * `RFQ-<timestamp>-<five base-36 characters>`, saving before any
 * confirmation is produced, and the confirmation message, which always
 * carries the submission id.  The assistant's output, the clock and the
 * random characters are parameters.
 */
module SubmitRfqFlow {
  import opened Text
  import opened Domain
  import opened Database
  import opened DataService

  /**
   * The flow's input schema: name, origin and destination non-empty, a
   * valid email (validity is the parameter `isEmail`), and a weight, when
   * given, that is positive.  The freight type is one of the enumeration
   * by construction.
   */
  predicate ValidRfqInput(input: RfqInput, isEmail: string -> bool) {
    && |input.name| >= 1
    && isEmail(input.email)
    && |input.origin| >= 1
    && |input.destination| >= 1
    && (input.weight.None? || input.weight.value > 0)
  }

  /** JavaScript `s.substring(start, end)` for `start <= end`: both ends clamped to the length. */
  function Substring(s: string, start: nat, end: nat): (r: string)
    requires start <= end
    ensures |r| <= end - start
    ensures forall i :: 0 <= i < |r| ==> r[i] in s
  {
    var lo := if start < |s| then start else |s|;
    var hi := if end < |s| then end else |s|;
    s[lo..hi]
  }

  /**
   * `RFQ-${Date.now()}-${Math.random().toString(36).substring(2, 7).toUpperCase()}`,
   * where `base36` is the base-36 rendering of the random number.
   */
  function SubmissionId(now: nat, base36: string): (id: string)
    ensures StartsWith(id, "RFQ-" + NatToString(now) + "-")
    ensures |id| <= 5 + |NatToString(now)| + 5
  {
    "RFQ-" + NatToString(now) + "-" + ToUpper(Substring(base36, 2, 7))
  }

  /** Upper-casing neither creates nor removes a `-`. */
  lemma NoDashInUpper(s: string)
    requires '-' !in s
    ensures '-' !in ToUpper(s)
  {
    forall i | 0 <= i < |s|
      ensures ToUpper(s)[i] != '-'
    {
      assert s[i] != '-';
    }
  }

  /**
   * With random characters free of `-` (base-36 digits), splitting the id
   * on `-` gives the prefix, the timestamp and the random part.
   */
  lemma SubmissionIdSegments(now: nat, base36: string)
    requires '-' !in base36
    ensures Split(SubmissionId(now, base36), '-') == ["RFQ", NatToString(now), ToUpper(Substring(base36, 2, 7))]
  {
    var ts, rnd := NatToString(now), ToUpper(Substring(base36, 2, 7));
    assert '-' !in Substring(base36, 2, 7);
    NoDashInUpper(Substring(base36, 2, 7));
    assert '-' !in ts by {
      forall i | 0 <= i < |ts| ensures ts[i] != '-' { assert IsDigit(ts[i]); }
    }
    assert SubmissionId(now, base36) == "RFQ" + ['-'] + (ts + ['-'] + rnd);
    SplitHead("RFQ", '-', ts + ['-'] + rnd);
    SplitHead(ts, '-', rnd);
    SplitNone(rnd, '-');
  }

  /** What the assistant returns: an object with a message, a bare string, or nothing usable. */
  datatype AiOutput = Structured(message: string) | Text(text: string) | NoOutput

  const IdLead: string := " Your submission ID is "

  /** ` Your submission ID is <id>.` */
  function IdSentence(id: string): string {
    IdLead + id + "."
  }

  /** Appending the sentence keeps the text in front and mentions the id. */
  lemma AppendedSentence(m: string, id: string)
    ensures Contains(m + IdSentence(id), id) && StartsWith(m + IdSentence(id), m)
  {
    ContainsInfix(m + IdLead, id, ".");
    assert m + IdSentence(id) == m + IdLead + id + ".";
  }

  /** The assistant's text, with ` Your submission ID is <id>.` appended unless it already mentions the id. */
  function WithId(m: string, id: string): (r: string)
    ensures Contains(r, id)
    ensures Contains(m, id) ==> r == m
    ensures StartsWith(r, m)
  {
    if Contains(m, id) then m
    else
      AppendedSentence(m, id);
      m + IdSentence(id)
  }

  /** Each of four strings placed between five others occurs in the result. */
  lemma ContainsPlaced(p1: string, a: string, p2: string, b: string, p3: string, c: string, p4: string, d: string, p5: string)
    ensures var r := p1 + a + p2 + b + p3 + c + p4 + d + p5;
            Contains(r, a) && Contains(r, b) && Contains(r, c) && Contains(r, d)
  {
    var r := p1 + a + p2 + b + p3 + c + p4 + d + p5;
    ContainsInfix(p1, a, p2 + b + p3 + c + p4 + d + p5);
    assert r == p1 + a + (p2 + b + p3 + c + p4 + d + p5);
    ContainsInfix(p1 + a + p2, b, p3 + c + p4 + d + p5);
    assert r == p1 + a + p2 + b + (p3 + c + p4 + d + p5);
    ContainsInfix(p1 + a + p2 + b + p3, c, p4 + d + p5);
    assert r == p1 + a + p2 + b + p3 + c + (p4 + d + p5);
    ContainsInfix(p1 + a + p2 + b + p3 + c + p4, d, p5);
  }

  /** The message used when the assistant gives nothing usable. */
  function Fallback(name: string, id: string, origin: string, destination: string): (r: string)
    ensures Contains(r, name) && Contains(r, id) && Contains(r, origin) && Contains(r, destination)
  {
    // The two long sentences are written as several shorter literals; the text is the same.
    var p1 := "Thank you for your inquiry, ";
    var p2 := "! Your request (ID: ";
    var p3 := ") has been received. " + "Our sales team will review your details " + "and contact you shortly " + "with a personalized, preferential quote. " + "We have noted your shipment from ";
    var p4 := " to ";
    var p5 := ". A sales representative will be in touch soon " + "to discuss potential preferential pricing.";
    ContainsPlaced(p1, name, p2, id, p3, origin, p4, destination, p5);
    p1 + name + p2 + id + p3 + origin + p4 + destination + p5
  }

  /** The confirmation message the flow returns for an assistant output. */
  function FinalMessage(ai: AiOutput, input: RfqInput, id: string): (r: string)
    ensures Contains(r, id)
    ensures (ai.Structured? && ai.message != "") ==> StartsWith(r, ai.message)
    ensures ai.Text? ==> StartsWith(r, ai.text)
    ensures (ai.NoOutput? || ai == Structured("")) ==> Contains(r, input.name) && Contains(r, input.origin) && Contains(r, input.destination)
  {
    match ai
    case Structured(m) => StructuredMessage(m, input, id)
    case Text(t) => WithId(t, id)
    case NoOutput => Fallback(input.name, id, input.origin, input.destination)
  }

  /** A structured output: its message when it is non-empty, the fallback otherwise. */
  function StructuredMessage(m: string, input: RfqInput, id: string): (r: string)
    ensures Contains(r, id)
    ensures m != "" ==> StartsWith(r, m)
    ensures m == "" ==> Contains(r, input.name) && Contains(r, input.origin) && Contains(r, input.destination)
  {
    if m != "" then WithId(m, id) else Fallback(input.name, id, input.origin, input.destination)
  }

  datatype RfqOutput = RfqOutput(message: string, submissionId: string)

  /** The branches that settle `confirmationMessage` once the submission is saved. */
  method Confirmation(ai: AiOutput, input: RfqInput, submissionId: string) returns (confirmationMessage: string)
    ensures confirmationMessage == FinalMessage(ai, input, submissionId)
  {
    if ai.Structured? && ai.message != "" {
      confirmationMessage := ai.message;
      if !Contains(confirmationMessage, submissionId) {
        confirmationMessage := confirmationMessage + IdSentence(submissionId);
      }
      assert confirmationMessage == WithId(ai.message, submissionId);
    } else if ai.Text? {
      confirmationMessage := ai.text;
      if !Contains(confirmationMessage, submissionId) {
        confirmationMessage := confirmationMessage + IdSentence(submissionId);
      }
      assert confirmationMessage == WithId(ai.text, submissionId);
    } else {
      confirmationMessage := Fallback(input.name, submissionId, input.origin, input.destination);
    }
  }

  /**
   * The flow: reject input outside the schema, save the submission under
   * a fresh id, and only then build the confirmation from the assistant's
   * output.  A failed save is reported as an error and no message exists.
   */
  method SubmitRfq(db: Tables, input: RfqInput, isEmail: string -> bool, now: nat, base36: string,
                   newId: string, dbNow: int, saveFails: bool, ai: AiOutput) returns (r: Result<RfqOutput, string>)
    modifies db`rfqs
    ensures r.Success? <==> ValidRfqInput(input, isEmail) && !saveFails && newId !in old(db.rfqs)
    ensures r.Success? ==> r.value.submissionId == SubmissionId(now, base36)
    ensures r.Success? ==> r.value.message == FinalMessage(ai, input, r.value.submissionId)
    ensures r.Success? ==> db.rfqs == old(db.rfqs)[newId := StoredRfq(input, r.value.submissionId, newId, dbNow)]
    ensures r.Failure? ==> db.rfqs == old(db.rfqs)
  {
    if !ValidRfqInput(input, isEmail) {
      return Failure("Invalid RFQ input");
    }
    var submissionId := SubmissionId(now, base36);
    var saved := SaveRfqSubmission(db, input, submissionId, newId, dbNow, saveFails);
    if saved.Failure? {
      return Failure("Failed to save RFQ: " + saved.error);
    }
    var confirmationMessage := Confirmation(ai, input, submissionId);
    r := Success(RfqOutput(confirmationMessage, submissionId));
  }
}
