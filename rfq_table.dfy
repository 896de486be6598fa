/**
 * The administrators' RFQ table: the short id shown per row, the status
 * badge, the "Mark as Contacted" action offered only for new RFQs, and
 * the handler that writes the status and reloads the list.
 */
module RfqTable {
  import opened Text
  import opened Domain
  import opened Database
  import opened DataService
  import opened SubmitRfqFlow

  /** `rfq.submissionId?.split('-')[1] || rfq.id`. */
  function DisplayedId(rfq: RfqSubmission): (r: string)
    ensures r != "" || rfq.id == ""
    ensures r == rfq.id || '-' !in r
  {
    var parts := Split(rfq.submissionId, '-');
    if |parts| >= 2 && parts[1] != "" then parts[1] else rfq.id
  }

  /** An id without any `-` has no second segment, so the internal id is shown. */
  lemma DisplayedIdWithoutDash(rfq: RfqSubmission)
    requires '-' !in rfq.submissionId
    ensures DisplayedId(rfq) == rfq.id
  {
    SplitNone(rfq.submissionId, '-');
  }

  /** A submission saved by the flow is shown under the timestamp part of its id. */
  lemma DisplayedIdOfFlowSubmission(input: RfqInput, now: nat, base36: string, newId: string, dbNow: int)
    requires '-' !in base36
    ensures DisplayedId(StoredRfq(input, SubmissionId(now, base36), newId, dbNow)) == NatToString(now)
  {
    SubmissionIdSegments(now, base36);
  }

  datatype BadgeVariant = Destructive | Secondary

  function StatusBadge(status: RfqStatus): (v: BadgeVariant)
    ensures v == Destructive <==> status == New
  {
    if status == New then Destructive else Secondary
  }

  datatype RowAction = ViewDetails | MarkAsContacted

  /** The buttons in a row: details always, "Mark as Contacted" only for a new RFQ. */
  function Actions(rfq: RfqSubmission): (r: seq<RowAction>)
    ensures |r| >= 1 && r[0] == ViewDetails
    ensures MarkAsContacted in r <==> rfq.status == New
  {
    [ViewDetails] + (if rfq.status == New then [MarkAsContacted] else [])
  }

  datatype Row = Row(displayedId: string, name: string, email: string, origin: string, destination: string,
                     status: RfqStatus, badge: BadgeVariant, actions: seq<RowAction>)

  function RowOf(rfq: RfqSubmission): Row {
    Row(DisplayedId(rfq), rfq.name, rfq.email, rfq.origin, rfq.destination, rfq.status, StatusBadge(rfq.status), Actions(rfq))
  }

  datatype TableView = Loading | NoRfqsFound | Rows(rows: seq<Row>)

  class RfqTableState {
    var rfqs: seq<RfqSubmission>
    var isLoading: bool
    var selectedRfq: Option<RfqSubmission>

    constructor ()
      ensures rfqs == [] && isLoading && selectedRfq == None
    {
      rfqs, isLoading, selectedRfq := [], true, None;
    }

    /** What the component renders. */
    function View(): (v: TableView)
      reads this
      ensures isLoading ==> v == Loading
      ensures !isLoading && rfqs == [] ==> v == NoRfqsFound
      ensures !isLoading && rfqs != [] ==> v.Rows? && |v.rows| == |rfqs|
      ensures v.Rows? ==> forall i :: 0 <= i < |rfqs| ==> v.rows[i] == RowOf(rfqs[i])
    {
      if isLoading then Loading
      else if rfqs == [] then NoRfqsFound
      else
        var s := rfqs;
        Rows(seq(|s|, i requires 0 <= i < |s| => RowOf(s[i])))
    }

    /** `loadRfqs`: the list becomes the stored RFQs, newest first (empty when the fetch fails). */
    method LoadRfqs(db: Tables, fetchFails: bool)
      modifies this`rfqs, this`isLoading
      ensures !isLoading
      ensures fetchFails ==> rfqs == []
      ensures !fetchFails ==> forall x :: x in rfqs <==> x in db.rfqs.Values
      ensures !fetchFails ==> RowsOnce(db.rfqs, db.rfqs.Keys, rfqs)
      ensures forall i, j :: 0 <= i < j < |rfqs| ==> rfqs[i].submittedAt >= rfqs[j].submittedAt
    {
      isLoading := true;
      var data := FetchRfqs(db, fetchFails);
      rfqs := data;
      isLoading := false;
    }

    /**
     * `handleMarkAsContacted`: the status becomes Contacted and the list is
     * reloaded; when the write fails, neither the store nor the list changes.
     */
    method HandleMarkAsContacted(db: Tables, rfqId: string, updateFails: bool, fetchFails: bool)
      modifies db`rfqs, this`rfqs, this`isLoading
      ensures updateFails ==> db.rfqs == old(db.rfqs) && rfqs == old(rfqs) && isLoading == old(isLoading)
      ensures !updateFails ==> db.rfqs == if rfqId in old(db.rfqs)
                                         then old(db.rfqs)[rfqId := old(db.rfqs)[rfqId].(status := Contacted)]
                                         else old(db.rfqs)
      ensures !updateFails && !fetchFails ==> forall x :: x in rfqs <==> x in db.rfqs.Values
      ensures !updateFails && !fetchFails ==> RowsOnce(db.rfqs, db.rfqs.Keys, rfqs)
      ensures !updateFails && fetchFails ==> rfqs == []
      ensures !updateFails ==> forall i, j :: 0 <= i < j < |rfqs| ==> rfqs[i].submittedAt >= rfqs[j].submittedAt
      ensures !updateFails ==> !isLoading
    {
      if updateFails {
        return;
      }
      var _ := UpdateRfqStatus(db, rfqId, Contacted);
      LoadRfqs(db, fetchFails);
    }
  }

  /** After marking a listed RFQ, its stored status is Contacted and every other RFQ is untouched. */
  lemma MarkOnlyTouchesOne(before: map<string, RfqSubmission>, rfqId: string, other: string)
    requires rfqId in before && other in before && other != rfqId
    ensures var after := before[rfqId := before[rfqId].(status := Contacted)];
            after[rfqId].status == Contacted && after[other] == before[other] && after.Keys == before.Keys
  {
  }
}
