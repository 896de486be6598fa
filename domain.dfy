/**
 * The entities shared by the services and the components: users and their
 * permissions, prices, announcements and RFQ submissions.  Dates are
 * integers (milliseconds since the epoch) and amounts and weights are
 * integers.
 */
module Domain {
  import opened Text

  datatype Role = Agent | Admin

  datatype Scope = Prices | Users | Announcements | Rfqs

  datatype Action = View | Create | Edit | Delete

  /** Per-scope action lists; a scope that is absent grants nothing. */
  type Permissions = map<Scope, seq<Action>>

  datatype User = User(
    id: string,
    email: string,
    name: Option<string>,
    role: Role,
    permissions: Permissions)

  datatype PriceType = Public | Internal

  datatype Price = Price(
    id: string,
    origin: string,
    destination: string,
    amount: int,
    currency: string,
    validFrom: Option<int>,
    validTo: Option<int>,
    kind: PriceType,
    carrier: Option<string>,
    notes: Option<string>)

  datatype Announcement = Announcement(
    id: string,
    title: string,
    content: string,
    createdAt: int,
    authorId: string,
    authorName: Option<string>)

  /** `'sea' | 'air' | 'land' | ''`; `Unspecified` is the empty string. */
  datatype FreightType = Sea | Air | Land | Unspecified

  datatype RfqStatus = New | Contacted | Quoted | Closed

  /** What the public RFQ form hands to the submission flow. */
  datatype RfqInput = RfqInput(
    name: string,
    email: string,
    company: Option<string>,
    origin: string,
    destination: string,
    weight: Option<int>,
    freightType: Option<FreightType>,
    message: Option<string>)

  datatype RfqSubmission = RfqSubmission(
    id: string,
    submissionId: string,
    name: string,
    email: string,
    company: Option<string>,
    origin: string,
    destination: string,
    weight: Option<int>,
    freightType: Option<FreightType>,
    message: Option<string>,
    submittedAt: int,
    status: RfqStatus)

  /** Search criteria; an absent or empty criterion matches everything. */
  datatype Criteria = Criteria(origin: Option<string>, destination: Option<string>)

  /**
   * The price search rule shared by the stored-procedure and in-memory
   * stores: the price has the requested type, and each given criterion
   * occurs in the corresponding field, ignoring case.
   */
  predicate MatchesSearch(p: Price, kind: PriceType, c: Criteria) {
    && p.kind == kind
    && (!Truthy(c.origin) || ContainsIgnoreCase(p.origin, c.origin.value))
    && (!Truthy(c.destination) || ContainsIgnoreCase(p.destination, c.destination.value))
  }

  /**
   * `Partial<Price>`: each field is absent (None) or present.  Optional
   * price fields may be present with the value `undefined`, which is
   * `Some(None)`.
   */
  datatype PricePatch = PricePatch(
    id: Option<string>,
    origin: Option<string>,
    destination: Option<string>,
    amount: Option<int>,
    currency: Option<string>,
    validFrom: Option<Option<int>>,
    validTo: Option<Option<int>>,
    kind: Option<PriceType>,
    carrier: Option<Option<string>>,
    notes: Option<Option<string>>)

  /** `Partial<Announcement>`, with the same conventions as `PricePatch`. */
  datatype AnnouncementPatch = AnnouncementPatch(
    id: Option<string>,
    title: Option<string>,
    content: Option<string>,
    createdAt: Option<int>,
    authorId: Option<string>,
    authorName: Option<Option<string>>)
}
