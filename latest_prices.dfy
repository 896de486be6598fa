/**
 * The dashboard's latest internal prices: the internal prices, sorted by
 * numeric id, largest first, cut to ten, and the row each one gets.
 */
module LatestPrices {
  import opened Text
  import opened Domain
  import opened Sorting
  import PriceResults

  const MaxShown := 10

  /** The internal prices, in stored order. */
  function FilterInternal(s: seq<Price>): (r: seq<Price>)
    ensures |r| <= |s|
    ensures forall i :: 0 <= i < |r| ==> r[i].kind == Internal
    ensures multiset(r) <= multiset(s)
  {
    if s == [] then []
    else
      assert s == [s[0]] + s[1..];
      if s[0].kind == Internal then [s[0]] + FilterInternal(s[1..]) else FilterInternal(s[1..])
  }

  /** Every internal price is kept, and its multiplicity with it. */
  lemma {:induction false} FilterInternalKeepsAll(s: seq<Price>, p: Price)
    requires p.kind == Internal
    ensures multiset(FilterInternal(s))[p] == multiset(s)[p]
  {
    if s != [] {
      assert s == [s[0]] + s[1..];
      FilterInternalKeepsAll(s[1..], p);
    }
  }

  /**
   * The sort key, `parseInt(id)`.  An id that does not start with a digit
   * parses to NaN, which the comparator cannot order; it is given key 0
   * here and the results below are stated for numeric ids.
   */
  function IdKey(p: Price): int {
    ParseLeadingInt(p.id).GetOr(0)
  }

  predicate NumericId(p: Price) {
    ParseLeadingInt(p.id).Some?
  }

  /** filter, sort by id descending, slice(0, 10). */
  function Latest(all: seq<Price>): (r: seq<Price>)
    ensures |r| <= MaxShown
    ensures |r| == if |FilterInternal(all)| < MaxShown then |FilterInternal(all)| else MaxShown
    ensures forall i :: 0 <= i < |r| ==> r[i].kind == Internal
    ensures multiset(r) <= multiset(all)
    ensures SortedDesc(r, IdKey)
  {
    var internal := FilterInternal(all);
    var sorted := SortDesc(internal, IdKey);
    var n := if |sorted| < MaxShown then |sorted| else MaxShown;
    TakePrefix(sorted, n);
    InternalOnly(internal, sorted[..n]);
    sorted[..n]
  }

  /** A prefix of a list is part of it, and of a sorted list is sorted. */
  lemma TakePrefix(s: seq<Price>, n: nat)
    requires n <= |s|
    ensures multiset(s[..n]) <= multiset(s)
    ensures SortedDesc(s, IdKey) ==> SortedDesc(s[..n], IdKey)
  {
    assert s == s[..n] + s[n..];
  }

  /** Drawing from internal prices gives internal prices. */
  lemma InternalOnly(internal: seq<Price>, r: seq<Price>)
    requires forall i :: 0 <= i < |internal| ==> internal[i].kind == Internal
    requires multiset(r) <= multiset(internal)
    ensures forall i :: 0 <= i < |r| ==> r[i].kind == Internal
  {
    forall i | 0 <= i < |r|
      ensures r[i].kind == Internal
    {
      assert r[i] in multiset(r);
      assert r[i] in internal;
    }
  }

  /** With at most ten internal prices, every one of them is shown. */
  lemma AllShownWhenFew(all: seq<Price>)
    requires |FilterInternal(all)| <= MaxShown
    ensures multiset(Latest(all)) == multiset(FilterInternal(all))
  {
    var sorted := SortDesc(FilterInternal(all), IdKey);
    assert sorted[..|sorted|] == sorted;
  }

  /** In a sorted list, an element outside a prefix has a key no larger than any element of the prefix. */
  lemma PrefixDominates(sorted: seq<Price>, n: nat, p: Price)
    requires n <= |sorted| && SortedDesc(sorted, IdKey)
    requires p in multiset(sorted) - multiset(sorted[..n])
    ensures forall i :: 0 <= i < n ==> IdKey(sorted[i]) >= IdKey(p)
  {
    assert sorted == sorted[..n] + sorted[n..];
    assert multiset(sorted) == multiset(sorted[..n]) + multiset(sorted[n..]);
    assert p in multiset(sorted[n..]);
    var j :| n <= j < |sorted| && sorted[j] == p;
  }

  /** An internal price that is left out has a key no larger than any price that is shown. */
  lemma TopTen(all: seq<Price>, p: Price)
    requires p in multiset(FilterInternal(all)) - multiset(Latest(all))
    ensures forall i :: 0 <= i < |Latest(all)| ==> IdKey(Latest(all)[i]) >= IdKey(p)
  {
    var sorted := SortDesc(FilterInternal(all), IdKey);
    PrefixDominates(sorted, |Latest(all)|, p);
  }

  /** For numeric ids the shown order is non-increasing `parseInt(id)`. */
  lemma ShownInIdOrder(all: seq<Price>, i: nat, j: nat)
    requires i < j < |Latest(all)|
    requires NumericId(Latest(all)[i]) && NumericId(Latest(all)[j])
    ensures ParseLeadingInt(Latest(all)[i].id).value >= ParseLeadingInt(Latest(all)[j].id).value
  {
  }

  /** The validity cell: a range, the start date alone, or N/A. */
  datatype Validity = Range(from: int, to: int) | From(from: int) | NotAvailable

  function LatestValidity(p: Price): (v: Validity)
    ensures v.Range? <==> p.validFrom.Some? && p.validTo.Some?
    ensures v.From? <==> p.validFrom.Some? && p.validTo.None?
    ensures v.NotAvailable? <==> p.validFrom.None?
    ensures !v.NotAvailable? ==> v.from == p.validFrom.value
    ensures v.Range? ==> v.to == p.validTo.value
  {
    if p.validFrom.Some? && p.validTo.Some? then Range(p.validFrom.value, p.validTo.value)
    else if p.validFrom.Some? then From(p.validFrom.value)
    else NotAvailable
  }

  /** Where the two tables agree and differ on validity: only a start date without an end date differs. */
  lemma ValidityAgreesWithResults(p: Price)
    ensures PriceResults.ResultValidity(p).Range? <==> LatestValidity(p).Range?
    ensures PriceResults.ResultValidity(p).NotAvailable? <==> (LatestValidity(p).NotAvailable? || LatestValidity(p).From?)
  {
  }

  datatype Row = Row(key: string, origin: string, destination: string, icon: PriceResults.Icon,
                     carrierText: string, amount: int, currency: string, validity: Validity)

  function RowOf(p: Price): (r: Row)
    ensures r.key == p.id && r.origin == p.origin && r.destination == p.destination
    ensures r.amount == p.amount && r.currency == p.currency
    ensures r.icon == PriceResults.CarrierIcon(p.carrier) && r.carrierText == PriceResults.CarrierText(p.carrier)
  {
    Row(p.id, p.origin, p.destination, PriceResults.CarrierIcon(p.carrier), PriceResults.CarrierText(p.carrier),
        p.amount, p.currency, LatestValidity(p))
  }

  /**
   * The component state after a load: the fetched list's latest prices, or
   * the previous list when the fetch throws (the error is only logged).
   */
  function AfterLoad(previous: seq<Price>, fetched: Option<seq<Price>>): (r: seq<Price>)
    ensures fetched.None? ==> r == previous
    ensures fetched.Some? ==> r == Latest(fetched.value)
  {
    match fetched
    case Some(all) => Latest(all)
    case None => previous
  }

  datatype LatestView = Skeleton(bars: nat) | NoPricesFound | Table(rows: seq<Row>)

  function View(isLoading: bool, shown: seq<Price>): (v: LatestView)
    ensures isLoading <==> v == Skeleton(5)
    ensures v == NoPricesFound <==> !isLoading && shown == []
    ensures v.Table? ==> |v.rows| == |shown| && forall i :: 0 <= i < |shown| ==> v.rows[i] == RowOf(shown[i])
  {
    if isLoading then Skeleton(5)
    else if shown == [] then NoPricesFound
    else Table(seq(|shown|, i requires 0 <= i < |shown| => RowOf(shown[i])))
  }
}
