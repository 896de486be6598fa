/**
 * The price search results view: which of its four states is rendered,
 * the carrier icon chosen for a carrier name, and the row contents.
 */
module PriceResults {
  import opened Text
  import opened Domain

  /** The icon variants: the muted default ship, and the coloured ship, plane and truck. */
  datatype Icon = DefaultShip | Ship | Plane | Truck

  /**
   * The carrier classifier: the lower-cased carrier name is tested for
   * `sea`/`ocean`, then `air`, then `land`/`truck`; an absent or empty
   * carrier gets the default icon.
   */
  function CarrierIcon(carrier: Option<string>): (r: Icon)
    ensures (carrier.None? || carrier.value == "") ==> r == DefaultShip
  {
    if carrier.None? || carrier.value == "" then DefaultShip
    else
      var c := ToLower(carrier.value);
      if Contains(c, "sea") || Contains(c, "ocean") then Ship
      else if Contains(c, "air") then Plane
      else if Contains(c, "land") || Contains(c, "truck") then Truck
      else DefaultShip
  }

  lemma ToLowerConcat(a: string, b: string)
    ensures ToLower(a + b) == ToLower(a) + ToLower(b)
  {
    var l, r := ToLower(a + b), ToLower(a) + ToLower(b);
    assert |l| == |r|;
    forall i | 0 <= i < |l|
      ensures l[i] == r[i]
    {
      if i < |a| {
        assert (a + b)[i] == a[i];
      } else {
        assert (a + b)[i] == b[i - |a|];
      }
    }
  }

  lemma ToLowerOfToUpper(s: string)
    ensures ToLower(ToUpper(s)) == ToLower(s)
  {
    assert forall i :: 0 <= i < |s| ==> LowerChar(UpperChar(s[i])) == LowerChar(s[i]);
  }

  lemma ToLowerIdempotent(s: string)
    ensures ToLower(ToLower(s)) == ToLower(s)
  {
    assert forall i :: 0 <= i < |s| ==> LowerChar(LowerChar(s[i])) == LowerChar(s[i]);
  }

  /** Classification ignores letter case: upper- or lower-casing the carrier name never changes the icon. */
  lemma CarrierIconIgnoresCase(c: string)
    ensures CarrierIcon(Some(ToUpper(c))) == CarrierIcon(Some(c))
    ensures CarrierIcon(Some(ToLower(c))) == CarrierIcon(Some(c))
  {
    ToLowerOfToUpper(c);
    ToLowerIdempotent(c);
  }

  /**
   * Any carrier name in which a spelling of `sea` or `ocean` occurs gets
   * the ship icon, whatever else it contains: the sea test comes first.
   */
  lemma {:induction false} SeaKeywordWins(a: string, keyword: string, b: string)
    requires ToLower(keyword) == "sea" || ToLower(keyword) == "ocean"
    ensures CarrierIcon(Some(a + keyword + b)) == Ship
  {
    ToLowerConcat(a + keyword, b);
    ToLowerConcat(a, keyword);
    ContainsInfix(ToLower(a), ToLower(keyword), ToLower(b));
    assert |a + keyword + b| > 0 by { assert |ToLower(keyword)| > 0; }
  }

  /** Without a sea keyword, any spelling of `air` gives the plane icon. */
  lemma {:induction false} AirKeyword(a: string, keyword: string, b: string)
    requires ToLower(keyword) == "air"
    requires !ContainsIgnoreCase(a + keyword + b, "sea") && !ContainsIgnoreCase(a + keyword + b, "ocean")
    ensures CarrierIcon(Some(a + keyword + b)) == Plane
  {
    ToLowerConcat(a + keyword, b);
    ToLowerConcat(a, keyword);
    ContainsInfix(ToLower(a), ToLower(keyword), ToLower(b));
    assert ToLower("sea") == "sea" && ToLower("ocean") == "ocean";
    assert |a + keyword + b| > 0 by { assert |ToLower(keyword)| > 0; }
  }

  /** Without a sea or air keyword, any spelling of `land` or `truck` gives the truck icon. */
  lemma {:induction false} LandKeyword(a: string, keyword: string, b: string)
    requires ToLower(keyword) == "land" || ToLower(keyword) == "truck"
    requires !ContainsIgnoreCase(a + keyword + b, "sea") && !ContainsIgnoreCase(a + keyword + b, "ocean")
    requires !ContainsIgnoreCase(a + keyword + b, "air")
    ensures CarrierIcon(Some(a + keyword + b)) == Truck
  {
    ToLowerConcat(a + keyword, b);
    ToLowerConcat(a, keyword);
    ContainsInfix(ToLower(a), ToLower(keyword), ToLower(b));
    assert ToLower("sea") == "sea" && ToLower("ocean") == "ocean" && ToLower("air") == "air";
    assert |a + keyword + b| > 0 by { assert |ToLower(keyword)| > 0; }
  }

  /** `Seattle Air Freight` is drawn with a ship: its first letters spell `sea`. */
  lemma SeattleAirIsShip()
    ensures CarrierIcon(Some("Seattle Air Freight")) == Ship
  {
    assert ToLower("Sea") == "sea";
    SeaKeywordWins("", "Sea", "ttle Air Freight");
    assert "" + "Sea" + "ttle Air Freight" == "Seattle Air Freight";
  }

  /** The validity cell: the date range when both dates are present, otherwise N/A. */
  datatype Validity = Range(from: int, to: int) | NotAvailable

  function ResultValidity(p: Price): (v: Validity)
    ensures v.Range? <==> p.validFrom.Some? && p.validTo.Some?
    ensures v.Range? ==> v.from == p.validFrom.value && v.to == p.validTo.value
  {
    if p.validFrom.Some? && p.validTo.Some? then Range(p.validFrom.value, p.validTo.value) else NotAvailable
  }

  datatype BadgeVariant = Secondary | Primary

  /** One table row; `carrierText` is the carrier name or `N/A`, `badge` the type label. */
  datatype Row = Row(key: string, origin: string, destination: string, icon: Icon, carrierText: string,
                     amount: int, currency: string, validity: Validity, badgeVariant: BadgeVariant, badge: string)

  function CarrierText(carrier: Option<string>): (t: string)
    ensures t == "N/A" <==> (carrier.None? || carrier.value == "" || carrier.value == "N/A")
    ensures t != "N/A" ==> carrier == Some(t)
  {
    if carrier.None? || carrier.value == "" then "N/A" else carrier.value
  }

  function RowOf(p: Price): (r: Row)
    ensures r.key == p.id && r.origin == p.origin && r.destination == p.destination
    ensures r.amount == p.amount && r.currency == p.currency
    ensures r.badge == "Public" <==> p.kind == Public
    ensures r.badge == "Internal" <==> p.kind == Internal
    ensures r.badgeVariant == Secondary <==> p.kind == Public
  {
    var public := p.kind == Public;
    Row(p.id, p.origin, p.destination, CarrierIcon(p.carrier), CarrierText(p.carrier),
        p.amount, p.currency, ResultValidity(p),
        if public then Secondary else Primary, if public then "Public" else "Internal")
  }

  datatype ResultsView = Skeleton(cards: nat) | Nothing | NoPricesFound | Table(rows: seq<Row>)

  /** The ordered early returns: loading, then no search yet, then no prices, then the table. */
  function View(prices: seq<Price>, isLoading: bool, searchPerformed: bool): (v: ResultsView)
    ensures isLoading ==> v == Skeleton(3)
    ensures v == Nothing <==> !isLoading && !searchPerformed
    ensures v == NoPricesFound <==> !isLoading && searchPerformed && prices == []
    ensures v.Table? <==> !isLoading && searchPerformed && prices != []
    ensures v.Table? ==> |v.rows| == |prices| && forall i :: 0 <= i < |prices| ==> v.rows[i] == RowOf(prices[i])
  {
    if isLoading then Skeleton(3)
    else if !searchPerformed then Nothing
    else if |prices| == 0 then NoPricesFound
    else Table(seq(|prices|, i requires 0 <= i < |prices| => RowOf(prices[i])))
  }

  /** Showing a list after another one keeps the rows of both, in order. */
  lemma {:induction false} TableOfConcat(a: seq<Price>, b: seq<Price>)
    requires a != [] && b != []
    ensures View(a + b, false, true).rows == View(a, false, true).rows + View(b, false, true).rows
  {
    var l, r := View(a + b, false, true).rows, View(a, false, true).rows + View(b, false, true).rows;
    assert |l| == |r|;
    forall i | 0 <= i < |l|
      ensures l[i] == r[i]
    {
      if i < |a| {
        assert (a + b)[i] == a[i];
      } else {
        assert (a + b)[i] == b[i - |a|];
      }
    }
  }
}
