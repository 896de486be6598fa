/**
 * The in-memory store used before the database existed: two arrays,
 * prices and announcements, changed in place by push, splice, unshift,
 * index assignment and an in-place sort.  New ids are the array length
 * plus one, written in decimal.
 */
module MockStore {
  import opened Text
  import opened Domain
  import opened Sorting

  /** The prices a search returns, in stored order. */
  function Search(s: seq<Price>, kind: PriceType, c: Criteria): seq<Price> {
    if s == [] then []
    else (if MatchesSearch(s[0], kind, c) then [s[0]] else []) + Search(s[1..], kind, c)
  }

  lemma {:induction false} SearchMembership(s: seq<Price>, kind: PriceType, c: Criteria)
    ensures forall p :: p in Search(s, kind, c) <==> p in s && MatchesSearch(p, kind, c)
  {
    if s != [] {
      SearchMembership(s[1..], kind, c);
      assert s == [s[0]] + s[1..];
    }
  }

  /** Filtering distributes over concatenation: the stored order is kept. */
  lemma {:induction false} SearchConcat(a: seq<Price>, b: seq<Price>, kind: PriceType, c: Criteria)
    ensures Search(a + b, kind, c) == Search(a, kind, c) + Search(b, kind, c)
  {
    if a == [] {
      assert a + b == b;
    } else {
      assert (a + b)[0] == a[0] && (a + b)[1..] == a[1..] + b;
      SearchConcat(a[1..], b, kind, c);
    }
  }

  /** The index of the first entry with the id, as `findIndex` gives it (-1 is None). */
  function FirstIndex<T>(s: seq<T>, id: T -> string, key: string): (r: Option<nat>)
    ensures r.Some? ==> r.value < |s| && id(s[r.value]) == key && forall j :: 0 <= j < r.value ==> id(s[j]) != key
    ensures r.None? ==> forall j :: 0 <= j < |s| ==> id(s[j]) != key
  {
    if s == [] then None
    else if id(s[0]) == key then Some(0)
    else match FirstIndex(s[1..], id, key)
      case None => None
      case Some(i) => Some(i + 1)
  }

  function PriceId(p: Price): string { p.id }
  function AnnouncementId(a: Announcement): string { a.id }

  /**
   * `{ ...stored, ...updates }`: every field present in the patch
   * overwrites, including an explicit `undefined` and the id itself.
   */
  function SpreadPrice(p: Price, u: PricePatch): (r: Price)
    ensures u.validFrom == Some(None) ==> r.validFrom == None
    ensures u.validTo == Some(None) ==> r.validTo == None
    ensures u == PricePatch(None, None, None, None, None, None, None, None, None, None) ==> r == p
  {
    Price(
      u.id.GetOr(p.id), u.origin.GetOr(p.origin), u.destination.GetOr(p.destination), u.amount.GetOr(p.amount),
      u.currency.GetOr(p.currency), u.validFrom.GetOr(p.validFrom), u.validTo.GetOr(p.validTo), u.kind.GetOr(p.kind),
      u.carrier.GetOr(p.carrier), u.notes.GetOr(p.notes))
  }

  function SpreadAnnouncement(a: Announcement, u: AnnouncementPatch): (r: Announcement)
    ensures u.authorName == Some(None) ==> r.authorName == None
    ensures u == AnnouncementPatch(None, None, None, None, None, None) ==> r == a
  {
    Announcement(
      u.id.GetOr(a.id), u.title.GetOr(a.title), u.content.GetOr(a.content), u.createdAt.GetOr(a.createdAt),
      u.authorId.GetOr(a.authorId), u.authorName.GetOr(a.authorName))
  }

  /** Each id is the decimal form of a number from 1 to the length: what appending with `length + 1` keeps. */
  ghost predicate IdsWithin<T>(s: seq<T>, id: T -> string) {
    forall i :: 0 <= i < |s| ==> exists k :: 1 <= k <= |s| && id(s[i]) == NatToString(k)
  }

  /** While the ids stay within the length, `length + 1` is a fresh id. */
  lemma NextIdFresh<T>(s: seq<T>, id: T -> string)
    requires IdsWithin(s, id)
    ensures forall i :: 0 <= i < |s| ==> id(s[i]) != NatToString(|s| + 1)
  {
    forall i | 0 <= i < |s|
      ensures id(s[i]) != NatToString(|s| + 1)
    {
      var k :| 1 <= k <= |s| && id(s[i]) == NatToString(k);
      if id(s[i]) == NatToString(|s| + 1) {
        NatToStringInjective(k, |s| + 1);
      }
    }
  }

  /** Appending with the next id keeps the ids within the length. */
  lemma AppendKeepsIdsWithin<T>(s: seq<T>, x: T, id: T -> string)
    requires IdsWithin(s, id) && id(x) == NatToString(|s| + 1)
    ensures IdsWithin(s + [x], id)
  {
    var t := s + [x];
    forall i | 0 <= i < |t|
      ensures exists k :: 1 <= k <= |t| && id(t[i]) == NatToString(k)
    {
      var k := if i < |s| then var k' :| 1 <= k' <= |s| && id(s[i]) == NatToString(k'); k' else |t|;
      assert 1 <= k <= |t| && id(t[i]) == NatToString(k);
    }
  }

  /** Putting the next id in front keeps the ids within the length. */
  lemma PrependKeepsIdsWithin<T>(s: seq<T>, x: T, id: T -> string)
    requires IdsWithin(s, id) && id(x) == NatToString(|s| + 1)
    ensures IdsWithin([x] + s, id)
  {
    var t := [x] + s;
    assert t[0] == x && t[1..] == s;
    forall i | 1 <= i < |t|
      ensures exists k :: 1 <= k <= |t| && id(t[i]) == NatToString(k)
    {
      assert t[i] == t[1..][i - 1];
      var k :| 1 <= k <= |s| && id(s[i - 1]) == NatToString(k);
      assert 1 <= k <= |t|;
    }
    assert 1 <= |t| && id(t[0]) == NatToString(|t|);
  }

  /**
   * Removing an entry other than the last and then appending reuses the
   * last entry's id: after a delete, the length-based ids can collide.
   */
  lemma DeleteThenCreateCollides(s: seq<Price>, i: nat, data: Price)
    requires i < |s| - 1 && s[|s| - 1].id == NatToString(|s|)
    ensures var t := s[..i] + s[i + 1..] + [data.(id := NatToString(|s[..i] + s[i + 1..]| + 1))];
            t[|t| - 1].id == t[|t| - 2].id && |t| == |s|
  {
  }

  class Store {
    var prices: seq<Price>
    var announcements: seq<Announcement>

    constructor (prices0: seq<Price>, announcements0: seq<Announcement>)
      ensures prices == prices0 && announcements == announcements0
    {
      prices, announcements := prices0, announcements0;
    }

    /** `fetchPublicPrices` (kind Public) and `fetchInternalPrices` (kind Internal). */
    method FetchPrices(kind: PriceType, c: Criteria) returns (r: seq<Price>)
      ensures r == Search(prices, kind, c)
      ensures forall p :: p in r <==> p in prices && MatchesSearch(p, kind, c)
    {
      r := Search(prices, kind, c);
      SearchMembership(prices, kind, c);
    }

    /** `createPrice`: appended at the end with id `length + 1`. */
    method CreatePrice(data: Price) returns (r: Price)
      modifies this`prices
      ensures r == data.(id := NatToString(|old(prices)| + 1))
      ensures prices == old(prices) + [r]
    {
      r := data.(id := NatToString(|prices| + 1));
      prices := prices + [r];
    }

    /** `updatePrice`: the first entry with the id is overwritten by the spread merge; null when none. */
    method UpdatePrice(priceId: string, u: PricePatch) returns (r: Option<Price>)
      modifies this`prices
      ensures r.Some? <==> FirstIndex(old(prices), PriceId, priceId).Some?
      ensures r.Some? ==> var i := FirstIndex(old(prices), PriceId, priceId).value;
                          r.value == SpreadPrice(old(prices)[i], u) && prices == old(prices)[i := r.value]
      ensures r.None? ==> prices == old(prices)
    {
      var index := FirstIndex(prices, PriceId, priceId);
      if index.Some? {
        var merged := SpreadPrice(prices[index.value], u);
        prices := prices[index.value := merged];
        r := Some(merged);
      } else {
        r := None;
      }
    }

    /** `deletePrice`: the first entry with the id is spliced out. */
    method DeletePrice(priceId: string) returns (deleted: bool)
      modifies this`prices
      ensures deleted <==> FirstIndex(old(prices), PriceId, priceId).Some?
      ensures deleted ==> var i := FirstIndex(old(prices), PriceId, priceId).value;
                          prices == old(prices)[..i] + old(prices)[i + 1..]
      ensures !deleted ==> prices == old(prices)
    {
      var index := FirstIndex(prices, PriceId, priceId);
      if index.Some? {
        prices := prices[..index.value] + prices[index.value + 1..];
        deleted := true;
      } else {
        deleted := false;
      }
    }

    /** `fetchAnnouncements`: the stored array itself is sorted, newest first, and returned. */
    method FetchAnnouncements() returns (r: seq<Announcement>)
      modifies this`announcements
      ensures announcements == SortDesc(old(announcements), CreatedAt)
      ensures SortedDesc(announcements, CreatedAt) && multiset(announcements) == multiset(old(announcements))
      ensures r == announcements
    {
      announcements := SortDesc(announcements, CreatedAt);
      r := announcements;
    }

    /** `createAnnouncement`: put at the front with id `length + 1`, stamped with the current time. */
    method CreateAnnouncement(title: string, content: string, authorId: string, authorName: Option<string>, now: int)
      returns (r: Announcement)
      modifies this`announcements
      ensures r == Announcement(NatToString(|old(announcements)| + 1), title, content, now, authorId, authorName)
      ensures announcements == [r] + old(announcements)
    {
      r := Announcement(NatToString(|announcements| + 1), title, content, now, authorId, authorName);
      announcements := [r] + announcements;
    }

    method UpdateAnnouncement(annId: string, u: AnnouncementPatch) returns (r: Option<Announcement>)
      modifies this`announcements
      ensures r.Some? <==> FirstIndex(old(announcements), AnnouncementId, annId).Some?
      ensures r.Some? ==> var i := FirstIndex(old(announcements), AnnouncementId, annId).value;
                          r.value == SpreadAnnouncement(old(announcements)[i], u) && announcements == old(announcements)[i := r.value]
      ensures r.None? ==> announcements == old(announcements)
    {
      var index := FirstIndex(announcements, AnnouncementId, annId);
      if index.Some? {
        var merged := SpreadAnnouncement(announcements[index.value], u);
        announcements := announcements[index.value := merged];
        r := Some(merged);
      } else {
        r := None;
      }
    }

    method DeleteAnnouncement(annId: string) returns (deleted: bool)
      modifies this`announcements
      ensures deleted <==> FirstIndex(old(announcements), AnnouncementId, annId).Some?
      ensures deleted ==> var i := FirstIndex(old(announcements), AnnouncementId, annId).value;
                          announcements == old(announcements)[..i] + old(announcements)[i + 1..]
      ensures !deleted ==> announcements == old(announcements)
    {
      var index := FirstIndex(announcements, AnnouncementId, annId);
      if index.Some? {
        announcements := announcements[..index.value] + announcements[index.value + 1..];
        deleted := true;
      } else {
        deleted := false;
      }
    }
  }

  function CreatedAt(a: Announcement): int { a.createdAt }
}
