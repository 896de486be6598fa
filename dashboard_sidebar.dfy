/**
 * The dashboard sidebar: which navigation items a user sees, their links
 * and labels, and which item is highlighted as active.
 */
module DashboardSidebar {
  import opened Text
  import opened Domain

  /** A navigation item; `role` is the tag that restricts who sees it. */
  datatype NavItem = NavItem(key: string, hrefSuffix: string, role: Option<Role>)

  const NavItemsBase: seq<NavItem> := [
    NavItem("overview", "", Some(Agent)),
    NavItem("internalPrices", "/internal-prices", Some(Agent)),
    NavItem("rfqManagement", "/admin/rfq-management", Some(Admin)),
    NavItem("managePrices", "/admin/manage-prices", Some(Admin)),
    NavItem("userManagement", "/admin/user-management", Some(Admin)),
    NavItem("announcements", "/admin/announcement-management", Some(Admin))
  ]

  /** The filter callback: untagged items always, agent items for agents and admins, admin items for admins. */
  predicate Visible(item: NavItem, userRole: Role) {
    if item.role.None? then true
    else if item.role == Some(Agent) && (userRole == Agent || userRole == Admin) then true
    else if item.role == Some(Admin) && userRole == Admin then true
    else false
  }

  function FilterItems(items: seq<NavItem>, userRole: Role): (r: seq<NavItem>)
    ensures |r| <= |items|
    ensures forall i :: 0 <= i < |r| ==> Visible(r[i], userRole)
  {
    if items == [] then []
    else if Visible(items[0], userRole) then [items[0]] + FilterItems(items[1..], userRole)
    else FilterItems(items[1..], userRole)
  }

  /** An item is shown exactly when it is in the list and its tag admits the role. */
  lemma {:induction false} FilterMembership(items: seq<NavItem>, userRole: Role, x: NavItem)
    ensures x in FilterItems(items, userRole) <==> x in items && Visible(x, userRole)
  {
    if items != [] {
      FilterMembership(items[1..], userRole, x);
      assert items == [items[0]] + items[1..];
    }
  }

  /** `a` is `b` with some elements left out, order kept. */
  predicate Subsequence<T(==)>(a: seq<T>, b: seq<T>)
    decreases |b|
  {
    a == [] || (b != [] && ((a[0] == b[0] && Subsequence(a[1..], b[1..])) || Subsequence(a, b[1..])))
  }

  lemma {:induction false} FilterIsSubsequence(items: seq<NavItem>, userRole: Role)
    ensures Subsequence(FilterItems(items, userRole), items)
  {
    if items != [] {
      FilterIsSubsequence(items[1..], userRole);
    }
  }

  /** An admin sees every item an agent sees, in the same relative order. */
  lemma {:induction false} AdminSeesSupersetOfAgent(items: seq<NavItem>)
    ensures Subsequence(FilterItems(items, Agent), FilterItems(items, Admin))
  {
    if items != [] {
      AdminSeesSupersetOfAgent(items[1..]);
      var x := items[0];
      var ag := FilterItems(items, Agent);
      var ad := FilterItems(items, Admin);
      if Visible(x, Agent) {
        assert Visible(x, Admin);
        assert ag == [x] + FilterItems(items[1..], Agent);
        assert ad == [x] + FilterItems(items[1..], Admin);
        assert ag[1..] == FilterItems(items[1..], Agent);
      } else if Visible(x, Admin) {
        assert ad == [x] + FilterItems(items[1..], Admin);
        assert ad[1..] == FilterItems(items[1..], Admin);
        assert ag == FilterItems(items[1..], Agent);
      }
    }
  }

  /** An agent sees exactly overview and internal prices; an admin sees all six items. */
  lemma VisibleItemsByRole()
    ensures FilterItems(NavItemsBase, Agent) == NavItemsBase[..2]
    ensures FilterItems(NavItemsBase, Admin) == NavItemsBase
  {
    AgentItemsFirst(NavItemsBase, 2);
  }

  /** Agent-tagged items followed by admin-tagged ones: agents see the first group, admins everything. */
  lemma {:induction false} AgentItemsFirst(items: seq<NavItem>, k: nat)
    requires k <= |items|
    requires forall i :: 0 <= i < k ==> items[i].role == Some(Agent)
    requires forall i :: k <= i < |items| ==> items[i].role == Some(Admin)
    ensures FilterItems(items, Agent) == items[..k]
    ensures FilterItems(items, Admin) == items
  {
    if items != [] {
      AgentItemsFirst(items[1..], if k == 0 then 0 else k - 1);
      if k > 0 {
        assert items[..k] == [items[0]] + items[1..][..k - 1];
      }
      assert items == [items[0]] + items[1..];
    }
  }

  datatype Link = Link(key: string, caption: string, href: string)

  /** The caption is the dictionary entry, falling back to the key when it is absent or empty. */
  function ToLink(item: NavItem, lang: string, dict: map<string, string>): (l: Link)
    ensures StartsWith(l.href, "/" + lang + "/dashboard")
    ensures l.href[|"/" + lang + "/dashboard"|..] == item.hrefSuffix
    ensures l.caption == item.key <==> (item.key !in dict || dict[item.key] == "" || dict[item.key] == item.key)
  {
    var caption := if item.key in dict && dict[item.key] != "" then dict[item.key] else item.key;
    Link(item.key, caption, "/" + lang + "/dashboard" + item.hrefSuffix)
  }

  function NavLinks(userRole: Role, lang: string, dict: map<string, string>): (r: seq<Link>)
    ensures |r| == |FilterItems(NavItemsBase, userRole)|
    ensures forall i :: 0 <= i < |r| ==> r[i] == ToLink(FilterItems(NavItemsBase, userRole)[i], lang, dict)
  {
    var items := FilterItems(NavItemsBase, userRole);
    seq(|items|, i requires 0 <= i < |items| => ToLink(items[i], lang, dict))
  }

  /** The `isActive` rule; `pathname` is the path without its locale. */
  predicate IsActive(href: string, lang: string, pathname: string) {
    href == "/" + lang + pathname ||
    (href != "/" + lang + "/dashboard" && StartsWith("/" + lang + pathname, href))
  }

  /** The overview link is active only on the dashboard itself, never on a sub-page. */
  lemma OverviewActiveOnlyOnExactMatch(lang: string, pathname: string, dict: map<string, string>)
    ensures IsActive(ToLink(NavItemsBase[0], lang, dict).href, lang, pathname) <==> pathname == "/dashboard"
  {
    var href := ToLink(NavItemsBase[0], lang, dict).href;
    assert href == "/" + lang + "/dashboard";
    if href == "/" + lang + pathname {
      assert pathname == href[|"/" + lang|..];
    }
  }

  /** Every other link is active on its own page and on all pages below it. */
  lemma SectionLinkActiveBelow(i: nat, lang: string, rest: string, dict: map<string, string>)
    requires 1 <= i < |NavItemsBase|
    ensures IsActive(ToLink(NavItemsBase[i], lang, dict).href, lang, "/dashboard" + NavItemsBase[i].hrefSuffix + rest)
  {
    var href := ToLink(NavItemsBase[i], lang, dict).href;
    var full := "/" + lang + ("/dashboard" + NavItemsBase[i].hrefSuffix + rest);
    assert full == href + rest;
    assert href != "/" + lang + "/dashboard" by {
      assert |NavItemsBase[i].hrefSuffix| > 0;
    }
  }

  datatype SidebarView = Skeleton(rows: nat) | Menu(links: seq<Link>)

  /** While anything is loading (or nobody is logged in) one skeleton row is drawn per item. */
  function View(authLoading: bool, dictLoading: bool, user: Option<User>, dict: Option<map<string, string>>, lang: string): (v: SidebarView)
    ensures v.Skeleton? <==> (authLoading || dictLoading || user.None? || dict.None?)
    ensures v.Skeleton? ==> v.rows == |NavItemsBase|
    ensures v.Menu? ==> v.links == NavLinks(user.value.role, lang, dict.value)
  {
    if authLoading || dictLoading || user.None? || dict.None? then Skeleton(|NavItemsBase|)
    else Menu(NavLinks(user.value.role, lang, dict.value))
  }
}
