/** The navigation rules of components/dashboard/AppSidebar.tsx: which menu
    item is highlighted for the current path, and the unread badge on the
    Inquiries item. The icons and the markup are not modelled. */
module AppSidebar {
  import opened Wrappers
  import opened Strings

  datatype NavItem = NavItem(href: Option<string>, name: string, badgeCount: Option<int>)

  const OVERVIEW_HREF := "/dashboard"
  const BADGE_CAP := 99

  /** `getIsActive(item)`: an item without a link, or with the empty link
      (falsy for `!item.href`), is never active; the overview is active only
      on its own path, every other item also on any path below its link. */
  function GetIsActive(pathname: string, item: NavItem): (active: bool)
    ensures item.href.None? || item.href == Some("") ==> !active
    ensures item.href.Some? && item.href.value != "" && pathname == item.href.value ==> active
    ensures item.href == Some(OVERVIEW_HREF) ==> (active <==> pathname == OVERVIEW_HREF)
    ensures item.href.Some? && item.href.value != "" && item.href.value != OVERVIEW_HREF ==>
              (active <==> StartsWith(pathname, item.href.value))
  {
    match item.href
    case None => false
    case Some(href) => href != "" && (pathname == href || (href != OVERVIEW_HREF && StartsWith(pathname, href)))
  }

  /** The badge of an item: shown only for a positive count
      (`(item.badgeCount || 0) > 0`), reading '99+' above 99 and the count
      itself otherwise. */
  function BadgeText(badgeCount: Option<int>): (text: Option<string>)
    ensures text.Some? <==> badgeCount.Some? && badgeCount.value > 0
    ensures text == Some("99+") <==> badgeCount.Some? && badgeCount.value > BADGE_CAP
    ensures text.Some? && badgeCount.value <= BADGE_CAP ==>
              text.value == NatToString(badgeCount.value) && |text.value| <= 2
  {
    var count := if badgeCount.Some? then badgeCount.value else 0;
    if count > 0 then
      if count > BADGE_CAP then Some("99+")
      else
        assert NatToString(count) != "99+" by { NatToStringShort(count); }
        NatToStringShort(count);
        Some(NatToString(count))
    else None
  }

  /** A number below 100 is written with one or two digits. */
  lemma NatToStringShort(n: nat)
    requires n < 100
    ensures |NatToString(n)| <= 2
  {
    if n >= 10 {
      assert NatToString(n) == NatToString(n / 10) + [DigitChar(n % 10)];
    }
  }

  /** The four main items; only the Inquiries item carries a count. */
  function NavItems(unreadInquiriesCount: nat): (items: seq<NavItem>)
    ensures |items| == 4
  {
    [ NavItem(Some("/dashboard"), "Overview", None),
      NavItem(Some("/dashboard/listings"), "Listings", None),
      NavItem(Some("/dashboard/inquiries"), "Inquiries", Some(unreadInquiriesCount)),
      NavItem(Some("/dashboard/analytics"), "Analytics", None) ]
  }

  const SECONDARY_NAV_ITEMS: seq<NavItem> := [NavItem(Some("/dashboard/settings"), "Settings", None)]

  const LOGOUT_ITEM: NavItem := NavItem(None, "Logout", None)

  /** Only the Inquiries item can show a badge, and it shows the unread
      count. */
  lemma OnlyInquiriesHasBadge(unreadInquiriesCount: nat)
    ensures forall i :: 0 <= i < 4 ==>
              (BadgeText(NavItems(unreadInquiriesCount)[i].badgeCount).Some? ==> NavItems(unreadInquiriesCount)[i].name == "Inquiries")
    ensures BadgeText(NavItems(unreadInquiriesCount)[2].badgeCount).Some? <==> unreadInquiriesCount > 0
    ensures BadgeText(SECONDARY_NAV_ITEMS[0].badgeCount).None? && BadgeText(LOGOUT_ITEM.badgeCount).None?
  {
    var items := NavItems(unreadInquiriesCount);
    assert BadgeText(items[0].badgeCount).None? && BadgeText(items[1].badgeCount).None?;
    assert BadgeText(items[3].badgeCount).None?;
  }

  /** On a listing's page the Listings item is active and the overview is
      not; the logout item never is. */
  lemma ListingsPageHighlight(unreadInquiriesCount: nat, rest: string)
    ensures GetIsActive("/dashboard/listings" + rest, NavItems(unreadInquiriesCount)[1])
    ensures !GetIsActive("/dashboard/listings" + rest, NavItems(unreadInquiriesCount)[0])
    ensures !GetIsActive("/dashboard/listings" + rest, LOGOUT_ITEM)
  {
    var path := "/dashboard/listings" + rest;
    assert path[..|"/dashboard/listings"|] == "/dashboard/listings";
    assert |path| > |OVERVIEW_HREF|;
  }
}
