/**
 * The navigation sidebar (src/components/shared/Sidebar.tsx): a constant
 * table of links per role, the role used when there is none, and the rule
 * that highlights the current page. Icons are not modelled.
 */
module Sidebar {
  import opened Wrappers
  import opened Types
  import Auth

  datatype NavLink = NavLink(href: string, text: string)

  const AdminLinks: seq<NavLink> := [
    NavLink("/dashboard", "Dashboard"),
    NavLink("/dashboard/sales", "Sales"),
    NavLink("/dashboard/inventory", "Inventory"),
    NavLink("/dashboard/customers", "Customers"),
    NavLink("/dashboard/sales-history", "Sales History"),
    NavLink("/dashboard/reports/sales-summary", "Reports"),
    NavLink("/dashboard/audit-logs", "Audit Logs"),
    NavLink("/dashboard/reports/stock-summary", "Stock Report"),
    NavLink("/dashboard/vendors", "Vendors"),
    NavLink("/dashboard/users", "Users")
  ]

  const ManagerLinks: seq<NavLink> := [
    NavLink("/dashboard", "Dashboard"),
    NavLink("/dashboard/sales", "Sales"),
    NavLink("/dashboard/inventory", "Inventory"),
    NavLink("/dashboard/sales-history", "Sales History"),
    NavLink("/dashboard/customers", "Customers"),
    NavLink("/dashboard/reports/sales-summary", "Reports"),
    NavLink("/dashboard/vendors", "Vendors")
  ]

  const CashierLinks: seq<NavLink> := [
    NavLink("/dashboard/sales", "POS Terminal"),
    NavLink("/dashboard/customers", "Customers")
  ]

  const StockLinks: seq<NavLink> := [
    NavLink("/dashboard/inventory", "Inventory")
  ]

  /** `navLinks[role]` for each of the four keys. */
  function NavLinks(r: Role): seq<NavLink> {
    match r
    case ADMIN => AdminLinks
    case MANAGER => ManagerLinks
    case CASHIER => CashierLinks
    case STOCK => StockLinks
  }

  /** The key named by a role string, if it is one of the four. */
  function RoleOfName(s: string): (r: Option<Role>)
    ensures r.Some? ==> RoleName(r.value) == s
  {
    if s == "ADMIN" then Some(ADMIN)
    else if s == "MANAGER" then Some(MANAGER)
    else if s == "CASHIER" then Some(CASHIER)
    else if s == "STOCK" then Some(STOCK)
    else None
  }

  lemma RoleOfNameOfRole(r: Role)
    ensures RoleOfName(RoleName(r)) == Some(r)
  {
  }

  /** `user?.role || 'CASHIER'`: no user, or an empty role, falls back to CASHIER. */
  function RoleKey(user: Option<Auth.StoredUserProfile>): (key: string)
    ensures user.None? || user.value.role == "" ==> key == RoleName(CASHIER)
    ensures user.Some? && user.value.role != "" ==> key == user.value.role
  {
    if user.Some? && user.value.role != "" then user.value.role else RoleName(CASHIER)
  }

  /** The links shown; a role outside the four keys has no entry (the page then cannot render its links). */
  function LinksFor(user: Option<Auth.StoredUserProfile>): (links: Option<seq<NavLink>>)
    ensures links.None? <==> RoleOfName(RoleKey(user)).None?
    ensures links.Some? ==> links.value == NavLinks(RoleOfName(RoleKey(user)).value)
  {
    var r := RoleOfName(RoleKey(user));
    if r.Some? then Some(NavLinks(r.value)) else None
  }

  /** A link is highlighted iff its href is the current path. */
  predicate IsActive(pathname: string, link: NavLink) {
    pathname == link.href
  }

  function Hrefs(links: seq<NavLink>): (hs: seq<string>)
    ensures |hs| == |links|
    ensures forall i :: 0 <= i < |links| ==> hs[i] == links[i].href
  {
    seq(|links|, i requires 0 <= i < |links| => links[i].href)
  }

  function Labels(links: seq<NavLink>): (ls: seq<string>)
    ensures |ls| == |links|
    ensures forall i :: 0 <= i < |links| ==> ls[i] == links[i].text
  {
    seq(|links|, i requires 0 <= i < |links| => links[i].text)
  }

  predicate DistinctHrefs(links: seq<NavLink>) {
    forall i, j :: 0 <= i < j < |links| ==> links[i].href != links[j].href
  }

  /** Without a user, or with an empty role, the sidebar is the cashier's: POS Terminal and Customers. */
  lemma DefaultIsCashier(user: Option<Auth.StoredUserProfile>)
    requires user.None? || user.value.role == ""
    ensures LinksFor(user) == Some(CashierLinks)
    ensures Labels(CashierLinks) == ["POS Terminal", "Customers"]
    ensures Hrefs(CashierLinks) == ["/dashboard/sales", "/dashboard/customers"]
  {
    RoleOfNameOfRole(CASHIER);
  }

  /** STOCK sees Inventory only. */
  lemma StockSeesInventoryOnly()
    ensures Labels(NavLinks(STOCK)) == ["Inventory"]
  {
  }

  /** ADMIN has ten links among them Users and Audit Logs; MANAGER has seven, with neither, nor the Stock Report. */
  lemma AdminAndManagerLinks()
    ensures |NavLinks(ADMIN)| == 10 && |NavLinks(MANAGER)| == 7
    ensures "Users" in Labels(NavLinks(ADMIN)) && "Audit Logs" in Labels(NavLinks(ADMIN))
    ensures "Users" !in Labels(NavLinks(MANAGER)) && "Audit Logs" !in Labels(NavLinks(MANAGER))
    ensures "Stock Report" !in Labels(NavLinks(MANAGER))
    ensures forall l :: l in NavLinks(MANAGER) ==> l in NavLinks(ADMIN)
  {
    assert Labels(NavLinks(MANAGER)) ==
      ["Dashboard", "Sales", "Inventory", "Sales History", "Customers", "Reports", "Vendors"];
    assert Labels(NavLinks(ADMIN))[9] == "Users";
    assert Labels(NavLinks(ADMIN))[6] == "Audit Logs";
  }

  /** Each role's hrefs are distinct, so at most one link is highlighted for any path. */
  lemma HrefsDistinct(r: Role, pathname: string)
    ensures DistinctHrefs(NavLinks(r))
    ensures forall i, j ::
      (0 <= i < |NavLinks(r)| && 0 <= j < |NavLinks(r)| && IsActive(pathname, NavLinks(r)[i]) && IsActive(pathname, NavLinks(r)[j]))
      ==> i == j
  {
    match r
    case ADMIN => AdminHrefsDistinct();
    case MANAGER => ManagerHrefsDistinct();
    case CASHIER =>
    case STOCK =>
  }

  lemma AdminHrefsDistinct()
    ensures DistinctHrefs(AdminLinks)
  {
  }

  lemma ManagerHrefsDistinct()
    ensures DistinctHrefs(ManagerLinks)
  {
  }
}
