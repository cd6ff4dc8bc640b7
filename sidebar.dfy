/** The side menu: the fixed table of entries, the entries a signed-in user's role
    may see, and the link each shown entry points to
    (components/layout/app-sidebar.tsx). Each row of the table is a constructor of
    `Entry`; its columns are the functions `Title`, `Href`, `Roles` and
    `IsDashboard`. */
module Sidebar {
  import opened Wrappers
  import opened Seqs
  import opened Entities

  datatype Entry =
    | AdminDashboard | StockDashboard | CashierDashboard
    | Users | Products | Categories | StockMovements | NewSale
    | Sales | Clients | Payments | Invoices | Warranties
    | Promotions | Audit | Validations | Settings

  function Title(e: Entry): string
  {
    match e
    case AdminDashboard | StockDashboard | CashierDashboard => "Tableau de bord"
    case Users => "Utilisateurs"
    case Products => "Produits"
    case Categories => "Catégories"
    case StockMovements => "Mouvements Stock"
    case NewSale => "Nouvelle Vente"
    case Sales => "Ventes"
    case Clients => "Clients"
    case Payments => "Paiements"
    case Invoices => "Factures"
    case Warranties => "Garanties"
    case Promotions => "Promotions"
    case Audit => "Historique"
    case Validations => "Validations"
    case Settings => "Paramètres"
  }

  /** The path written in the table: absolute for a dashboard, relative to the role
      for the others. */
  function Href(e: Entry): string
  {
    match e
    case AdminDashboard => "/admin/dashboard-admin"
    case StockDashboard => "/stock_manager/dashboard-stock"
    case CashierDashboard => "/cashier/dashboard-cashier"
    case Users => "/users"
    case Products => "/products"
    case Categories => "/categories"
    case StockMovements => "/stock-movements"
    case NewSale => "/new-sale"
    case Sales => "/sales"
    case Clients => "/clients"
    case Payments => "/payments"
    case Invoices => "/invoices"
    case Warranties => "/warranties"
    case Promotions => "/promotions"
    case Audit => "/audit"
    case Validations => "/validations"
    case Settings => "/settings"
  }

  function Roles(e: Entry): seq<Role>
  {
    match e
    case AdminDashboard => [Admin]
    case StockDashboard => [StockManager]
    case CashierDashboard => [Cashier]
    case Users => [Admin]
    case Products | Categories | StockMovements => [Admin, StockManager]
    case NewSale => [Cashier]
    case Sales | Clients | Payments | Invoices | Warranties => [Admin, Cashier]
    case Promotions | Audit | Validations | Settings => [Admin]
  }

  predicate IsDashboard(e: Entry)
  {
    e.AdminDashboard? || e.StockDashboard? || e.CashierDashboard?
  }

  /** `navItems`, in display order. */
  const NavItems: seq<Entry> := [
    AdminDashboard, StockDashboard, CashierDashboard, Users, Products, Categories,
    StockMovements, NewSale, Sales, Clients, Payments, Invoices, Warranties,
    Promotions, Audit, Validations, Settings]

  /** The entry lists the signed-in user's role. */
  predicate VisibleTo(e: Entry, user: Option<Role>)
  {
    user.Some? && user.value in Roles(e)
  }

  function Visible(user: Option<Role>): Entry -> bool
  {
    (e: Entry) => VisibleTo(e, user)
  }

  /** `filteredNavItems`: the table's entries listing the user's role, in table order. */
  function Shown(user: Option<Role>): (r: seq<Entry>)
    ensures user.None? ==> r == []
    ensures forall e :: e in r <==> VisibleTo(e, user)
    ensures Distinct(r)
  {
    if user.None? then []
    else
      FilterOfTable(user);
      Filter(NavItems, Visible(user))
  }

  /** Filtering the table keeps it free of repeats. */
  lemma TableFilterDistinct(user: Option<Role>)
    ensures Distinct(Filter(NavItems, Visible(user)))
  {
    TableListsEveryEntryOnce();
    FilterDistinct(NavItems, Visible(user));
  }

  /** Filtering the table keeps exactly the entries visible to the user. */
  lemma TableFilterMembers(user: Option<Role>)
    ensures forall e :: e in Filter(NavItems, Visible(user)) <==> VisibleTo(e, user)
  {
    var r := Filter(NavItems, Visible(user));
    EveryEntryListed();
    FilterMembers(NavItems, Visible(user));
    forall e ensures e in r <==> VisibleTo(e, user) {
      assert e in NavItems;
      assert Visible(user)(e) == VisibleTo(e, user);
    }
  }

  lemma FilterOfTable(user: Option<Role>)
    ensures var r := Filter(NavItems, Visible(user));
      && (forall e :: e in r <==> VisibleTo(e, user))
      && Distinct(r)
  {
    TableFilterDistinct(user);
    TableFilterMembers(user);
  }

  /** `user?.role` printed into a path: the role's name, or "undefined". */
  function RoleSegment(user: Option<Role>): string
  {
    if user.Some? then RoleName(user.value) else "undefined"
  }

  predicate StartsWith(s: string, t: string)
  {
    |t| <= |s| && s[..|t|] == t
  }

  predicate EndsWith(s: string, t: string)
  {
    |t| <= |s| && s[|s| - |t|..] == t
  }

  /** `buildHref`: a dashboard keeps its own path; any other entry is placed under the
      user's role. */
  function BuildHref(e: Entry, user: Option<Role>): (r: string)
    ensures IsDashboard(e) ==> r == Href(e)
    ensures EndsWith(r, Href(e))
    ensures !IsDashboard(e) ==>
      StartsWith(r, "/" + RoleSegment(user)) && |r| == |RoleSegment(user)| + 1 + |Href(e)|
  {
    if IsDashboard(e) then Href(e) else "/" + RoleSegment(user) + Href(e)
  }

  /** The links of the shown entries, in menu order: the list keys. */
  function MenuHrefs(user: Option<Role>): (r: seq<string>)
    ensures |r| == |Shown(user)|
    ensures forall k :: 0 <= k < |r| ==> r[k] == BuildHref(Shown(user)[k], user)
    ensures Distinct(r)
  {
    var r := MapSeq(Shown(user), (e: Entry) => BuildHref(e, user));
    forall i, j | 0 <= i < j < |r| ensures r[i] != r[j] {
      LinksDiffer(Shown(user)[i], Shown(user)[j], user);
    }
    r
  }

  /** Every entry is a row of the table. */
  lemma EveryEntryListed()
    ensures forall e :: e in NavItems
  {
    forall e ensures e in NavItems {
      if e.AdminDashboard? || e.StockDashboard? || e.CashierDashboard? || e.Users? || e.Products? || e.Categories? {
        FirstRowsListed(e);
      } else if e.StockMovements? || e.NewSale? || e.Sales? || e.Clients? || e.Payments? || e.Invoices? {
        MiddleRowsListed(e);
      } else {
        LastRowsListed(e);
      }
    }
  }

  lemma FirstRowsListed(e: Entry)
    requires e.AdminDashboard? || e.StockDashboard? || e.CashierDashboard? || e.Users? || e.Products? || e.Categories?
    ensures e in NavItems
  {
    match e
    case AdminDashboard => assert NavItems[0] == e;
    case StockDashboard => assert NavItems[1] == e;
    case CashierDashboard => assert NavItems[2] == e;
    case Users => assert NavItems[3] == e;
    case Products => assert NavItems[4] == e;
    case Categories => assert NavItems[5] == e;
  }

  lemma MiddleRowsListed(e: Entry)
    requires e.StockMovements? || e.NewSale? || e.Sales? || e.Clients? || e.Payments? || e.Invoices?
    ensures e in NavItems
  {
    match e
    case StockMovements => assert NavItems[6] == e;
    case NewSale => assert NavItems[7] == e;
    case Sales => assert NavItems[8] == e;
    case Clients => assert NavItems[9] == e;
    case Payments => assert NavItems[10] == e;
    case Invoices => assert NavItems[11] == e;
  }

  lemma LastRowsListed(e: Entry)
    requires e.Warranties? || e.Promotions? || e.Audit? || e.Validations? || e.Settings?
    ensures e in NavItems
  {
    match e
    case Warranties => assert NavItems[12] == e;
    case Promotions => assert NavItems[13] == e;
    case Audit => assert NavItems[14] == e;
    case Validations => assert NavItems[15] == e;
    case Settings => assert NavItems[16] == e;
  }

  /** Every entry is a row of the table, and no row is repeated. */
  lemma TableListsEveryEntryOnce()
    ensures forall e :: e in NavItems
    ensures Distinct(NavItems)
  {
    EveryEntryListed();
  }

  /** A dashboard's path after its role's segment. */
  function DashboardTail(e: Entry): string
  {
    match e
    case AdminDashboard => "/dashboard-admin"
    case StockDashboard => "/dashboard-stock"
    case CashierDashboard => "/dashboard-cashier"
    case _ => ""
  }

  lemma AdminPath()
    ensures Href(AdminDashboard) == "/" + RoleName(Admin) + DashboardTail(AdminDashboard)
  {
    assert "/" + "admin" == "/admin";
    assert "/admin" + "/dashboard-admin" == "/admin/dashboard-admin";
  }

  lemma StockPath()
    ensures Href(StockDashboard) == "/" + RoleName(StockManager) + DashboardTail(StockDashboard)
  {
    assert "/" + "stock_manager" == "/stock_manager";
    assert "/stock_manager" + "/dashboard-stock" == "/stock_manager/dashboard-stock";
  }

  lemma CashierPath()
    ensures Href(CashierDashboard) == "/" + RoleName(Cashier) + DashboardTail(CashierDashboard)
  {
    assert "/" + "cashier" == "/cashier";
    assert "/cashier" + "/dashboard-cashier" == "/cashier/dashboard-cashier";
  }

  /** A dashboard's path is its role's segment followed by its tail. */
  lemma DashboardPath(e: Entry)
    requires IsDashboard(e)
    ensures Href(e) == "/" + RoleName(Roles(e)[0]) + DashboardTail(e)
  {
    match e
    case AdminDashboard => AdminPath();
    case StockDashboard => StockPath();
    case CashierDashboard => CashierPath();
  }

  /** The paths written for the non-dashboard entries are all different, and none is
      a dashboard's tail. */
  lemma RelativePathsDiffer(e: Entry, f: Entry)
    requires !IsDashboard(e)
    ensures !IsDashboard(f) && e != f ==> Href(e) != Href(f)
    ensures IsDashboard(f) ==> Href(e) != DashboardTail(f)
  {
  }

  /** Prefixing the same segment keeps different strings different. */
  lemma PrefixKeepsApart(p: string, a: string, b: string)
    requires a != b
    ensures p + a != p + b
  {
    assert (p + a)[|p|..] == a && (p + b)[|p|..] == b;
  }

  /** Two entries placed under the same role segment keep their different paths. */
  lemma RelativeLinksDiffer(e: Entry, f: Entry, user: Option<Role>)
    requires e != f && !IsDashboard(e) && !IsDashboard(f)
    ensures BuildHref(e, user) != BuildHref(f, user)
  {
    RelativePathsDiffer(e, f);
    PrefixKeepsApart("/" + RoleSegment(user), Href(e), Href(f));
  }

  /** A dashboard shown to a user is never the link of an entry placed under that
      user's role. */
  lemma DashboardLinkIsNotRelative(e: Entry, f: Entry, user: Option<Role>)
    requires IsDashboard(e) && !IsDashboard(f) && VisibleTo(e, user)
    ensures BuildHref(e, user) != BuildHref(f, user)
  {
    RelativePathsDiffer(f, e);
    DashboardPath(e);
    PrefixKeepsApart("/" + RoleSegment(user), DashboardTail(e), Href(f));
  }

  /** Two different entries shown to the same user never get the same link. */
  lemma LinksDiffer(e: Entry, f: Entry, user: Option<Role>)
    requires e != f && VisibleTo(e, user) && VisibleTo(f, user)
    ensures BuildHref(e, user) != BuildHref(f, user)
  {
    if !IsDashboard(e) && !IsDashboard(f) {
      RelativeLinksDiffer(e, f, user);
    } else if IsDashboard(e) && !IsDashboard(f) {
      DashboardLinkIsNotRelative(e, f, user);
    } else if !IsDashboard(e) && IsDashboard(f) {
      DashboardLinkIsNotRelative(f, e, user);
    } else {
      DashboardIsOwn(e, user.value);
      DashboardIsOwn(f, user.value);
    }
  }

  /** The dashboard entry of a role. */
  function DashboardOf(role: Role): (e: Entry)
    ensures IsDashboard(e) && Roles(e) == [role]
  {
    match role
    case Admin => AdminDashboard
    case StockManager => StockDashboard
    case Cashier => CashierDashboard
  }

  /** A dashboard is listed for one role only, the role it belongs to. */
  lemma DashboardIsOwn(e: Entry, role: Role)
    requires IsDashboard(e) && role in Roles(e)
    ensures e == DashboardOf(role)
  {
    match e
    case AdminDashboard => assert Roles(e) == [Admin];
    case StockDashboard => assert Roles(e) == [StockManager];
    case CashierDashboard => assert Roles(e) == [Cashier];
  }

  /** Each role's menu holds exactly one dashboard, its own. */
  lemma OneDashboardPerRole(role: Role)
    ensures DashboardOf(role) in Shown(Some(role))
    ensures forall e :: e in Shown(Some(role)) && IsDashboard(e) ==> e == DashboardOf(role)
  {
    var r := Shown(Some(role));
    assert VisibleTo(DashboardOf(role), Some(role)) by {
      assert Roles(DashboardOf(role))[0] == role;
    }
    forall e | e in r && IsDashboard(e) ensures e == DashboardOf(role) {
      assert VisibleTo(e, Some(role));
      DashboardIsOwn(e, role);
    }
  }

  /** "Nouvelle Vente" is shown to cashiers and to nobody else. */
  lemma NewSaleIsCashierOnly(user: Option<Role>)
    ensures NewSale in Shown(user) <==> user == Some(Cashier)
  {
    NewSaleVisibility(user);
  }

  lemma NewSaleVisibility(user: Option<Role>)
    ensures VisibleTo(NewSale, user) <==> user == Some(Cashier)
  {
    assert Roles(NewSale) == [Cashier];
  }

  /** Users, promotions, history, validations and settings are shown to
      administrators and to nobody else. */
  lemma AdministrationIsAdminOnly(e: Entry, user: Option<Role>)
    requires e in [Users, Promotions, Audit, Validations, Settings]
    ensures e in Shown(user) <==> user == Some(Admin)
  {
    AdministrationVisibility(e, user);
  }

  lemma AdministrationVisibility(e: Entry, user: Option<Role>)
    requires e in [Users, Promotions, Audit, Validations, Settings]
    ensures VisibleTo(e, user) <==> user == Some(Admin)
  {
    assert Roles(e) == [Admin];
  }

  /** Every link a role's menu can show lies under that role's path segment,
      dashboards included. */
  lemma LinkUnderOwnRole(e: Entry, role: Role)
    requires VisibleTo(e, Some(role))
    ensures var p := "/" + RoleName(role); var h := BuildHref(e, Some(role));
      |h| > |p| && h[..|p|] == p
  {
    var p := "/" + RoleName(role);
    if IsDashboard(e) {
      DashboardIsOwn(e, role);
      DashboardPath(e);
      assert Roles(e)[0] == role;
      assert BuildHref(e, Some(role)) == p + DashboardTail(e);
    } else {
      assert BuildHref(e, Some(role)) == p + Href(e);
    }
  }

  /** A menu entry is highlighted when its link is the current path; since the links
      differ, at most one entry is highlighted. */
  lemma AtMostOneActive(user: Option<Role>, pathname: string, i: nat, j: nat)
    requires i < |MenuHrefs(user)| && j < |MenuHrefs(user)|
    requires MenuHrefs(user)[i] == pathname && MenuHrefs(user)[j] == pathname
    ensures i == j
  {
  }
}
