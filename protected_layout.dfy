/** The gate in front of every back-office page: a spinner while the session loads,
    a redirect to the login page without a user, a redirect to the role's home when
    the page is not for that role, and the page otherwise
    (components/layout/protected-layout.tsx). `router.push` is modelled as the
    returned redirect target. */
module ProtectedLayout {
  import opened Wrappers
  import opened Entities
  import Sidebar

  /** What the component renders. */
  datatype Screen = Spinner | Blank | Page

  /** What one pass of the component does: what it renders, and where the effect
      sends the browser, if anywhere. */
  datatype Decision = Decision(screen: Screen, redirect: Option<string>)

  const LoginPath := "/login"

  /** The home each role is sent to when a page is not for it. */
  function RoleHome(role: Role): string
  {
    match role
    case Admin => "/admin/dashboard"
    case StockManager => "/stock/dashboard"
    case Cashier => "/cashier/dashboard"
  }

  /** `!allowedRoles || allowedRoles.includes(role)`; an empty list admits nobody. */
  predicate Admits(allowedRoles: Option<seq<Role>>, role: Role)
  {
    allowedRoles.None? || role in allowedRoles.value
  }

  /** The effect: nothing while loading; the login page without a user; the role's
      home when the role is not admitted. */
  function Redirect(loading: bool, user: Option<Role>, allowedRoles: Option<seq<Role>>): (r: Option<string>)
    ensures r.None? <==> loading || (user.Some? && Admits(allowedRoles, user.value))
    ensures r == Some(LoginPath) <==> !loading && user.None?
    ensures r.Some? && user.Some? ==> r.value == RoleHome(user.value)
  {
    if loading then None
    else if user.None? then Some(LoginPath)
    else if !Admits(allowedRoles, user.value) then Some(RoleHome(user.value))
    else None
  }

  /** The rendered output: the spinner while loading, nothing without an admitted
      user, the page otherwise. */
  function Render(loading: bool, user: Option<Role>, allowedRoles: Option<seq<Role>>): (s: Screen)
    ensures s == Spinner <==> loading
    ensures s == Page <==> !loading && user.Some? && Admits(allowedRoles, user.value)
  {
    if loading then Spinner
    else if user.None? || !Admits(allowedRoles, user.value) then Blank
    else Page
  }

  /** One pass of the layout: the effect and the rendering agree. The page is shown
      exactly when nothing redirects and the session has loaded, and a redirect
      always comes with a blank screen. */
  function Decide(loading: bool, user: Option<Role>, allowedRoles: Option<seq<Role>>): (d: Decision)
    ensures loading ==> d == Decision(Spinner, None)
    ensures !loading && user.None? ==> d == Decision(Blank, Some(LoginPath))
    ensures d.screen == Page <==> !loading && user.Some? && Admits(allowedRoles, user.value)
    ensures !loading && user.Some? && !Admits(allowedRoles, user.value) ==>
      d == Decision(Blank, Some(RoleHome(user.value)))
    ensures d.redirect.Some? <==> d.screen == Blank
  {
    Decision(Render(loading, user, allowedRoles), Redirect(loading, user, allowedRoles))
  }

  /** A page declared with an empty list of roles turns every signed-in user away. */
  lemma EmptyRoleListAdmitsNobody(role: Role)
    ensures Decide(false, Some(role), Some([])) == Decision(Blank, Some(RoleHome(role)))
  {
  }

  /** Without a role list, any signed-in user sees the page. */
  lemma NoRoleListAdmitsEveryone(role: Role)
    ensures Decide(false, Some(role), None) == Decision(Page, None)
  {
  }

  /** The home a turned-away user is sent to is not the dashboard link the side menu
      gives that role. */
  lemma HomeIsNotTheMenuDashboard(role: Role)
    ensures RoleHome(role) != Sidebar.BuildHref(Sidebar.DashboardOf(role), Some(role))
  {
    var h := Sidebar.BuildHref(Sidebar.DashboardOf(role), Some(role));
    match role
    case Admin => assert |h| != |RoleHome(role)|;
    case StockManager => assert |h| != |RoleHome(role)|;
    case Cashier => assert |h| != |RoleHome(role)|;
  }
}
