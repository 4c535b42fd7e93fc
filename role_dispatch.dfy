/** What the two clients show for a session: the dashboard router of the web
    client (health-republic-frontend/src/pages/DashboardRouter.tsx) and the
    top-level switch of the second client (src/App.tsx). Both compare the
    role string exactly. */
module RoleDispatch {
  import opened Common
  import opened ApiClient

  // ---------------------------------------------------------------------------
  // DashboardRouter
  // ---------------------------------------------------------------------------

  /** What a route renders. */
  datatype Page = AdminDashboard | AdminUsers | CollectivesAdmin | SupplierDashboard | MemberDashboard
                | RedirectToApp

  datatype Route = Route(path: string, page: Page)

  /** The router's output: the loading text, a redirect to /login, or a
      route table under /app. */
  datatype Screen = LoadingProfile | RedirectToLogin | Routes(routes: seq<Route>)

  const CatchAll := "*"

  const AdminRoutes := [Route("", AdminDashboard), Route("admin/users", AdminUsers),
                        Route("admin/collectives", CollectivesAdmin), Route(CatchAll, RedirectToApp),
                        Route("admin/users", AdminUsers)]
  const SupplierRoutes := [Route("", SupplierDashboard), Route(CatchAll, RedirectToApp)]
  const MemberRoutes := [Route("", MemberDashboard), Route(CatchAll, RedirectToApp)]

  /** `DashboardRouter`: loading first, then a missing user, then the role. */
  function DashboardRouter(isLoadingProfile: bool, user: Option<MeUser>): (s: Screen)
    ensures isLoadingProfile ==> s == LoadingProfile
    ensures !isLoadingProfile && user.None? ==> s == RedirectToLogin
    ensures !isLoadingProfile && user.Some? ==>
              s == Routes(if user.value.role == "admin" then AdminRoutes
                          else if user.value.role == "supplier" then SupplierRoutes
                          else MemberRoutes)
  {
    if isLoadingProfile then LoadingProfile
    else if user.None? then RedirectToLogin
    else if user.value.role == "admin" then Routes(AdminRoutes)
    else if user.value.role == "supplier" then Routes(SupplierRoutes)
    else Routes(MemberRoutes)
  }

  /** The first route with exactly this path, if any. */
  function Exact(routes: seq<Route>, path: string): (r: Option<Page>)
    ensures r.None? <==> forall k :: 0 <= k < |routes| ==> routes[k].path != path
    ensures r.Some? ==> exists k :: 0 <= k < |routes| && routes[k] == Route(path, r.value)
    decreases |routes|
  {
    if routes == [] then None
    else if routes[0].path == path then Some(routes[0].page)
    else
      var r := Exact(routes[1..], path);
      assert r.Some? ==> exists k :: 0 <= k < |routes[1..]| && routes[1..][k] == Route(path, r.value);
      assert forall k :: 1 <= k < |routes| ==> routes[k] == routes[1..][k - 1];
      r
  }

  /** The page a path under /app renders: a route naming the path beats
      the catch-all. */
  function Resolve(routes: seq<Route>, path: string): Option<Page> {
    match Exact(routes, path)
    case Some(p) => Some(p)
    case None => Exact(routes, CatchAll)
  }

  /** The exact role "admin" reaches all three admin pages. */
  lemma AdminPages(user: MeUser)
    requires user.role == "admin"
    ensures Resolve(DashboardRouter(false, Some(user)).routes, "") == Some(AdminDashboard)
    ensures Resolve(DashboardRouter(false, Some(user)).routes, "admin/users") == Some(AdminUsers)
    ensures Resolve(DashboardRouter(false, Some(user)).routes, "admin/collectives") == Some(CollectivesAdmin)
  {
    var routes := AdminRoutes;
    assert routes[2..][0] == Route("admin/collectives", CollectivesAdmin);
    assert Exact(routes[2..], "admin/collectives") == Some(CollectivesAdmin);
    assert Exact(routes[1..], "admin/collectives") == Some(CollectivesAdmin);
  }

  /** No other role reaches an admin page, whatever the path. */
  lemma OnlyAdminPages(user: MeUser, path: string)
    requires user.role != "admin"
    ensures Resolve(DashboardRouter(false, Some(user)).routes, path) !in
              {Some(AdminDashboard), Some(AdminUsers), Some(CollectivesAdmin)}
  {
    var s := DashboardRouter(false, Some(user));
    if Exact(s.routes, path).Some? {
      var k :| 0 <= k < |s.routes| && s.routes[k] == Route(path, Exact(s.routes, path).value);
    } else {
      assert s.routes[1] == Route(CatchAll, RedirectToApp);
    }
  }

  /** The exact role "supplier" sees its dashboard at /app, and every other
      path sends it back to /app. */
  lemma SupplierPages(user: MeUser, path: string)
    requires user.role == "supplier"
    ensures var s := DashboardRouter(false, Some(user));
            && Resolve(s.routes, "") == Some(SupplierDashboard)
            && (path != "" ==> Resolve(s.routes, path) == Some(RedirectToApp))
  {
    var s := DashboardRouter(false, Some(user));
    if path != "" && path != CatchAll {
      assert Exact(s.routes, path).None?;
    }
  }

  /** Every role other than "admin" and "supplier", among them the stored
      roles "Member" and "Insurance Supplier", gets the member dashboard. */
  lemma OtherRolesAreMembers(user: MeUser, path: string)
    requires user.role != "admin" && user.role != "supplier"
    ensures var s := DashboardRouter(false, Some(user));
            && Resolve(s.routes, "") == Some(MemberDashboard)
            && (path != "" ==> Resolve(s.routes, path) == Some(RedirectToApp))
  {
    var s := DashboardRouter(false, Some(user));
    if path != "" && path != CatchAll {
      assert Exact(s.routes, path).None?;
    }
  }

  // ---------------------------------------------------------------------------
  // AppInner
  // ---------------------------------------------------------------------------

  datatype AppScreen = Loading | LoginPage | MemberView | ProviderView | AdminView

  /** `AppInner`: loading first, then a missing (or empty) token or user,
      then the role. */
  function AppInner(loading: bool, accessToken: Option<string>, user: Option<MeUser>): (v: AppScreen)
    ensures loading ==> v == Loading
    ensures !loading && (!Truthy(accessToken) || user.None?) ==> v == LoginPage
    ensures !loading && Truthy(accessToken) && user.Some? ==>
              && (user.value.role == "supplier" <==> v == ProviderView)
              && (user.value.role == "admin" <==> v == AdminView)
              && (user.value.role != "supplier" && user.value.role != "admin" <==> v == MemberView)
  {
    if loading then Loading
    else if !Truthy(accessToken) || user.None? then LoginPage
    else match user.value.role
      case "member" => MemberView
      case "supplier" => ProviderView
      case "admin" => AdminView
      case _ => MemberView
  }
}
