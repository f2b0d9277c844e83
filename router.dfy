/** The navigation guard (`src/router/index.ts`): the static route table's
    metadata, the allow/redirect decision the `beforeEach` hook takes over a
    snapshot of the session store, the page title it computes, and the hook
    itself, which first hydrates a store that is not yet initialised. */
module Router {
  import opened Js
  import opened Auth

  /** A route record's `meta`: each entry may be left undeclared. */
  datatype RouteMeta = RouteMeta(
    requiresAuth: Option<bool>,
    allowedRoles: Option<seq<Role>>,
    title: Option<string>)

  const NoMeta: RouteMeta := RouteMeta(None, None, None)

  /** The destination of a navigation: its path, the metas of the records it
      matched (parent first) and the merged meta. */
  datatype Destination = Destination(path: string, matched: seq<RouteMeta>, meta: RouteMeta)

  datatype Decision = Allow | Redirect(target: string)

  const SigninPath: string := "/signin"
  const HomePath: string := "/"
  const RiderProfilePath: string := "/rider/profile"

  /** The pages an authenticated user is sent away from. */
  const PublicPages: seq<string> := ["/signin", "/signup", "/password-reset", "/rider/signup"]

  const AppName: string := "GasoPay"
  const TitlePrefix: string := "GasoPay | "

  /** `to.matched.some(record => record.meta.requiresAuth)` */
  function RequiresAuth(matched: seq<RouteMeta>): (b: bool)
    ensures b <==> exists i :: 0 <= i < |matched| && matched[i].requiresAuth == Some(true)
  {
    if matched == [] then false
    else matched[0].requiresAuth == Some(true) || RequiresAuth(matched[1..])
  }

  /** The guard's decision over the (already hydrated) store state. */
  function Decide(s: State, to: Destination): (d: Decision)
    ensures d.Redirect? ==> d.target in {SigninPath, HomePath, RiderProfilePath}
    ensures RequiresAuth(to.matched) && !IsAuthenticated(s) ==> d == Redirect(SigninPath)
    ensures RequiresAuth(to.matched) && IsAuthenticated(s) && to.meta.allowedRoles.Some?
            && (UserRoleTyped(s).None? || UserRoleTyped(s).value !in to.meta.allowedRoles.value)
            ==> d == Redirect(HomePath)
    ensures RequiresAuth(to.matched) && IsAuthenticated(s)
            && (to.meta.allowedRoles.None? || (UserRoleTyped(s).Some? && UserRoleTyped(s).value in to.meta.allowedRoles.value))
            ==> d == Allow
    ensures !RequiresAuth(to.matched) && IsAuthenticated(s) && to.path in PublicPages ==>
              d == Redirect(if UserRoleTyped(s) == Some(Rider) || UserRoleTyped(s) == Some(SuperAdmin)
                            then RiderProfilePath else HomePath)
    ensures !RequiresAuth(to.matched) && !(IsAuthenticated(s) && to.path in PublicPages) ==> d == Allow
    ensures d == Redirect(SigninPath) ==> RequiresAuth(to.matched) && !IsAuthenticated(s)
  {
    var requiresAuth := RequiresAuth(to.matched);
    var allowedRoles := to.meta.allowedRoles;
    var currentRole := UserRoleTyped(s);
    if requiresAuth then
      if !Present(s.token) || s.currentUser.None? then Redirect(SigninPath)
      else if allowedRoles.Some? && (currentRole.None? || currentRole.value !in allowedRoles.value) then Redirect(HomePath)
      else Allow
    else if IsAuthenticated(s) && to.path in PublicPages then
      var isRiderOrSuperAdmin := currentRole == Some(Rider) || currentRole == Some(SuperAdmin);
      Redirect(if isRiderOrSuperAdmin then RiderProfilePath else HomePath)
    else Allow
  }

  /** `document.title` for a destination. */
  function PageTitle(meta: RouteMeta): (t: string)
    ensures |t| >= |AppName| && t[..|AppName|] == AppName
    ensures Present(meta.title) <==> |t| > |AppName|
    ensures Present(meta.title) ==> |t| >= |TitlePrefix| && t[..|TitlePrefix|] == TitlePrefix
                                    && t[|TitlePrefix|..] == meta.title.value
  {
    if Present(meta.title) then TitlePrefix + meta.title.value else AppName
  }

  /** The store the decision is taken over: hydrated first when it is not yet initialised. */
  function Settled(s: State): (r: State)
    requires SlotsWellFormed(s.storage)
    ensures r.isInitialized
    ensures SlotsWellFormed(r.storage)
    ensures Inv(s) ==> Inv(r)
  {
    if s.isInitialized then s else Hydrated(s)
  }

  /** The beforeEach hook: returns the decision (the argument of `next`) and
      the page title it assigns. */
  method BeforeEach(store: Session, to: Destination) returns (decision: Decision, title: string)
    requires store.Valid()
    modifies store
    ensures store.Valid() && store.isInitialized
    ensures store.Snapshot() == Settled(old(store.Snapshot()))
    ensures decision == Decide(store.Snapshot(), to)
    ensures title == PageTitle(to.meta)
  {
    if !store.isInitialized {
      store.LoadAuthFromStorage();
    }
    title := PageTitle(to.meta);
    decision := Decide(store.Snapshot(), to);
  }

  // ---------------------------------------------------------------------
  // The route table

  /** A record's path: a literal path, or a literal prefix followed by one
      dynamic segment (`/admin/rider-profile/:id`). */
  datatype PathPattern = Exact(path: string) | WithParam(prefix: string)

  /** A route record; `nested` records are children of the `/` layout
      record, which declares no meta. */
  datatype RouteRecord = RouteRecord(name: string, pattern: PathPattern, meta: RouteMeta, nested: bool)

  function Matches(p: PathPattern, path: string): bool {
    match p
    case Exact(q) => path == q
    case WithParam(prefix) =>
      |path| > |prefix| && path[..|prefix|] == prefix && '/' !in path[|prefix|..]
  }

  function Protected(title: string): RouteMeta {
    RouteMeta(Some(true), None, Some(title))
  }

  function AuthFor(title: string, roles: seq<Role>): RouteMeta {
    RouteMeta(Some(true), Some(roles), Some(title))
  }

  function Titled(title: string): RouteMeta {
    RouteMeta(None, None, Some(title))
  }

  const Staff: seq<Role> := [Admin, SuperAdmin]

  const DashboardRoute: RouteRecord := RouteRecord("Ecommerce", Exact("/"), Protected("Dashboard"), true)
  const RiderProfileRoute: RouteRecord :=
    RouteRecord("RiderProfile", Exact("/rider/profile"), AuthFor("Rider Profile", [Rider, SuperAdmin]), true)
  const SigninRoute: RouteRecord := RouteRecord("Signin", Exact("/signin"), Titled("Signin"), false)
  const NotFoundRoute: RouteRecord := RouteRecord("404 Error", Exact("/error-404"), Titled("404 Error"), false)

  /** The children of the `/` layout record, in declaration order. */
  const LayoutChildren: seq<RouteRecord> := [
    DashboardRoute,
    RouteRecord("Calendar", Exact("/calendar"), Protected("Calendar"), true),
    RouteRecord("Profile", Exact("/profile"), Protected("Profile"), true),
    RouteRecord("Form Elements", Exact("/form-elements"), Protected("Form Elements"), true),
    RouteRecord("Basic Tables", Exact("/basic-tables"), Protected("Basic Tables"), true),
    RouteRecord("Line Chart", Exact("/line-chart"), RouteMeta(Some(true), None, None), true),
    RouteRecord("Bar Chart", Exact("/bar-chart"), RouteMeta(Some(true), None, None), true),
    RouteRecord("Alerts", Exact("/alerts"), Protected("Alerts"), true),
    RouteRecord("Avatars", Exact("/avatars"), Protected("Avatars"), true),
    RouteRecord("Badge", Exact("/badge"), Protected("Badge"), true),
    RouteRecord("Buttons", Exact("/buttons"), Protected("Buttons"), true),
    RouteRecord("Images", Exact("/images"), Protected("Images"), true),
    RouteRecord("Videos", Exact("/videos"), Protected("Videos"), true),
    RouteRecord("Blank", Exact("/blank"), Protected("Blank"), true),
    RouteRecord("Riders", Exact("/riders"), Protected("Riders"), true),
    RouteRecord("Purchase", Exact("/purchase"), Protected("Purchase"), true),
    RouteRecord("ProductManagement", Exact("/admin/products"), Protected("Product Management"), true),
    RouteRecord("OrderHistory", Exact("/admin/orders"), AuthFor("Order History", Staff), true),
    RouteRecord("RegistrationApproval", Exact("/admin/registration-approval"), AuthFor("Registration Approval", Staff), true),
    RouteRecord("RiderList", Exact("/admin/riders"), AuthFor("All Riders", Staff), true),
    RiderProfileRoute,
    RouteRecord("GlobalTransactions", Exact("/admin/transactions"), RouteMeta(Some(false), None, Some("Global Transactions")), true),
    RouteRecord("SuperAdminAdmins", Exact("/admin/admins"), Protected("Admin Management"), true),
    RouteRecord("SuperAdminBranches", Exact("/super-admin/branches"), Protected("Branch Overview"), true),
    RouteRecord("SuperAdminAnalytics", Exact("/admin/analytics"), Protected("System Analytics"), true),
    RouteRecord("SuperAdminStatsReports", Exact("/admin/stats-reports"), Protected("Stats & Reports"), true),
    RouteRecord("BranchAdminDashboard", Exact("/branch-admin"), Protected("Branch Dashboard"), true),
    RouteRecord("BranchAdminQRScanner", Exact("/branch-admin/qr-scanner"), Protected("QR Scanner"), true),
    RouteRecord("RiderProfileView", WithParam("/admin/rider-profile/"), Protected("Rider Profile"), true),
    RouteRecord("LandingPage", Exact("/home"), NoMeta, true),
    RouteRecord("BranchAdminOrderHistory", Exact("/branch-admin/orders"), Protected("Order History"), true),
    RouteRecord("BranchAdminPendingApprovals", Exact("/branch-admin/pending-approvals"), AuthFor("Pending Approvals", Staff), true),
    RouteRecord("BranchAdminCreateRider", Exact("/branch-admin/create-rider"), AuthFor("Create Rider", Staff), true)
  ]

  /** The top-level records without the layout. */
  const TopLevelRoutes: seq<RouteRecord> := [
    SigninRoute,
    RouteRecord("Signup", Exact("/signup"), Titled("Signup"), false),
    RouteRecord("PasswordReset", Exact("/password-reset"), Titled("Reset Password"), false),
    RouteRecord("RiderSignup", Exact("/rider/signup"), Titled("Rider Signup"), false),
    RouteRecord("LandingPage", Exact("/home"), NoMeta, false),
    NotFoundRoute
  ]

  const Routes: seq<RouteRecord> := LayoutChildren + TopLevelRoutes

  /** The first record of `routes` matching `path`. */
  function FirstMatch(routes: seq<RouteRecord>, path: string): (r: Option<RouteRecord>)
    ensures r.Some? ==> r.value in routes && Matches(r.value.pattern, path)
    ensures r.None? ==> forall q :: q in routes ==> !Matches(q.pattern, path)
  {
    if routes == [] then None
    else if Matches(routes[0].pattern, path) then Some(routes[0])
    else FirstMatch(routes[1..], path)
  }

  /** Declaration order decides: the earliest record matching a path is the
      one found, whatever later records match too. */
  lemma {:induction false} EarliestMatch(routes: seq<RouteRecord>, k: nat, path: string)
    requires k < |routes| && Matches(routes[k].pattern, path)
    requires forall i :: 0 <= i < k ==> !Matches(routes[i].pattern, path)
    ensures FirstMatch(routes, path) == Some(routes[k])
  {
    if k > 0 {
      EarliestMatch(routes[1..], k - 1, path);
    }
  }

  /** The destination a navigation to `path` produces: the record it
      resolves to, or, for a path no record matches, the catch-all's
      redirect to `/error-404`. */
  function DestinationOf(path: string): (d: Destination)
    ensures FirstMatch(Routes, path).Some? ==>
              d.path == path && d.meta == FirstMatch(Routes, path).value.meta
    ensures FirstMatch(Routes, path).None? ==>
              d.path == NotFoundRoute.pattern.path && d.meta == NotFoundRoute.meta
    ensures |d.matched| > 0 && d.matched[|d.matched| - 1] == d.meta
    ensures RequiresAuth(d.matched) <==> d.meta.requiresAuth == Some(true)
  {
    match FirstMatch(Routes, path)
    case Some(r) => Destination(path, if r.nested then [NoMeta, r.meta] else [r.meta], r.meta)
    case None => Destination("/error-404", [NotFoundRoute.meta], NotFoundRoute.meta)
  }

  /** Each page the guard redirects to resolves to its own record. */
  lemma RedirectTargetsResolve()
    ensures DestinationOf(SigninPath) == Destination(SigninPath, [SigninRoute.meta], SigninRoute.meta)
    ensures DestinationOf(HomePath) == Destination(HomePath, [NoMeta, DashboardRoute.meta], DashboardRoute.meta)
    ensures DestinationOf(RiderProfilePath) == Destination(RiderProfilePath, [NoMeta, RiderProfileRoute.meta], RiderProfileRoute.meta)
  {
    SigninResolves();
    HomeResolves();
    RiderProfileResolves();
  }

  lemma SigninResolves()
    ensures FirstMatch(Routes, SigninPath) == Some(SigninRoute)
  {
    EarliestMatch(Routes, 33, SigninPath);
  }

  lemma HomeResolves()
    ensures FirstMatch(Routes, HomePath) == Some(DashboardRoute)
  {
    EarliestMatch(Routes, 0, HomePath);
  }

  lemma RiderProfileResolves()
    ensures FirstMatch(Routes, RiderProfilePath) == Some(RiderProfileRoute)
  {
    EarliestMatch(Routes, 20, RiderProfilePath);
  }

  /** The sign-in page is let through for a visitor who is not signed in. */
  lemma SigninAllowed(s: State)
    requires !IsAuthenticated(s)
    ensures Decide(s, DestinationOf(SigninPath)) == Allow
  {
    RedirectTargetsResolve();
    assert !RequiresAuth([SigninRoute.meta]);
  }

  /** The dashboard is let through for any signed-in user. */
  lemma HomeAllowed(s: State)
    requires IsAuthenticated(s)
    ensures Decide(s, DestinationOf(HomePath)) == Allow
  {
    RedirectTargetsResolve();
    assert RequiresAuth([NoMeta, DashboardRoute.meta]) by {
      assert [NoMeta, DashboardRoute.meta][1].requiresAuth == Some(true);
    }
  }

  /** The rider profile is let through for exactly the signed-in riders and
      super admins; any other signed-in user is sent to the dashboard. */
  lemma RiderProfileAllowed(s: State)
    requires IsAuthenticated(s)
    ensures Decide(s, DestinationOf(RiderProfilePath)) ==
              if UserRoleTyped(s) == Some(Rider) || UserRoleTyped(s) == Some(SuperAdmin) then Allow
              else Redirect(HomePath)
  {
    RedirectTargetsResolve();
    assert RequiresAuth([NoMeta, RiderProfileRoute.meta]) by {
      assert [NoMeta, RiderProfileRoute.meta][1].requiresAuth == Some(true);
    }
  }

  /** No redirect loops: whatever the destination, when the guard redirects,
      the page it redirects to is allowed for the same user, and the store
      needs no second hydration on the way there. */
  lemma NoRedirectLoop(s: State, to: Destination)
    requires SlotsWellFormed(s.storage)
    ensures var settled := Settled(s);
            Decide(settled, to).Redirect? ==>
              var next := DestinationOf(Decide(settled, to).target);
              && Settled(settled) == settled
              && next.path == Decide(settled, to).target
              && Decide(settled, next) == Allow
  {
    var settled := Settled(s);
    var d := Decide(settled, to);
    RedirectTargetsResolve();
    if d == Redirect(SigninPath) {
      SigninAllowed(settled);
    } else if d == Redirect(HomePath) {
      HomeAllowed(settled);
    } else if d == Redirect(RiderProfilePath) {
      RiderProfileAllowed(settled);
    }
  }
}
