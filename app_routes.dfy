/** The route table of the application and its ProtectedRoute guard, as a function from the
    requested path and the session's user to the page rendered or the path redirected to. */
module AppRoutes {
  import opened Common
  import opened UserDetails

  datatype Page =
    | HomePage
    | AdminLoginPage | DriverLoginPage | UserLoginPage
    | AdminDashboardPage | DriverDashboardPage | UserDashboardPage

  datatype Outcome = Render(page: Page) | Redirect(target: string)

  /** The user's `role` member is the string `r`. */
  predicate HasRole(user: Option<User>, r: string) {
    user.Some? && Role in user.value && user.value[Role] == Text(r)
  }

  /** ProtectedRoute: render only for a logged-in user whose role is allowed; `includes`
      compares strictly, so an absent or boolean role is never allowed. */
  function Protected(user: Option<User>, allowedRoles: seq<string>, page: Page): Outcome {
    if user.None? then Redirect("/")
    else if !(Role in user.value && user.value[Role].Text? && user.value[Role].text in allowedRoles) then Redirect("/")
    else Render(page)
  }

  /** The path "/" redirects an authenticated user to: `/${user?.role}/dashboard`. */
  function HomeTarget(u: User): string {
    "/" + MemberString(u, Role) + "/dashboard"
  }

  /** The Routes element. Paths are compared exactly. */
  function Resolve(path: string, user: Option<User>): Outcome {
    if path == "/" then
      if user.None? then Render(HomePage) else Redirect(HomeTarget(user.value))
    else if path == "/admin/login" then
      if user.None? then Render(AdminLoginPage) else Redirect("/admin/dashboard")
    else if path == "/driver/login" then
      if user.None? then Render(DriverLoginPage) else Redirect("/driver/dashboard")
    else if path == "/user/login" then
      if user.None? then Render(UserLoginPage) else Redirect("/user/dashboard")
    else if path == "/admin/dashboard" then Protected(user, ["admin"], AdminDashboardPage)
    else if path == "/driver/dashboard" then Protected(user, ["driver"], DriverDashboardPage)
    else if path == "/user/dashboard" then Protected(user, ["user"], UserDashboardPage)
    else Redirect("/")
  }

  const RoutePaths: set<string> :=
    {"/", "/admin/login", "/driver/login", "/user/login",
     "/admin/dashboard", "/driver/dashboard", "/user/dashboard"}

  /** Follows redirects, at most `fuel` resolutions; None when the chain is longer. */
  function Settle(path: string, user: Option<User>, fuel: nat): Option<Page>
    decreases fuel
  {
    if fuel == 0 then None
    else match Resolve(path, user)
         case Render(p) => Some(p)
         case Redirect(q) => Settle(q, user, fuel - 1)
  }

  function DashboardOf(r: string): Page
    requires r in {"admin", "driver", "user"}
  {
    if r == "admin" then AdminDashboardPage
    else if r == "driver" then DriverDashboardPage
    else UserDashboardPage
  }

  // ---- properties ----

  /** ProtectedRoute renders its children exactly for a user whose role is allowed;
      every refusal redirects to "/". */
  lemma ProtectedIff(user: Option<User>, allowedRoles: seq<string>, page: Page)
    ensures Protected(user, allowedRoles, page) == Render(page) <==>
      exists r :: r in allowedRoles && HasRole(user, r)
    ensures Protected(user, allowedRoles, page) != Render(page) ==>
      Protected(user, allowedRoles, page) == Redirect("/")
  {
    if Protected(user, allowedRoles, page) == Render(page) {
      var r := user.value[Role].text;
      assert r in allowedRoles && HasRole(user, r);
    }
  }

  /** Each dashboard admits exactly one role. */
  lemma DashboardsAdmitOneRole(user: Option<User>)
    ensures Resolve("/admin/dashboard", user) == (if HasRole(user, "admin") then Render(AdminDashboardPage) else Redirect("/"))
    ensures Resolve("/driver/dashboard", user) == (if HasRole(user, "driver") then Render(DriverDashboardPage) else Redirect("/"))
    ensures Resolve("/user/dashboard", user) == (if HasRole(user, "user") then Render(UserDashboardPage) else Redirect("/"))
  {
  }

  /** A login page renders for a visitor; a logged-in user is sent to that page's own
      dashboard whatever the user's role. */
  lemma LoginRoutes(user: Option<User>)
    ensures user.None? ==> Resolve("/admin/login", user) == Render(AdminLoginPage)
    ensures user.None? ==> Resolve("/driver/login", user) == Render(DriverLoginPage)
    ensures user.None? ==> Resolve("/user/login", user) == Render(UserLoginPage)
    ensures user.Some? ==> Resolve("/admin/login", user) == Redirect("/admin/dashboard")
    ensures user.Some? ==> Resolve("/driver/login", user) == Redirect("/driver/dashboard")
    ensures user.Some? ==> Resolve("/user/login", user) == Redirect("/user/dashboard")
  {
  }

  /** Any path outside the table redirects to "/". */
  lemma UnmatchedRedirectsHome(path: string, user: Option<User>)
    requires path !in RoutePaths
    ensures Resolve(path, user) == Redirect("/")
  {
  }

  /** "/" shows the home page to a visitor and sends a logged-in user to the dashboard named
      by the role. */
  lemma RootRoute(user: Option<User>)
    ensures user.None? ==> Resolve("/", user) == Render(HomePage)
    ensures user.Some? ==> Resolve("/", user) == Redirect("/" + MemberString(user.value, Role) + "/dashboard")
  {
  }

  /** The dashboard path built from a role string matches a route only for the three roles. */
  lemma HomeTargetMatches(r: string)
    ensures "/" + r + "/dashboard" == "/admin/dashboard" <==> r == "admin"
    ensures "/" + r + "/dashboard" == "/driver/dashboard" <==> r == "driver"
    ensures "/" + r + "/dashboard" == "/user/dashboard" <==> r == "user"
    ensures "/" + r + "/dashboard" !in {"/", "/admin/login", "/driver/login", "/user/login"}
  {
    var p := "/" + r + "/dashboard";
    assert p[1..|p| - 10] == r;
    assert p[|p| - 1] == 'd';
    assert "/admin/dashboard"[1..6] == "admin";
    assert "/driver/dashboard"[1..7] == "driver";
    assert "/user/dashboard"[1..5] == "user";
  }

  /** For a user whose role is admin, driver or user, every path settles, within four
      resolutions, on that role's own dashboard (for example another role's login page, then
      that role's dashboard, then "/", then the user's own dashboard). */
  lemma ChainsEndAtOwnDashboard(path: string, u: User, r: string)
    requires r in {"admin", "driver", "user"}
    requires Role in u && u[Role] == Text(r)
    ensures Settle(path, Some(u), 4) == Some(DashboardOf(r))
  {
    var user := Some(u);
    HomeTargetMatches(r);
    assert MemberString(u, Role) == r;
    assert Resolve(HomeTarget(u), user) == Render(DashboardOf(r));
    assert Settle("/", user, 2) == Some(DashboardOf(r));
  }

  /** A visitor always settles within two resolutions, on a login page or the home page. */
  lemma VisitorSettles(path: string)
    ensures Settle(path, None, 2).Some?
    ensures Settle(path, None, 2).value in {HomePage, AdminLoginPage, DriverLoginPage, UserLoginPage}
    ensures path !in {"/admin/login", "/driver/login", "/user/login"} ==> Settle(path, None, 2) == Some(HomePage)
  {
  }

  /** For a logged-in user with any other role (or none), "/" and the catch-all send the
      browser back and forth forever: no number of resolutions settles. */
  lemma {:induction false} OtherRolesLoop(u: User, fuel: nat)
    requires !(Role in u && u[Role] in {Text("admin"), Text("driver"), Text("user")})
    ensures Resolve("/", Some(u)) == Redirect(HomeTarget(u))
    ensures Resolve(HomeTarget(u), Some(u)) == Redirect("/")
    ensures Settle("/", Some(u), fuel) == None
    ensures Settle(HomeTarget(u), Some(u), fuel) == None
    decreases fuel
  {
    var r := MemberString(u, Role);
    HomeTargetMatches(r);
    assert r !in {"admin", "driver", "user"};
    assert HomeTarget(u) !in RoutePaths;
    if fuel > 0 {
      OtherRolesLoop(u, fuel - 1);
    }
  }
}
