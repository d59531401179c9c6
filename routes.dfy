/** The route table of the client and its guard (`ProtectedRoute`). Every
    page under `/app` sits behind a sign-in guard, and two of them also
    behind a role guard. */
module Routes {
  import opened Wrappers
  import Storage

  /** What a guard does with its children. */
  datatype Decision = Render | RedirectTo(path: string)

  /** Whether a user's role is among the listed ones; a missing role is in
      no list. */
  predicate HasRole(user: Storage.Account, roles: seq<string>)
  {
    user.role.Some? && user.role.value in roles
  }

  /** `ProtectedRoute`: without a user, to the sign-in page; with a role
      list the user's role is not in, to the dashboard; otherwise the
      children. */
  function Guard(user: Option<Storage.Account>, roles: Option<seq<string>>): (r: Decision)
    ensures user.None? ==> r == RedirectTo("/login")
    ensures user.Some? && roles.Some? && !HasRole(user.value, roles.value) ==> r == RedirectTo("/app/dashboard")
    ensures r == Render <==> user.Some? && (roles.None? || HasRole(user.value, roles.value))
    ensures r.RedirectTo? ==> r.path == "/login" || r.path == "/app/dashboard"
  {
    if user.None? then RedirectTo("/login")
    else if roles.Some? && !HasRole(user.value, roles.value) then RedirectTo("/app/dashboard")
    else Render
  }

  datatype Screen =
    | Landing | SignIn | SignUp | PublicTracking
    | DashboardScreen | OrdersScreen | PosDetailScreen(orderId: string) | ServicesScreen | UsersScreen
    | LogisticsScreen | PortalScreen | CustomerOrderScreen(orderId: string) | NewOrderScreen
    | CheckoutScreen | SettingsScreen

  /** The screens of the four public pages, outside the `/app` layout. */
  predicate Public(screen: Screen)
  {
    screen.Landing? || screen.SignIn? || screen.SignUp? || screen.PublicTracking?
  }

  /** What the browser ends up with for a path: a screen, or a redirect. */
  datatype View = Show(screen: Screen) | Go(to: string)

  /** A child route under `/app`: the roles its own guard asks for (None
      when it has no guard of its own) and its screen. */
  datatype Child = Child(roles: Option<seq<string>>, screen: Screen)

  /** A `:orderId` parameter: one non-empty path segment. */
  predicate Segment(s: string)
  {
    s != [] && '/' !in s
  }

  const StaffRoles: seq<string> := ["admin", "cashier"]
  const AdminRoles: seq<string> := ["admin"]

  /** The children of `/app`, by the path after `/app/`: the fixed pages,
      then the two pages that take an order id. */
  function AppChild(rest: string): (r: Option<Child>)
    ensures r.Some? && r.value.roles.Some? ==> r.value.roles.value in {StaffRoles, AdminRoles}
  {
    if '/' in rest then
      if |rest| > 7 && rest[..7] == "orders/" && Segment(rest[7..]) then Some(Child(Some(StaffRoles), PosDetailScreen(rest[7..])))
      else if |rest| > 10 && rest[..10] == "my-orders/" && Segment(rest[10..]) then Some(Child(None, CustomerOrderScreen(rest[10..])))
      else None
    else if rest == "dashboard" then Some(Child(None, DashboardScreen))
    else if rest == "orders" then Some(Child(None, OrdersScreen))
    else if rest == "services" then Some(Child(None, ServicesScreen))
    else if rest == "users" then Some(Child(Some(AdminRoles), UsersScreen))
    else if rest == "logistics" then Some(Child(None, LogisticsScreen))
    else if rest == "my-orders" then Some(Child(None, PortalScreen))
    else if rest == "new-order" then Some(Child(None, NewOrderScreen))
    else if rest == "checkout" then Some(Child(None, CheckoutScreen))
    else if rest == "settings" then Some(Child(None, SettingsScreen))
    else None
  }

  /** A guard's decision applied to a screen. */
  function Apply(d: Decision, screen: Screen): (r: View)
    ensures r.Show? <==> d == Render
  {
    match d
    case Render => Show(screen)
    case RedirectTo(p) => Go(p)
  }

  /** A child of `/app` as the browser gets it: the layout's sign-in guard
      first, then the child's own guard. */
  function InsideApp(user: Option<Storage.Account>, child: Child): (r: View)
    ensures user.None? ==> r == Go("/login")
    ensures r == Show(child.screen) <==> Guard(user, child.roles) == Render
    ensures r.Go? ==> r.to == "/login" || r.to == "/app/dashboard"
  {
    if Guard(user, None) != Render then Apply(Guard(user, None), child.screen)
    else Apply(Guard(user, child.roles), child.screen)
  }

  /** Where a path leads for a user: the four public pages, the `/app`
      index and children, and any other path back to the landing page. */
  function Resolve(path: string, user: Option<Storage.Account>): (r: View)
    ensures r.Go? ==> r.to == "/login" || r.to == "/app/dashboard" || r.to == "/"
    ensures r.Show? && !Public(r.screen) ==> user.Some?
    ensures r.Show? && Public(r.screen) ==> path in {"/", "/login", "/register", "/track"}
  {
    if path == "/" then Show(Landing)
    else if path == "/login" then Show(SignIn)
    else if path == "/register" then Show(SignUp)
    else if path == "/track" then Show(PublicTracking)
    else if path == "/app" then (if user.None? then Go("/login") else Go("/app/dashboard"))
    else if |path| > 5 && path[..5] == "/app/" && AppChild(path[5..]).Some? then InsideApp(user, AppChild(path[5..]).value)
    else Go("/")
  }

  /** A path under `/app/` naming a child leads where that child's guards
      send the user. */
  lemma ResolveChild(rest: string, user: Option<Storage.Account>)
    requires AppChild(rest).Some?
    ensures Resolve("/app/" + rest, user) == InsideApp(user, AppChild(rest).value)
  {
    var path := "/app/" + rest;
    assert path[..5] == "/app/" && path[5..] == rest;
    assert |path| > 5;
    assert path != "/app" && path != "/login" && path != "/track" && path != "/register" by {
      assert path[4] == '/';
    }
  }

  /** Without a user every `/app` page, the index included, leads to the
      sign-in page. */
  lemma AppNeedsSignIn(rest: string)
    requires AppChild(rest).Some?
    ensures Resolve("/app/" + rest, None) == Go("/login")
    ensures Resolve("/app", None) == Go("/login")
  {
    ResolveChild(rest, None);
  }

  /** The public pages show whoever asks. */
  lemma PublicPagesOpen(user: Option<Storage.Account>)
    ensures Resolve("/", user) == Show(Landing)
    ensures Resolve("/login", user) == Show(SignIn)
    ensures Resolve("/register", user) == Show(SignUp)
    ensures Resolve("/track", user) == Show(PublicTracking)
  {
  }

  /** A signed-in user asking for the `/app` index is sent to the
      dashboard. */
  lemma IndexGoesToDashboard(user: Option<Storage.Account>)
    requires user.Some?
    ensures Resolve("/app", user) == Go("/app/dashboard")
  {
  }

  /** `/app/users` shows only to an administrator; any other signed-in
      user is sent to the dashboard. */
  lemma UsersPageIsAdminOnly(user: Option<Storage.Account>)
    ensures Resolve("/app/users", user) == Show(UsersScreen) <==> user.Some? && user.value.role == Some("admin")
    ensures user.Some? && user.value.role != Some("admin") ==> Resolve("/app/users", user) == Go("/app/dashboard")
  {
    assert AppChild("users") == Some(Child(Some(AdminRoles), UsersScreen));
    ResolveChild("users", user);
    assert "/app/" + "users" == "/app/users";
  }

  /** An order's POS page shows only to an administrator or a cashier. */
  lemma PosDetailIsStaffOnly(user: Option<Storage.Account>, id: string)
    requires Segment(id)
    ensures Resolve("/app/orders/" + id, user) == Show(PosDetailScreen(id)) <==>
              user.Some? && (user.value.role == Some("admin") || user.value.role == Some("cashier"))
    ensures user.Some? && !(user.value.role == Some("admin") || user.value.role == Some("cashier")) ==>
              Resolve("/app/orders/" + id, user) == Go("/app/dashboard")
  {
    PosPath(user, id);
    if user.Some? {
      StaffRolesAre(user.value);
    }
  }

  lemma PosPath(user: Option<Storage.Account>, id: string)
    requires Segment(id)
    ensures Resolve("/app/orders/" + id, user) == InsideApp(user, Child(Some(StaffRoles), PosDetailScreen(id)))
  {
    var rest := "orders/" + id;
    PosChild(id);
    ResolveChild(rest, user);
    assert "/app/" + rest == "/app/orders/" + id by {
      assert "/app/" + "orders/" == "/app/orders/";
    }
  }

  /** `orders/:orderId` is the staff-only POS page of that order. */
  lemma PosChild(id: string)
    requires Segment(id)
    ensures AppChild("orders/" + id) == Some(Child(Some(StaffRoles), PosDetailScreen(id)))
  {
    var rest := "orders/" + id;
    assert rest[6] == '/' && rest[..7] == "orders/" && rest[7..] == id;
  }

  lemma StaffRolesAre(user: Storage.Account)
    ensures HasRole(user, StaffRoles) <==> user.role == Some("admin") || user.role == Some("cashier")
  {
  }

  /** Every `/app` page other than the user table and an order's POS page,
      the POS list and the service catalogue included, shows to any
      signed-in user whatever the role. */
  lemma SignInOnlyPagesShow(rest: string, user: Option<Storage.Account>)
    requires user.Some? && AppChild(rest).Some?
    requires rest != "users" && !(|rest| > 7 && rest[..7] == "orders/")
    ensures Resolve("/app/" + rest, user) == Show(AppChild(rest).value.screen)
  {
    assert AppChild(rest).value.roles.None?;
    ResolveChild(rest, user);
  }

  /** A path under `/app/` that names no child goes back to the landing
      page, for any user and before any guard runs. */
  lemma UnknownAppPathGoesHome(rest: string, user: Option<Storage.Account>)
    requires AppChild(rest).None?
    ensures Resolve("/app/" + rest, user) == Go("/")
  {
    var path := "/app/" + rest;
    assert path[..5] == "/app/" && path[5..] == rest;
    assert path != "/" && path != "/app" && path != "/login" && path != "/track" && path != "/register" by {
      assert path[4] == '/';
    }
  }

  /** Any path outside `/app` other than the four public pages goes back to
      the landing page, for any user. */
  lemma UnknownPathGoesHome(path: string, user: Option<Storage.Account>)
    requires path !in {"/", "/login", "/register", "/track", "/app"}
    requires !(|path| > 5 && path[..5] == "/app/")
    ensures Resolve(path, user) == Go("/")
  {
  }
}
