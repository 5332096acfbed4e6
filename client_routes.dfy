/** The browser client's routing: the `PrivateRoute` guard and the route table
    of the application shell, as a function from a pathname and the stored
    login record to what is shown. */
module ClientRoutes {
  import opened Common

  /** The parsed `userInfo` record kept after login; only its role matters
      here, and the role may be missing from it. */
  datatype UserInfo = UserInfo(role: Option<string>)

  predicate IsAdminInfo(u: UserInfo) { u.role.Some? && u.role.value == "admin" }

  datatype Page = HomePage | FeaturesPage | RegisterPage | LoginPage
                | PredictPage | HistoryPage | ProfilePage | AdminDashboardPage

  /** What a route shows: a page, or a replacing redirect to another path. */
  datatype View = Render(page: Page) | Redirect(to: string)

  /** `PrivateRoute`: `stored` is None when no (or an empty) `userInfo` item is
      stored. Without a login the guard sends the visitor to /login; a login
      without the admin role is sent to / when the route requires an admin;
      otherwise the guarded page is shown. */
  function Guard(stored: Option<UserInfo>, adminRequired: bool, child: Page): (v: View)
    ensures stored.None? ==> v == Redirect("/login")
    ensures stored.Some? && adminRequired && !IsAdminInfo(stored.value) ==> v == Redirect("/")
    ensures v.Render? <==> stored.Some? && (!adminRequired || IsAdminInfo(stored.value))
    ensures v.Render? ==> v.page == child
  {
    if stored.None? then Redirect("/login")
    else if adminRequired && !IsAdminInfo(stored.value) then Redirect("/")
    else Render(child)
  }

  /** Without `adminRequired` the role is never consulted: every login passes,
      whatever role (or none) it carries. */
  lemma GuardIgnoresRoleWithoutAdmin(a: UserInfo, b: UserInfo, child: Page)
    ensures Guard(Some(a), false, child) == Guard(Some(b), false, child) == Render(child)
  {
  }

  /** One entry of the route table. */
  datatype Route = Route(path: string, page: Page, guarded: bool, adminRequired: bool)

  function RoutePath(r: Route): string { r.path }

  /** The table in declaration order: four public pages, three pages behind
      the login guard and the admin dashboard behind the admin guard. */
  const RouteTable: seq<Route> := [
    Route("/", HomePage, false, false),
    Route("/features", FeaturesPage, false, false),
    Route("/register", RegisterPage, false, false),
    Route("/login", LoginPage, false, false),
    Route("/predict", PredictPage, true, false),
    Route("/history", HistoryPage, true, false),
    Route("/profile", ProfilePage, true, false),
    Route("/admin", AdminDashboardPage, true, true)
  ]

  const PublicPaths: set<string> := {"/", "/features", "/register", "/login"}
  const LoginPaths: set<string> := {"/predict", "/history", "/profile"}

  /** The entry a pathname selects; None means the catch-all route. */
  function Lookup(path: string): (r: Option<Route>)
    ensures r.None? <==> forall j :: 0 <= j < |RouteTable| ==> RouteTable[j].path != path
    ensures r.Some? ==> r.value in RouteTable && r.value.path == path
  {
    var k := FindFirst(RouteTable, RoutePath, path);
    assert forall j :: 0 <= j < |RouteTable| ==> RoutePath(RouteTable[j]) == RouteTable[j].path;
    if k.None? then None else Some(RouteTable[k.value])
  }

  /** No two entries share a path. */
  lemma RoutePathsDistinct()
    ensures forall i, j :: 0 <= i < j < |RouteTable| ==> RouteTable[i].path != RouteTable[j].path
  {
  }

  /** Each entry is the one its own path selects. */
  lemma LookupAt(i: nat)
    requires i < |RouteTable|
    ensures Lookup(RouteTable[i].path) == Some(RouteTable[i])
  {
    RoutePathsDistinct();
    var r := Lookup(RouteTable[i].path);
    var k :| 0 <= k < |RouteTable| && RouteTable[k] == r.value;
    assert RouteTable[k].path == RouteTable[i].path;
  }

  /** What the application shows at `path`: the matching entry's page, through
      the guard when the entry is guarded; any other path redirects to /. */
  function Navigate(path: string, stored: Option<UserInfo>): (v: View)
    ensures Lookup(path).None? ==> v == Redirect("/")
    ensures v.Redirect? ==> v.to == "/" || v.to == "/login"
    ensures v.Render? ==> Lookup(path).Some? && v.page == Lookup(path).value.page
    ensures v.Render? && Lookup(path).value.guarded ==> stored.Some?
    ensures v.Render? && Lookup(path).value.adminRequired ==> stored.Some? && IsAdminInfo(stored.value)
  {
    match Lookup(path)
    case None => Redirect("/")
    case Some(r) => if r.guarded then Guard(stored, r.adminRequired, r.page) else Render(r.page)
  }

  /** The four public pages are shown to everyone. */
  lemma PublicPathsUnguarded(path: string, stored: Option<UserInfo>)
    requires path in PublicPaths
    ensures Navigate(path, stored).Render?
  {
    assert Lookup(path).Some? by {
      var i := if path == "/" then 0 else if path == "/features" then 1
               else if path == "/register" then 2 else 3;
      assert RouteTable[i].path == path;
    }
  }

  /** /predict, /history and /profile are shown iff someone is logged in,
      whatever the role; otherwise they redirect to /login. */
  lemma LoginPathsNeedLogin(path: string, stored: Option<UserInfo>)
    requires path in LoginPaths
    ensures Navigate(path, stored).Render? <==> stored.Some?
    ensures stored.None? ==> Navigate(path, stored) == Redirect("/login")
  {
    var i: nat := if path == "/predict" then 4 else if path == "/history" then 5 else 6;
    assert 4 <= i <= 6 && RouteTable[i].path == path;
    LookupAt(i);
    var r := RouteTable[i];
    assert r.guarded && !r.adminRequired;
    assert Navigate(path, stored) == Guard(stored, false, r.page);
  }

  /** /admin shows the dashboard iff the stored login has the admin role; a
      login without it is sent to /, and no login to /login. */
  lemma AdminPathNeedsAdmin(stored: Option<UserInfo>)
    ensures Navigate("/admin", stored).Render? <==> stored.Some? && IsAdminInfo(stored.value)
    ensures stored.Some? && !IsAdminInfo(stored.value) ==> Navigate("/admin", stored) == Redirect("/")
    ensures stored.None? ==> Navigate("/admin", stored) == Redirect("/login")
  {
    LookupAt(7);
    assert Navigate("/admin", stored) == Guard(stored, true, AdminDashboardPage);
  }

  /** Any path outside the table redirects to /; this includes /home. */
  lemma UnknownPathsGoHome(path: string, stored: Option<UserInfo>)
    requires path !in PublicPaths && path !in LoginPaths && path != "/admin"
    ensures Navigate(path, stored) == Redirect("/")
  {
    forall j | 0 <= j < |RouteTable| ensures RouteTable[j].path != path {
    }
  }

  lemma HomeTargetIsUnknown(stored: Option<UserInfo>)
    ensures Navigate("/home", stored) == Redirect("/")
  {
    UnknownPathsGoHome("/home", stored);
  }

  /** No redirect chain: every redirect lands on a page that is shown with the
      same stored login. */
  lemma {:induction false} RedirectsSettle(path: string, stored: Option<UserInfo>)
    requires Navigate(path, stored).Redirect?
    ensures Navigate(path, stored).to in PublicPaths
    ensures Navigate(Navigate(path, stored).to, stored).Render?
  {
    var v := Navigate(path, stored);
    assert v.to == "/" || v.to == "/login";
    PublicPathsUnguarded(v.to, stored);
  }
}
