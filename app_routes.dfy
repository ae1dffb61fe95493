/** The route table (src/App.tsx) and what a visitor sees at a path once the
    table and the guard have both been consulted. */
module AppRoutes {
  import opened Base
  import opened Auth
  import opened ProtectedRoute

  datatype Page =
    | IndexPage | LoginPage | StudentProfilePage | StartupProfilePage
    | StudentHomePage | InternshipsListPage | AppliedPositionsPage
    | StartupHomePage | CreateInternshipPage | StartupDashboardPage
    | AboutPage | ContactPage | ProfilePage | NotFoundPage

  /** A route's element: the page bare, or wrapped in the guard with an optional required role. */
  datatype Element = Open(page: Page) | Guarded(required: Option<Role>, page: Page)

  datatype Route = Route(path: string, element: Element)

  const Routes: seq<Route> := [
    Route("/", Open(IndexPage)),
    Route("/login", Open(LoginPage)),
    Route("/student-profile", Guarded(None, StudentProfilePage)),
    Route("/startup-profile", Guarded(None, StartupProfilePage)),
    Route("/student", Guarded(Some(Student), StudentHomePage)),
    Route("/internships", Guarded(Some(Student), InternshipsListPage)),
    Route("/applied", Guarded(Some(Student), AppliedPositionsPage)),
    Route("/startup", Guarded(Some(Startup), StartupHomePage)),
    Route("/create-internship", Guarded(Some(Startup), CreateInternshipPage)),
    Route("/dashboard", Guarded(Some(Startup), StartupDashboardPage)),
    Route("/about", Open(AboutPage)),
    Route("/contact", Open(ContactPage)),
    Route("/profile", Guarded(None, ProfilePage))
  ]

  function RoutePath(r: Route): string { r.path }

  /** The listed paths. */
  function Paths(rs: seq<Route>): (ps: seq<string>)
    ensures |ps| == |rs| && forall i :: 0 <= i < |rs| ==> ps[i] == rs[i].path
  {
    seq(|rs|, i requires 0 <= i < |rs| => rs[i].path)
  }

  /** No path appears twice in the table. */
  lemma RoutesHaveDistinctPaths()
    ensures NoDuplicates(Paths(Routes))
  {
    var ps := Paths(Routes);
    assert ps == ["/", "/login", "/student-profile", "/startup-profile", "/student", "/internships",
                  "/applied", "/startup", "/create-internship", "/dashboard", "/about", "/contact", "/profile"];
  }

  /** The catch-all page is reached only through the catch-all route. */
  lemma NoRouteIsNotFound()
    ensures forall i :: 0 <= i < |Routes| ==> Routes[i].element.page != NotFoundPage
  {
  }

  /** The element the router picks for `path`: the listed route, or the
      catch-all `NotFound`. */
  function Resolve(path: string): (e: Element)
    ensures e == Open(NotFoundPage) <==> path !in Paths(Routes)
    ensures path in Paths(Routes) ==> exists i :: 0 <= i < |Routes| && Routes[i] == Route(path, e)
  {
    NoRouteIsNotFound();
    var r := FindFirst(Routes, RoutePath, path);
    if r.Some? then r.value.element else Open(NotFoundPage)
  }

  /** What the visitor sees. */
  datatype Screen = Loading | Redirect(to: string) | Shows(page: Page)

  function Render(loading: bool, user: Option<User>, path: string): (s: Screen)
    ensures Resolve(path).Open? ==> s == Shows(Resolve(path).page)
  {
    match Resolve(path)
    case Open(p) => Shows(p)
    case Guarded(required, p) =>
      match Guard(loading, user, required, path)
      case Spinner => Loading
      case RedirectTo(to) => Redirect(to)
      case RenderChildren => Shows(p)
  }

  /** The role a page is reserved for, if any. */
  function PageRole(p: Page): Option<Role>
  {
    if p in {StudentHomePage, InternshipsListPage, AppliedPositionsPage} then Some(Student)
    else if p in {StartupHomePage, CreateInternshipPage, StartupDashboardPage} then Some(Startup)
    else None
  }

  /** A listed path resolves to its own route's element: the table's first
      match is the only one. */
  lemma ResolveListed(i: int)
    requires 0 <= i < |Routes|
    ensures Resolve(Routes[i].path) == Routes[i].element
  {
    RoutesHaveDistinctPaths();
    var ps := Paths(Routes);
    var k := Routes[i].path;
    assert ps[i] == k;
    var r := FindFirst(Routes, RoutePath, k);
    assert RoutePath(Routes[i]) == k;
    var j :| 0 <= j < |Routes| && Routes[j] == r.value && RoutePath(Routes[j]) == k;
    assert ps[j] == k;
  }

  /** The same, for a route given by its path and element. */
  lemma ResolveAt(i: int, path: string, e: Element)
    requires 0 <= i < |Routes| && Routes[i] == Route(path, e)
    ensures Resolve(path) == e
  {
    ResolveListed(i);
  }

  /** The home, about, contact and login pages are unguarded. */
  lemma PublicRoutes()
    ensures Resolve("/") == Open(IndexPage) && Resolve("/login") == Open(LoginPage)
    ensures Resolve("/about") == Open(AboutPage) && Resolve("/contact") == Open(ContactPage)
  {
    ResolveAt(0, "/", Open(IndexPage));
    ResolveAt(1, "/login", Open(LoginPage));
    ResolveAt(10, "/about", Open(AboutPage));
    ResolveAt(11, "/contact", Open(ContactPage));
  }

  /** The profile forms and the profile page need a signed-in user of any role. */
  lemma AnyRoleRoutes()
    ensures Resolve("/student-profile") == Guarded(None, StudentProfilePage)
    ensures Resolve("/startup-profile") == Guarded(None, StartupProfilePage)
    ensures Resolve("/profile") == Guarded(None, ProfilePage)
  {
    ResolveAt(2, "/student-profile", Guarded(None, StudentProfilePage));
    ResolveAt(3, "/startup-profile", Guarded(None, StartupProfilePage));
    ResolveAt(12, "/profile", Guarded(None, ProfilePage));
  }

  /** Three routes each are reserved for students and for startups. */
  lemma RoleRoutes()
    ensures Resolve("/student") == Guarded(Some(Student), StudentHomePage)
    ensures Resolve("/internships") == Guarded(Some(Student), InternshipsListPage)
    ensures Resolve("/applied") == Guarded(Some(Student), AppliedPositionsPage)
    ensures Resolve("/startup") == Guarded(Some(Startup), StartupHomePage)
    ensures Resolve("/create-internship") == Guarded(Some(Startup), CreateInternshipPage)
    ensures Resolve("/dashboard") == Guarded(Some(Startup), StartupDashboardPage)
  {
    StudentRoutes();
    StartupRoutes();
  }

  lemma StudentRoutes()
    ensures Resolve("/student") == Guarded(Some(Student), StudentHomePage)
    ensures Resolve("/internships") == Guarded(Some(Student), InternshipsListPage)
    ensures Resolve("/applied") == Guarded(Some(Student), AppliedPositionsPage)
  {
    ResolveAt(4, "/student", Guarded(Some(Student), StudentHomePage));
    ResolveAt(5, "/internships", Guarded(Some(Student), InternshipsListPage));
    ResolveAt(6, "/applied", Guarded(Some(Student), AppliedPositionsPage));
  }

  lemma StartupRoutes()
    ensures Resolve("/startup") == Guarded(Some(Startup), StartupHomePage)
    ensures Resolve("/create-internship") == Guarded(Some(Startup), CreateInternshipPage)
    ensures Resolve("/dashboard") == Guarded(Some(Startup), StartupDashboardPage)
  {
    ResolveAt(7, "/startup", Guarded(Some(Startup), StartupHomePage));
    ResolveAt(8, "/create-internship", Guarded(Some(Startup), CreateInternshipPage));
    ResolveAt(9, "/dashboard", Guarded(Some(Startup), StartupDashboardPage));
  }

  /** Every route whose page is reserved for a role guards it with that role. */
  lemma TableGuardsMatchPageRoles(i: int)
    requires 0 <= i < |Routes|
    ensures PageRole(Routes[i].element.page).Some? ==>
      Routes[i].element == Guarded(PageRole(Routes[i].element.page), Routes[i].element.page)
  {
  }

  /** Hence every path the router resolves carries the guard its page's role calls for. */
  lemma RouteGuardsMatchPageRoles(path: string)
    ensures PageRole(Resolve(path).page).Some? ==> Resolve(path) == Guarded(PageRole(Resolve(path).page), Resolve(path).page)
  {
    if path in Paths(Routes) {
      var i :| 0 <= i < |Routes| && Routes[i] == Route(path, Resolve(path));
      TableGuardsMatchPageRoles(i);
    }
  }

  /** A role-reserved page is shown only to a signed-in user of that role. */
  lemma RoleSeparation(loading: bool, user: Option<User>, path: string)
    requires Render(loading, user, path).Shows?
    requires PageRole(Render(loading, user, path).page).Some?
    ensures user.Some? && user.value.userType == PageRole(Render(loading, user, path).page)
  {
    RouteGuardsMatchPageRoles(path);
  }

  /** A signed-in startup never sees a student-only page, and a student never a startup-only one. */
  lemma StartupNeverSeesStudentPages(u: User, path: string)
    requires u.userType != Some(Student)
    requires Resolve(path).page in {StudentHomePage, InternshipsListPage, AppliedPositionsPage}
    ensures Render(false, Some(u), path) == Redirect("/")
  {
    RouteGuardsMatchPageRoles(path);
  }

  /** A signed-in student with a completed profile sees each student page. */
  lemma CompletedStudentSeesStudentPages(u: User)
    requires u.userType == Some(Student) && u.profileCompleted
    ensures Render(false, Some(u), "/student") == Shows(StudentHomePage)
    ensures Render(false, Some(u), "/internships") == Shows(InternshipsListPage)
    ensures Render(false, Some(u), "/applied") == Shows(AppliedPositionsPage)
  {
    RoleRoutes();
  }

  /** A finished profile sees every page its role is admitted to. */
  lemma FinishedProfileSeesAdmittedPages(u: User, path: string)
    requires u.profileCompleted
    requires Resolve(path).Guarded? ==> Resolve(path).required.None? || Resolve(path).required == u.userType
    ensures Render(false, Some(u), path) == Shows(Resolve(path).page)
  {
    if Resolve(path).Guarded? {
      CompletedMatchingUserRenders(u, Resolve(path).required, path);
    }
  }

  /** A signed-out visitor of any guarded page is sent to the login page. */
  lemma SignedOutSentToLogin(path: string)
    requires Resolve(path).Guarded?
    ensures Render(false, None, path) == Redirect("/login")
  {
  }

  /** The controller's first-sign-in redirect lands on a page the guard lets through. */
  lemma SessionRedirectRenders(u: User, path: string)
    requires SessionRedirect(u, path).Some?
    ensures Render(false, Some(u), SessionRedirect(u, path).value) == Shows(StudentProfilePage)
  {
    AnyRoleRoutes();
  }
}
