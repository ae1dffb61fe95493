/** The landing page's redirect effect (src/pages/Index.tsx): at most one
    navigation, chosen from the signed-in user's role and profile state. */
module Landing {
  import opened Base
  import opened Auth
  import opened ProtectedRoute
  import opened AppRoutes

  /** A role's home page. */
  function HomeOf(r: Role): (path: string)
    ensures path == "/" + RoleName(r)
  {
    match r
    case Student => "/student"
    case Startup => "/startup"
  }

  /** The navigation the effect issues for `user`, if any. */
  function LandingRedirect(user: Option<User>): (nav: Option<string>)
    // no user, or a user with no role yet: the page stays put
    ensures nav.Some? <==> user.Some? && user.value.userType.Some?
    // an unfinished profile goes to its role's form, a finished one to its role's home
    ensures nav.Some? && !user.value.profileCompleted ==> nav.value in ProfileFormPaths
    ensures nav.Some? && user.value.profileCompleted ==> nav.value !in ProfileFormPaths
  {
    match user
    case None => None
    case Some(u) =>
      match u.userType
      case None => None
      case Some(r) =>
        if !u.profileCompleted then Some(ProfileFormOf(r)) else Some(HomeOf(r))
  }

  /** The four targets, spelled out. */
  lemma LandingTargets(u: User)
    ensures u.userType == Some(Student) && !u.profileCompleted ==> LandingRedirect(Some(u)) == Some("/student-profile")
    ensures u.userType == Some(Startup) && !u.profileCompleted ==> LandingRedirect(Some(u)) == Some("/startup-profile")
    ensures u.userType == Some(Student) && u.profileCompleted ==> LandingRedirect(Some(u)) == Some("/student")
    ensures u.userType == Some(Startup) && u.profileCompleted ==> LandingRedirect(Some(u)) == Some("/startup")
  {
  }

  /** Wherever the landing page sends a user, the guard there lets them in:
      the redirect never lands on a page that bounces them again. */
  lemma LandingTargetRenders(u: User)
    requires LandingRedirect(Some(u)).Some?
    ensures var r := u.userType.value;
      Render(false, Some(u), LandingRedirect(Some(u)).value) ==
        Shows(if !u.profileCompleted then (if r == Student then StudentProfilePage else StartupProfilePage)
              else (if r == Student then StudentHomePage else StartupHomePage))
  {
    var completed := u.profileCompleted;
    match u.userType.value
    case Student =>
      if completed { RoleRoutes(); } else { AnyRoleRoutes(); }
    case Startup =>
      if completed { RoleRoutes(); } else { AnyRoleRoutes(); }
  }

  /** A signed-in user with no role is sent from either role home back to
      "/", where the landing page issues no navigation: a dead end. */
  lemma RolelessUserStuckAtLanding(u: User, r: Role)
    requires u.userType.None?
    ensures Render(false, Some(u), HomeOf(r)) == Redirect("/")
    ensures LandingRedirect(Some(u)) == None
  {
    RoleRoutes();
    assert Guard(false, Some(u), Some(r), HomeOf(r)) == RedirectTo("/");
  }
}
