/** The navigation bar (src/components/Navbar.tsx): the role-dependent link
    list, the active-link test and the mobile menu's open flag. */
module Navbar {
  import opened Base
  import opened Auth
  import opened AppRoutes

  datatype NavLink = NavLink(name: string, href: string)

  const About := NavLink("About", "/about")
  const Contact := NavLink("Contact", "/contact")

  /** The links shown for `user`. */
  function NavLinks(user: Option<User>): (links: seq<NavLink>)
    ensures user.None? ==> links == [NavLink("Home", "/"), About, Contact]
    // a signed-in user with no role yet gets no links at all
    ensures user.Some? && user.value.userType.None? <==> links == []
    // a role's list opens on its home and closes on About, Contact
    ensures user.Some? && user.value.userType.Some? ==>
      |links| == 5 && links[0].href == "/" + RoleName(user.value.userType.value)
    ensures links != [] ==> |links| >= 2 && links[|links| - 2..] == [About, Contact]
  {
    match user
    case None => [NavLink("Home", "/"), About, Contact]
    case Some(u) =>
      match u.userType
      case Some(Student) =>
        [NavLink("Home", "/student"), NavLink("Apply to Internships", "/internships"),
         NavLink("Applied Positions", "/applied"), About, Contact]
      case Some(Startup) =>
        [NavLink("Home", "/startup"), NavLink("List a New Position", "/create-internship"),
         NavLink("Dashboard", "/dashboard"), About, Contact]
      case None => []
  }

  /** A link is highlighted when the current path equals its target exactly. */
  predicate IsActive(pathname: string, href: string)
  {
    pathname == href
  }

  /** No two links of a list point at the same page, so at most one is highlighted. */
  lemma AtMostOneActive(user: Option<User>, pathname: string, i: int, j: int)
    requires 0 <= i < |NavLinks(user)| && 0 <= j < |NavLinks(user)|
    requires IsActive(pathname, NavLinks(user)[i].href) && IsActive(pathname, NavLinks(user)[j].href)
    ensures i == j
  {
    var links := NavLinks(user);
    if user.Some? && user.value.userType == Some(Student) {
      assert links == [NavLink("Home", "/student"), NavLink("Apply to Internships", "/internships"),
        NavLink("Applied Positions", "/applied"), About, Contact];
    } else if user.Some? && user.value.userType == Some(Startup) {
      assert links == [NavLink("Home", "/startup"), NavLink("List a New Position", "/create-internship"),
        NavLink("Dashboard", "/dashboard"), About, Contact];
    }
  }

  /** Every link of a finished profile's list opens a page, never a redirect:
      the bar only offers pages the route table and guard admit. */
  lemma LinksOfFinishedProfileRender(u: User, l: NavLink)
    requires u.profileCompleted && u.userType.Some?
    requires l in NavLinks(Some(u))
    ensures Render(false, Some(u), l.href).Shows?
    ensures PageRole(Render(false, Some(u), l.href).page).None? || PageRole(Render(false, Some(u), l.href).page) == u.userType
  {
    var r := u.userType.value;
    LinksOfRole(u, l);
    RoleSeesAdmitted(r, l.href);
    FinishedProfileSeesAdmittedPages(u, l.href);
    RouteGuardsMatchPageRoles(l.href);
  }

  lemma LinksOfRole(u: User, l: NavLink)
    requires u.userType.Some? && l in NavLinks(Some(u))
    ensures RoleSees(u.userType.value, l.href)
  {
    var links := NavLinks(Some(u));
    if u.userType.value == Student {
      assert links == [NavLink("Home", "/student"), NavLink("Apply to Internships", "/internships"),
        NavLink("Applied Positions", "/applied"), About, Contact];
    } else {
      assert links == [NavLink("Home", "/startup"), NavLink("List a New Position", "/create-internship"),
        NavLink("Dashboard", "/dashboard"), About, Contact];
    }
  }

  /** The targets a role's bar offers. */
  predicate RoleSees(r: Role, href: string)
  {
    href == "/about" || href == "/contact" ||
    (r == Student && (href == "/student" || href == "/internships" || href == "/applied")) ||
    (r == Startup && (href == "/startup" || href == "/create-internship" || href == "/dashboard"))
  }

  lemma RoleSeesAdmitted(r: Role, href: string)
    requires RoleSees(r, href)
    ensures Resolve(href).Guarded? ==> Resolve(href).required.None? || Resolve(href).required == Some(r)
  {
    if href == "/about" || href == "/contact" {
      PublicRoutes();
    } else {
      RoleRoutes();
    }
  }

  /** Signed out, every link opens an unguarded page. */
  lemma SignedOutLinksAreOpen(l: NavLink)
    requires l in NavLinks(None)
    ensures Resolve(l.href).Open?
  {
    assert l.href == "/" || l.href == "/about" || l.href == "/contact";
    PublicRoutes();
  }

  /** The mobile menu's open flag. */
  class MobileMenu {
    var open: bool

    constructor ()
      ensures !open
    {
      open := false;
    }

    /** The menu button flips the flag. */
    method Toggle()
      modifies this
      ensures open == !old(open)
    {
      open := !open;
    }

    /** A link, the profile entry or the sign-out entry closes the menu. */
    method Follow()
      modifies this
      ensures !open
    {
      open := false;
    }
  }
}
