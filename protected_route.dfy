/** The route guard (src/components/ProtectedRoute.tsx): a chain of early
    returns over `loading`, `user`, the required role and the current path. */
module ProtectedRoute {
  import opened Base
  import opened Auth

  datatype Verdict = Spinner | RedirectTo(path: string) | RenderChildren

  /** The two profile forms, where an unfinished profile is not bounced. */
  const ProfileFormPaths: seq<string> := ["/student-profile", "/startup-profile"]

  /** The profile form of a role. */
  function ProfileFormOf(r: Role): (path: string)
    ensures path in ProfileFormPaths
  {
    match r
    case Student => "/student-profile"
    case Startup => "/startup-profile"
  }

  /** The guard's decision, checks in source order. */
  function Guard(loading: bool, user: Option<User>, required: Option<Role>, path: string): (v: Verdict)
    // while loading: the spinner, never a redirect
    ensures loading <==> v == Spinner
    // not loading and signed out: to the login page
    ensures !loading && user.None? ==> v == RedirectTo("/login")
    // a required role the user does not hold (null included): home
    ensures !loading && user.Some? && required.Some? && user.value.userType != required ==> v == RedirectTo("/")
    // the page renders exactly when the role fits and the profile is complete,
    // or the path is a profile form, or the user has no role yet
    ensures v == RenderChildren <==>
      !loading && user.Some? && (required.None? || user.value.userType == required) &&
      (user.value.profileCompleted || path in ProfileFormPaths || user.value.userType.None?)
    // the only other verdict sends an unfinished profile to its role's form
    ensures v.RedirectTo? && v.path !in {"/login", "/"} ==>
      user.Some? && user.value.userType.Some? && v.path == ProfileFormOf(user.value.userType.value)
  {
    if loading then Spinner
    else if user.None? then RedirectTo("/login")
    else if required.Some? && user.value.userType != required then RedirectTo("/")
    else if !user.value.profileCompleted && path !in ProfileFormPaths && user.value.userType.Some? then
      // student to the student form, startup to the startup form
      RedirectTo(ProfileFormOf(user.value.userType.value))
    else RenderChildren
  }

  /** A completed profile whose role matches always gets the page. */
  lemma CompletedMatchingUserRenders(u: User, required: Option<Role>, path: string)
    requires u.profileCompleted && (required.None? || u.userType == required)
    ensures Guard(false, Some(u), required, path) == RenderChildren
  {
  }

  /** An unfinished profile of a role is sent to that role's form, from every
      other page that lets the role in. */
  lemma UnfinishedProfileSentToForm(u: User, required: Option<Role>, path: string)
    requires !u.profileCompleted && u.userType.Some? && (required.None? || u.userType == required)
    requires path !in ProfileFormPaths
    ensures Guard(false, Some(u), required, path) == RedirectTo(ProfileFormOf(u.userType.value))
  {
  }

  /** A guard's redirect never points back at a page the same guard would refuse
      for the same reason: the form it sends to is let through. */
  lemma RedirectTargetAdmits(u: User, path: string)
    requires Guard(false, Some(u), None, path).RedirectTo?
    ensures Guard(false, Some(u), None, Guard(false, Some(u), None, path).path) == RenderChildren
  {
  }
}
