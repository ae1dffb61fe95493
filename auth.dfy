/** The session/user controller (src/contexts/AuthContext.tsx).

    The provider keeps the current `user`, a `loading` flag, and a copy of
    `user` in the browser's "nexusUser" localStorage slot.  Every answer from
    the identity provider (a session or none, an error or success) is a
    parameter here; every navigation the controller asks for is returned as
    `Some(path)`. */
module Auth {
  import opened Base

  datatype Role = Student | Startup

  /** The string the `userType` union member is spelled as. */
  function RoleName(r: Role): (name: string)
    ensures name == "student" <==> r == Student
    ensures name == "startup" <==> r == Startup
  {
    match r
    case Student => "student"
    case Startup => "startup"
  }

  datatype User = User(id: string, email: string, name: string, userType: Option<Role>, profileCompleted: bool)

  /** What the "nexusUser" slot holds: nothing, text that `JSON.parse` rejects,
      or a serialised user. */
  datatype Stored = Absent | Corrupt | Holds(user: User)

  /** The claims of a provider session the controller reads. */
  datatype Session = Session(userId: string, email: Option<string>, fullName: Option<string>, name: Option<string>)

  datatype AuthEvent = InitialSession | SignedIn | SignedOut | TokenRefreshed | UserUpdated | PasswordRecovery

  /** The answer of `getSession()`: it threw, or it returned a session or none. */
  datatype SessionLookup = LookupThrew | LookupReturned(session: Option<Session>)

  /** The provider state of the controller: the React state and the storage slot. */
  datatype AuthState = AuthState(user: Option<User>, stored: Stored, loading: bool)

  /** A transition's new state and the navigation it issued, if any. */
  datatype Step = Step(state: AuthState, nav: Option<string>)

  /** Each way the state can change. `seen` is the `user` value captured by the
      setter's closure at the caller's render, which may be older than the
      current state. */
  datatype Op =
    | LoadStored
    | AuthChange(event: AuthEvent, session: Option<Session>, path: string)
    | Initialize(lookup: SessionLookup)
    | SignIn(providerOk: bool)
    | SignOut(providerOk: bool)
    | SetUserType(seenType: Option<User>, userType: Option<Role>)
    | SetProfileCompleted(seenDone: Option<User>, completed: bool)

  /** Every write to `user` was paired with the matching write to the slot:
      the same value, or removal when `user` is null. */
  predicate Mirrored(s: AuthState)
  {
    s.stored == (if s.user.Some? then Holds(s.user.value) else Absent)
  }

  /** JavaScript `a || b` where `a` may be missing: an empty string is falsy. */
  function OrElse(a: Option<string>, b: string): (r: string)
    ensures a.Some? && a.value != "" ==> r == a.value
    ensures a.None? || a.value == "" ==> r == b
  {
    if a.Some? && a.value != "" then a.value else b
  }

  /** The parsed slot, or null when it is empty or `JSON.parse` throws. */
  function StoredCopy(st: Stored): (r: Option<User>)
    ensures r.Some? <==> st.Holds?
  {
    if st.Holds? then Some(st.user) else None
  }

  /** The user rebuilt from a session: identity from the provider, role and
      completion from the stored copy when there is one. */
  function UserFromSession(s: Session, st: Stored): (u: User)
    ensures u.id == s.userId
    ensures u.email == OrElse(s.email, "")
    ensures u.name == OrElse(s.fullName, OrElse(s.name, ""))
    ensures st.Holds? ==> u.userType == st.user.userType && u.profileCompleted == st.user.profileCompleted
    ensures !st.Holds? ==> u.userType == None && !u.profileCompleted
  {
    var copy := StoredCopy(st);
    User(s.userId, OrElse(s.email, ""), OrElse(s.fullName, OrElse(s.name, "")),
         if copy.Some? then copy.value.userType else None,
         if copy.Some? then copy.value.profileCompleted else false)
  }

  /** The pages on which a role-less user is left alone. */
  const SetupPaths: seq<string> := ["/student-profile", "/startup-profile", "/login"]

  /** The one redirect of the session branch: a user without a role is sent
      to the student profile form unless already on a setup page or the login page. */
  function SessionRedirect(u: User, path: string): (nav: Option<string>)
    ensures nav.Some? <==> u.userType.None? && path !in SetupPaths
    ensures nav.Some? ==> nav.value == "/student-profile"
  {
    if u.userType.None? && path !in SetupPaths then Some("/student-profile") else None
  }

  /** The initial-render effect: a parseable slot becomes `user`, an unparseable one is removed. */
  function AfterLoadStored(s: AuthState): (t: AuthState)
    ensures s.stored.Holds? ==> t == s.(user := Some(s.stored.user))
    ensures s.stored.Corrupt? ==> t == s.(stored := Absent)
    ensures s.stored.Absent? ==> t == s
  {
    match s.stored
    case Holds(u) => s.(user := Some(u))
    case Corrupt => s.(stored := Absent)
    case Absent => s
  }

  /** The `onAuthStateChange` handler. */
  function AfterAuthChange(s: AuthState, event: AuthEvent, session: Option<Session>, path: string): (r: Step)
    ensures session.Some? ==>
      var u := UserFromSession(session.value, s.stored);
      r.state == s.(user := Some(u), stored := Holds(u)) && r.nav == SessionRedirect(u, path)
    ensures session.None? && event == SignedOut ==>
      r.state == s.(user := None, stored := Absent) && r.nav == Some("/")
    ensures session.None? && event != SignedOut ==> r == Step(s, None)
  {
    if session.Some? then
      var u := UserFromSession(session.value, s.stored);
      Step(s.(user := Some(u), stored := Holds(u)), SessionRedirect(u, path))
    else if event == SignedOut then
      Step(s.(user := None, stored := Absent), Some("/"))
    else
      Step(s, None)
  }

  /** `initializeAuth`: the session branch without the redirect; `loading` ends false. */
  function AfterInitialize(s: AuthState, lookup: SessionLookup): (t: AuthState)
    ensures !t.loading
    ensures lookup.LookupReturned? && lookup.session.Some? ==>
      var u := UserFromSession(lookup.session.value, s.stored);
      t.user == Some(u) && t.stored == Holds(u)
    ensures lookup.LookupThrew? || lookup.session.None? ==> t.user == s.user && t.stored == s.stored
  {
    if lookup.LookupReturned? && lookup.session.Some? then
      var u := UserFromSession(lookup.session.value, s.stored);
      AuthState(Some(u), Holds(u), false)
    else
      s.(loading := false)
  }

  /** `signOut`: on success the user and the slot are cleared and the app goes
      home; on a provider error nothing changes. */
  function AfterSignOut(s: AuthState, providerOk: bool): (r: Step)
    ensures providerOk ==> r.state == s.(user := None, stored := Absent) && r.nav == Some("/")
    ensures !providerOk ==> r == Step(s, None)
  {
    if providerOk then Step(s.(user := None, stored := Absent), Some("/")) else Step(s, None)
  }

  /** `setUserType`: a no-op without a user, else exactly `userType` changes and is saved. */
  function WithUserType(s: AuthState, seen: Option<User>, t: Option<Role>): (r: AuthState)
    ensures seen.None? ==> r == s
    ensures seen.Some? ==> r.user == Some(seen.value.(userType := t)) && r.stored == Holds(r.user.value)
    ensures r.loading == s.loading
  {
    if seen.Some? then
      var updated := seen.value.(userType := t);
      s.(user := Some(updated), stored := Holds(updated))
    else s
  }

  /** `setProfileCompleted`: a no-op without a user, else exactly `profileCompleted` changes and is saved. */
  function WithProfileCompleted(s: AuthState, seen: Option<User>, c: bool): (r: AuthState)
    ensures seen.None? ==> r == s
    ensures seen.Some? ==> r.user == Some(seen.value.(profileCompleted := c)) && r.stored == Holds(r.user.value)
    ensures r.loading == s.loading
  {
    if seen.Some? then
      var updated := seen.value.(profileCompleted := c);
      s.(user := Some(updated), stored := Holds(updated))
    else s
  }

  /** One transition of the controller. */
  function Apply(s: AuthState, op: Op): Step
  {
    match op
    case LoadStored => Step(AfterLoadStored(s), None)
    case AuthChange(e, session, path) => AfterAuthChange(s, e, session, path)
    case Initialize(lookup) => Step(AfterInitialize(s, lookup), None)
    case SignIn(_) => Step(s.(loading := false), None)
    case SignOut(ok) => AfterSignOut(s, ok)
    case SetUserType(seen, t) => Step(WithUserType(s, seen, t), None)
    case SetProfileCompleted(seen, c) => Step(WithProfileCompleted(s, seen, c), None)
  }

  /** The state after a sequence of transitions. */
  function Run(s: AuthState, ops: seq<Op>): AuthState
    decreases |ops|
  {
    if |ops| == 0 then s else Run(Apply(s, ops[0]).state, ops[1..])
  }

  /** The state at mount: no user, `loading` true, the slot as the browser kept it. */
  function Mount(slot: Stored): AuthState
  {
    AuthState(None, slot, true)
  }

  /** The initial load brings the slot and `user` into agreement, whatever the slot held. */
  lemma LoadStoredMirrors(slot: Stored)
    ensures Mirrored(Apply(Mount(slot), LoadStored).state)
    ensures slot.Corrupt? ==> Apply(Mount(slot), LoadStored).state.user == None
  {
  }

  /** Every transition keeps `user` and the slot mirrored. */
  lemma StepKeepsMirror(s: AuthState, op: Op)
    requires Mirrored(s)
    ensures Mirrored(Apply(s, op).state)
  {
  }

  /** The mirror is kept along every sequence of transitions. */
  lemma {:induction false} RunKeepsMirror(s: AuthState, ops: seq<Op>)
    requires Mirrored(s)
    ensures Mirrored(Run(s, ops))
    decreases |ops|
  {
    if |ops| > 0 {
      StepKeepsMirror(s, ops[0]);
      RunKeepsMirror(Apply(s, ops[0]).state, ops[1..]);
    }
  }

  /** While the slot mirrors `user`, an auth event with a session keeps the
      signed-in user's role and completion flag. */
  lemma SessionEventKeepsOnboarding(s: AuthState, e: AuthEvent, session: Session, path: string)
    requires Mirrored(s) && s.user.Some?
    ensures var u := Apply(s, AuthChange(e, Some(session), path)).state.user.value;
      u.userType == s.user.value.userType && u.profileCompleted == s.user.value.profileCompleted
  {
  }

  /** A signed-in user with a role is never redirected by an auth event. */
  lemma RoleHolderNotRedirected(s: AuthState, e: AuthEvent, session: Session, path: string)
    requires Mirrored(s) && s.user.Some? && s.user.value.userType.Some?
    ensures Apply(s, AuthChange(e, Some(session), path)).nav == None
  {
  }

  /** `loading` is false once `initializeAuth` or `signInWithGoogle` has
      finished, whether the provider answered or threw. */
  lemma LoadingClearedAfterwards(s: AuthState, op: Op)
    requires op.Initialize? || op.SignIn?
    ensures !Apply(s, op).state.loading
  {
  }

  /** Only an event with a session, or `SIGNED_OUT`, and a successful `signOut` navigate. */
  lemma NavigationSources(s: AuthState, op: Op)
    ensures Apply(s, op).nav.Some? ==>
      (op.AuthChange? && (op.session.Some? || op.event == SignedOut)) || (op.SignOut? && op.providerOk)
    ensures Apply(s, op).nav.Some? ==> Apply(s, op).nav.value in {"/", "/student-profile"}
  {
  }

  /** The controller itself: the two React state variables and the storage slot. */
  class AuthController {
    var user: Option<User>
    var stored: Stored
    var loading: bool

    function State(): AuthState
      reads this
    {
      AuthState(user, stored, loading)
    }

    /** `useState(null)`, `useState(true)`, with the slot as the browser kept it. */
    constructor (slot: Stored)
      ensures State() == Mount(slot)
    {
      user := None;
      stored := slot;
      loading := true;
    }

    method LoadStoredUser()
      modifies this
      ensures State() == Apply(old(State()), LoadStored).state
    {
      if stored.Holds? {
        user := Some(stored.user);
      } else if stored.Corrupt? {
        stored := Absent;
      }
    }

    method OnAuthStateChange(event: AuthEvent, session: Option<Session>, path: string) returns (nav: Option<string>)
      modifies this
      ensures Step(State(), nav) == Apply(old(State()), AuthChange(event, session, path))
    {
      nav := None;
      if session.Some? {
        var copy := StoredCopy(stored);
        var s := session.value;
        var userData := User(s.userId, OrElse(s.email, ""), OrElse(s.fullName, OrElse(s.name, "")),
                             if copy.Some? then copy.value.userType else None,
                             if copy.Some? then copy.value.profileCompleted else false);
        user := Some(userData);
        stored := Holds(userData);
        if userData.userType.None? && path !in SetupPaths {
          nav := Some("/student-profile");
        }
      } else if event == SignedOut {
        user := None;
        stored := Absent;
        nav := Some("/");
      }
    }

    method InitializeAuth(lookup: SessionLookup)
      modifies this
      ensures State() == Apply(old(State()), Initialize(lookup)).state
    {
      loading := true;
      if lookup.LookupReturned? && lookup.session.Some? {
        var userData := UserFromSession(lookup.session.value, stored);
        user := Some(userData);
        stored := Holds(userData);
      }
      loading := false;
    }

    /** `signInWithGoogle`; `ok` tells which notice is shown. */
    method SignInWithGoogle(providerOk: bool) returns (ok: bool)
      modifies this
      ensures State() == Apply(old(State()), SignIn(providerOk)).state
      ensures ok == providerOk
    {
      loading := true;
      ok := providerOk;
      loading := false;
    }

    method SignOut(providerOk: bool) returns (nav: Option<string>)
      modifies this
      ensures Step(State(), nav) == Apply(old(State()), Op.SignOut(providerOk))
    {
      nav := None;
      if providerOk {
        user := None;
        stored := Absent;
        nav := Some("/");
      }
    }

    method SetUserType(seen: Option<User>, t: Option<Role>)
      modifies this
      ensures State() == Apply(old(State()), Op.SetUserType(seen, t)).state
    {
      if seen.Some? {
        var updated := seen.value.(userType := t);
        user := Some(updated);
        stored := Holds(updated);
      }
    }

    method SetProfileCompleted(seen: Option<User>, completed: bool)
      modifies this
      ensures State() == Apply(old(State()), Op.SetProfileCompleted(seen, completed)).state
    {
      if seen.Some? {
        var updated := seen.value.(profileCompleted := completed);
        user := Some(updated);
        stored := Holds(updated);
      }
    }
  }
}
