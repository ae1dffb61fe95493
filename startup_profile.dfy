/** The startup onboarding form (src/pages/StartupProfile.tsx): the year
    options, the schema's bounds, the row written to the `startup_profiles`
    table, and the submit sequence around that write. */
module StartupProfile {
  import opened Base
  import opened Auth
  import opened ProtectedRoute
  import opened AppRoutes
  import opened Landing

  /** The year select's options: 2000 up to the current year. A negative
      length gives an empty array. */
  function Years(currentYear: int): (ys: seq<int>)
    ensures |ys| == if currentYear >= 2000 then currentYear - 2000 + 1 else 0
    ensures forall i :: 0 <= i < |ys| ==> ys[i] == 2000 + i
  {
    var n := if currentYear >= 2000 then currentYear - 2000 + 1 else 0;
    seq(n, i requires 0 <= i < n => 2000 + i)
  }

  /** The options are ascending, and are exactly the years the schema accepts. */
  lemma YearsMatchSchema(currentYear: int, y: int)
    ensures y in Years(currentYear) <==> 2000 <= y <= currentYear
    ensures forall i, j :: 0 <= i < j < |Years(currentYear)| ==> Years(currentYear)[i] < Years(currentYear)[j]
  {
    var ys := Years(currentYear);
    if 2000 <= y <= currentYear {
      assert ys[y - 2000] == y;
    }
  }

  /** The form's fields; the year and the age after numeric coercion. */
  datatype StartupForm = StartupForm(
    officialName: string,
    websiteUrl: string,
    yearOfIncorporation: int,
    location: string,
    logoUrl: string,
    summary: string,
    domainOfOperation: string,
    founderName: string,
    founderAge: int,
    founderEmail: string,
    founderWhatsapp: string,
    founderLinkedin: string)

  /** The schema's length and numeric bounds, with the current year as a parameter. */
  predicate SchemaAccepts(f: StartupForm, currentYear: int)
  {
    |f.officialName| >= 2 &&
    2000 <= f.yearOfIncorporation <= currentYear &&
    |f.location| >= 2 &&
    10 <= |f.summary| <= 500 &&
    |f.founderName| >= 2 &&
    f.founderAge >= 18
  }

  /** The form's defaults, with the signed-in user's name and email filled in. */
  function DefaultForm(user: Option<User>, currentYear: int): (f: StartupForm)
    ensures f.yearOfIncorporation == currentYear && f.founderAge == 25
  {
    StartupForm("", "https://", currentYear, "", "", "", "",
                if user.Some? then user.value.name else "", 25,
                if user.Some? then user.value.email else "", "", "")
  }

  /** The default year and age are within bounds whenever the year list is non-empty;
      the empty name, location and summary are what stop the defaults. */
  lemma DefaultsNeedText(user: Option<User>, currentYear: int)
    requires currentYear >= 2000
    ensures var f := DefaultForm(user, currentYear);
      2000 <= f.yearOfIncorporation <= currentYear && f.founderAge >= 18 &&
      !SchemaAccepts(f, currentYear)
  {
  }

  /** `value || null` for a text field: the empty string is stored as null. */
  function EmptyToNull(s: string): (r: Option<string>)
    ensures r.None? <==> s == ""
    ensures r.Some? ==> r.value == s
  {
    if s == "" then None else Some(s)
  }

  function NullToEmpty(r: Option<string>): string
  {
    if r.Some? then r.value else ""
  }

  /** The row upserted into `startup_profiles`. */
  datatype StartupRow = StartupRow(
    id: Option<string>,
    officialName: string,
    websiteUrl: string,
    yearOfIncorporation: int,
    location: string,
    logoUrl: Option<string>,
    summary: string,
    domainOfOperation: string,
    founderName: string,
    founderAge: int,
    founderEmail: string,
    founderWhatsapp: Option<string>,
    founderLinkedin: Option<string>)

  /** The row for a submitted form: keyed by the user's id, the three optional
      texts stored as null when empty. */
  function ToRow(user: Option<User>, f: StartupForm): (r: StartupRow)
    ensures r.id.Some? <==> user.Some?
    ensures user.Some? ==> r.id.value == user.value.id
    ensures r.logoUrl.None? <==> f.logoUrl == ""
    ensures r.founderWhatsapp.None? <==> f.founderWhatsapp == ""
    ensures r.founderLinkedin.None? <==> f.founderLinkedin == ""
  {
    StartupRow(if user.Some? then Some(user.value.id) else None,
               f.officialName, f.websiteUrl, f.yearOfIncorporation, f.location,
               EmptyToNull(f.logoUrl), f.summary, f.domainOfOperation, f.founderName,
               f.founderAge, f.founderEmail, EmptyToNull(f.founderWhatsapp), EmptyToNull(f.founderLinkedin))
  }

  /** The form a row was made from, read back. */
  function FromRow(r: StartupRow): StartupForm
  {
    StartupForm(r.officialName, r.websiteUrl, r.yearOfIncorporation, r.location,
                NullToEmpty(r.logoUrl), r.summary, r.domainOfOperation, r.founderName,
                r.founderAge, r.founderEmail, NullToEmpty(r.founderWhatsapp), NullToEmpty(r.founderLinkedin))
  }

  /** Nothing the form held is lost in the row: reading it back gives the form. */
  lemma RowRoundTrip(user: Option<User>, f: StartupForm)
    ensures FromRow(ToRow(user, f)) == f
  {
  }

  /** The submit handler as written. The role is set only when the user has
      none; the upsert's answer is a parameter; on an error nothing more
      happens (the catch shows a notice). Both setters use the `user` of the
      render that handled the click. */
  function SubmitAsWritten(s: AuthState, f: StartupForm, upsertOk: bool): (r: (StartupRow, Step))
    ensures r.0 == ToRow(s.user, f)
    // the completion flag and the navigation only follow a successful write
    ensures !upsertOk ==> r.1.nav == None
    ensures !upsertOk && s.user.Some? ==>
      r.1.state.user.Some? && r.1.state.user.value.profileCompleted == s.user.value.profileCompleted
    ensures upsertOk ==> r.1.nav == Some("/startup")
    // a user who already had a role keeps it
    ensures s.user.Some? && s.user.value.userType.Some? ==>
      r.1.state.user.Some? && r.1.state.user.value.userType == s.user.value.userType
    // the stale second write: the role just set is lost again
    ensures upsertOk && s.user.Some? ==> r.1.state.user == Some(s.user.value.(profileCompleted := true))
    // a failed write still leaves a role-less user a startup, with the profile unfinished
    ensures s.user.Some? ==> r.1.state.user == Some(
      if upsertOk then s.user.value.(profileCompleted := true)
      else if s.user.value.userType.None? then s.user.value.(userType := Some(Startup))
      else s.user.value)
    // a setter ran exactly when the write succeeded or the user had no role: it saved the user to the slot
    ensures s.user.Some? && (upsertOk || s.user.value.userType.None?) ==> r.1.state.stored == Holds(r.1.state.user.value)
    ensures s.user.Some? && !upsertOk && s.user.value.userType.Some? ==> r.1.state == s
    ensures s.user.None? ==> r.1.state == s
    ensures r.1.state.loading == s.loading
  {
    var seen := s.user;
    var s1 := if seen.None? || seen.value.userType.None?
              then Apply(s, Op.SetUserType(seen, Some(Startup))).state else s;
    var row := ToRow(seen, f);
    if !upsertOk then (row, Step(s1, None))
    else (row, Step(Apply(s1, Op.SetProfileCompleted(seen, true)).state, Some("/startup")))
  }

  /** The submit handler with the completion written onto the user the role update produced. */
  function Submit(s: AuthState, f: StartupForm, upsertOk: bool): (r: (StartupRow, Step))
    ensures r.0 == ToRow(s.user, f)
    ensures !upsertOk ==> r.1.nav == None
    ensures !upsertOk && s.user.Some? ==>
      r.1.state.user.Some? && r.1.state.user.value.profileCompleted == s.user.value.profileCompleted
    ensures upsertOk ==> r.1.nav == Some("/startup")
    ensures s.user.Some? ==> r.1.state.user.Some?
    ensures s.user.Some? ==>
      r.1.state.user.value.userType == (if s.user.value.userType.None? then Some(Startup) else s.user.value.userType)
    ensures upsertOk && s.user.Some? ==> r.1.state.user.value.profileCompleted
    // the whole new user: the role applied when there was none, completion on success
    ensures s.user.Some? ==>
      var withRole := if s.user.value.userType.None? then s.user.value.(userType := Some(Startup)) else s.user.value;
      r.1.state.user == Some(if upsertOk then withRole.(profileCompleted := true) else withRole)
    // a setter ran exactly when the write succeeded or the user had no role: it saved the user to the slot
    ensures s.user.Some? && (upsertOk || s.user.value.userType.None?) ==> r.1.state.stored == Holds(r.1.state.user.value)
    ensures s.user.Some? && !upsertOk && s.user.value.userType.Some? ==> r.1.state == s
    ensures s.user.None? ==> r.1.state == s
    ensures r.1.state.loading == s.loading
    ensures Mirrored(s) ==> Mirrored(r.1.state)
  {
    var s1 := if s.user.None? || s.user.value.userType.None?
              then Apply(s, Op.SetUserType(s.user, Some(Startup))).state else s;
    var row := ToRow(s.user, f);
    if !upsertOk then (row, Step(s1, None))
    else (row, Step(Apply(s1, Op.SetProfileCompleted(s1.user, true)).state, Some("/startup")))
  }

  /** A first-time user (no role yet) whose write succeeds lands on "/startup"
      still without a role: the guard sends them home and the landing page
      has nowhere to send them. */
  lemma FirstTimeStartupBounced(s: AuthState, f: StartupForm)
    requires s.user.Some? && s.user.value.userType.None? && !s.loading
    ensures var st := SubmitAsWritten(s, f, true).1;
      Render(st.state.loading, st.state.user, st.nav.value) == Redirect("/") && LandingRedirect(st.state.user) == None
  {
    var u := s.user.value.(profileCompleted := true);
    assert SubmitAsWritten(s, f, true).1.state.user == Some(u);
    RolelessUserStuckAtLanding(u, Startup);
  }

  /** With the setters sequenced, a first-time user whose write succeeds
      reaches the startup home page. */
  lemma SubmitOpensStartupHome(s: AuthState, f: StartupForm)
    requires s.user.Some? && s.user.value.userType.None? && !s.loading
    ensures var st := Submit(s, f, true).1;
      Render(st.state.loading, st.state.user, st.nav.value) == Shows(StartupHomePage)
  {
    var u := s.user.value.(userType := Some(Startup), profileCompleted := true);
    assert Submit(s, f, true).1.state.user == Some(u);
    RoleRoutes();
    assert Guard(false, Some(u), Some(Startup), "/startup") == RenderChildren;
  }

  /** The two handlers, run against the controller; the upsert's answer is a parameter. */
  method SubmitOnControllerAsWritten(ctl: AuthController, f: StartupForm, upsertOk: bool)
    returns (row: StartupRow, nav: Option<string>)
    modifies ctl
    ensures (row, Step(ctl.State(), nav)) == SubmitAsWritten(old(ctl.State()), f, upsertOk)
  {
    var seen := ctl.user;
    if seen.None? || seen.value.userType.None? {
      ctl.SetUserType(seen, Some(Startup));
    }
    row := ToRow(seen, f);
    nav := None;
    if upsertOk {
      ctl.SetProfileCompleted(seen, true);
      nav := Some("/startup");
    }
  }

  method SubmitOnController(ctl: AuthController, f: StartupForm, upsertOk: bool)
    returns (row: StartupRow, nav: Option<string>)
    modifies ctl
    ensures (row, Step(ctl.State(), nav)) == Submit(old(ctl.State()), f, upsertOk)
  {
    row := ToRow(ctl.user, f);
    if ctl.user.None? || ctl.user.value.userType.None? {
      ctl.SetUserType(ctl.user, Some(Startup));
    }
    nav := None;
    if upsertOk {
      ctl.SetProfileCompleted(ctl.user, true);
      nav := Some("/startup");
    }
  }
}
