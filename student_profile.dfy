/** The student onboarding form (src/pages/StudentProfile.tsx): the domain
    picker capped at three, the schema's bounds, and the submit handler that
    records the role and the finished profile through the session controller. */
module StudentProfile {
  import opened Base
  import opened Auth
  import opened ProtectedRoute
  import opened AppRoutes
  import opened Landing

  /** The most domains of interest a student may pick. */
  const MaxDomains := 3

  function Without(d: string): string -> bool
  {
    x => x != d
  }

  /** The selection after clicking domain `d`: a selected domain is dropped, an
      unselected one is appended unless three are already picked. */
  function ToggleDomain(prev: seq<string>, d: string): (r: seq<string>)
    // the clicked domain ends up selected exactly when it was not, and there was room
    ensures d in r <==> d !in prev && |prev| < MaxDomains
    // a click at the cap on a new domain changes nothing
    ensures d !in prev && |prev| >= MaxDomains ==> r == prev
    // no other domain is added or dropped
    ensures forall x :: x != d ==> (x in r <==> x in prev)
    ensures |prev| <= MaxDomains ==> |r| <= MaxDomains
    ensures NoDuplicates(prev) ==> NoDuplicates(r)
  {
    if d in prev then
      var r := Filter(prev, Without(d));
      assert NoDuplicates(prev) ==> NoDuplicates(r) by {
        if NoDuplicates(prev) { FilterKeepsNoDuplicates(prev, Without(d)); }
      }
      r
    else if |prev| >= MaxDomains then prev
    else prev + [d]
  }

  /** Clicking a domain twice, with room for it, leaves the selection as it was. */
  lemma ToggleTwiceRestores(prev: seq<string>, d: string)
    requires d !in prev && |prev| < MaxDomains
    ensures ToggleDomain(ToggleDomain(prev, d), d) == prev
  {
    FilterAppend(prev, [d], Without(d));
    FilterKeepsAll(prev, Without(d));
    assert Filter([d], Without(d)) == [];
  }

  /** The picker's state: the highlighted selection and the form's
      `domainsOfInterest` value. */
  class DomainPicker {
    var selected: seq<string>
    var formDomains: seq<string>

    /** At most three domains, none twice. */
    predicate Valid()
      reads this
    {
      |selected| <= MaxDomains && NoDuplicates(selected)
    }

    constructor ()
      ensures selected == [] && formDomains == [] && Valid()
    {
      selected := [];
      formDomains := [];
    }

    /** The click handler as written: the selection is updated, but the form
        field receives `selectedDomains` as the render saw it, before the click. */
    method SelectDomainAsWritten(d: string)
      requires Valid()
      modifies this
      ensures Valid()
      ensures selected == ToggleDomain(old(selected), d)
      ensures formDomains == old(selected)
    {
      var before := selected;
      selected := ToggleDomain(selected, d);
      formDomains := before;
    }

    /** The click handler with the form field given the new selection. */
    method SelectDomain(d: string)
      requires Valid()
      modifies this
      ensures Valid()
      ensures selected == ToggleDomain(old(selected), d)
      ensures formDomains == selected
    {
      selected := ToggleDomain(selected, d);
      formDomains := selected;
    }
  }

  /** The form's fields; `birthYear` after numeric coercion. */
  datatype StudentForm = StudentForm(
    fullName: string,
    birthYear: int,
    campus: string,
    bitsId: string,
    branch: string,
    dualDegreeBranch: string,
    minorDegree: string,
    domainsOfInterest: seq<string>,
    email: string,
    whatsappNumber: string,
    linkedinProfile: string,
    website: string)

  const Campuses: seq<string> := ["Pilani", "Goa", "Hyderabad"]

  /** The schema's bounds, with the current year as a parameter. */
  predicate SchemaAccepts(f: StudentForm, currentYear: int)
  {
    |f.fullName| >= 2 &&
    1980 <= f.birthYear <= currentYear - 15 &&
    f.campus in Campuses &&
    |f.bitsId| >= 5 &&
    |f.branch| >= 2 &&
    1 <= |f.domainsOfInterest| <= MaxDomains
  }

  /** After one click on an unselected domain from an empty picker, the
      highlighted selection holds it but the form field is still empty, so the
      schema refuses the form although a domain is shown as picked. */
  method StaleDomainsCounterexample(f: StudentForm, currentYear: int) returns (p: DomainPicker)
    ensures p.selected == ["IoT"] && p.formDomains == []
    ensures !SchemaAccepts(f.(domainsOfInterest := p.formDomains), currentYear)
  {
    p := new DomainPicker();
    p.SelectDomainAsWritten("IoT");
  }

  /** With the corrected handler the form field always equals the selection,
      so the domain bound holds exactly when at least one domain is highlighted. */
  lemma FormFollowsSelection(p: DomainPicker)
    requires p.Valid() && p.formDomains == p.selected
    ensures 1 <= |p.formDomains| <= MaxDomains <==> p.selected != []
  {
  }

  /** The submit handler as written: both setters use the `user` of the render
      that handled the click, so the second write rebuilds the user from that
      snapshot and drops the role the first one set. */
  function SubmitAsWritten(s: AuthState): (r: Step)
    ensures r.nav == Some("/student")
    ensures s.user.Some? ==> r.state.user == Some(s.user.value.(profileCompleted := true))
    ensures s.user.Some? ==> r.state.stored == Holds(r.state.user.value)
    ensures s.user.None? ==> r.state == s
    ensures r.state.loading == s.loading
  {
    var seen := s.user;
    var s1 := Apply(s, Op.SetUserType(seen, Some(Student))).state;
    Step(Apply(s1, Op.SetProfileCompleted(seen, true)).state, Some("/student"))
  }

  /** The submit handler with the second setter seeing the first one's result. */
  function Submit(s: AuthState): (r: Step)
    ensures r.nav == Some("/student")
    ensures s.user.Some? ==> r.state.user == Some(s.user.value.(userType := Some(Student), profileCompleted := true))
    ensures s.user.Some? ==> r.state.stored == Holds(r.state.user.value)
    ensures s.user.None? ==> r.state == s
    ensures r.state.loading == s.loading
    ensures Mirrored(s) ==> Mirrored(r.state)
  {
    var s1 := Apply(s, Op.SetUserType(s.user, Some(Student))).state;
    Step(Apply(s1, Op.SetProfileCompleted(s1.user, true)).state, Some("/student"))
  }

  /** A first-time student (no role yet) who submits as written lands on
      "/student" still without a role: the guard there sends them home, and the
      landing page has nowhere to send them. */
  lemma FirstTimeStudentBounced(s: AuthState)
    requires s.user.Some? && s.user.value.userType.None? && !s.loading
    ensures var st := SubmitAsWritten(s).state; Render(st.loading, st.user, "/student") == Redirect("/")
    ensures LandingRedirect(SubmitAsWritten(s).state.user) == None
  {
    var u := s.user.value.(profileCompleted := true);
    assert SubmitAsWritten(s).state.user == Some(u);
    RolelessUserStuckAtLanding(u, Student);
  }

  /** With the setters sequenced, a signed-in student who submits reaches the student home page. */
  lemma SubmitOpensStudentHome(s: AuthState)
    requires s.user.Some? && !s.loading
    ensures var st := Submit(s); Render(st.state.loading, st.state.user, st.nav.value) == Shows(StudentHomePage)
  {
    var u := s.user.value.(userType := Some(Student), profileCompleted := true);
    assert Submit(s).state.user == Some(u);
    RoleRoutes();
    assert Guard(false, Some(u), Some(Student), "/student") == RenderChildren;
  }

  /** The two handlers, run against the controller. */
  method SubmitOnControllerAsWritten(ctl: AuthController) returns (nav: Option<string>)
    modifies ctl
    ensures Step(ctl.State(), nav) == SubmitAsWritten(old(ctl.State()))
  {
    var seen := ctl.user;
    ctl.SetUserType(seen, Some(Student));
    ctl.SetProfileCompleted(seen, true);
    nav := Some("/student");
  }

  method SubmitOnController(ctl: AuthController) returns (nav: Option<string>)
    modifies ctl
    ensures Step(ctl.State(), nav) == Submit(old(ctl.State()))
  {
    ctl.SetUserType(ctl.user, Some(Student));
    ctl.SetProfileCompleted(ctl.user, true);
    nav := Some("/student");
  }
}
