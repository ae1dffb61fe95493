/** The profile page (src/pages/ProfilePage.tsx): the role's fixture record,
    the edit / save / cancel cycle, per-field edits, and the role badge. */
module ProfilePage {
  import opened Base
  import opened Auth

  /** A profile field's value: the fixtures hold text, numbers and a list;
      every edit stores the input's text. */
  datatype FieldValue = Text(s: string) | Number(n: int) | TextList(items: seq<string>)

  type Profile = map<string, FieldValue>

  const StudentProfileData: Profile := map[
    "fullName" := Text("Rahul Sharma"),
    "birthYear" := Number(2003),
    "campus" := Text("Pilani"),
    "bitsId" := Text("2022ABCD1234"),
    "branch" := Text("Computer Science"),
    "dualDegreeBranch" := Text("Economics"),
    "minorDegree" := Text(""),
    "domainsOfInterest" := TextList(["Web Development", "Machine Learning", "Blockchain"]),
    "email" := Text("rahul@example.com"),
    "whatsappNumber" := Text("+919876543210"),
    "linkedinProfile" := Text("https://linkedin.com/in/rahulsharma"),
    "website" := Text("https://rahulsharma.example.com"),
    "resumeUrl" := Text("https://example.com/resume.pdf")
  ]

  const StartupProfileData: Profile := map[
    "officialName" := Text("TechNova"),
    "websiteUrl" := Text("https://technova.example.com"),
    "yearOfIncorporation" := Number(2019),
    "location" := Text("Bangalore, India"),
    "logoUrl" := Text("https://images.unsplash.com/photo-1599305445671-ac291c95aaa9?w=800&auto=format&fit=crop"),
    "summary" := Text("TechNova is leveraging artificial intelligence to revolutionize healthcare diagnostics, making medical diagnoses more accessible and accurate for everyone."),
    "domainOfOperation" := Text("AI & ML"),
    "founderName" := Text("Vikram Mehta"),
    "founderAge" := Number(28),
    "founderEmail" := Text("vikram@technova.example.com"),
    "founderWhatsapp" := Text("+919876543211"),
    "founderLinkedin" := Text("https://linkedin.com/in/vikrammehta")
  ]

  /** The fields each card offers an input for while editing. */
  function EditableFields(r: Role): (keys: set<string>)
    ensures keys <= FixtureOf(r).Keys
  {
    match r
    case Student => {"fullName", "birthYear", "whatsappNumber", "linkedinProfile", "website"}
    case Startup => {"summary", "location", "logoUrl", "founderName", "founderAge", "founderWhatsapp", "founderLinkedin"}
  }

  function FixtureOf(r: Role): Profile
  {
    match r
    case Student => StudentProfileData
    case Startup => StartupProfileData
  }

  /** The record the page shows for a user: the role's fixture, or whatever
      it held before when the user has no role. */
  function Reloaded(user: Option<User>, current: Option<Profile>): (p: Option<Profile>)
    ensures user.Some? && user.value.userType.Some? ==> p == Some(FixtureOf(user.value.userType.value))
    ensures user.None? || user.value.userType.None? ==> p == current
  {
    if user.Some? && user.value.userType == Some(Student) then Some(StudentProfileData)
    else if user.Some? && user.value.userType == Some(Startup) then Some(StartupProfileData)
    else current
  }

  /** An input's change handler: that one field now holds the typed text. */
  function WithField(p: Profile, key: string, text: string): (r: Profile)
    ensures r.Keys == p.Keys + {key}
    ensures r[key] == Text(text)
    ensures forall k :: k in p && k != key ==> r[k] == p[k]
  {
    p[key := Text(text)]
  }

  /** Only the last of two edits to one field counts. */
  lemma LastEditWins(p: Profile, key: string, a: string, b: string)
    ensures WithField(WithField(p, key, a), key, b) == WithField(p, key, b)
  {
  }

  /** Edits to two different fields do not interfere. */
  lemma EditsCommute(p: Profile, k1: string, a: string, k2: string, b: string)
    requires k1 != k2
    ensures WithField(WithField(p, k1, a), k2, b) == WithField(WithField(p, k2, b), k1, a)
  {
  }

  /** Retyping a field's current text leaves the record as it was. */
  lemma RetypeChangesNothing(p: Profile, key: string, text: string)
    requires key in p && p[key] == Text(text)
    ensures WithField(p, key, text) == p
  {
  }

  /** What renders. */
  datatype View = LoadingView | StudentCard | StartupCard

  function ViewOf(user: Option<User>, data: Option<Profile>): (v: View)
    ensures v == LoadingView <==> user.None? || data.None?
    ensures v == StudentCard <==> user.Some? && data.Some? && user.value.userType == Some(Student)
  {
    if user.None? || data.None? then LoadingView
    else if user.value.userType == Some(Student) then StudentCard
    else StartupCard
  }

  /** A role-less user on a fresh page sees only the loading view: no fixture is ever picked. */
  lemma RolelessUserStaysLoading(u: User)
    requires u.userType.None?
    ensures ViewOf(Some(u), Reloaded(Some(u), None)) == LoadingView
  {
  }

  /** A signed-in user with a role sees their role's card once the effect has run. */
  lemma RoleHolderSeesOwnCard(u: User, current: Option<Profile>)
    requires u.userType.Some?
    ensures ViewOf(Some(u), Reloaded(Some(u), current)) == (if u.userType == Some(Student) then StudentCard else StartupCard)
  {
  }

  /** ASCII upper-casing of one character, as `toUpperCase` does for letters a-z. */
  function UpperChar(c: char): char
  {
    if 'a' <= c <= 'z' then (c as int - 32) as char else c
  }

  /** `s.charAt(0).toUpperCase() + s.slice(1)`. */
  function Capitalize(s: string): (r: string)
    ensures |r| == |s|
    ensures |s| > 0 ==> r[0] == UpperChar(s[0]) && r[1..] == s[1..]
  {
    if |s| == 0 then "" else [UpperChar(s[0])] + s[1..]
  }

  /** The role badge reads "Student" or "Startup". */
  lemma RoleBadges()
    ensures Capitalize(RoleName(Student)) == "Student"
    ensures Capitalize(RoleName(Startup)) == "Startup"
  {
  }

  /** The page's state: the edit flag and the record being shown. */
  class ProfilePageState {
    var isEditing: bool
    var profileData: Option<Profile>

    constructor ()
      ensures !isEditing && profileData.None?
    {
      isEditing := false;
      profileData := None;
    }

    /** The effect run whenever `user` changes. */
    method OnUserChange(user: Option<User>)
      modifies this
      ensures profileData == Reloaded(user, old(profileData)) && isEditing == old(isEditing)
    {
      if user.Some? && user.value.userType == Some(Student) {
        profileData := Some(StudentProfileData);
      } else if user.Some? && user.value.userType == Some(Startup) {
        profileData := Some(StartupProfileData);
      }
    }

    method HandleEdit()
      modifies this
      ensures isEditing && profileData == old(profileData)
    {
      isEditing := true;
    }

    /** "Save Changes" keeps the edited record and leaves edit mode. */
    method HandleSave()
      modifies this
      ensures !isEditing && profileData == old(profileData)
    {
      isEditing := false;
    }

    /** "Cancel" throws the edits away: the role's fixture comes back. */
    method HandleCancel(user: Option<User>)
      modifies this
      ensures !isEditing && profileData == Reloaded(user, old(profileData))
    {
      if user.Some? && user.value.userType == Some(Student) {
        profileData := Some(StudentProfileData);
      } else if user.Some? && user.value.userType == Some(Startup) {
        profileData := Some(StartupProfileData);
      }
      isEditing := false;
    }

    /** One keystroke in a field's input; the inputs exist only in edit mode,
        over a loaded record, for the fields the role's card offers. */
    method EditField(r: Role, key: string, text: string)
      requires isEditing && profileData.Some? && key in EditableFields(r)
      modifies this
      ensures isEditing && profileData == Some(WithField(old(profileData).value, key, text))
    {
      profileData := Some(WithField(profileData.value, key, text));
    }
  }

  /** Edit, type, cancel: a role holder is back at the fixture, out of edit mode. */
  method EditThenCancel(page: ProfilePageState, u: User, key: string, text: string)
    requires u.userType.Some? && page.profileData.Some? && key in EditableFields(u.userType.value)
    modifies page
    ensures !page.isEditing && page.profileData == Some(FixtureOf(u.userType.value))
  {
    page.HandleEdit();
    page.EditField(u.userType.value, key, text);
    page.HandleCancel(Some(u));
  }

  /** Edit, type, save: the typed text is kept and every other field is untouched. */
  method EditThenSave(page: ProfilePageState, r: Role, key: string, text: string)
    requires page.profileData.Some? && key in EditableFields(r)
    modifies page
    ensures !page.isEditing
    ensures page.profileData == Some(WithField(old(page.profileData).value, key, text))
  {
    page.HandleEdit();
    page.EditField(r, key, text);
    page.HandleSave();
  }
}
