/** The startup dashboard (src/pages/StartupDashboard.tsx): the startup's own
    listings, the received-applications table with each row's position title
    and status badge, and the status menu. */
module StartupDashboard {
  import opened Base
  import opened Marketplace

  /** The signed-in startup is taken to be the first fixture startup. */
  const CurrentStartupId := "s1"

  function OwnedBy(startupId: string): Internship -> bool
  {
    (i: Internship) => i.startupId == startupId
  }

  /** The listings tab: the startup's internships, in the fixture's order. */
  function MyInternships(all: seq<Internship>, startupId: string): (r: seq<Internship>)
    ensures IsSubsequence(r, all)
    ensures forall i :: i in r <==> i in all && i.startupId == startupId
    ensures forall i :: multiset(r)[i] == if i.startupId == startupId then multiset(all)[i] else 0
  {
    Filter(all, OwnedBy(startupId))
  }

  function InternshipId(i: Internship): string
  {
    i.id
  }

  /** The "Position" cell: the title of the first internship whose id matches,
      or "Unknown Position" when none does or its title is empty. */
  function PositionTitle(internships: seq<Internship>, internshipId: string): (t: string)
    ensures (forall k :: 0 <= k < |internships| ==> internships[k].id != internshipId) ==> t == "Unknown Position"
    ensures t != "Unknown Position" ==>
      exists k :: 0 <= k < |internships| && internships[k].id == internshipId && internships[k].title == t &&
        forall j :: 0 <= j < k ==> internships[j].id != internshipId
    ensures t != ""
  {
    var found := FindFirst(internships, InternshipId, internshipId);
    if found.Some? && found.value.title != "" then found.value.title else "Unknown Position"
  }

  /** The first matching listing names the position, whatever comes after it. */
  lemma TitleOfFirstMatch(internships: seq<Internship>, k: nat)
    requires k < |internships| && internships[k].title != ""
    requires forall j :: 0 <= j < k ==> internships[j].id != internships[k].id
    ensures PositionTitle(internships, internships[k].id) == internships[k].title
  {
  }

  /** One row of the received-applications table. */
  datatype Row = Row(applicationId: string, studentName: string, studentEmail: string,
                     position: string, appliedDate: string, status: Status, badge: BadgeVariant)

  function RowOf(internships: seq<Internship>, a: Application): (row: Row)
    ensures row.applicationId == a.id && row.studentName == a.studentName && row.studentEmail == a.studentEmail
    ensures row.appliedDate == a.appliedDate && row.status == a.status
    ensures row.position == PositionTitle(internships, a.internshipId)
    ensures row.badge == BadgeOf(StatusName(a.status))
  {
    Row(a.id, a.studentName, a.studentEmail, PositionTitle(internships, a.internshipId),
        a.appliedDate, a.status, BadgeOf(StatusName(a.status)))
  }

  /** What each tab shows: an empty-state card, or the cards / the table. */
  datatype ListingsView = NoListings | ListingCards(cards: seq<Internship>)
  datatype ApplicationsView = NoApplications | ApplicationTable(rows: seq<Row>)

  function ListingsTab(my: seq<Internship>): (v: ListingsView)
    ensures v == NoListings <==> |my| == 0
    ensures v.ListingCards? ==> v.cards == my
  {
    if |my| == 0 then NoListings else ListingCards(my)
  }

  function ApplicationsTab(internships: seq<Internship>, apps: seq<Application>): (v: ApplicationsView)
    ensures v == NoApplications <==> |apps| == 0
    ensures v.ApplicationTable? ==> |v.rows| == |apps|
    ensures v.ApplicationTable? ==> forall k :: 0 <= k < |apps| ==> v.rows[k] == RowOf(internships, apps[k])
  {
    if |apps| == 0 then NoApplications
    else ApplicationTable(seq(|apps|, k requires 0 <= k < |apps| => RowOf(internships, apps[k])))
  }

  /** A status menu item: the list of applications is left as it was; only a
      notice naming the new status is shown. */
  function HandleUpdateStatus(apps: seq<Application>, applicationId: string, newStatus: Status)
    : (r: (seq<Application>, string))
    ensures r.0 == apps
    ensures |r.1| > |StatusName(newStatus)| && r.1[|r.1| - |StatusName(newStatus)| - 1..|r.1| - 1] == StatusName(newStatus)
      && r.1[|r.1| - 1] == '.'
  {
    (apps, "Application status changed to " + StatusName(newStatus) + ".")
  }

  /** Choosing a status from the menu changes no row of the table. */
  lemma UpdateStatusKeepsTable(internships: seq<Internship>, apps: seq<Application>, id: string, s: Status)
    ensures ApplicationsTab(internships, HandleUpdateStatus(apps, id, s).0) == ApplicationsTab(internships, apps)
  {
  }

  /** The two applications the dashboard lists. */
  const Application1 := Application("a1", "i1", "st1", "Amit Kumar", "amit@example.com", Some("+919876543210"),
      Some("https://example.com/resume.pdf"), Some("https://linkedin.com/in/amitkumar"),
      "I am passionate about machine learning and have completed several projects in this domain. I am looking forward to applying my skills to real-world problems.",
      [Answer("What projects have you worked on that involved machine learning?",
              "I have worked on image classification using CNNs, sentiment analysis using LSTM, and a recommendation system using collaborative filtering."),
       Answer("Are you familiar with medical imaging datasets?",
              "Yes, I have worked with the MNIST dataset for digit recognition and have some experience with X-ray image classification for pneumonia detection.")],
      Pending, "2025-04-12")

  const Application2 := Application("a2", "i1", "st2", "Priya Singh", "priya@example.com", Some("+919876543211"),
      Some("https://example.com/resume2.pdf"), Some("https://linkedin.com/in/priyasingh"),
      "I am a computer science student with a strong foundation in Python and TensorFlow. I am eager to contribute to your AI team.",
      [Answer("What projects have you worked on that involved machine learning?",
              "I've implemented a fraud detection system using anomaly detection algorithms and developed a chatbot using NLP techniques."),
       Answer("Are you familiar with medical imaging datasets?",
              "I have not worked with medical imaging specifically, but I am familiar with image processing techniques and eager to learn.")],
      Shortlisted, "2025-04-13")

  const MyApplications: seq<Application> := [Application1, Application2]

  /** With the fixtures the startup has exactly one listing, the first one. */
  lemma FixtureListings()
    ensures MyInternships(MockInternships, CurrentStartupId) == [MockInternships[0]]
    ensures ListingsTab(MyInternships(MockInternships, CurrentStartupId)) == ListingCards([MockInternships[0]])
  {
    var rest := MockInternships[1..];
    assert forall x :: x in rest ==> !OwnedBy(CurrentStartupId)(x) by {
      assert rest == [MockInternships[1], MockInternships[2], MockInternships[3], MockInternships[4], MockInternships[5]];
    }
    FilterKeepsNone(rest, OwnedBy(CurrentStartupId));
  }

  /** With the fixtures both applications are for that listing, one pending
      and one shortlisted. */
  lemma FixtureApplications(v: ApplicationsView)
    requires v == ApplicationsTab(MockInternships, MyApplications)
    ensures v.ApplicationTable? && |v.rows| == 2
    ensures v.rows[0].position == "Machine Learning Intern" && v.rows[0].badge == Secondary
    ensures v.rows[1].position == "Machine Learning Intern" && v.rows[1].badge == Default
  {
    TitleOfFirstMatch(MockInternships, 0);
    assert Application1.internshipId == Internship1.id;
    assert Application2.internshipId == Internship1.id;
  }
}
