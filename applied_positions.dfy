/** The student's applications page (src/pages/AppliedPositions.tsx): each
    application joined with the listing it names, the table rows for those
    whose listing was found, and the status badge. */
module AppliedPositions {
  import opened Base
  import opened Marketplace

  /** An entry of the page's own application list; its status is plain text. */
  datatype AppliedRecord = AppliedRecord(id: string, internshipId: string, status: string, appliedDate: string)

  const Applied1 := AppliedRecord("a1", "i1", "Pending", "2025-04-12")
  const Applied2 := AppliedRecord("a2", "i2", "Shortlisted", "2025-04-10")
  const Applied3 := AppliedRecord("a3", "i5", "Rejected", "2025-04-08")

  const MockAppliedInternships: seq<AppliedRecord> := [Applied1, Applied2, Applied3]

  /** An application with the listing it names, when there is one. */
  datatype AppliedPosition = AppliedPosition(record: AppliedRecord, internship: Option<Internship>)

  function InternshipId(i: Internship): string
  {
    i.id
  }

  /** The listing an application names: the first one with its id. */
  function Lookup(internships: seq<Internship>, internshipId: string): (found: Option<Internship>)
    ensures found.None? <==> forall k :: 0 <= k < |internships| ==> internships[k].id != internshipId
    ensures found.Some? ==> found.value in internships && found.value.id == internshipId
  {
    FindFirst(internships, InternshipId, internshipId)
  }

  /** The join: one entry per application, in the same order. */
  function Join(apps: seq<AppliedRecord>, internships: seq<Internship>): (r: seq<AppliedPosition>)
    ensures |r| == |apps|
    ensures forall k :: 0 <= k < |r| ==> r[k].record == apps[k]
    ensures forall k :: 0 <= k < |r| ==> r[k].internship == Lookup(internships, apps[k].internshipId)
  {
    seq(|apps|, k requires 0 <= k < |apps| => AppliedPosition(apps[k], Lookup(internships, apps[k].internshipId)))
  }

  /** The applications an entry list was built from. */
  function Records(ps: seq<AppliedPosition>): (r: seq<AppliedRecord>)
    ensures |r| == |ps|
  {
    seq(|ps|, k requires 0 <= k < |ps| => ps[k].record)
  }

  /** The join keeps every application as it was (id, status and date included), in order. */
  lemma JoinKeepsApplications(apps: seq<AppliedRecord>, internships: seq<Internship>)
    ensures Records(Join(apps, internships)) == apps
  {
    var r := Records(Join(apps, internships));
    assert forall k :: 0 <= k < |apps| ==> r[k] == apps[k];
  }

  /** One row of the table. */
  datatype Row = Row(id: string, title: string, company: string, mode: Mode, duration: string,
                     deadline: string, appliedDate: string, status: string, badge: BadgeVariant)

  function RowOf(p: AppliedPosition): (row: Row)
    requires p.internship.Some?
    ensures row.id == p.record.id && row.appliedDate == p.record.appliedDate && row.status == p.record.status
    ensures row.title == p.internship.value.title && row.company == p.internship.value.startupName
    ensures row.mode == p.internship.value.mode && row.duration == p.internship.value.duration &&
      row.deadline == p.internship.value.deadline
    ensures row.badge == BadgeOf(p.record.status)
  {
    var i := p.internship.value;
    Row(p.record.id, i.title, i.startupName, i.mode, i.duration, i.deadline,
        p.record.appliedDate, p.record.status, BadgeOf(p.record.status))
  }

  function HasListing(p: AppliedPosition): bool
  {
    p.internship.Some?
  }

  /** The entries that render a row: those whose listing was found, in order. */
  function Found(ps: seq<AppliedPosition>): (r: seq<AppliedPosition>)
    ensures IsSubsequence(r, ps)
    ensures forall p :: p in r <==> p in ps && p.internship.Some?
    ensures forall p :: multiset(r)[p] == if p.internship.Some? then multiset(ps)[p] else 0
  {
    Filter(ps, HasListing)
  }

  /** The table body: a row for each entry whose listing was found; the
      others render nothing. */
  function Rows(ps: seq<AppliedPosition>): (rows: seq<Row>)
    ensures |rows| == |Found(ps)| <= |ps|
    ensures forall k :: 0 <= k < |rows| ==> Found(ps)[k].internship.Some? && rows[k] == RowOf(Found(ps)[k])
  {
    var found := Found(ps);
    seq(|found|, k requires 0 <= k < |found| => RowOf(found[k]))
  }

  /** What the page shows: the empty-state card, or the table. */
  datatype View = NoApplications | Table(rows: seq<Row>)

  function ViewOf(ps: seq<AppliedPosition>): (v: View)
    ensures v == NoApplications <==> |ps| == 0
    ensures v.Table? ==> v.rows == Rows(ps)
  {
    if |ps| == 0 then NoApplications else Table(Rows(ps))
  }

  /** When no application names a known listing, the page shows neither the
      empty-state card nor any row: the table is empty. */
  lemma {:induction false} UnknownListingsLeaveEmptyTable(apps: seq<AppliedRecord>, internships: seq<Internship>)
    requires |apps| > 0
    requires forall k :: 0 <= k < |apps| ==> Lookup(internships, apps[k].internshipId).None?
    ensures ViewOf(Join(apps, internships)) == Table([])
  {
    NoRowsWithoutListings(Join(apps, internships));
  }

  lemma NoRowsWithoutListings(ps: seq<AppliedPosition>)
    requires forall k :: 0 <= k < |ps| ==> ps[k].internship.None?
    ensures Rows(ps) == []
  {
    FilterKeepsNone(ps, HasListing);
  }

  /** When every listing is found, the table has one row per application, in order. */
  lemma AllFoundRowsAligned(ps: seq<AppliedPosition>)
    requires forall k :: 0 <= k < |ps| ==> ps[k].internship.Some?
    ensures |Rows(ps)| == |ps|
    ensures forall k :: 0 <= k < |ps| ==> Rows(ps)[k] == RowOf(ps[k])
  {
    FilterKeepsAll(ps, HasListing);
  }

  /** A listing whose id no earlier listing has is what its id looks up. */
  lemma LookupFirst(internships: seq<Internship>, k: int)
    requires 0 <= k < |internships|
    requires forall j :: 0 <= j < k ==> internships[j].id != internships[k].id
    ensures Lookup(internships, internships[k].id) == Some(internships[k])
  {
  }

  /** With the fixtures every application finds its listing. */
  lemma FixtureJoin(ps: seq<AppliedPosition>)
    requires ps == Join(MockAppliedInternships, MockInternships)
    ensures |ps| == 3 && ps[0].internship == Some(Internship1) &&
      ps[1].internship == Some(Internship2) && ps[2].internship == Some(Internship5)
    ensures ps[0].record == Applied1 && ps[1].record == Applied2 && ps[2].record == Applied3
  {
    LookupFirst(MockInternships, 0);
    LookupFirst(MockInternships, 1);
    LookupFirst(MockInternships, 4);
  }

  /** With the fixtures all three listings are found: the rows name the
      three positions with pending, shortlisted and rejected badges. */
  lemma FixtureRows(ps: seq<AppliedPosition>)
    requires ps == Join(MockAppliedInternships, MockInternships)
    ensures var v := ViewOf(ps);
      v.Table? && |v.rows| == 3 &&
      v.rows[0].title == "Machine Learning Intern" && v.rows[0].badge == Secondary &&
      v.rows[1].title == "IoT Developer Intern" && v.rows[1].badge == Default &&
      v.rows[2].title == "Backend Developer Intern" && v.rows[2].badge == Destructive
  {
    FixtureJoin(ps);
    AllFoundRowsAligned(ps);
  }
}
