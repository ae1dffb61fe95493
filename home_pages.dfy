/** The two role home pages (src/pages/StudentHome.tsx, src/pages/StartupHome.tsx):
    both show the same statistics and the same startup search; they differ
    only in the buttons that lead on. */
module HomePages {
  import opened Base
  import opened Text
  import opened Marketplace
  import opened Auth
  import opened AppRoutes

  /** Name, domain, location or summary contains the term, ignoring case. */
  predicate StartupMatches(s: Startup, term: string)
  {
    MatchesIgnoringCase(s.name, term) || MatchesIgnoringCase(s.domain, term) ||
    MatchesIgnoringCase(s.location, term) || MatchesIgnoringCase(s.summary, term)
  }

  function MatchesTerm(term: string): Startup -> bool
  {
    s => StartupMatches(s, term)
  }

  /** The search effect: a term blank after trimming shows every startup;
      otherwise the matching ones, in their original order. */
  function SearchStartups(all: seq<Startup>, term: string): (r: seq<Startup>)
    ensures IsBlank(term) ==> r == all
    ensures IsSubsequence(r, all)
    ensures !IsBlank(term) ==> forall s :: s in r <==> s in all && StartupMatches(s, term)
    ensures !IsBlank(term) ==> forall s :: multiset(r)[s] == if StartupMatches(s, term) then multiset(all)[s] else 0
  {
    if Trim(term) == "" then
      SubsequenceOfItself(all);
      all
    else Filter(all, MatchesTerm(term))
  }

  /** The listing a page shows before any typing equals the search of the empty term. */
  lemma EmptyTermListsAll(all: seq<Startup>)
    ensures SearchStartups(all, "") == all
  {
    assert Trim("") == "";
  }

  /** Terms that differ only in letter case give the same listing. */
  lemma SearchIgnoresCase(all: seq<Startup>, t1: string, t2: string)
    requires Lower(t1) == Lower(t2)
    ensures SearchStartups(all, t1) == SearchStartups(all, t2)
  {
    LowerKeepsBlank(t1);
    LowerKeepsBlank(t2);
    if !IsBlank(t1) {
      FilterExtensional(all, MatchesTerm(t1), MatchesTerm(t2));
    }
  }

  /** Typing more never lists more: what a longer term lists, its non-blank
      start lists too. */
  lemma SearchNarrows(all: seq<Startup>, t: string, more: string)
    requires !IsBlank(t)
    ensures forall s :: s in SearchStartups(all, t + more) ==> s in SearchStartups(all, t)
  {
    BlankIffAllWhitespace(t);
    BlankIffAllWhitespace(t + more);
    var k :| 0 <= k < |t| && !IsWhitespace(t[k]);
    assert (t + more)[k] == t[k];
    LowerAppend(t, more);
    forall s | s in SearchStartups(all, t + more) ensures s in SearchStartups(all, t) {
      forall f | MatchesIgnoringCase(f, t + more) ensures MatchesIgnoringCase(f, t) {
        ContainsLongerContainsPrefix(Lower(f), Lower(t), Lower(more));
      }
    }
  }

  /** The figures both pages pass to the statistics card. */
  datatype Stats = Stats(startupCount: int, studentCount: int, internshipCount: int)

  function HomeStats(startups: seq<Startup>, internships: seq<Internship>): (st: Stats)
    ensures st.startupCount == |startups| && st.internshipCount == |internships|
    ensures st.studentCount == 25
  {
    Stats(|startups|, 25, |internships|)
  }

  /** With the fixtures: six startups, 25 students, six internships. */
  lemma FixtureStats()
    ensures HomeStats(MockStartups, MockInternships) == Stats(6, 25, 6)
  {
  }

  /** The student page's button leads to the internship list, the startup
      page's to the new-listing form and the dashboard; each opens its page
      for a finished profile of the page's role. */
  lemma HomeButtonsRender(u: User)
    requires u.profileCompleted
    ensures u.userType == Some(Role.Student) ==> Render(false, Some(u), "/internships") == Shows(InternshipsListPage)
    ensures u.userType == Some(Role.Startup) ==>
      Render(false, Some(u), "/create-internship") == Shows(CreateInternshipPage) &&
      Render(false, Some(u), "/dashboard") == Shows(StartupDashboardPage)
  {
    RoleRoutes();
  }
}
