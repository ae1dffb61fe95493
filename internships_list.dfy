/** The student's internship browser (src/pages/InternshipsList.tsx): a free-text
    search plus a mode and a domain select, applied one after another to the
    fixture list; the selects' options are the distinct values in the list. */
module InternshipsList {
  import opened Base
  import opened Text
  import opened Marketplace

  /** `startupId.charAt(0) === 's'`; `charAt(0)` of an empty id is "". */
  predicate StartsWithS(i: Internship)
  {
    |i.startupId| > 0 && i.startupId[0] == 's'
  }

  /** The stand-in domain the page derives from the startup id. */
  function DomainLabel(i: Internship): (d: string)
    ensures d == "Technology" <==> StartsWithS(i)
  {
    if StartsWithS(i) then "Technology" else "Business"
  }

  /** Some skill of `i` contains the term, ignoring case. */
  predicate SkillMatches(i: Internship, term: string)
  {
    exists k :: 0 <= k < |i.skills| && MatchesIgnoringCase(i.skills[k], term)
  }

  /** The text filter: title, startup name, description or a skill contains the
      lower-cased (untrimmed) term. */
  predicate TextMatch(i: Internship, term: string)
  {
    MatchesIgnoringCase(i.title, term) || MatchesIgnoringCase(i.startupName, term) ||
    MatchesIgnoringCase(i.description, term) || SkillMatches(i, term)
  }

  /** The mode filter compares the union member's spelling with the select's value. */
  predicate ModeMatch(i: Internship, mode: string)
  {
    ModeName(i.mode) == mode
  }

  /** "Technology" keeps the ids starting with 's'; any other value keeps the rest. */
  predicate DomainMatch(i: Internship, domain: string)
  {
    if domain == "Technology" then StartsWithS(i) else !StartsWithS(i)
  }

  /** An internship is listed when it passes every filter that is switched on. */
  predicate Selected(i: Internship, term: string, mode: string, domain: string)
  {
    (IsBlank(term) || TextMatch(i, term)) &&
    (mode == "all" || ModeMatch(i, mode)) &&
    (domain == "all" || DomainMatch(i, domain))
  }

  function SelectedBy(term: string, mode: string, domain: string): Internship -> bool
  {
    i => Selected(i, term, mode, domain)
  }

  /** The listing the page shows: the internships passing every active filter,
      in their original order. */
  function ShownInternships(all: seq<Internship>, term: string, mode: string, domain: string): (r: seq<Internship>)
    ensures IsSubsequence(r, all)
    ensures forall i :: i in r <==> i in all && Selected(i, term, mode, domain)
    ensures forall i :: multiset(r)[i] == if Selected(i, term, mode, domain) then multiset(all)[i] else 0
  {
    Filter(all, SelectedBy(term, mode, domain))
  }

  /** The filter effect: narrows `filtered` stage by stage, exactly as the page
      does, and ends with the listing `ShownInternships` specifies. */
  method FilterInternships(all: seq<Internship>, term: string, mode: string, domain: string)
    returns (filtered: seq<Internship>)
    ensures filtered == ShownInternships(all, term, mode, domain)
  {
    var byText := (i: Internship) => IsBlank(term) || TextMatch(i, term);
    var byMode := (i: Internship) => byText(i) && (mode == "all" || ModeMatch(i, mode));
    var all3 := SelectedBy(term, mode, domain);

    filtered := all;
    if Trim(term) != "" {
      filtered := Filter(filtered, (i: Internship) => TextMatch(i, term));
      FilterExtensional(all, (i: Internship) => TextMatch(i, term), byText);
    } else {
      FilterKeepsAll(all, byText);
    }
    // filtered == Filter(all, byText)

    if mode != "all" {
      var modeOk := (i: Internship) => ModeMatch(i, mode);
      filtered := Filter(filtered, modeOk);
      FilterFilter(all, byText, modeOk, byMode);
    } else {
      FilterExtensional(all, byText, byMode);
    }
    // filtered == Filter(all, byMode)

    if domain != "all" {
      var domainOk := (i: Internship) => DomainMatch(i, domain);
      filtered := Filter(filtered, domainOk);
      FilterFilter(all, byMode, domainOk, all3);
    } else {
      FilterExtensional(all, byMode, all3);
    }
  }

  /** With the mode select set, every listed internship has exactly that mode. */
  lemma ShownHaveSelectedMode(all: seq<Internship>, term: string, mode: string, domain: string)
    requires mode != "all"
    ensures forall i :: i in ShownInternships(all, term, mode, domain) ==> ModeName(i.mode) == mode
  {
  }

  /** A search term that is blank after trimming applies no text filter at all. */
  lemma BlankTermIgnored(all: seq<Internship>, term: string, mode: string, domain: string)
    requires IsBlank(term)
    ensures ShownInternships(all, term, mode, domain) == ShownInternships(all, "", mode, domain)
  {
    assert IsBlank("");
    FilterExtensional(all, SelectedBy(term, mode, domain), SelectedBy("", mode, domain));
  }

  /** With nothing selected, the whole list is shown. */
  lemma ClearedShowsAll(all: seq<Internship>)
    ensures ShownInternships(all, "", "all", "all") == all
  {
    assert IsBlank("");
    FilterKeepsAll(all, SelectedBy("", "all", "all"));
  }

  /** The "Technology" and any other domain split the list between them. */
  lemma DomainsPartition(all: seq<Internship>, i: Internship, other: string)
    requires i in all && other != "Technology" && other != "all"
    ensures i in ShownInternships(all, "", "all", "Technology") <==> i !in ShownInternships(all, "", "all", other)
  {
    assert IsBlank("");
  }

  /** The filters recorded for the badges: a key exactly for each select that is not "all". */
  datatype ActiveFilters = ActiveFilters(mode: Option<string>, domain: Option<string>)

  function Active(mode: string, domain: string): (af: ActiveFilters)
    ensures af.mode.Some? <==> mode != "all"
    ensures af.domain.Some? <==> domain != "all"
    ensures af.mode.Some? ==> af.mode.value == mode
    ensures af.domain.Some? ==> af.domain.value == domain
  {
    ActiveFilters(if mode != "all" then Some(mode) else None,
                  if domain != "all" then Some(domain) else None)
  }

  /** The badge row shows when a select is set or the search box is non-empty
      (untrimmed: a term of spaces shows a badge but filters nothing). */
  predicate ShowsActivePanel(af: ActiveFilters, term: string)
  {
    af.mode.Some? || af.domain.Some? || term != ""
  }

  lemma SpacesShowPanelButFilterNothing(all: seq<Internship>)
    ensures ShowsActivePanel(Active("all", "all"), " ")
    ensures ShownInternships(all, " ", "all", "all") == all
  {
    assert Trim(" ") == "" by { BlankIffAllWhitespace(" "); }
    BlankTermIgnored(all, " ", "all", "all");
    ClearedShowsAll(all);
  }

  function ModesOf(s: seq<Internship>): (r: seq<Mode>)
    ensures |r| == |s| && forall k :: 0 <= k < |s| ==> r[k] == s[k].mode
  {
    seq(|s|, k requires 0 <= k < |s| => s[k].mode)
  }

  function DomainsOf(s: seq<Internship>): (r: seq<string>)
    ensures |r| == |s| && forall k :: 0 <= k < |s| ==> r[k] == DomainLabel(s[k])
  {
    seq(|s|, k requires 0 <= k < |s| => DomainLabel(s[k]))
  }

  /** The mode select's options: each mode of the list once. */
  function UniqueModes(s: seq<Internship>): (r: seq<Mode>)
    ensures NoDuplicates(r)
    ensures forall m :: m in r <==> exists k :: 0 <= k < |s| && s[k].mode == m
  {
    var ms := ModesOf(s);
    assert forall m :: m in ms <==> exists k :: 0 <= k < |s| && s[k].mode == m by {
      forall m | m in ms ensures exists k :: 0 <= k < |s| && s[k].mode == m {
        var k :| 0 <= k < |ms| && ms[k] == m;
      }
    }
    Distinct(ms)
  }

  /** The domain select's options: each derived domain once. */
  function UniqueDomains(s: seq<Internship>): (r: seq<string>)
    ensures NoDuplicates(r)
    ensures forall d :: d in r <==> exists k :: 0 <= k < |s| && DomainLabel(s[k]) == d
  {
    var ds := DomainsOf(s);
    assert forall d :: d in ds <==> exists k :: 0 <= k < |s| && DomainLabel(s[k]) == d by {
      forall d | d in ds ensures exists k :: 0 <= k < |s| && DomainLabel(s[k]) == d {
        var k :| 0 <= k < |ds| && ds[k] == d;
      }
    }
    Distinct(ds)
  }

  /** When every startup id starts with 's', the domain select offers
      "Technology" alone and "Business" lists nothing. */
  lemma UniformIdsOneDomain(s: seq<Internship>)
    requires |s| > 0 && forall k :: 0 <= k < |s| ==> StartsWithS(s[k])
    ensures UniqueDomains(s) == ["Technology"]
    ensures ShownInternships(s, "", "all", "Business") == []
  {
    var ds := DomainsOf(s);
    DistinctOfConstant(ds, "Technology");
    FilterKeepsNone(s, SelectedBy("", "all", "Business"));
  }

  /** The fixture list is such a list. */
  lemma FixtureDomains()
    ensures UniqueDomains(MockInternships) == ["Technology"]
    ensures ShownInternships(MockInternships, "", "all", "Business") == []
  {
    assert forall k :: 0 <= k < |MockInternships| ==> StartsWithS(MockInternships[k]);
    UniformIdsOneDomain(MockInternships);
  }

  /** With nothing selected, the page lists every fixture internship. */
  lemma FixtureUnfiltered()
    ensures ShownInternships(MockInternships, "", "all", "all") == MockInternships
  {
    ClearedShowsAll(MockInternships);
  }

  /** The page's state, with the effect's results stored as the page stores them. */
  class InternshipsListPage {
    var searchTerm: string
    var mode: string
    var domain: string
    var filtered: seq<Internship>
    var activeFilters: ActiveFilters

    /** The listing and the badges match the current selections, as they do
        once the filter effect has run. */
    predicate Consistent()
      reads this
    {
      filtered == ShownInternships(MockInternships, searchTerm, mode, domain) &&
      activeFilters == Active(mode, domain)
    }

    /** The initial state lists every fixture internship with no badge, which
        `FixtureUnfiltered` shows is what the effect would compute. */
    constructor ()
      ensures searchTerm == "" && mode == "all" && domain == "all"
      ensures filtered == MockInternships && activeFilters == ActiveFilters(None, None)
    {
      searchTerm, mode, domain := "", "all", "all";
      filtered := MockInternships;
      activeFilters := ActiveFilters(None, None);
    }

    method SetSearchTerm(t: string)
      modifies this
      ensures searchTerm == t
      ensures mode == old(mode) && domain == old(domain)
      ensures filtered == old(filtered) && activeFilters == old(activeFilters)
    {
      searchTerm := t;
    }

    method SetMode(m: string)
      modifies this
      ensures mode == m
      ensures searchTerm == old(searchTerm) && domain == old(domain)
      ensures filtered == old(filtered) && activeFilters == old(activeFilters)
    {
      mode := m;
    }

    method SetDomain(d: string)
      modifies this
      ensures domain == d
      ensures searchTerm == old(searchTerm) && mode == old(mode)
      ensures filtered == old(filtered) && activeFilters == old(activeFilters)
    {
      domain := d;
    }

    /** The effect that reruns whenever the term or a select changes. */
    method RunFilterEffect()
      modifies this
      ensures searchTerm == old(searchTerm) && mode == old(mode) && domain == old(domain)
      ensures Consistent()
    {
      filtered := FilterInternships(MockInternships, searchTerm, mode, domain);
      activeFilters := Active(mode, domain);
    }

    /** "Clear all": both selects back to "all" and the search box emptied; once
        the effect reruns the full list is back. */
    method ClearFilters()
      modifies this
      ensures searchTerm == "" && mode == "all" && domain == "all"
      ensures filtered == old(filtered) && activeFilters == old(activeFilters)
    {
      mode := "all";
      domain := "all";
      searchTerm := "";
    }
  }

  /** After "Clear all" and the effect, every fixture internship is listed and no badge shows. */
  method ClearThenRefresh(page: InternshipsListPage)
    modifies page
    ensures page.filtered == MockInternships
    ensures !ShowsActivePanel(page.activeFilters, page.searchTerm)
  {
    page.ClearFilters();
    page.RunFilterEffect();
    FixtureUnfiltered();
  }
}
