/** The reports page: a fixed list of reports shown through a search box. */
module Reports {
  import opened Text

  datatype ReportType = ExecutiveSummary | TechnicalReport | ComplianceReport | VulnerabilityReport
  datatype Format = Pdf | Json | Csv | Html
  datatype ReportStatus = Generating | Ready | Failed

  datatype Severities = Severities(critical: int, high: int, medium: int, low: int)

  datatype Report = Report(
    id: string,
    name: string,
    reportType: ReportType,
    format: Format,
    campaignId: string,
    campaignName: string,
    createdAt: string,
    status: ReportStatus,
    size: string,
    vulnerabilities: Severities)

  /** A report matches when its name or its campaign's name contains the
      query, all three lower-cased. */
  predicate Matches(r: Report, query: string)
  {
    Contains(Lower(r.name), Lower(query)) || Contains(Lower(r.campaignName), Lower(query))
  }

  /** The reports the page lists for a query, in list order. */
  function Search(reports: seq<Report>, query: string): (r: seq<Report>)
    ensures |r| <= |reports|
    ensures forall x :: x in r <==> x in reports && Matches(x, query)
    ensures forall x :: multiset(r)[x] == if Matches(x, query) then multiset(reports)[x] else 0
  {
    if reports == [] then []
    else
      var rest := Search(reports[1..], query);
      assert reports == [reports[0]] + reports[1..];
      if Matches(reports[0], query) then [reports[0]] + rest else rest
  }

  /** `sub` is `s` with some elements left out, the rest in their order. */
  predicate IsSubsequence(sub: seq<Report>, s: seq<Report>)
    decreases |s|
  {
    if sub == [] then true
    else if s == [] then false
    else if sub[0] == s[0] then IsSubsequence(sub[1..], s[1..])
    else IsSubsequence(sub, s[1..])
  }

  /** The result keeps the reports' order: it is a subsequence of the list. */
  lemma {:induction false} SearchIsSubsequence(reports: seq<Report>, query: string)
    ensures IsSubsequence(Search(reports, query), reports)
  {
    if reports != [] {
      SearchIsSubsequence(reports[1..], query);
      var rest := Search(reports[1..], query);
      if Matches(reports[0], query) {
        assert ([reports[0]] + rest)[1..] == rest;
      }
    }
  }

  /** An empty query lists every report. */
  lemma {:induction false} EmptyQueryKeepsAll(reports: seq<Report>)
    ensures Search(reports, "") == reports
  {
    if reports != [] {
      ContainsEmpty(Lower(reports[0].name));
      EmptyQueryKeepsAll(reports[1..]);
    }
  }

  /** Only the lower-cased query matters: a query and its lower-case form
      list the same reports. */
  lemma {:induction false} SearchIgnoresQueryCase(reports: seq<Report>, query: string)
    ensures Search(reports, query) == Search(reports, Lower(query))
  {
    LowerIdempotent(query);
    if reports != [] {
      SearchIgnoresQueryCase(reports[1..], query);
    }
  }

  /** Searching the search result again with the same query changes nothing. */
  lemma {:induction false} SearchIdempotent(reports: seq<Report>, query: string)
    ensures Search(Search(reports, query), query) == Search(reports, query)
  {
    if reports != [] {
      SearchIdempotent(reports[1..], query);
    }
  }

  /** The page's state: the search box. The report list is a constant field,
      since the page never replaces it. */
  class ReportsPage {
    const reports: seq<Report>
    var searchQuery: string

    constructor (initial: seq<Report>)
      ensures reports == initial && searchQuery == ""
      ensures Visible() == initial
    {
      reports := initial;
      searchQuery := "";
      new;
      EmptyQueryKeepsAll(initial);
    }

    /** The reports listed for the current query. */
    function Visible(): (r: seq<Report>)
      reads this
      ensures IsSubsequence(r, reports)
      ensures forall x :: x in r <==> x in reports && Matches(x, searchQuery)
      ensures forall x :: multiset(r)[x] == if Matches(x, searchQuery) then multiset(reports)[x] else 0
    {
      SearchIsSubsequence(reports, searchQuery);
      Search(reports, searchQuery)
    }

    /** Typing in the search box. */
    method SetSearchQuery(query: string)
      modifies this
      ensures searchQuery == query
      ensures Visible() == Search(reports, query)
    {
      searchQuery := query;
    }
  }
}
