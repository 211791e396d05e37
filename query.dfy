/**
 * The search query and URL the initial fetch builds from a name and an
 * optional organisation (scholar_hunter.py, search_initial).
 */
module Query {
  import opened Tables

  const SiteFilter: string := " site:scholar.google.com"
  const SearchEndpoint: string := "https://www.google.com/search?q="

  /**
   * How an f-string renders a cell of an input table: the text itself, or
   * "nan" for an empty cell. Input tables are parsed from CSV, so no cell is
   * a dict.
   */
  function Display(v: Value): string
    requires !v.Citations?
  {
    match v
    case Null => "nan"
    case Text(s) => s
  }

  /** `organization if organization else ''` inside the query. */
  function OrgText(org: Value): string
    requires !org.Citations?
  {
    if Truthy(org) then Display(org) else ""
  }

  /**
   * `f"{name} {organization if organization else ''} site:scholar.google.com"`:
   * the name, one space, the organisation when it is truthy, then the site filter.
   */
  function SearchQuery(name: string, org: Value): (q: string)
    requires !org.Citations?
    ensures |q| == |name| + 1 + |OrgText(org)| + |SiteFilter|
    ensures q[..|name| + 1] == name + " "
    ensures q[|name| + 1 .. |q| - |SiteFilter|] == OrgText(org)
    ensures q[|q| - |SiteFilter|..] == SiteFilter
  {
    var q := name + " " + OrgText(org) + SiteFilter;
    assert q == (name + " ") + OrgText(org) + SiteFilter;
    q
  }

  /** A falsy organisation (None or '') leaves an empty slot: the query is the same for all of them. */
  lemma FalsyOrganizationsShareQuery(name: string, org: Value)
    requires !org.Citations? && !Truthy(org)
    ensures SearchQuery(name, org) == SearchQuery(name, Text(""))
    ensures SearchQuery(name, org) == name + "  site:scholar.google.com"
  {
  }

  /** `s.replace(" ", "+")`: every space becomes a plus, every other character stays. */
  function PlusForSpace(s: string): (r: string)
    ensures |r| == |s|
    ensures forall i :: 0 <= i < |s| ==> r[i] == (if s[i] == ' ' then '+' else s[i])
    ensures ' ' !in r
  {
    if s == [] then [] else [if s[0] == ' ' then '+' else s[0]] + PlusForSpace(s[1..])
  }

  /** The reading of a query string that turns each plus back into a space. */
  function SpaceForPlus(s: string): string {
    if s == [] then [] else [if s[0] == '+' then ' ' else s[0]] + SpaceForPlus(s[1..])
  }

  /** Replacing spaces is undone by reading pluses as spaces, for text that had no plus of its own. */
  lemma {:induction false} PlusForSpaceRoundTrip(s: string)
    requires '+' !in s
    ensures SpaceForPlus(PlusForSpace(s)) == s
  {
    if s != [] {
      PlusForSpaceRoundTrip(s[1..]);
      assert PlusForSpace(s) == [if s[0] == ' ' then '+' else s[0]] + PlusForSpace(s[1..]);
      assert PlusForSpace(s)[1..] == PlusForSpace(s[1..]);
    }
  }

  /** `f'https://www.google.com/search?q={query.replace(" ", "+")}'`. */
  function SearchUrl(query: string): (u: string)
    ensures |u| == |SearchEndpoint| + |query|
    ensures u[..|SearchEndpoint|] == SearchEndpoint
    ensures u[|SearchEndpoint|..] == PlusForSpace(query)
  {
    SearchEndpoint + PlusForSpace(query)
  }

  /**
   * The query is not URL-encoded beyond the space: every character other
   * than the space and the plus it becomes, '&', '#' and '%' included, is in
   * the URL's query part exactly when it is in the query.
   */
  lemma SearchUrlKeepsOtherCharacters(query: string, c: char)
    requires c != ' ' && c != '+'
    ensures c in SearchUrl(query)[|SearchEndpoint|..] <==> c in query
  {
    var p := SearchUrl(query)[|SearchEndpoint|..];
    if c in query {
      var i :| 0 <= i < |query| && query[i] == c;
      assert p[i] == c;
    }
    if c in p {
      var i :| 0 <= i < |p| && p[i] == c;
      assert query[i] == c;
    }
  }

  /** The URL carries no space, and its query part reads back as the query when the query has no plus. */
  lemma SearchUrlWellFormed(query: string)
    ensures ' ' !in SearchUrl(query)
    ensures '+' !in query ==> SpaceForPlus(SearchUrl(query)[|SearchEndpoint|..]) == query
  {
    var u := SearchUrl(query);
    assert u == SearchEndpoint + PlusForSpace(query);
    assert ' ' !in SearchEndpoint;
    if '+' !in query {
      PlusForSpaceRoundTrip(query);
    }
  }

  /** `'Organization': org if org else ''` in the initial result row. */
  function OrganizationCell(org: Value): (c: Value)
    ensures Truthy(org) ==> c == org
    ensures !Truthy(org) ==> c == Text("")
    ensures c != Null
  {
    if Truthy(org) then org else Text("")
  }
}
