/**
 * The global search of the site: the query is tested against the PDKs, then
 * the tools of the active language, then the shared resource links, and the
 * first eight matches are shown.
 *
 * `Find` is the specification: every catalog entry becomes a candidate
 * result, the candidates that match are kept in order (`Filter`), and the
 * list is cut to eight.  `GetSearchResults` is the three `forEach` loops of
 * `App.tsx`, proved to compute `Find`.  The lemmas state what the result
 * means.
 */
module Search {
  import opened Types
  import opened Text

  /** The views of the site. */
  datatype Page = Home | Pdk | Tools | Flow | Resources

  datatype Option<T> = None | Some(value: T)

  /** `'PDK' | 'Tool' | 'Resource'`. */
  datatype ResultType = PDKResult | ToolResult | ResourceResult

  datatype SearchResult = SearchResult(
    kind: ResultType,
    title: string,
    description: string,
    targetPage: Page,
    id: Option<string>)

  /** The length of the shown list. */
  const MAX_RESULTS: nat := 8

  /** The result a matching PDK gives: it leads to the PDK page and carries the PDK id. */
  function FromPdk(p: PDKOption): SearchResult
  {
    SearchResult(PDKResult, p.name, p.description, Pdk, Some(p.id))
  }

  /** The result a matching tool gives: it leads to the tools page and carries the tool id. */
  function FromTool(t: Tool): SearchResult
  {
    SearchResult(ToolResult, t.name, t.description, Tools, Some(t.id))
  }

  /** The result a matching resource gives: it leads to the resources page and has no id. */
  function FromResource(r: ResourceLink): SearchResult
  {
    SearchResult(ResourceResult, r.title, r.description, Resources, None)
  }

  /** The test of every loop: the lowered title or the lowered description includes the (lowered) query. */
  predicate Hit(title: string, description: string, query: string)
    ensures Hit(title, description, query)
        <==> Contains(Lower(title), query) || Contains(Lower(description), query)
  {
    Includes(Lower(title), query) || Includes(Lower(description), query)
  }

  /**
   * `Hit` applied to a candidate result rather than to the entry's fields:
   * the form `Filter`, `MatchIndices` and the lemmas on result lists take,
   * since a candidate carries its entry's title and description.
   */
  predicate Matches(r: SearchResult, query: string)
  {
    Hit(r.title, r.description, query)
  }

  function PdkCandidates(pdks: seq<PDKOption>): seq<SearchResult>
  {
    seq(|pdks|, i requires 0 <= i < |pdks| => FromPdk(pdks[i]))
  }

  function ToolCandidates(tools: seq<Tool>): seq<SearchResult>
  {
    seq(|tools|, i requires 0 <= i < |tools| => FromTool(tools[i]))
  }

  function ResourceCandidates(resources: seq<ResourceLink>): seq<SearchResult>
  {
    seq(|resources|, i requires 0 <= i < |resources| => FromResource(resources[i]))
  }

  /** Every entry in scan order: PDKs, then tools, then resources. */
  function Candidates(pdks: seq<PDKOption>, tools: seq<Tool>, resources: seq<ResourceLink>): seq<SearchResult>
  {
    PdkCandidates(pdks) + ToolCandidates(tools) + ResourceCandidates(resources)
  }

  /** The candidates that match, in their order: the push-if-match of every loop. */
  function Filter(c: seq<SearchResult>, query: string): (r: seq<SearchResult>)
    ensures |r| <= |c|
  {
    if c == [] then []
    else
      var last := c[|c| - 1];
      Filter(c[..|c| - 1], query) + (if Matches(last, query) then [last] else [])
  }

  /** The positions of the matching candidates, in increasing order. */
  function MatchIndices(c: seq<SearchResult>, query: string): (idx: seq<nat>)
    ensures forall k :: 0 <= k < |idx| ==> idx[k] < |c|
    ensures forall k, l :: 0 <= k < l < |idx| ==> idx[k] < idx[l]
    ensures forall i :: 0 <= i < |c| ==> (i in idx <==> Matches(c[i], query))
  {
    if c == [] then []
    else MatchIndices(c[..|c| - 1], query) + (if Matches(c[|c| - 1], query) then [|c| - 1] else [])
  }

  /** The candidates at the given positions, in the given order. */
  function Select(c: seq<SearchResult>, idx: seq<nat>): seq<SearchResult>
    requires forall k :: 0 <= k < |idx| ==> idx[k] < |c|
  {
    seq(|idx|, k requires 0 <= k < |idx| => c[idx[k]])
  }

  /** The full match list, before the cut. */
  function AllMatches(pdks: seq<PDKOption>, tools: seq<Tool>, resources: seq<ResourceLink>, query: string): seq<SearchResult>
  {
    Filter(Candidates(pdks, tools, resources), query)
  }

  function Min(a: nat, b: nat): nat
  {
    if a < b then a else b
  }

  /** `getSearchResults` over the catalog `t` and the resource list. */
  function Find(t: ContentTranslation, resources: seq<ResourceLink>, searchQuery: string): (r: seq<SearchResult>)
    ensures |r| <= MAX_RESULTS
    ensures Trim(searchQuery) == [] ==> r == []
  {
    if Trim(searchQuery) == [] then []
    else
      var all := AllMatches(t.pdkSection.options, t.toolsSection.tools, resources, Lower(searchQuery));
      all[..Min(MAX_RESULTS, |all|)]
  }

  /**
   * `getSearchResults`.  In `App.tsx` it reads the active catalog, the query and
   * `RESOURCES` from its enclosing scope; here they are the parameters.  Its
   * three `forEach` loops, which push onto one array, are `ScanPdks`,
   * `ScanTools` and `ScanResources`.
   */
  method GetSearchResults(t: ContentTranslation, resources: seq<ResourceLink>, searchQuery: string)
    returns (results: seq<SearchResult>)
    ensures results == Find(t, resources, searchQuery)
  {
    if Trim(searchQuery) == [] {
      return [];
    }
    var query := Lower(searchQuery);
    var pdks, tools := t.pdkSection.options, t.toolsSection.tools;
    var found := ScanPdks(pdks, query, []);
    assert found == Filter(PdkCandidates(pdks), query);
    found := ScanTools(tools, query, found);
    found := ScanResources(resources, query, found);
    CategoryOrder(pdks, tools, resources, query);
    assert found == AllMatches(pdks, tools, resources, query);
    results := found[..Min(MAX_RESULTS, |found|)];
  }

  /** The loop over the PDKs: appends, in order, the result of every PDK whose name or description includes the query. */
  method ScanPdks(pdks: seq<PDKOption>, query: string, acc: seq<SearchResult>) returns (found: seq<SearchResult>)
    ensures found == acc + Filter(PdkCandidates(pdks), query)
  {
    found := acc;
    for i := 0 to |pdks|
      invariant found == acc + Filter(PdkCandidates(pdks)[..i], query)
    {
      var pdk := pdks[i];
      FilterSnoc(PdkCandidates(pdks), i, query);
      assert PdkCandidates(pdks)[i] == FromPdk(pdk);
      if Hit(pdk.name, pdk.description, query) {
        found := found + [FromPdk(pdk)];
      }
    }
    FilterWhole(PdkCandidates(pdks), query);
  }

  /** The loop over the tools: appends, in order, the result of every tool whose name or description includes the query. */
  method ScanTools(tools: seq<Tool>, query: string, acc: seq<SearchResult>) returns (found: seq<SearchResult>)
    ensures found == acc + Filter(ToolCandidates(tools), query)
  {
    found := acc;
    for i := 0 to |tools|
      invariant found == acc + Filter(ToolCandidates(tools)[..i], query)
    {
      var tool := tools[i];
      FilterSnoc(ToolCandidates(tools), i, query);
      assert ToolCandidates(tools)[i] == FromTool(tool);
      if Hit(tool.name, tool.description, query) {
        found := found + [FromTool(tool)];
      }
    }
    FilterWhole(ToolCandidates(tools), query);
  }

  /** The loop over the resource links: appends, in order, the result of every link whose title or description includes the query. */
  method ScanResources(resources: seq<ResourceLink>, query: string, acc: seq<SearchResult>) returns (found: seq<SearchResult>)
    ensures found == acc + Filter(ResourceCandidates(resources), query)
  {
    found := acc;
    for i := 0 to |resources|
      invariant found == acc + Filter(ResourceCandidates(resources)[..i], query)
    {
      var res := resources[i];
      FilterSnoc(ResourceCandidates(resources), i, query);
      assert ResourceCandidates(resources)[i] == FromResource(res);
      if Hit(res.title, res.description, query) {
        found := found + [FromResource(res)];
      }
    }
    FilterWhole(ResourceCandidates(resources), query);
  }

  /** One more candidate: the filter of the longer prefix keeps what it kept and adds the candidate if it matches. */
  lemma FilterSnoc(c: seq<SearchResult>, i: nat, query: string)
    requires i < |c|
    ensures Filter(c[..i + 1], query) == Filter(c[..i], query) + (if Matches(c[i], query) then [c[i]] else [])
  {
    assert c[..i + 1][..i] == c[..i];
  }

  lemma FilterWhole(c: seq<SearchResult>, query: string)
    ensures Filter(c[..|c|], query) == Filter(c, query)
  {
    assert c[..|c|] == c;
  }

  /** Everything the filter keeps is a candidate that matches. */
  lemma {:induction false} FilterSound(c: seq<SearchResult>, query: string)
    ensures forall x :: x in Filter(c, query) ==> x in c && Matches(x, query)
  {
    if c != [] {
      FilterSound(c[..|c| - 1], query);
    }
  }

  /** Filtering a concatenation filters each part. */
  lemma {:induction false} FilterAppend(a: seq<SearchResult>, b: seq<SearchResult>, query: string)
    ensures Filter(a + b, query) == Filter(a, query) + Filter(b, query)
    decreases |b|
  {
    if b == [] {
      assert a + b == a;
    } else {
      var b' := b[..|b| - 1];
      assert (a + b)[..|a + b| - 1] == a + b';
      FilterAppend(a, b', query);
    }
  }

  /**
   * The full match list is exactly the matching candidates, in catalog order:
   * a candidate is in it iff it matches, and it is there once, since the
   * positions it is taken from strictly increase.
   */
  lemma {:induction false} FilterSelects(c: seq<SearchResult>, query: string)
    ensures Filter(c, query) == Select(c, MatchIndices(c, query))
  {
    if c != [] {
      var c' := c[..|c| - 1];
      FilterSelects(c', query);
      var idx', idx := MatchIndices(c', query), MatchIndices(c, query);
      assert Select(c, idx')  == Select(c', idx');
      assert Select(c, idx) == Select(c, idx') + (if Matches(c[|c| - 1], query) then [c[|c| - 1]] else []);
    }
  }

  /** The place of a kind in the scan order. */
  function Rank(k: ResultType): nat
  {
    match k
    case PDKResult => 0
    case ToolResult => 1
    case ResourceResult => 2
  }

  ghost predicate OfKind(s: seq<SearchResult>, k: ResultType)
  {
    forall i :: 0 <= i < |s| ==> s[i].kind == k
  }

  ghost predicate RankOrdered(s: seq<SearchResult>)
  {
    forall i, j :: 0 <= i < j < |s| ==> Rank(s[i].kind) <= Rank(s[j].kind)
  }

  lemma {:induction false} FilterKeepsKind(c: seq<SearchResult>, query: string, k: ResultType)
    requires OfKind(c, k)
    ensures OfKind(Filter(c, query), k)
  {
    if c != [] {
      FilterKeepsKind(c[..|c| - 1], query, k);
    }
  }

  /**
   * The full match list is the PDK matches, then the tool matches, then the
   * resource matches; so every PDK result comes before every tool result,
   * which comes before every resource result.
   */
  lemma CategoryOrder(pdks: seq<PDKOption>, tools: seq<Tool>, resources: seq<ResourceLink>, query: string)
    ensures AllMatches(pdks, tools, resources, query)
         == Filter(PdkCandidates(pdks), query) + Filter(ToolCandidates(tools), query)
            + Filter(ResourceCandidates(resources), query)
    ensures RankOrdered(AllMatches(pdks, tools, resources, query))
  {
    var p, t, r := PdkCandidates(pdks), ToolCandidates(tools), ResourceCandidates(resources);
    FilterAppend(p, t, query);
    FilterAppend(p + t, r, query);
    FilterKeepsKind(p, query, PDKResult);
    FilterKeepsKind(t, query, ToolResult);
    FilterKeepsKind(r, query, ResourceResult);
  }

  /** The PDK at position `i` is in the full match list iff its lowered name or description contains the query. */
  lemma PdkMatchIff(pdks: seq<PDKOption>, tools: seq<Tool>, resources: seq<ResourceLink>, query: string, i: nat)
    requires i < |pdks|
    ensures i in MatchIndices(Candidates(pdks, tools, resources), query)
        <==> Contains(Lower(pdks[i].name), query) || Contains(Lower(pdks[i].description), query)
  {
    assert Candidates(pdks, tools, resources)[i] == FromPdk(pdks[i]);
  }

  /** The tool at position `i` is in the full match list, after the PDKs, iff its lowered name or description contains the query. */
  lemma ToolMatchIff(pdks: seq<PDKOption>, tools: seq<Tool>, resources: seq<ResourceLink>, query: string, i: nat)
    requires i < |tools|
    ensures |pdks| + i in MatchIndices(Candidates(pdks, tools, resources), query)
        <==> Contains(Lower(tools[i].name), query) || Contains(Lower(tools[i].description), query)
  {
    assert Candidates(pdks, tools, resources)[|pdks| + i] == FromTool(tools[i]);
  }

  /** The resource at position `i` is in the full match list, after the tools, iff its lowered title or description contains the query. */
  lemma ResourceMatchIff(pdks: seq<PDKOption>, tools: seq<Tool>, resources: seq<ResourceLink>, query: string, i: nat)
    requires i < |resources|
    ensures |pdks| + |tools| + i in MatchIndices(Candidates(pdks, tools, resources), query)
        <==> Contains(Lower(resources[i].title), query) || Contains(Lower(resources[i].description), query)
  {
    assert Candidates(pdks, tools, resources)[|pdks| + |tools| + i] == FromResource(resources[i]);
  }

  /** Around a match list: a blank query gives nothing; otherwise the first `min(8, n)` of the `n` matches. */
  lemma ResultsArePrefix(t: ContentTranslation, resources: seq<ResourceLink>, searchQuery: string)
    ensures AllWhitespace(searchQuery) ==> Find(t, resources, searchQuery) == []
    ensures !AllWhitespace(searchQuery) ==>
      var all := AllMatches(t.pdkSection.options, t.toolsSection.tools, resources, Lower(searchQuery));
      var r := Find(t, resources, searchQuery);
      |r| == Min(MAX_RESULTS, |all|) && r == all[..|r|]
  {
    TrimEmptyIffBlank(searchQuery);
  }

  /** A query that is not blank and matches at most eight entries shows every match. */
  lemma FindShowsAll(t: ContentTranslation, resources: seq<ResourceLink>, searchQuery: string)
    requires Trim(searchQuery) != []
    requires |AllMatches(t.pdkSection.options, t.toolsSection.tools, resources, Lower(searchQuery))| <= MAX_RESULTS
    ensures Find(t, resources, searchQuery)
         == AllMatches(t.pdkSection.options, t.toolsSection.tools, resources, Lower(searchQuery))
  {
    var all := AllMatches(t.pdkSection.options, t.toolsSection.tools, resources, Lower(searchQuery));
    assert all[..|all|] == all;
  }

  /** Every result matches the lowered query. */
  lemma ResultsMatch(t: ContentTranslation, resources: seq<ResourceLink>, searchQuery: string)
    ensures forall x :: x in Find(t, resources, searchQuery) ==> Matches(x, Lower(searchQuery))
  {
    FilterSound(Candidates(t.pdkSection.options, t.toolsSection.tools, resources), Lower(searchQuery));
  }

  /**
   * Where a result comes from: a PDK result leads to the PDK page and is some
   * PDK's name, description and id; a tool result likewise for the tools
   * page; a resource result leads to the resources page, is some resource's
   * title and description, and has no id.
   */
  ghost predicate Provenance(r: SearchResult, pdks: seq<PDKOption>, tools: seq<Tool>, resources: seq<ResourceLink>)
  {
    match r.kind
    case PDKResult => r.targetPage == Pdk && exists p :: p in pdks && r == FromPdk(p)
    case ToolResult => r.targetPage == Tools && exists x :: x in tools && r == FromTool(x)
    case ResourceResult => r.targetPage == Resources && exists x :: x in resources && r == FromResource(x)
  }

  /**
   * Every candidate of the scan is built from the entry at its own position:
   * the PDKs first, then the tools, then the resource links.
   */
  lemma CandidateProvenance(pdks: seq<PDKOption>, tools: seq<Tool>, resources: seq<ResourceLink>, i: nat)
    requires i < |pdks| + |tools| + |resources|
    ensures i < |pdks| ==> Candidates(pdks, tools, resources)[i] == FromPdk(pdks[i])
    ensures |pdks| <= i < |pdks| + |tools| ==> Candidates(pdks, tools, resources)[i] == FromTool(tools[i - |pdks|])
    ensures |pdks| + |tools| <= i ==>
      Candidates(pdks, tools, resources)[i] == FromResource(resources[i - |pdks| - |tools|])
    ensures Provenance(Candidates(pdks, tools, resources)[i], pdks, tools, resources)
  {
    var c := Candidates(pdks, tools, resources);
    if i < |pdks| {
      assert c[i] == FromPdk(pdks[i]);
    } else if i < |pdks| + |tools| {
      assert c[i] == FromTool(tools[i - |pdks|]);
    } else {
      assert c[i] == FromResource(resources[i - |pdks| - |tools|]);
    }
  }

  /** What each result is: see `Provenance`. */
  lemma ResultFields(t: ContentTranslation, resources: seq<ResourceLink>, searchQuery: string)
    ensures forall r :: r in Find(t, resources, searchQuery) ==>
      Provenance(r, t.pdkSection.options, t.toolsSection.tools, resources)
  {
    var pdks, tools := t.pdkSection.options, t.toolsSection.tools;
    var c := Candidates(pdks, tools, resources);
    FilterSound(c, Lower(searchQuery));
    forall r | r in Find(t, resources, searchQuery)
      ensures Provenance(r, pdks, tools, resources)
    {
      assert r in AllMatches(pdks, tools, resources, Lower(searchQuery));
      var i :| 0 <= i < |c| && c[i] == r;
      CandidateProvenance(pdks, tools, resources, i);
    }
  }
}
