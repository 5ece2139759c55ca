/** The search hooks (src/hooks/useAlgoliaSearch.ts): the Algolia filter
    string, the fallback to the database search when Algolia is not
    configured or the query is empty, and the autocomplete suggestions. The
    Algolia and database searches themselves are inputs. */
module AlgoliaSearch {
  import opened Util
  import Rows

  /** `searchConfig.hitsPerPage`, the default page size. */
  const DefaultHitsPerPage := 20

  datatype SearchOptions = SearchOptions(
    query: string, category: Option<string>, jobType: Option<string>,
    remoteTypes: Option<seq<string>>, companySizes: Option<seq<string>>,
    salaryMin: Option<int>, salaryMax: Option<int>,
    page: int, hitsPerPage: int)

  // ---------------------------------------------------------------------------
  // The filter string

  /** `field:"value"`. */
  function Quoted(field: string, value: string): string {
    field + ":\"" + value + "\""
  }

  /** `values.map(v => `field:"v"`)`. */
  function Terms(field: string, values: seq<string>): (r: seq<string>)
    ensures |r| == |values| && forall i :: 0 <= i < |values| ==> r[i] == Quoted(field, values[i])
  {
    seq(|values|, i requires 0 <= i < |values| => Quoted(field, values[i]))
  }

  /** The parenthesised `OR` of one term per value. */
  function AnyOf(field: string, values: seq<string>): string {
    "(" + Join(Terms(field, values), " OR ") + ")"
  }

  predicate HasItems(list: Option<seq<string>>) {
    list.Some? && |list.value| > 0
  }

  /** Each clause of the filter, or none when its option is not set. */
  function CategoryClause(o: SearchOptions): seq<string> {
    if Truthy(o.category) then [Quoted("category", o.category.value)] else []
  }

  function JobTypeClause(o: SearchOptions): seq<string> {
    if Truthy(o.jobType) then [Quoted("job_type", o.jobType.value)] else []
  }

  function RemoteClause(o: SearchOptions): seq<string> {
    if HasItems(o.remoteTypes) then [AnyOf("remote_type", o.remoteTypes.value)] else []
  }

  function SizeClause(o: SearchOptions): seq<string> {
    if HasItems(o.companySizes) then [AnyOf("company_size", o.companySizes.value)] else []
  }

  function MinClause(o: SearchOptions): seq<string> {
    if o.salaryMin.Some? then ["salary_max >= " + IntToString(o.salaryMin.value)] else []
  }

  function MaxClause(o: SearchOptions): seq<string> {
    if o.salaryMax.Some? then ["salary_min <= " + IntToString(o.salaryMax.value)] else []
  }

  /** The clauses in the order they are pushed; `is_active:true` always
      comes last. */
  function Clauses(o: SearchOptions): seq<string> {
    CategoryClause(o) + JobTypeClause(o) + RemoteClause(o) + SizeClause(o) + MinClause(o) + MaxClause(o)
    + ["is_active:true"]
  }

  function FilterString(o: SearchOptions): string {
    Join(Clauses(o), " AND ")
  }

  /** The pushes of the query function, then the join. */
  method BuildFilterString(o: SearchOptions) returns (filter: string)
    ensures filter == FilterString(o)
  {
    var filters: seq<string> := [];
    if Truthy(o.category) {
      filters := filters + [Quoted("category", o.category.value)];
    }
    assert filters == CategoryClause(o);
    if Truthy(o.jobType) {
      filters := filters + [Quoted("job_type", o.jobType.value)];
    }
    assert filters == CategoryClause(o) + JobTypeClause(o);
    if o.remoteTypes.Some? && |o.remoteTypes.value| > 0 {
      var remoteFilter := Join(Terms("remote_type", o.remoteTypes.value), " OR ");
      filters := filters + ["(" + remoteFilter + ")"];
    }
    assert filters == CategoryClause(o) + JobTypeClause(o) + RemoteClause(o);
    if o.companySizes.Some? && |o.companySizes.value| > 0 {
      var sizeFilter := Join(Terms("company_size", o.companySizes.value), " OR ");
      filters := filters + ["(" + sizeFilter + ")"];
    }
    assert filters == CategoryClause(o) + JobTypeClause(o) + RemoteClause(o) + SizeClause(o);
    if o.salaryMin.Some? {
      filters := filters + ["salary_max >= " + IntToString(o.salaryMin.value)];
    }
    assert filters == CategoryClause(o) + JobTypeClause(o) + RemoteClause(o) + SizeClause(o) + MinClause(o);
    if o.salaryMax.Some? {
      filters := filters + ["salary_min <= " + IntToString(o.salaryMax.value)];
    }
    assert filters == CategoryClause(o) + JobTypeClause(o) + RemoteClause(o) + SizeClause(o) + MinClause(o) + MaxClause(o);
    filters := filters + ["is_active:true"];
    filter := Join(filters, " AND ");
  }

  function Flag(b: bool): nat {
    if b then 1 else 0
  }

  /** One clause per option that is set, plus the active-jobs clause, which
      ends the filter string; with no option set it is the whole string. */
  lemma FilterStringShape(o: SearchOptions)
    ensures |Clauses(o)| == 1 + Flag(Truthy(o.category)) + Flag(Truthy(o.jobType))
      + Flag(HasItems(o.remoteTypes)) + Flag(HasItems(o.companySizes))
      + Flag(o.salaryMin.Some?) + Flag(o.salaryMax.Some?)
    ensures EndsWith(FilterString(o), "is_active:true")
    ensures |Clauses(o)| == 1 ==> FilterString(o) == "is_active:true"
  {
    JoinEndsWithLast(Clauses(o), " AND ");
  }

  /** The salary bounds are crossed: a minimum salary asks for jobs whose
      maximum reaches it, a maximum for jobs whose minimum stays below it.
      Both clauses come after the list clauses and before the active-jobs
      clause. */
  lemma SalaryClauses(o: SearchOptions)
    ensures var c := Clauses(o);
      var k := Flag(Truthy(o.category)) + Flag(Truthy(o.jobType))
        + Flag(HasItems(o.remoteTypes)) + Flag(HasItems(o.companySizes));
      && (o.salaryMin.Some? ==> c[k] == "salary_max >= " + IntToString(o.salaryMin.value))
      && (o.salaryMax.Some? ==> c[k + Flag(o.salaryMin.Some?)] == "salary_min <= " + IntToString(o.salaryMax.value))
      && c[|c| - 1] == "is_active:true"
  {
  }

  /** A set category filter is the first clause, and a list of remote types
      gives one group clause naming every one of them. */
  lemma ListClauses(o: SearchOptions)
    ensures Truthy(o.category) ==> Clauses(o)[0] == Quoted("category", o.category.value)
    ensures HasItems(o.remoteTypes) ==>
      var g := Clauses(o)[Flag(Truthy(o.category)) + Flag(Truthy(o.jobType))];
      && StartsWith(g, "(") && EndsWith(g, ")")
      && forall i :: 0 <= i < |o.remoteTypes.value| ==> Contains(g, Quoted("remote_type", o.remoteTypes.value[i]))
  {
    if HasItems(o.remoteTypes) {
      var values := o.remoteTypes.value;
      var terms := Terms("remote_type", values);
      var g := AnyOf("remote_type", values);
      assert Clauses(o)[Flag(Truthy(o.category)) + Flag(Truthy(o.jobType))] == g;
      forall i | 0 <= i < |values|
        ensures Contains(g, Quoted("remote_type", values[i]))
      {
        JoinContains(terms, " OR ", i);
        ContainsAfter("(", Join(terms, " OR "), terms[i]);
        ContainsBeforeMore("(" + Join(terms, " OR "), ")", terms[i]);
      }
    }
  }

  // ---------------------------------------------------------------------------
  // Choosing the result

  datatype SearchResult = SearchResult(hits: seq<Rows.Job>, nbHits: int, nbPages: int, page: int, processingTimeMS: int)

  /** What the database search returned: one page of jobs and the total. */
  datatype JobsPage = JobsPage(jobs: seq<Rows.Job>, count: int)

  /** `Math.ceil(count / perPage)` for a positive page size. */
  function CeilDiv(count: int, perPage: int): (r: int)
    requires perPage > 0
  {
    -((-count) / perPage)
  }

  /** The page count is the smallest number of pages that hold every
      result. */
  lemma CeilDivBounds(count: int, perPage: int)
    requires perPage > 0
    ensures (CeilDiv(count, perPage) - 1) * perPage < count <= CeilDiv(count, perPage) * perPage
  {
    var q := (-count) / perPage;
    assert q * perPage <= -count < q * perPage + perPage;
  }

  predicate UsesFallback(algoliaEnabled: bool, query: string) {
    !algoliaEnabled || query == ""
  }

  /** The query function: nothing when the fallback is used, else the
      Algolia search for the query with the filter string (`search` stands
      for `jobsIndex.search`). The options object ends with the spread of
      `searchConfig`, whose `hitsPerPage` replaces the caller's, so Algolia
      is always asked for pages of `DefaultHitsPerPage`. */
  function AlgoliaQuery(o: SearchOptions, algoliaEnabled: bool,
                        search: (string, int, int, string) -> SearchResult): (r: Option<SearchResult>)
    ensures r.None? <==> UsesFallback(algoliaEnabled, o.query)
  {
    if UsesFallback(algoliaEnabled, o.query) then None
    else Some(search(o.query, o.page, DefaultHitsPerPage, FilterString(o)))
  }

  /** The page size the caller asks for never reaches Algolia. */
  lemma CallerPageSizeIgnored(o: SearchOptions, n: int, algoliaEnabled: bool,
                              search: (string, int, int, string) -> SearchResult)
    ensures AlgoliaQuery(o.(hitsPerPage := n), algoliaEnabled, search) == AlgoliaQuery(o, algoliaEnabled, search)
  {
    assert FilterString(o.(hitsPerPage := n)) == FilterString(o);
  }

  /** The hook's `data`. */
  function SearchData(o: SearchOptions, algoliaEnabled: bool, fallback: Option<JobsPage>,
                      algolia: Option<SearchResult>): (r: Option<SearchResult>)
    requires o.hitsPerPage > 0
  {
    if UsesFallback(algoliaEnabled, o.query) then
      match fallback
      case None => None
      case Some(p) => Some(SearchResult(p.jobs, p.count, CeilDiv(p.count, o.hitsPerPage), o.page, 0))
    else algolia
  }

  /** Without Algolia or without a query the database page is reported with
      enough pages for its count, the requested page and no processing time;
      otherwise the Algolia result is reported as it came. */
  lemma SearchDataMeaning(o: SearchOptions, algoliaEnabled: bool, fallback: Option<JobsPage>, search: (string, int, int, string) -> SearchResult)
    requires o.hitsPerPage > 0
    ensures var r := SearchData(o, algoliaEnabled, fallback, AlgoliaQuery(o, algoliaEnabled, search));
      if UsesFallback(algoliaEnabled, o.query) then
        && (r.Some? <==> fallback.Some?)
        && (r.Some? ==>
          && r.value.hits == fallback.value.jobs && r.value.nbHits == fallback.value.count
          && r.value.page == o.page && r.value.processingTimeMS == 0
          && (r.value.nbPages - 1) * o.hitsPerPage < fallback.value.count <= r.value.nbPages * o.hitsPerPage)
      else r == Some(search(o.query, o.page, DefaultHitsPerPage, FilterString(o)))
  {
    if fallback.Some? {
      CeilDivBounds(fallback.value.count, o.hitsPerPage);
    }
  }

  // ---------------------------------------------------------------------------
  // Suggestions (useSearchSuggestions)

  datatype Hit = Hit(title: string, company: string)

  function Titles(hits: seq<Hit>): (r: seq<string>)
    ensures |r| == |hits| && forall i :: 0 <= i < |hits| ==> r[i] == hits[i].title
  {
    seq(|hits|, i requires 0 <= i < |hits| => hits[i].title)
  }

  function Companies(hits: seq<Hit>): (r: seq<string>)
    ensures |r| == |hits| && forall i :: 0 <= i < |hits| ==> r[i] == hits[i].company
  {
    seq(|hits|, i requires 0 <= i < |hits| => hits[i].company)
  }

  /** The suggestions for `query`; `hits` is `None` when the search threw. */
  function Suggestions(query: string, limit: int, algoliaEnabled: bool, hits: Option<seq<Hit>>): seq<string> {
    if query == "" || |query| < 2 || !algoliaEnabled then []
    else
      match hits
      case None => []
      case Some(hs) => Slice(Dedupe(Titles(hs) + Companies(hs)), limit)
  }

  /** No suggestions for a query shorter than two characters; otherwise at
      most `limit` distinct titles and company names of the hits. */
  lemma SuggestionsShape(query: string, limit: int, algoliaEnabled: bool, hits: Option<seq<Hit>>)
    ensures var r := Suggestions(query, limit, algoliaEnabled, hits);
      && (|query| < 2 ==> r == [])
      && (limit >= 0 ==> |r| <= limit)
      && NoDup(r)
      && forall i :: 0 <= i < |r| ==> exists h :: h in hits.value && (r[i] == h.title || r[i] == h.company)
  {
    var r := Suggestions(query, limit, algoliaEnabled, hits);
    if r != [] {
      var hs := hits.value;
      var all := Titles(hs) + Companies(hs);
      forall i | 0 <= i < |r|
        ensures exists h :: h in hs && (r[i] == h.title || r[i] == h.company)
      {
        assert r[i] == Dedupe(all)[i];
        var k :| 0 <= k < |all| && all[k] == r[i];
        if k < |hs| {
          assert hs[k] in hs && r[i] == hs[k].title;
        } else {
          assert hs[k - |hs|] in hs && r[i] == hs[k - |hs|].company;
        }
      }
    }
  }

  /** The suggestions are the first distinct titles and company names:
      when fewer than `limit` are shown every title and company of the hits
      is among them, and every value left out first occurs in the titles
      and companies after every value shown. */
  lemma SuggestionsFirstSeen(query: string, limit: int, algoliaEnabled: bool, hits: seq<Hit>)
    ensures var r := Suggestions(query, limit, algoliaEnabled, Some(hits));
      var all := Titles(hits) + Companies(hits);
      && (|query| >= 2 && algoliaEnabled && |r| < limit ==> forall v :: v in all ==> v in r)
      && forall i, v, ki, kv ::
           (0 <= i < |r| && v in all && v !in r && IsFirstIndex(all, r[i], ki) && IsFirstIndex(all, v, kv))
           ==> ki < kv
  {
    var r := Suggestions(query, limit, algoliaEnabled, Some(hits));
    var all := Titles(hits) + Companies(hits);
    if |query| >= 2 && algoliaEnabled {
      var d := Dedupe(all);
      assert r == d[..|r|];
      if |r| < limit {
        assert r == d;
      }
      forall i, v, ki, kv | 0 <= i < |r| && v in all && v !in r
          && IsFirstIndex(all, r[i], ki) && IsFirstIndex(all, v, kv)
        ensures ki < kv
      {
        var j :| 0 <= j < |d| && d[j] == v;
        assert r[i] == d[i];
        DedupeFirstSeenOrder(all, i, j, ki, kv);
      }
    }
  }

  /** Titles come before company names that are not also titles. */
  lemma TitlesFirst(query: string, limit: int, algoliaEnabled: bool, hits: seq<Hit>, i: int, j: int)
    requires var r := Suggestions(query, limit, algoliaEnabled, Some(hits));
      0 <= i < |r| && 0 <= j < |r| && r[i] in Titles(hits) && r[j] !in Titles(hits)
    ensures i < j
  {
    var all := Titles(hits) + Companies(hits);
    var d := Dedupe(all);
    var r := Suggestions(query, limit, algoliaEnabled, Some(hits));
    assert r[i] == d[i] && r[j] == d[j];
    var ki := FirstIndex(all, d[i]);
    var kj := FirstIndex(all, d[j]);
    assert ki < |hits| by {
      var t :| 0 <= t < |hits| && Titles(hits)[t] == d[i];
      assert all[t] == d[i];
    }
    assert kj >= |hits| by {
      assert forall t :: 0 <= t < |hits| ==> all[t] in Titles(hits);
    }
    if j < i {
      DedupeFirstSeenOrder(all, j, i, kj, ki);
    }
  }

  /** The index of the first occurrence of an element. */
  function FirstIndex(s: seq<string>, x: string): (k: int)
    requires x in s
    ensures IsFirstIndex(s, x, k)
  {
    if s[0] == x then 0
    else
      var k := FirstIndex(s[1..], x) + 1;
      assert s[..k] == [s[0]] + s[1..][..k - 1];
      k
  }
}
