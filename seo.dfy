/** The search-engine helpers (src/utils/seo.ts): page titles, the meta data
    of the listing and detail pages, the schema.org `JobPosting` and
    `BreadcrumbList` objects, and the sitemap. The browser's location and
    the current time are parameters; JSON objects are datatypes whose
    absent (`undefined`) members are `None`. */
module Seo {
  import opened Util
  import Rows

  const SiteName := "RemoteJobsHub"

  /** `generatePageTitle`. */
  function PageTitle(pageTitle: string): string {
    if pageTitle != "" then pageTitle + " | " + SiteName else SiteName
  }

  /** Every title ends with the site name, and a page's own title is kept
      in front of it. */
  lemma PageTitleShape(a: string)
    ensures EndsWith(PageTitle(a), SiteName)
    ensures a != "" ==> StartsWith(PageTitle(a), a + " | ")
    ensures a == "" <==> PageTitle(a) == SiteName
  {
    if a != "" {
      assert PageTitle(a) == (a + " | ") + SiteName;
    }
  }

  /** Different page titles give different titles. */
  lemma PageTitleInjective(a: string, b: string)
    requires PageTitle(a) == PageTitle(b)
    ensures a == b
  {
    var tail := " | " + SiteName;
    if a != "" && b != "" {
      assert PageTitle(a) == a + tail && PageTitle(b) == b + tail;
      assert |a| == |b|;
      assert a == (a + tail)[..|a|];
      assert b == (b + tail)[..|b|];
    }
  }

  // ---------------------------------------------------------------------------
  // Meta data

  datatype Metadata = Metadata(
    title: string, description: string, keywords: seq<string>,
    canonical: Option<string>, ogImage: Option<string>)

  /** The listing page's filters; a missing filter object is all `None`. */
  datatype ListingFilters = ListingFilters(category: Option<string>, search: Option<string>, jobType: Option<string>)

  const BaseKeywords: seq<string> := ["remote jobs", "work from home", "remote work", "telecommute"]

  /** The keywords pushed for each filter that is set. */
  function ListingKeywords(f: ListingFilters): seq<string> {
    BaseKeywords
    + (if Truthy(f.category) then [Lower(f.category.value), "remote " + Lower(f.category.value)] else [])
    + (if Truthy(f.search) then [f.search.value] else [])
    + (if Truthy(f.jobType) then [Lower(f.jobType.value)] else [])
  }

  /** The listing page's title: a search decides it before a category. */
  function ListingTitle(f: ListingFilters): string {
    if Truthy(f.search) then "Search: " + f.search.value + " - Remote Jobs"
    else if Truthy(f.category) then "Remote " + f.category.value + " Jobs"
    else "Find Remote Jobs"
  }

  function ListingDescription(f: ListingFilters): string {
    if Truthy(f.search) then
      "Remote job opportunities matching \"" + f.search.value + "\". Find your next remote position."
    else if Truthy(f.category) then
      "Find remote " + f.category.value + " positions from leading companies. Browse hundreds of "
      + Lower(f.category.value) + " opportunities."
    else
      "Browse thousands of remote job opportunities from top companies worldwide. Find your perfect remote position today."
  }

  /** `getJobListingSEO`; `origin` and `pathname` are the window's. */
  function ListingSeo(f: ListingFilters, origin: string, pathname: string): Metadata {
    Metadata(ListingTitle(f), ListingDescription(f), ListingKeywords(f), Some(origin + pathname), None)
  }

  function Flag(b: bool): nat {
    if b then 1 else 0
  }

  /** Four fixed keywords, two more for a category, one for a search and
      one for a job type, in that order. */
  lemma ListingKeywordsShape(f: ListingFilters)
    ensures var k := ListingKeywords(f);
      && |k| == 4 + 2 * Flag(Truthy(f.category)) + Flag(Truthy(f.search)) + Flag(Truthy(f.jobType))
      && k[..4] == BaseKeywords
      && (Truthy(f.category) ==> k[4] == Lower(f.category.value))
      && (Truthy(f.search) ==> k[4 + 2 * Flag(Truthy(f.category))] == f.search.value)
      && (Truthy(f.jobType) ==> k[|k| - 1] == Lower(f.jobType.value))
  {
    var c := if Truthy(f.category) then [Lower(f.category.value), "remote " + Lower(f.category.value)] else [];
    var q := if Truthy(f.search) then [f.search.value] else [];
    var t := if Truthy(f.jobType) then [Lower(f.jobType.value)] else [];
    assert ListingKeywords(f) == BaseKeywords + c + q + t;
    assert (BaseKeywords + c + q + t)[4 + |c|..] == q + t;
  }

  /** A search term decides the title even when a category is set; the
      category names the page only without a search. */
  lemma ListingTitleChoice(f: ListingFilters)
    ensures Truthy(f.search) ==> StartsWith(ListingTitle(f), "Search: " + f.search.value)
    ensures !Truthy(f.search) && Truthy(f.category) ==> StartsWith(ListingTitle(f), "Remote " + f.category.value)
    ensures !Truthy(f.search) && !Truthy(f.category) ==> ListingTitle(f) == "Find Remote Jobs"
  {
    if Truthy(f.search) {
      var h := "Search: " + f.search.value;
      assert ListingTitle(f)[..|h|] == h;
    } else if Truthy(f.category) {
      var h := "Remote " + f.category.value;
      assert ListingTitle(f)[..|h|] == h;
    }
  }

  /** `text.replace('<c>', '<d>')`: the first occurrence only. */
  function ReplaceFirst(s: string, c: char, d: char): (r: string)
    ensures |r| == |s|
  {
    if s == [] then []
    else if s[0] == c then [d] + s[1..]
    else [s[0]] + ReplaceFirst(s[1..], c, d)
  }

  /** The first `c` becomes `d` and nothing else changes. */
  lemma {:induction false} ReplaceFirstMeaning(s: string, c: char, d: char, k: int)
    ensures c !in s ==> ReplaceFirst(s, c, d) == s
    ensures 0 <= k < |s| && s[k] == c && c !in s[..k] ==> ReplaceFirst(s, c, d) == s[..k] + [d] + s[k + 1..]
  {
    if s != [] && s[0] != c {
      ReplaceFirstMeaning(s[1..], c, d, k - 1);
      if 0 <= k < |s| && s[k] == c && c !in s[..k] {
        assert s[1..][..k - 1] == s[1..k];
        assert s[..k] == [s[0]] + s[1..k];
      }
    }
  }

  /** `/<[^>]*>/g` replaced by nothing: from each `<` that has a `>` after
      it, everything up to the first such `>` is dropped. */
  function StripTags(s: string): (r: string)
    decreases |s|
    ensures |r| <= |s|
  {
    if s == [] then []
    else
      var close := IndexOf(s, '>', 1);
      if s[0] == '<' && close.Some? then StripTags(s[close.value + 1..])
      else [s[0]] + StripTags(s[1..])
  }

  /** No `<` is followed, anywhere later, by a `>`. */
  predicate NoTag(s: string) {
    forall i :: 0 <= i < |s| && s[i] == '<' ==> '>' !in s[i + 1..]
  }

  /** Every character left was in the text. */
  lemma {:induction false} StripTagsSubset(s: string, x: char)
    ensures x in StripTags(s) ==> x in s
    decreases |s|
  {
    if s != [] {
      var close := IndexOf(s, '>', 1);
      if s[0] == '<' && close.Some? {
        StripTagsSubset(s[close.value + 1..], x);
      } else {
        StripTagsSubset(s[1..], x);
      }
    }
  }

  /** After stripping no tag is left. */
  lemma {:induction false} StripTagsLeavesNoTag(s: string)
    ensures NoTag(StripTags(s))
    decreases |s|
  {
    if s != [] {
      var close := IndexOf(s, '>', 1);
      if s[0] == '<' && close.Some? {
        StripTagsLeavesNoTag(s[close.value + 1..]);
      } else {
        var t := StripTags(s[1..]);
        StripTagsLeavesNoTag(s[1..]);
        var r := [s[0]] + t;
        forall i | 0 <= i < |r| && r[i] == '<'
          ensures '>' !in r[i + 1..]
        {
          if i > 0 {
            assert r[i + 1..] == t[i..];
          } else {
            assert '>' !in s[1..];
            StripTagsSubset(s[1..], '>');
            assert r[1..] == t;
          }
        }
      }
    }
  }

  /** Text without a tag passes through unchanged, so stripping twice is
      stripping once. */
  lemma {:induction false} StripTagsNoTag(s: string)
    requires NoTag(s)
    ensures StripTags(s) == s
    decreases |s|
  {
    if s != [] {
      if s[0] == '<' {
        assert '>' !in s[1..];
      }
      assert NoTag(s[1..]) by {
        forall i | 0 <= i < |s[1..]| && s[1..][i] == '<'
          ensures '>' !in s[1..][i + 1..]
        {
          assert s[1..][i + 1..] == s[i + 2..];
        }
      }
      StripTagsNoTag(s[1..]);
    }
  }

  lemma StripTagsIdempotent(s: string)
    ensures StripTags(StripTags(s)) == StripTags(s)
  {
    StripTagsLeavesNoTag(s);
    StripTagsNoTag(StripTags(s));
  }

  /** `getJobDetailSEO`. */
  function DetailSeo(job: Rows.Job, origin: string): Metadata {
    Metadata(
      job.title + " at " + job.company,
      StripTags(Take(job.description, 160)) + "...",
      [job.title, job.company, job.category, "remote"] + job.tags.GetOr([]),
      Some(origin + "/jobs/" + job.id),
      if Truthy(job.company_logo_url) then job.company_logo_url else None)
  }

  /** The description is at most 160 characters of the job's text, without
      tags, and an ellipsis; the keywords are the title, the company, the
      category and "remote", then the job's tags. */
  lemma DetailShape(job: Rows.Job, origin: string)
    ensures var m := DetailSeo(job, origin);
      && |m.description| <= 163 && EndsWith(m.description, "...")
      && NoTag(m.description[..|m.description| - 3])
      && m.keywords[..4] == [job.title, job.company, job.category, "remote"]
      && m.keywords[4..] == job.tags.GetOr([])
      && (m.ogImage.Some? <==> Truthy(job.company_logo_url))
  {
    var m := DetailSeo(job, origin);
    var cut := StripTags(Take(job.description, 160));
    StripTagsLeavesNoTag(Take(job.description, 160));
    assert m.description[..|m.description| - 3] == cut;
  }

  // ---------------------------------------------------------------------------
  // Structured data

  datatype Organization = Organization(name: string, sameAs: Option<string>, logo: Option<string>)

  datatype Salary = Salary(currency: string, minValue: int, maxValue: int, unitText: string)

  datatype JobPosting = JobPosting(
    title: string, description: string, datePosted: string, validThrough: Option<string>,
    employmentType: string, hiringOrganization: Organization,
    addressLocality: string, addressRegion: Option<string>,
    applicantLocation: Option<string>, jobLocationType: string,
    baseSalary: Option<Salary>)

  /** `x || undefined`. */
  function OrUndefined(o: Option<string>): Option<string> {
    if Truthy(o) then o else None
  }

  /** `job_type?.toUpperCase().replace('-', '_') || 'FULL_TIME'`. */
  function EmploymentType(jobType: string): string {
    var t := ReplaceFirst(Upper(jobType), '-', '_');
    if t != "" then t else "FULL_TIME"
  }

  /** A type without a hyphen is only upper-cased. */
  lemma EmploymentTypePlain(a: string)
    requires a != "" && '-' !in a
    ensures EmploymentType(a) == Upper(a)
  {
    UpperNoHyphen(a);
    ReplaceFirstMeaning(Upper(a), '-', '_', 0);
  }

  /** Upper-casing keeps the hyphen between the two parts. */
  lemma UpperAroundHyphen(a: string, b: string)
    ensures Upper(a + "-" + b) == Upper(a) + "-" + Upper(b)
  {
    UpperConcat(a + "-", b);
    UpperConcat(a, "-");
    assert Upper("-") == "-";
  }

  /** Upper-casing neither makes nor removes a hyphen. */
  lemma UpperNoHyphen(a: string)
    requires '-' !in a
    ensures '-' !in Upper(a)
  {
    forall i | 0 <= i < |a|
      ensures Upper(a)[i] != '-'
    {
      assert a[i] != '-';
    }
  }

  /** In a hyphenated type the first hyphen becomes an underscore. */
  lemma EmploymentTypeHyphen(a: string, b: string)
    requires '-' !in a
    ensures EmploymentType(a + "-" + b) == Upper(a) + "_" + Upper(b)
  {
    var u := Upper(a + "-" + b);
    UpperAroundHyphen(a, b);
    UpperNoHyphen(a);
    assert u[..|a|] == Upper(a);
    ReplaceFirstMeaning(u, '-', '_', |a|);
    assert u[|a| + 1..] == Upper(b);
  }

  /** `generateJobPostingSchema`. */
  function PostingSchema(job: Rows.Job): JobPosting {
    var worldwide := job.location == "Worldwide";
    JobPosting(
      job.title, job.description, job.published_at, OrUndefined(job.expires_at),
      EmploymentType(job.job_type),
      Organization(job.company, OrUndefined(job.company_url), OrUndefined(job.company_logo_url)),
      if worldwide then "Remote" else job.location,
      if worldwide then Some("Global") else None,
      if worldwide then Some("Worldwide") else None,
      "TELECOMMUTE",
      if NumTruthy(job.salary_min) && NumTruthy(job.salary_max) then
        Some(Salary(if job.salary_currency != "" then job.salary_currency else "USD",
                    job.salary_min.value, job.salary_max.value,
                    if job.salary_period == "yearly" then "YEAR" else Upper(job.salary_period)))
      else None)
  }

  /** A worldwide job is placed in a global "Remote" locality with a
      location requirement, any other job at its own location without one;
      the salary is given exactly when both bounds are non-zero, with the
      job's currency or USD and the upper-cased period (YEAR for yearly). */
  lemma PostingShape(job: Rows.Job)
    ensures var p := PostingSchema(job);
      && (p.applicantLocation.Some? <==> job.location == "Worldwide")
      && (job.location == "Worldwide" ==> p.addressLocality == "Remote" && p.addressRegion == Some("Global"))
      && (job.location != "Worldwide" ==> p.addressLocality == job.location && p.addressRegion.None?)
      && (p.baseSalary.Some? <==> NumTruthy(job.salary_min) && NumTruthy(job.salary_max))
      && (p.baseSalary.Some? ==>
        && p.baseSalary.value.minValue == job.salary_min.value
        && p.baseSalary.value.maxValue == job.salary_max.value
        && p.baseSalary.value.currency != ""
        && (job.salary_period == "yearly" ==> p.baseSalary.value.unitText == "YEAR")
        && (job.salary_period != "yearly" ==> p.baseSalary.value.unitText == Upper(job.salary_period)))
      && p.employmentType != ""
      && (p.hiringOrganization.logo.Some? ==> p.hiringOrganization.logo.value != "")
  {
  }

  datatype Crumb = Crumb(name: string, url: string)

  datatype ListItem = ListItem(position: int, name: string, item: string)

  /** `generateBreadcrumbSchema`'s `itemListElement`. */
  function Breadcrumbs(items: seq<Crumb>): seq<ListItem> {
    seq(|items|, i requires 0 <= i < |items| => ListItem(i + 1, items[i].name, items[i].url))
  }

  /** The crumbs keep their order and are numbered 1 to n. */
  lemma BreadcrumbPositions(items: seq<Crumb>)
    ensures var r := Breadcrumbs(items);
      && |r| == |items|
      && (forall i :: 0 <= i < |r| ==> r[i].position == i + 1 && r[i].name == items[i].name && r[i].item == items[i].url)
      && (forall i, j :: 0 <= i < j < |r| ==> r[i].position < r[j].position)
      && (r != [] ==> r[0].position == 1 && r[|r| - 1].position == |items|)
  {
  }

  // ---------------------------------------------------------------------------
  // The sitemap

  /** One `<url>` element of a sitemap. */
  datatype Page = Page(loc: string, lastmod: Option<string>, priority: string, changefreq: string)

  const XmlHeader := "<?xml version=\"1.0\" encoding=\"UTF-8\"?>\n<urlset xmlns=\"http://www.sitemaps.org/schemas/sitemap/0.9\">\n"
  const UrlsetClose := "</urlset>"
  const XmlFooter := "\n" + UrlsetClose

  /** The page list's static part, without a modification date. */
  function StaticPages(baseUrl: string): seq<Page> {
    [Page(baseUrl, None, "1.0", "daily"),
     Page(baseUrl + "/jobs", None, "1.0", "hourly"),
     Page(baseUrl + "/trends", None, "0.8", "daily"),
     Page(baseUrl + "/saved", None, "0.7", "daily"),
     Page(baseUrl + "/preferences", None, "0.6", "weekly")]
  }

  /** `updated_at || created_at || now`. */
  function LastModified(updatedAt: string, createdAt: string, now: string): (r: string)
    ensures updatedAt != "" ==> r == updatedAt
    ensures updatedAt == "" && createdAt != "" ==> r == createdAt
    ensures updatedAt == "" && createdAt == "" ==> r == now
  {
    if updatedAt != "" then updatedAt else if createdAt != "" then createdAt else now
  }

  /** A job's page: its detail URL, dated, daily, priority 0.9. */
  function JobPage(baseUrl: string, id: string, updatedAt: string, createdAt: string, now: string): Page {
    Page(baseUrl + "/jobs/" + id, Some(LastModified(updatedAt, createdAt, now)), "0.9", "daily")
  }

  function JobPages(jobs: seq<Rows.Job>, baseUrl: string, now: string): (r: seq<Page>)
    ensures |r| == |jobs|
    ensures forall i :: 0 <= i < |jobs| ==>
      r[i] == JobPage(baseUrl, jobs[i].id, jobs[i].updated_at, jobs[i].created_at, now)
  {
    seq(|jobs|, i requires 0 <= i < |jobs| => JobPage(baseUrl, jobs[i].id, jobs[i].updated_at, jobs[i].created_at, now))
  }

  /** One `<url>` element; the `<lastmod>` line is empty when the page has
      no date. Values are put in as they are, without escaping. */
  function UrlEntry(p: Page): string {
    EntryHead(p) + LastmodLine(p) + EntryTail(p)
  }

  /** The opening of a page's element, through its `<loc>`. */
  function EntryHead(p: Page): string {
    "  <url>\n    <loc>" + p.loc + "</loc>\n    "
  }

  /** The `<lastmod>` element, empty for an undated page. */
  function LastmodLine(p: Page): string {
    if Truthy(p.lastmod) then "<lastmod>" + p.lastmod.value + "</lastmod>" else ""
  }

  /** The rest of the element: change frequency and priority. */
  function EntryTail(p: Page): string {
    "\n    <changefreq>" + p.changefreq + "</changefreq>\n    <priority>" + p.priority + "</priority>\n  </url>"
  }

  function UrlEntries(pages: seq<Page>): (r: seq<string>)
    ensures |r| == |pages| && forall i :: 0 <= i < |pages| ==> r[i] == UrlEntry(pages[i])
  {
    seq(|pages|, i requires 0 <= i < |pages| => UrlEntry(pages[i]))
  }

  /** The whole document: header, the entries one per line, footer. */
  function UrlSet(pages: seq<Page>): string {
    XmlHeader + Join(UrlEntries(pages), "\n") + XmlFooter
  }

  /** `generateSitemapXML`'s page list. */
  function SitemapPages(jobs: seq<Rows.Job>, baseUrl: string, now: string): seq<Page> {
    StaticPages(baseUrl) + JobPages(jobs, baseUrl, now)
  }

  /** `generateSitemapXML`. */
  function SitemapXml(jobs: seq<Rows.Job>, baseUrl: string, now: string): string {
    UrlSet(SitemapPages(jobs, baseUrl, now))
  }

  /** Five static pages, then one page per job in the jobs' order, each
      dated by its update, its creation or now. */
  lemma SitemapPagesShape(jobs: seq<Rows.Job>, baseUrl: string, now: string)
    ensures var pages := SitemapPages(jobs, baseUrl, now);
      && |pages| == 5 + |jobs|
      && (forall i :: 0 <= i < 5 ==> pages[i].lastmod.None?)
      && forall i :: 0 <= i < |jobs| ==>
        && pages[5 + i].loc == baseUrl + "/jobs/" + jobs[i].id
        && pages[5 + i].lastmod == Some(LastModified(jobs[i].updated_at, jobs[i].created_at, now))
        && pages[5 + i].priority == "0.9" && pages[5 + i].changefreq == "daily"
  {
  }

  /** A dated page carries its `<lastmod>` element; an undated one is the
      same element with that line left empty. */
  lemma UrlEntryLastmod(p: Page)
    ensures Truthy(p.lastmod) ==> Contains(UrlEntry(p), "<lastmod>" + p.lastmod.value + "</lastmod>")
    ensures !Truthy(p.lastmod) ==> UrlEntry(p) == UrlEntry(p.(lastmod := None))
  {
    if Truthy(p.lastmod) {
      ContainsMiddle(EntryHead(p), LastmodLine(p), EntryTail(p));
    } else {
      var q := p.(lastmod := None);
      assert EntryHead(q) == EntryHead(p) && LastmodLine(q) == LastmodLine(p) && EntryTail(q) == EntryTail(p);
    }
  }

  /** Every element opens with the page's `<loc>` and closes with its
      priority. */
  lemma UrlEntryShape(p: Page)
    ensures StartsWith(UrlEntry(p), "  <url>\n    <loc>" + p.loc + "</loc>")
    ensures EndsWith(UrlEntry(p), "</priority>\n  </url>")
  {
    Affixes(EntryHead(p), LastmodLine(p), EntryTail(p));
    StartsWithShorter(UrlEntry(p), "  <url>\n    <loc>" + p.loc + "</loc>", "\n    ");
    EndsWithShorter(UrlEntry(p), "\n    <changefreq>" + p.changefreq + "</changefreq>\n    <priority>" + p.priority, "</priority>\n  </url>");
  }

  /** The document opens with the XML declaration and `<urlset>` and closes
      with `</urlset>`. */
  lemma UrlSetShape(pages: seq<Page>)
    ensures StartsWith(UrlSet(pages), XmlHeader) && EndsWith(UrlSet(pages), UrlsetClose)
  {
    Affixes(XmlHeader, Join(UrlEntries(pages), "\n"), XmlFooter);
    EndsWithShorter(UrlSet(pages), "\n", UrlsetClose);
  }

  /** Every page's element is in the document. */
  lemma UrlSetHoldsEveryPage(pages: seq<Page>, i: int)
    requires 0 <= i < |pages|
    ensures Contains(UrlSet(pages), UrlEntry(pages[i]))
  {
    var entries := UrlEntries(pages);
    var body := Join(entries, "\n");
    JoinContains(entries, "\n", i);
    ContainsAfter(XmlHeader, body, entries[i]);
    ContainsBeforeMore(XmlHeader + body, XmlFooter, entries[i]);
  }
}
