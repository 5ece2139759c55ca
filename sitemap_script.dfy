/** The sitemap build script (scripts/generate-sitemap.ts): the page list
    and the XML it writes. The database query is an input, the time is the
    parameter `now`, and the XML assembly is the one of `Seo.UrlSet`, which
    the script repeats. */
module SitemapScript {
  import opened Util
  import Rows
  import Seo

  const DefaultBaseUrl := "https://remotejobshub.com"

  /** `process.env.BASE_URL || 'https://remotejobshub.com'`. */
  function BaseUrl(env: Option<string>): (r: string)
    ensures Truthy(env) ==> r == env.value
    ensures !Truthy(env) ==> r == DefaultBaseUrl
  {
    if Truthy(env) then env.value else DefaultBaseUrl
  }

  /** The selected columns of an active job. */
  datatype JobStamp = JobStamp(id: string, createdAt: string, updatedAt: string)

  /** What the query gave: an error, or the rows (`null` as `None`). */
  datatype Query = QueryFailed | QueryRows(rows: Option<seq<JobStamp>>)

  /** The static pages; the first three are dated now. */
  function StaticPages(baseUrl: string, now: string): seq<Seo.Page> {
    [Seo.Page(baseUrl, Some(now), "1.0", "daily"),
     Seo.Page(baseUrl + "/jobs", Some(now), "1.0", "hourly"),
     Seo.Page(baseUrl + "/trends", Some(now), "0.8", "daily"),
     Seo.Page(baseUrl + "/saved", None, "0.7", "daily"),
     Seo.Page(baseUrl + "/preferences", None, "0.6", "weekly")]
  }

  function JobPages(jobs: seq<JobStamp>, baseUrl: string, now: string): (r: seq<Seo.Page>)
    ensures |r| == |jobs|
    ensures forall i :: 0 <= i < |jobs| ==>
      r[i] == Seo.JobPage(baseUrl, jobs[i].id, jobs[i].updatedAt, jobs[i].createdAt, now)
  {
    seq(|jobs|, i requires 0 <= i < |jobs| => Seo.JobPage(baseUrl, jobs[i].id, jobs[i].updatedAt, jobs[i].createdAt, now))
  }

  /** `allPages`, with `jobs || []`. */
  function AllPages(jobs: Option<seq<JobStamp>>, baseUrl: string, now: string): seq<Seo.Page> {
    StaticPages(baseUrl, now) + JobPages(jobs.GetOr([]), baseUrl, now)
  }

  /** The body of `generateSitemap`: nothing on a query error, otherwise the
      XML and the number of URLs it reports. */
  function Generate(q: Query, baseUrl: string, now: string): Option<(string, nat)> {
    match q
    case QueryFailed => None
    case QueryRows(rows) =>
      var pages := AllPages(rows, baseUrl, now);
      Some((Seo.UrlSet(pages), |pages|))
  }

  /** A query error writes nothing; otherwise the document lists five static
      pages and then one page per job, in the order of the rows, and every
      one of them is an element of the document. */
  lemma GenerateShape(q: Query, baseUrl: string, now: string)
    ensures Generate(q, baseUrl, now).None? <==> q.QueryFailed?
    ensures q.QueryRows? ==>
      var pages := AllPages(q.rows, baseUrl, now);
      var r := Generate(q, baseUrl, now).value;
      && r.1 == 5 + |q.rows.GetOr([])|
      && StartsWith(r.0, Seo.XmlHeader) && EndsWith(r.0, Seo.UrlsetClose)
      && forall i :: 0 <= i < |pages| ==> Contains(r.0, Seo.UrlEntry(pages[i]))
  {
    if q.QueryRows? {
      var pages := AllPages(q.rows, baseUrl, now);
      forall i | 0 <= i < |pages|
        ensures Contains(Seo.UrlSet(pages), Seo.UrlEntry(pages[i]))
      {
        Seo.UrlSetHoldsEveryPage(pages, i);
      }
      Seo.UrlSetShape(pages);
    }
  }

  /** The first three static pages carry a `<lastmod>` of now, the last two
      none. */
  lemma StaticPagesDated(jobs: Option<seq<JobStamp>>, baseUrl: string, now: string)
    ensures var pages := AllPages(jobs, baseUrl, now);
      && |pages| == 5 + |jobs.GetOr([])|
      && (forall i :: 0 <= i < 3 ==> pages[i].lastmod == Some(now))
      && pages[3].lastmod.None? && pages[4].lastmod.None?
  {
    var pages := AllPages(jobs, baseUrl, now);
    var st := StaticPages(baseUrl, now);
    forall i | 0 <= i < 5
      ensures pages[i] == st[i]
    {
    }
  }

  /** After them, a job's page is `/jobs/<id>` with priority 0.9, daily,
      dated by its update, its creation or now. */
  lemma JobPagesDated(jobs: Option<seq<JobStamp>>, baseUrl: string, now: string, i: int)
    requires 0 <= i < |jobs.GetOr([])|
    ensures var pages := AllPages(jobs, baseUrl, now);
      var job := jobs.GetOr([])[i];
      && 5 + i < |pages|
      && pages[5 + i].loc == baseUrl + "/jobs/" + job.id
      && pages[5 + i].lastmod == Some(Seo.LastModified(job.updatedAt, job.createdAt, now))
      && pages[5 + i].priority == "0.9" && pages[5 + i].changefreq == "daily"
  {
    var pages := AllPages(jobs, baseUrl, now);
    var js := JobPages(jobs.GetOr([]), baseUrl, now);
    assert |StaticPages(baseUrl, now)| == 5;
    assert pages[5 + i] == js[i];
  }

  /** The columns the script selects from a full row. */
  function Stamps(jobs: seq<Rows.Job>): (r: seq<JobStamp>)
    ensures |r| == |jobs|
    ensures forall i :: 0 <= i < |jobs| ==> r[i] == JobStamp(jobs[i].id, jobs[i].created_at, jobs[i].updated_at)
  {
    seq(|jobs|, i requires 0 <= i < |jobs| => JobStamp(jobs[i].id, jobs[i].created_at, jobs[i].updated_at))
  }

  /** The script and `generateSitemapXML` list the same pages for the same
      jobs; they differ only in the script's dating of the first three
      static pages. */
  lemma AgreesWithLibrary(jobs: seq<Rows.Job>, baseUrl: string, now: string)
    ensures var mine := AllPages(Some(Stamps(jobs)), baseUrl, now);
      var theirs := Seo.SitemapPages(jobs, baseUrl, now);
      && |mine| == |theirs|
      && (forall i :: 3 <= i < |mine| ==> mine[i] == theirs[i])
      && (forall i :: 0 <= i < 3 ==> mine[i] == theirs[i].(lastmod := Some(now)))
  {
  }
}
