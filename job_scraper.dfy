/** The stand-alone Python scraper for the RemoteOK API
    (scraper/job_scraper.py). It shares the cron function's category table and
    tests but builds its rows with Python's `dict.get`, which falls back to a
    default only for a missing key, keeps 50 entries instead of 200, and
    counts insert outcomes differently. The fetch, the clock (`now`, in
    seconds), `isoformat` and the database (`reply(i)`) are parameters. */
module JobScraper {
  import opened Util
  import ScrapeJobs

  /** The module's own copy of the tag keyword table. */
  const CategoryMapping: seq<(string, string)> := [
    ("dev", "Engineering"), ("design", "Design"), ("marketing", "Marketing"),
    ("sales", "Sales"), ("support", "Customer Support"), ("product", "Product"),
    ("data", "Data"), ("ops", "Engineering"), ("finance", "Other"), ("legal", "Other"),
    ("hr", "Other"), ("customer", "Customer Support"), ("engineering", "Engineering")
  ]

  function NormalizeCategory(tags: seq<string>): (r: string)
    ensures r in ScrapeJobs.Categories
  {
    if tags == [] then "Other"
    else
      MappingTargets();
      ScrapeJobs.TagsCategory(tags, CategoryMapping)
  }

  /** Every category the mapping names is one of the eight. */
  lemma MappingTargets()
    ensures forall p :: p in CategoryMapping ==> p.1 in ScrapeJobs.Categories
  {
    assert CategoryMapping == ScrapeJobs.CategoryMapping;
    ScrapeJobs.MappingTargets();
  }

  /** `None` and `''` both read as the empty type. */
  function NormalizeJobType(originalType: Option<string>): (r: string)
    ensures r in ScrapeJobs.JobTypes
    ensures !Truthy(originalType) ==> r == "Full-time"
  {
    ScrapeJobs.LoweredJobType(if Truthy(originalType) then Lower(originalType.value) else "")
  }

  /** Both normalisers agree with the cron function's on every input. */
  lemma AgreesWithCron(tags: seq<string>, originalType: string)
    ensures NormalizeCategory(tags) == ScrapeJobs.NormalizeCategory(tags)
    ensures NormalizeJobType(Some(originalType)) == ScrapeJobs.NormalizeJobType(originalType)
  {
    assert CategoryMapping == ScrapeJobs.CategoryMapping;
  }

  // ---------------------------------------------------------------------------
  // Building rows

  /** The dictionary handed to the insert; `None` is Python's `None`. */
  datatype JobDict = JobDict(
    title: string, company: string, description: Option<string>, location: Option<string>,
    job_type: string, category: string, tags: seq<string>,
    salary_min: Option<int>, salary_max: Option<int>, salary_currency: string,
    apply_url: Option<string>, company_url: Option<string>, company_logo_url: Option<string>,
    source: string, source_id: string, published_at: string,
    is_featured: bool, is_active: bool)

  /** `data[1:] if len(data) > 1 else []`, then `[:50]`. */
  function Batch(data: seq<ScrapeJobs.RemoteOkEntry>): (r: seq<ScrapeJobs.RemoteOkEntry>)
    ensures |r| <= 50
    ensures forall i :: 0 <= i < |r| ==> i + 1 < |data| && r[i] == data[i + 1]
    ensures |data| <= 1 ==> r == []
    ensures |data| > 1 ==> |r| == if |data| - 1 < 50 then |data| - 1 else 50
  {
    var rest := if |data| > 1 then data[1..] else [];
    Take(rest, 50)
  }

  /** A list of tags without the falsy ones, at most ten; `[]` otherwise. */
  function Tags(tags: Option<seq<string>>): (r: seq<string>)
    ensures |r| <= 10 && forall i :: 0 <= i < |r| ==> r[i] != ""
    ensures tags.None? ==> r == []
    ensures tags.Some? ==>
      var kept := NonEmpty(tags.value);
      |r| == (if |kept| < 10 then |kept| else 10) && r == kept[..|r|]
  {
    match tags
    case None => []
    case Some(ts) => Take(NonEmpty(ts), 10)
  }

  /** `job.get('epoch', job.get('date'))`. */
  function Epoch(e: ScrapeJobs.RemoteOkEntry): Option<int> {
    PyGet(e.epoch, PyGet(e.date, None))
  }

  /** The loop body for one entry; `None` when it is skipped. */
  function Job(e: ScrapeJobs.RemoteOkEntry, now: int, isoformat: int -> string): (r: Option<JobDict>)
    ensures r.Some? <==> IsTruthy(e.id) && IsTruthy(e.position) && IsTruthy(e.company)
    ensures r.Some? ==>
      && r.value.category in ScrapeJobs.Categories && r.value.job_type in ScrapeJobs.JobTypes
      && |r.value.tags| <= 10 && r.value.source == "remoteok"
      && r.value.published_at == isoformat(if Epoch(e).Some? && Epoch(e).value != 0 then Epoch(e).value else now)
  {
    if !IsTruthy(e.id) || !IsTruthy(e.position) || !IsTruthy(e.company) then None
    else
      var tags := Tags(e.tags);
      var epoch := Epoch(e);
      Some(JobDict(
        title := PyGet(e.position, Some("Untitled")).value,
        company := PyGet(e.company, Some("Unknown Company")).value,
        description := PyGet(e.description, Some("No description provided.")),
        location := PyGet(e.location, Some("Worldwide")),
        job_type := NormalizeJobType(PyGet(e.kind, Some(""))),
        category := NormalizeCategory(tags),
        tags := tags,
        salary_min := ScrapeJobs.NumberOrNull(e.salary_min),
        salary_max := ScrapeJobs.NumberOrNull(e.salary_max),
        salary_currency := "USD",
        apply_url := PyGet(e.url, PyGet(e.apply_url, Some("https://remoteok.com/remote-jobs/" + e.id.value))),
        company_url := PyGet(e.company_url, None),
        company_logo_url := PyGet(e.logo, None),
        source := "remoteok",
        source_id := e.id.value,
        published_at := isoformat(if epoch.Some? && epoch.value != 0 then epoch.value else now),
        is_featured := false,
        is_active := true))
  }

  /** Both scrapers keep the same entries of the RemoteOK array and give them
      the same title, company, category, tags, job type, salaries and id;
      they differ in the source name and, for empty or `null` values, in the
      defaults. */
  lemma SameEntriesAsCron(e: ScrapeJobs.RemoteOkEntry, now: int, isoformat: int -> string, nowMs: int, toIso: int -> string)
    ensures Job(e, now, isoformat).Some? <==> ScrapeJobs.RemoteOkJob(e, nowMs, toIso).Some?
    ensures Job(e, now, isoformat).Some? ==>
      var p := Job(e, now, isoformat).value;
      var t := ScrapeJobs.RemoteOkJob(e, nowMs, toIso).value;
      && p.title == t.title && p.company == t.company && p.category == t.category
      && p.tags == t.tags && p.job_type == t.job_type && p.source_id == t.source_id
      && p.salary_min == t.salary_min && p.salary_max == t.salary_max
  {
    if Job(e, now, isoformat).Some? {
      AgreesWithCron(Tags(e.tags), OrElse(e.kind, ""));
      assert NormalizeJobType(PyGet(e.kind, Some(""))) == NormalizeJobType(Some(OrElse(e.kind, "")));
    }
  }

  /** An empty description is kept as is here, while the cron function
      replaces it by its placeholder. */
  lemma EmptyDescriptionDiffers(e: ScrapeJobs.RemoteOkEntry, now: int, isoformat: int -> string, nowMs: int, toIso: int -> string)
    requires IsTruthy(e.id) && IsTruthy(e.position) && IsTruthy(e.company)
    requires e.description == Present("")
    ensures Job(e, now, isoformat).value.description == Some("")
    ensures ScrapeJobs.RemoteOkJob(e, nowMs, toIso).value.description == "No description provided."
  {
  }

  function Jobs(entries: seq<ScrapeJobs.RemoteOkEntry>, now: int, isoformat: int -> string): (r: seq<JobDict>)
    ensures |r| <= |entries|
    ensures forall i :: 0 <= i < |r| ==> |r[i].tags| <= 10 && r[i].category in ScrapeJobs.Categories
  {
    if entries == [] then []
    else
      var pre := Jobs(entries[..|entries| - 1], now, isoformat);
      match Job(entries[|entries| - 1], now, isoformat)
      case Some(j) => pre + [j]
      case None => pre
  }

  /** One more entry of the loop: its job, when there is one, comes last. */
  lemma JobsStep(entries: seq<ScrapeJobs.RemoteOkEntry>, i: nat, now: int, isoformat: int -> string)
    requires i < |entries|
    ensures var job := Job(entries[i], now, isoformat);
      Jobs(entries[..i + 1], now, isoformat)
        == Jobs(entries[..i], now, isoformat) + (if job.Some? then [job.value] else [])
  {
    assert entries[..i + 1][..i] == entries[..i];
  }

  /** `scrape_remoteok`: `None` stands for a request that raised. */
  method ScrapeRemoteOk(response: Option<seq<ScrapeJobs.RemoteOkEntry>>, now: int, isoformat: int -> string)
    returns (jobs: seq<JobDict>)
    ensures jobs == if response.None? then [] else Jobs(Batch(response.value), now, isoformat)
    ensures |jobs| <= 50
  {
    if response.None? {
      return [];
    }
    var batch := Batch(response.value);
    jobs := [];
    var i := 0;
    while i < |batch|
      invariant 0 <= i <= |batch|
      invariant jobs == Jobs(batch[..i], now, isoformat)
    {
      var job := Job(batch[i], now, isoformat);
      JobsStep(batch, i, now, isoformat);
      if job.Some? {
        jobs := jobs + [job.value];
      }
      i := i + 1;
    }
    assert batch[..i] == batch;
  }

  // ---------------------------------------------------------------------------
  // Inserting

  /** The insert returned (with or without rows in `response.data`) or
      raised an exception with a message. */
  datatype InsertReply = Returned(hasData: bool) | Raised(message: string)

  datatype Stats = Stats(inserted: nat, duplicates: nat, errors: nat)

  function Count(s: Stats, reply: InsertReply): Stats {
    match reply
    case Returned(hasData) => if hasData then s.(inserted := s.inserted + 1) else s
    case Raised(m) =>
      if ScrapeJobs.IsDuplicateMessage(m) then s.(duplicates := s.duplicates + 1)
      else s.(errors := s.errors + 1)
  }

  function Tally(reply: nat -> InsertReply, n: nat): Stats {
    if n == 0 then Stats(0, 0, 0) else Count(Tally(reply, n - 1), reply(n - 1))
  }

  /** A job is counted at most once, and every job is counted unless an
      insert returned without data. */
  lemma {:induction false} TallyBound(reply: nat -> InsertReply, n: nat)
    ensures var s := Tally(reply, n);
      && s.inserted + s.duplicates + s.errors <= n
      && (s.inserted + s.duplicates + s.errors == n <==> forall i :: 0 <= i < n ==> reply(i) != Returned(false))
  {
    if n > 0 {
      TallyBound(reply, n - 1);
    }
  }

  /** `insert_jobs`. */
  method InsertJobs(jobs: seq<JobDict>, reply: nat -> InsertReply) returns (stats: Stats)
    ensures stats == Tally(reply, |jobs|)
    ensures stats.inserted + stats.duplicates + stats.errors <= |jobs|
  {
    stats := Stats(0, 0, 0);
    var i := 0;
    while i < |jobs|
      invariant 0 <= i <= |jobs|
      invariant stats == Tally(reply, i)
    {
      match reply(i) {
        case Returned(hasData) =>
          if hasData {
            stats := stats.(inserted := stats.inserted + 1);
          }
        case Raised(m) =>
          if ScrapeJobs.IsDuplicateMessage(m) {
            stats := stats.(duplicates := stats.duplicates + 1);
          } else {
            stats := stats.(errors := stats.errors + 1);
          }
      }
      i := i + 1;
    }
    TallyBound(reply, |jobs|);
  }
}
