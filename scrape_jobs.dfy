/** The scheduled serverless function that pulls listings from the RemoteOK
    and Remotive JSON APIs, normalises them into `jobs` rows and inserts them
    (api/scrape-jobs.ts). The HTTP fetches and the database become
    parameters: the decoded response bodies, the clock `now` (milliseconds),
    the ISO-8601 printer `toIso`, and `reply(i)`, the database's answer to the
    i-th insert. */
module ScrapeJobs {
  import opened Util

  /** The eight categories a listing can be filed under. */
  const Categories: seq<string> :=
    ["Engineering", "Design", "Marketing", "Sales", "Customer Support", "Product", "Data", "Other"]

  /** The four values of the `job_type` column. */
  const JobTypes: seq<string> := ["Full-time", "Part-time", "Contract", "Freelance"]

  /** Tag keyword and the category it selects, in declaration order. */
  const CategoryMapping: seq<(string, string)> := [
    ("dev", "Engineering"), ("design", "Design"), ("marketing", "Marketing"),
    ("sales", "Sales"), ("support", "Customer Support"), ("product", "Product"),
    ("data", "Data"), ("ops", "Engineering"), ("finance", "Other"), ("legal", "Other"),
    ("hr", "Other"), ("customer", "Customer Support"), ("engineering", "Engineering")
  ]

  // ---------------------------------------------------------------------------
  // Category and job-type normalisation

  /** The category of the first key of `mapping` that occurs in `text`. */
  function FirstMatch(text: string, mapping: seq<(string, string)>): (r: Option<string>)
    ensures r.Some? ==> exists p :: p in mapping && p.1 == r.value
  {
    if mapping == [] then None
    else if Contains(text, mapping[0].0) then Some(mapping[0].1)
    else FirstMatch(text, mapping[1..])
  }

  /** The first key that occurs in the text decides. */
  lemma {:induction false} FirstMatchAt(text: string, mapping: seq<(string, string)>, j: int)
    requires 0 <= j < |mapping| && Contains(text, mapping[j].0)
    requires forall i :: 0 <= i < j ==> !Contains(text, mapping[i].0)
    ensures FirstMatch(text, mapping) == Some(mapping[j].1)
  {
    if j > 0 {
      assert !Contains(text, mapping[0].0);
      assert forall i :: 0 <= i < j - 1 ==> mapping[1..][i] == mapping[i + 1];
      FirstMatchAt(text, mapping[1..], j - 1);
    }
  }

  /** No category comes out exactly when no key occurs in the text. */
  lemma {:induction false} FirstMatchNone(text: string, mapping: seq<(string, string)>)
    ensures FirstMatch(text, mapping).None? <==> forall j :: 0 <= j < |mapping| ==> !Contains(text, mapping[j].0)
  {
    if mapping != [] {
      FirstMatchNone(text, mapping[1..]);
      assert forall j :: 1 <= j < |mapping| ==> mapping[j] == mapping[1..][j - 1];
    }
  }

  /** The tag loop of `normalizeCategory`: tags are tried in order, and for
      each tag the keys in declaration order; 'Engineering' when none hits. */
  function TagsCategory(tags: seq<string>, mapping: seq<(string, string)>): (r: string)
    ensures r == "Engineering" || exists p :: p in mapping && p.1 == r
  {
    if tags == [] then "Engineering"
    else match FirstMatch(Lower(tags[0]), mapping)
      case Some(v) => v
      case None => TagsCategory(tags[1..], mapping)
  }

  function NormalizeCategory(tags: seq<string>): (r: string)
    ensures r in Categories
    ensures tags == [] ==> r == "Other"
  {
    if |tags| == 0 then "Other"
    else
      MappingTargets();
      TagsCategory(tags, CategoryMapping)
  }

  /** Every category the mapping names is one of the eight. */
  lemma MappingTargets()
    ensures forall p :: p in CategoryMapping ==> p.1 in Categories
  {
    forall p | p in CategoryMapping
      ensures p.1 in Categories
    {
      var k :| 0 <= k < |CategoryMapping| && CategoryMapping[k] == p;
    }
  }

  /** Some key occurs in the lower-cased tag. */
  predicate TagMatches(tag: string) {
    exists j :: 0 <= j < |CategoryMapping| && Contains(Lower(tag), CategoryMapping[j].0)
  }

  /** The first tag that contains a key decides, and among the keys the first
      one it contains. */
  lemma {:induction false} NormalizeCategoryDecidedBy(tags: seq<string>, i: int, j: int)
    requires 0 <= i < |tags| && 0 <= j < |CategoryMapping|
    requires forall k :: 0 <= k < i ==> !TagMatches(tags[k])
    requires Contains(Lower(tags[i]), CategoryMapping[j].0)
    requires forall m :: 0 <= m < j ==> !Contains(Lower(tags[i]), CategoryMapping[m].0)
    ensures NormalizeCategory(tags) == CategoryMapping[j].1
  {
    if i == 0 {
      FirstMatchAt(Lower(tags[0]), CategoryMapping, j);
    } else {
      assert !TagMatches(tags[0]);
      FirstMatchNone(Lower(tags[0]), CategoryMapping);
      assert forall k :: 0 <= k < i - 1 ==> tags[1..][k] == tags[k + 1];
      NormalizeCategoryDecidedBy(tags[1..], i - 1, j);
    }
  }

  lemma {:induction false} TagsCategoryNoMatch(tags: seq<string>)
    requires forall k :: 0 <= k < |tags| ==> !TagMatches(tags[k])
    ensures TagsCategory(tags, CategoryMapping) == "Engineering"
  {
    if tags != [] {
      assert !TagMatches(tags[0]);
      FirstMatchNone(Lower(tags[0]), CategoryMapping);
      assert forall k :: 0 <= k < |tags| - 1 ==> tags[1..][k] == tags[k + 1];
      TagsCategoryNoMatch(tags[1..]);
    }
  }

  /** Tags none of which contains a key give 'Engineering'. */
  lemma NormalizeCategoryNoMatch(tags: seq<string>)
    requires tags != []
    requires forall k :: 0 <= k < |tags| ==> !TagMatches(tags[k])
    ensures NormalizeCategory(tags) == "Engineering"
  {
    TagsCategoryNoMatch(tags);
  }

  function NormalizeJobType(originalType: string): (r: string)
    ensures r in JobTypes
  {
    LoweredJobType(Lower(originalType))
  }

  /** The tests of `normalizeJobType` on the lower-cased input. */
  function LoweredJobType(t: string): (r: string)
    ensures r in JobTypes
  {
    if Contains(t, "full") || Contains(t, "fulltime") then "Full-time"
    else if Contains(t, "part") || Contains(t, "parttime") then "Part-time"
    else if Contains(t, "contract") then "Contract"
    else if Contains(t, "freelance") then "Freelance"
    else "Full-time"
  }

  /** 'full' wins over 'part', which wins over 'contract', which wins over
      'freelance'; without any of them the result is 'Full-time'. The
      "fulltime" and "parttime" tests never decide anything on their own. */
  lemma JobTypePrecedence(originalType: string)
    ensures var t := Lower(originalType); var r := NormalizeJobType(originalType);
      && (r == "Full-time" <==> Contains(t, "full") || (!Contains(t, "part") && !Contains(t, "contract") && !Contains(t, "freelance")))
      && (r == "Part-time" <==> !Contains(t, "full") && Contains(t, "part"))
      && (r == "Contract" <==> !Contains(t, "full") && !Contains(t, "part") && Contains(t, "contract"))
      && (r == "Freelance" <==> !Contains(t, "full") && !Contains(t, "part") && !Contains(t, "contract") && Contains(t, "freelance"))
  {
    var t := Lower(originalType);
    if Contains(t, "fulltime") {
      ContainsPrefix(t, "fulltime", "full");
    }
    if Contains(t, "parttime") {
      ContainsPrefix(t, "parttime", "part");
    }
  }

  /** The job type does not depend on the case of the input. */
  lemma JobTypeIgnoresCase(originalType: string)
    ensures NormalizeJobType(Upper(originalType)) == NormalizeJobType(originalType)
    ensures NormalizeJobType(Lower(originalType)) == NormalizeJobType(originalType)
  {
    LowerIgnoresCase(originalType);
  }

  // ---------------------------------------------------------------------------
  // The row the function inserts

  /** The `JobData` object handed to the insert. */
  datatype JobData = JobData(
    title: string, company: string, description: string, location: string,
    job_type: string, category: string, tags: seq<string>,
    salary_min: Option<int>, salary_max: Option<int>, salary_currency: string,
    apply_url: string, company_url: Option<string>, company_logo_url: Option<string>,
    source: string, source_id: string, published_at: string,
    remote_type: Option<string>, is_featured: Option<bool>, is_active: bool)

  /** What every record built from either API satisfies. */
  predicate WellFormed(j: JobData) {
    && j.title != "" && j.company != ""
    && j.category in Categories && j.job_type in JobTypes
    && |j.tags| <= 10 && j.is_active && j.salary_currency == "USD"
  }

  // ---------------------------------------------------------------------------
  // RemoteOK

  /** One element of the RemoteOK array (the `type` key is `kind`; `tags` is
      `None` when it is not an array). */
  datatype RemoteOkEntry = RemoteOkEntry(
    id: Field<string>, position: Field<string>, company: Field<string>,
    description: Field<string>, location: Field<string>, kind: Field<string>,
    tags: Option<seq<string>>, epoch: Field<int>, date: Field<int>,
    salary_min: Field<int>, salary_max: Field<int>,
    url: Field<string>, apply_url: Field<string>, company_url: Field<string>, logo: Field<string>)

  /** `data.slice(1, 201)`: the metadata element is skipped, 200 at most kept. */
  function RemoteOkBatch(data: seq<RemoteOkEntry>): (r: seq<RemoteOkEntry>)
    ensures |r| <= 200
    ensures forall i :: 0 <= i < |r| ==> i + 1 < |data| && r[i] == data[i + 1]
    ensures |data| > 1 ==> |r| == if |data| <= 201 then |data| - 1 else 200
  {
    if |data| <= 1 then [] else data[1..if |data| < 201 then |data| else 201]
  }

  /** Array tags with the empty ones dropped, at most ten. */
  function RemoteOkTags(tags: Option<seq<string>>): (r: seq<string>)
    ensures |r| <= 10 && forall i :: 0 <= i < |r| ==> r[i] != ""
    ensures tags.None? ==> r == []
    ensures tags.Some? ==>
      var kept := NonEmpty(tags.value);
      |r| == (if |kept| < 10 then |kept| else 10) && r == kept[..|r|]
  {
    match tags
    case None => []
    case Some(ts) => Take(NonEmpty(ts), 10)
  }

  function NumberOrNull(f: Field<int>): Option<int> {
    if IsNonZero(f) then Some(f.value) else None
  }

  function StringOrNull(f: Field<string>): Option<string> {
    if IsTruthy(f) then Some(f.value) else None
  }

  /** The loop body for one RemoteOK entry; `None` when it is skipped. */
  function RemoteOkJob(e: RemoteOkEntry, now: int, toIso: int -> string): (r: Option<JobData>)
    ensures r.Some? <==> IsTruthy(e.id) && IsTruthy(e.position) && IsTruthy(e.company)
    ensures r.Some? ==>
      && WellFormed(r.value) && r.value.source == "RemoteOK"
      && r.value.title == e.position.value && r.value.source_id == e.id.value
      && r.value.published_at == toIso(if IsNonZero(e.epoch) then e.epoch.value * 1000 else now)
  {
    if !IsTruthy(e.id) || !IsTruthy(e.position) || !IsTruthy(e.company) then None
    else
      var tags := RemoteOkTags(e.tags);
      Some(JobData(
        title := OrElse(e.position, "Untitled"),
        company := OrElse(e.company, "Unknown Company"),
        description := OrElse(e.description, "No description provided."),
        location := OrElse(e.location, "Worldwide"),
        job_type := NormalizeJobType(OrElse(e.kind, "")),
        category := NormalizeCategory(tags),
        tags := tags,
        salary_min := NumberOrNull(e.salary_min),
        salary_max := NumberOrNull(e.salary_max),
        salary_currency := "USD",
        apply_url :=
          if IsTruthy(e.url) then e.url.value
          else if IsTruthy(e.apply_url) then e.apply_url.value
          else "https://remoteok.com/remote-jobs/" + e.id.value,
        company_url := StringOrNull(e.company_url),
        company_logo_url := StringOrNull(e.logo),
        source := "RemoteOK",
        source_id := e.id.value,
        published_at := toIso(if IsNonZero(e.epoch) then e.epoch.value * 1000 else now),
        remote_type := None,
        is_featured := Some(false),
        is_active := true))
  }

  /** The jobs pushed for the entries, in order. */
  function RemoteOkJobs(entries: seq<RemoteOkEntry>, now: int, toIso: int -> string): (r: seq<JobData>)
    ensures |r| <= |entries|
    ensures forall i :: 0 <= i < |r| ==> WellFormed(r[i]) && r[i].source == "RemoteOK"
  {
    if entries == [] then []
    else
      var pre := RemoteOkJobs(entries[..|entries| - 1], now, toIso);
      match RemoteOkJob(entries[|entries| - 1], now, toIso)
      case Some(j) => pre + [j]
      case None => pre
  }

  /** What `scrapeRemoteOK` returns for a response; nothing for a failed
      fetch. */
  function RemoteOkScraped(response: Option<seq<RemoteOkEntry>>, now: int, toIso: int -> string): seq<JobData> {
    if response.None? then [] else RemoteOkJobs(RemoteOkBatch(response.value), now, toIso)
  }

  /** One more entry of the loop: its job, when there is one, comes last. */
  lemma RemoteOkJobsStep(entries: seq<RemoteOkEntry>, i: nat, now: int, toIso: int -> string)
    requires i < |entries|
    ensures var job := RemoteOkJob(entries[i], now, toIso);
      RemoteOkJobs(entries[..i + 1], now, toIso)
        == RemoteOkJobs(entries[..i], now, toIso) + (if job.Some? then [job.value] else [])
  {
    assert entries[..i + 1][..i] == entries[..i];
  }

  /** `scrapeRemoteOK`: `None` stands for a failed or non-OK fetch. */
  method ScrapeRemoteOk(response: Option<seq<RemoteOkEntry>>, now: int, toIso: int -> string)
    returns (jobs: seq<JobData>)
    ensures jobs == RemoteOkScraped(response, now, toIso)
    ensures |jobs| <= 200
  {
    if response.None? {
      return [];
    }
    var batch := RemoteOkBatch(response.value);
    jobs := [];
    var i := 0;
    while i < |batch|
      invariant 0 <= i <= |batch|
      invariant jobs == RemoteOkJobs(batch[..i], now, toIso)
    {
      var job := RemoteOkJob(batch[i], now, toIso);
      RemoteOkJobsStep(batch, i, now, toIso);
      if job.Some? {
        jobs := jobs + [job.value];
      }
      i := i + 1;
    }
    assert batch[..i] == batch;
  }

  // ---------------------------------------------------------------------------
  // Remotive

  /** One element of Remotive's `jobs` array. */
  datatype RemotiveEntry = RemotiveEntry(
    id: Option<string>, title: Option<string>, company_name: Option<string>,
    category: Option<string>, job_type: Option<string>, description: Option<string>,
    candidate_required_location: Option<string>, url: Option<string>,
    company_logo_url: Option<string>, company_logo: Option<string>,
    publication_date: Option<string>, tags: Option<seq<string>>)

  /** The category is normalised as a one-tag list. */
  function RemotiveCategory(e: RemotiveEntry): (r: string)
    ensures r in Categories
  {
    NormalizeCategory([Or(e.category, "")])
  }

  /** A Remotive entry without a category is filed under 'Engineering', never
      'Other': the single empty tag contains no key. */
  lemma RemotiveWithoutCategory(e: RemotiveEntry)
    requires !Truthy(e.category)
    ensures RemotiveCategory(e) == "Engineering"
  {
    forall j | 0 <= j < |CategoryMapping| ensures !Contains(Lower(""), CategoryMapping[j].0) {
      assert Lower("") == "";
    }
    NormalizeCategoryNoMatch([""]);
  }

  /** The category lower-cased when set, then at most five source tags
      lower-cased, the whole capped at ten. */
  function RemotiveTags(e: RemotiveEntry): (r: seq<string>)
    ensures |r| <= 6
    ensures Truthy(e.category) ==> |r| > 0 && r[0] == Lower(e.category.value)
    ensures
      var h := if Truthy(e.category) then 1 else 0;
      var ts := if e.tags.Some? then e.tags.value else [];
      var n := if |ts| < 5 then |ts| else 5;
      |r| == h + n && forall i :: 0 <= i < n ==> r[h + i] == Lower(ts[i])
  {
    var head := if Truthy(e.category) then [Lower(e.category.value)] else [];
    var rest := match e.tags
      case None => []
      case Some(ts) => var five := Take(ts, 5); seq(|five|, i requires 0 <= i < |five| => Lower(five[i]));
    Take(head + rest, 10)
  }

  /** The loop body for one Remotive entry; `None` when it is skipped. */
  function RemotiveJob(e: RemotiveEntry, now: int, toIso: int -> string): (r: Option<JobData>)
    ensures r.Some? <==> Truthy(e.id) && Truthy(e.title) && Truthy(e.company_name)
    ensures r.Some? ==>
      && WellFormed(r.value) && r.value.source == "Remotive"
      && |r.value.description| <= 5000 && r.value.remote_type == Some("fully-remote")
      && r.value.is_featured.None?
  {
    if !Truthy(e.id) || !Truthy(e.title) || !Truthy(e.company_name) then None
    else
      Some(JobData(
        title := e.title.value,
        company := e.company_name.value,
        description := Take(Or(e.description, "No description provided."), 5000),
        location := Or(e.candidate_required_location, "Worldwide"),
        job_type := NormalizeJobType(Or(e.job_type, "full-time")),
        category := RemotiveCategory(e),
        tags := RemotiveTags(e),
        salary_min := None,
        salary_max := None,
        salary_currency := "USD",
        apply_url := Or(e.url, ""),
        company_url := if Truthy(e.company_logo_url) then e.company_logo_url else None,
        company_logo_url := if Truthy(e.company_logo) then e.company_logo else None,
        source := "Remotive",
        source_id := e.id.value,
        published_at := Or(e.publication_date, toIso(now)),
        remote_type := Some("fully-remote"),
        is_featured := None,
        is_active := true))
  }


  function RemotiveJobs(entries: seq<RemotiveEntry>, now: int, toIso: int -> string): (r: seq<JobData>)
    ensures |r| <= |entries|
    ensures forall i :: 0 <= i < |r| ==> WellFormed(r[i]) && |r[i].description| <= 5000
  {
    if entries == [] then []
    else
      var pre := RemotiveJobs(entries[..|entries| - 1], now, toIso);
      match RemotiveJob(entries[|entries| - 1], now, toIso)
      case Some(j) => pre + [j]
      case None => pre
  }

  /** What `scrapeRemotive` returns for a response; nothing for a failed
      fetch. */
  function RemotiveScraped(response: Option<seq<RemotiveEntry>>, now: int, toIso: int -> string): seq<JobData> {
    if response.None? then [] else RemotiveJobs(response.value, now, toIso)
  }

  /** One more entry of the loop: its job, when there is one, comes last. */
  lemma RemotiveJobsStep(entries: seq<RemotiveEntry>, i: nat, now: int, toIso: int -> string)
    requires i < |entries|
    ensures var job := RemotiveJob(entries[i], now, toIso);
      RemotiveJobs(entries[..i + 1], now, toIso)
        == RemotiveJobs(entries[..i], now, toIso) + (if job.Some? then [job.value] else [])
  {
    assert entries[..i + 1][..i] == entries[..i];
  }

  /** `scrapeRemotive`: `None` stands for a failed or non-OK fetch; a body
      without `jobs` is an empty list. */
  method ScrapeRemotive(response: Option<seq<RemotiveEntry>>, now: int, toIso: int -> string)
    returns (jobs: seq<JobData>)
    ensures jobs == RemotiveScraped(response, now, toIso)
  {
    if response.None? {
      return [];
    }
    var entries := response.value;
    jobs := [];
    var i := 0;
    while i < |entries|
      invariant 0 <= i <= |entries|
      invariant jobs == RemotiveJobs(entries[..i], now, toIso)
    {
      var job := RemotiveJob(entries[i], now, toIso);
      RemotiveJobsStep(entries, i, now, toIso);
      if job.Some? {
        jobs := jobs + [job.value];
      }
      i := i + 1;
    }
    assert entries[..i] == entries;
  }

  // ---------------------------------------------------------------------------
  // Inserting

  /** The answer to one insert: success, an error object with a message, or
      an exception. */
  datatype InsertReply = Inserted | Rejected(message: string) | Threw

  datatype Stats = Stats(inserted: nat, duplicates: nat, errors: nat)

  /** A unique-constraint violation, recognised by its message. */
  predicate IsDuplicateMessage(message: string) {
    Contains(Lower(message), "unique") || Contains(Lower(message), "duplicate")
  }

  /** The counters after one more reply. */
  function Count(s: Stats, reply: InsertReply): Stats {
    match reply
    case Inserted => s.(inserted := s.inserted + 1)
    case Rejected(m) =>
      if IsDuplicateMessage(m) then s.(duplicates := s.duplicates + 1) else s.(errors := s.errors + 1)
    case Threw => s.(errors := s.errors + 1)
  }

  /** The counters after the first `n` inserts. */
  function Tally(reply: nat -> InsertReply, n: nat): Stats {
    if n == 0 then Stats(0, 0, 0) else Count(Tally(reply, n - 1), reply(n - 1))
  }

  /** Each insert lands in exactly one counter. */
  lemma {:induction false} TallyTotal(reply: nat -> InsertReply, n: nat)
    ensures var s := Tally(reply, n); s.inserted + s.duplicates + s.errors == n
  {
    if n > 0 {
      TallyTotal(reply, n - 1);
    }
  }

  /** `insertJobs`. */
  method InsertJobs(jobs: seq<JobData>, reply: nat -> InsertReply) returns (stats: Stats)
    ensures stats == Tally(reply, |jobs|)
    ensures stats.inserted + stats.duplicates + stats.errors == |jobs|
  {
    stats := Stats(0, 0, 0);
    var i := 0;
    while i < |jobs|
      invariant 0 <= i <= |jobs|
      invariant stats == Tally(reply, i)
    {
      match reply(i) {
        case Inserted =>
          stats := stats.(inserted := stats.inserted + 1);
        case Rejected(m) =>
          if IsDuplicateMessage(m) {
            stats := stats.(duplicates := stats.duplicates + 1);
          } else {
            stats := stats.(errors := stats.errors + 1);
          }
        case Threw =>
          stats := stats.(errors := stats.errors + 1);
      }
      i := i + 1;
    }
    TallyTotal(reply, |jobs|);
  }

  // ---------------------------------------------------------------------------
  // The handler

  /** With `CRON_SECRET` set, only a request carrying exactly
      `Bearer <secret>` may run the scraper. */
  predicate Authorized(cronSecret: Option<string>, authHeader: Option<string>) {
    !Truthy(cronSecret) || authHeader == Some("Bearer " + cronSecret.value)
  }

  datatype Response =
    | Unauthorized
    | NoJobs(remoteOk: nat, remotive: nat)
    | Completed(remoteOk: nat, remotive: nat, total: nat, stats: Stats)

  /** The response once the scrapers have returned `ro` and `rv` and the
      inserts have answered `reply`. */
  function Outcome(ro: seq<JobData>, rv: seq<JobData>, reply: nat -> InsertReply): Response {
    if |ro| + |rv| == 0 then NoJobs(0, 0) else Completed(|ro|, |rv|, |ro| + |rv|, Tally(reply, |ro| + |rv|))
  }

  /** Nothing is inserted when no job was scraped; otherwise every scraped
      job is inserted once and lands in exactly one counter. */
  lemma OutcomeCounts(ro: seq<JobData>, rv: seq<JobData>, reply: nat -> InsertReply)
    ensures Outcome(ro, rv, reply).NoJobs? <==> ro == [] && rv == []
    ensures var res := Outcome(ro, rv, reply);
      res.Completed? ==>
      && res.total == res.remoteOk + res.remotive > 0
      && res.stats.inserted + res.stats.duplicates + res.stats.errors == res.total
  {
    TallyTotal(reply, |ro| + |rv|);
  }

  /** `handler`, without the deactivation of old rows. */
  method Handler(
    cronSecret: Option<string>, authHeader: Option<string>,
    remoteOkResponse: Option<seq<RemoteOkEntry>>, remotiveResponse: Option<seq<RemotiveEntry>>,
    now: int, toIso: int -> string, reply: nat -> InsertReply)
    returns (res: Response)
    ensures !Authorized(cronSecret, authHeader) <==> res == Unauthorized
    ensures Authorized(cronSecret, authHeader) ==>
      res == Outcome(RemoteOkScraped(remoteOkResponse, now, toIso), RemotiveScraped(remotiveResponse, now, toIso), reply)
  {
    if !Authorized(cronSecret, authHeader) {
      return Unauthorized;
    }
    var remoteOkJobs := ScrapeRemoteOk(remoteOkResponse, now, toIso);
    var remotiveJobs := ScrapeRemotive(remotiveResponse, now, toIso);
    res := InsertScraped(remoteOkJobs, remotiveJobs, reply);
  }

  /** The rest of `handler` once both scrapers have returned: the early
      answer when nothing was scraped, otherwise the inserts and the
      summary. */
  method InsertScraped(remoteOkJobs: seq<JobData>, remotiveJobs: seq<JobData>, reply: nat -> InsertReply)
    returns (res: Response)
    ensures res == Outcome(remoteOkJobs, remotiveJobs, reply)
  {
    var allJobs := remoteOkJobs + remotiveJobs;
    if |allJobs| == 0 {
      return NoJobs(|remoteOkJobs|, |remotiveJobs|);
    }
    var stats := InsertJobs(allJobs, reply);
    res := Completed(|remoteOkJobs|, |remotiveJobs|, |allJobs|, stats);
  }
}
