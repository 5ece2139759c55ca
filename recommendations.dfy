/** The personalised recommendations of `useJobRecommendations`
    (src/hooks/useJobRecommendations.ts): every active job gets an additive
    point score with the reasons behind it, then the positive scores are
    ranked and cut to `limit`, and when fewer than `limit` remain the list is
    topped up with "trending" jobs, the unsaved ones that scored nothing,
    newest first. The three queries are inputs: the preferences row (absent
    when the user has none), the `job` of each saved-jobs row (absent when
    the join found none) and the active jobs. */
module Recommendations {
  import opened Util
  import Sorting
  import Rows

  const DayMs := 24 * 60 * 60 * 1000

  const AlreadySaved := "Already saved"
  const CategoryReason := "Matches your category preferences"
  const RemoteReason := "Matches your remote work preferences"
  const SizeReason := "Matches your company size preferences"
  const SalaryReason := "Meets your salary expectations"
  const SimilarReason := "Similar to jobs you saved"
  const CompanyReason := "From a company you showed interest in"
  const SimilarRemoteReason := "Similar remote work arrangement"
  const FeaturedReason := "Featured opportunity"
  const RecentReason := "Recently posted"
  const WeekReason := "Posted this week"

  /** What the scoring closure sees besides the job: the preferences, the
      saved jobs, the clock in milliseconds and `new Date(t).getTime()`. */
  datatype Context = Context(
    prefs: Option<Rows.Preferences>, saved: seq<Option<Rows.Job>>,
    now: int, time: string -> int)

  datatype Scored = Scored(job: Rows.Job, score: int, reasons: seq<string>)

  // ---------------------------------------------------------------------------
  // The conditions behind each bonus, stated over the inputs

  predicate IsSaved(saved: seq<Option<Rows.Job>>, job: Rows.Job) {
    exists i :: 0 <= i < |saved| && saved[i].Some? && saved[i].value.id == job.id
  }

  predicate CategoryPref(prefs: Option<Rows.Preferences>, job: Rows.Job) {
    prefs.Some? && job.category in prefs.value.categories
  }

  predicate RemotePref(prefs: Option<Rows.Preferences>, job: Rows.Job) {
    prefs.Some? && Truthy(job.remote_type) && job.remote_type.value in prefs.value.remote_types
  }

  predicate SizePref(prefs: Option<Rows.Preferences>, job: Rows.Job) {
    prefs.Some? && Truthy(job.company_size) && job.company_size.value in prefs.value.company_sizes
  }

  /** The salary rule against a threshold read from the preferences. */
  predicate SalaryPref(prefs: Option<Rows.Preferences>, minSalary: Option<int>, job: Rows.Job) {
    prefs.Some? && NumTruthy(minSalary) && NumTruthy(job.salary_max)
    && job.salary_max.value >= minSalary.value
  }

  predicate SavedCategory(saved: seq<Option<Rows.Job>>, job: Rows.Job) {
    exists i :: 0 <= i < |saved| && saved[i].Some? && saved[i].value.category == job.category
  }

  predicate SavedCompany(saved: seq<Option<Rows.Job>>, job: Rows.Job) {
    exists i :: 0 <= i < |saved| && saved[i].Some? && saved[i].value.company == job.company
  }

  predicate SavedRemote(saved: seq<Option<Rows.Job>>, job: Rows.Job) {
    Truthy(job.remote_type)
    && exists i :: 0 <= i < |saved| && saved[i].Some? && saved[i].value.remote_type == job.remote_type
  }

  /** Milliseconds since the job was published. */
  function Age(ctx: Context, job: Rows.Job): int {
    ctx.now - ctx.time(job.published_at)
  }

  function Points(c: bool, n: nat): nat {
    if c then n else 0
  }

  function Why(c: bool, reason: string): seq<string> {
    if c then [reason] else []
  }

  /** The salary threshold: the preferences' `salary_min` column. */
  function MinSalary(prefs: Option<Rows.Preferences>): Option<int> {
    if prefs.Some? then prefs.value.salary_min else None
  }

  /** The bonuses for matching the preferences, against a salary threshold. */
  function PreferencePoints(prefs: Option<Rows.Preferences>, minSalary: Option<int>, job: Rows.Job): nat {
    Points(CategoryPref(prefs, job), 50) + Points(RemotePref(prefs, job), 30)
    + Points(SizePref(prefs, job), 20) + Points(SalaryPref(prefs, minSalary, job), 25)
  }

  function PreferenceReasons(prefs: Option<Rows.Preferences>, minSalary: Option<int>, job: Rows.Job): seq<string> {
    Why(CategoryPref(prefs, job), CategoryReason) + Why(RemotePref(prefs, job), RemoteReason)
    + Why(SizePref(prefs, job), SizeReason) + Why(SalaryPref(prefs, minSalary, job), SalaryReason)
  }

  /** The bonuses for resembling a saved job. */
  function PatternPoints(saved: seq<Option<Rows.Job>>, job: Rows.Job): nat {
    Points(SavedCategory(saved, job), 40) + Points(SavedCompany(saved, job), 30)
    + Points(SavedRemote(saved, job), 15)
  }

  /** A resemblance is not explained again when the matching preference
      already is. */
  function PatternReasons(prefs: Option<Rows.Preferences>, saved: seq<Option<Rows.Job>>, job: Rows.Job): seq<string> {
    Why(SavedCategory(saved, job) && !CategoryPref(prefs, job), SimilarReason)
    + Why(SavedCompany(saved, job), CompanyReason)
    + Why(SavedRemote(saved, job) && !RemotePref(prefs, job), SimilarRemoteReason)
  }

  /** The boosts for a featured and for a recent job. */
  function BoostPoints(featured: bool, age: int): nat {
    Points(featured, 10) + Points(age < 3 * DayMs, 15) + Points(3 * DayMs <= age < 7 * DayMs, 10)
  }

  function BoostReasons(featured: bool, age: int): seq<string> {
    Why(featured, FeaturedReason) + Why(age < 3 * DayMs, RecentReason)
    + Why(3 * DayMs <= age < 7 * DayMs, WeekReason)
  }

  /** An unsaved job's score: one independent bonus per condition that holds. */
  function Bonuses(ctx: Context, job: Rows.Job, minSalary: Option<int>): nat {
    PreferencePoints(ctx.prefs, minSalary, job) + PatternPoints(ctx.saved, job)
    + BoostPoints(job.is_featured, Age(ctx, job))
  }

  function Score(ctx: Context, job: Rows.Job): int {
    if IsSaved(ctx.saved, job) then -1000 else Bonuses(ctx, job, MinSalary(ctx.prefs))
  }

  function Reasons(ctx: Context, job: Rows.Job): seq<string> {
    if IsSaved(ctx.saved, job) then [AlreadySaved]
    else
      PreferenceReasons(ctx.prefs, MinSalary(ctx.prefs), job) + PatternReasons(ctx.prefs, ctx.saved, job)
      + BoostReasons(job.is_featured, Age(ctx, job))
  }

  // ---------------------------------------------------------------------------
  // The scoring closure

  /** `savedJobs.map(sj => sj.job).filter(Boolean)`. */
  function SavedData(saved: seq<Option<Rows.Job>>): (r: seq<Rows.Job>)
    ensures forall j :: j in r <==> Some(j) in saved
  {
    if saved == [] then []
    else
      var pre := SavedData(saved[..|saved| - 1]);
      assert saved == saved[..|saved| - 1] + [saved[|saved| - 1]];
      match saved[|saved| - 1]
      case Some(j) => pre + [j]
      case None => pre
  }

  /** `savedJobsData.map(sj => sj.category)`. */
  function Categories(data: seq<Rows.Job>): (r: seq<string>)
    ensures |r| == |data| && forall k :: 0 <= k < |data| ==> r[k] == data[k].category
  {
    seq(|data|, k requires 0 <= k < |data| => data[k].category)
  }

  /** `savedJobsData.map(sj => sj.company)`. */
  function Companies(data: seq<Rows.Job>): (r: seq<string>)
    ensures |r| == |data| && forall k :: 0 <= k < |data| ==> r[k] == data[k].company
  {
    seq(|data|, k requires 0 <= k < |data| => data[k].company)
  }

  /** `savedJobsData.map(sj => sj.remote_type).filter(Boolean)`. */
  function RemoteTypes(data: seq<Rows.Job>): (r: seq<Option<string>>)
    ensures forall x :: x in r <==> Truthy(x) && exists k :: 0 <= k < |data| && data[k].remote_type == x
  {
    var all := seq(|data|, k requires 0 <= k < |data| => data[k].remote_type);
    var r := Filter(all, Truthy);
    assert forall x :: x in r <==> Truthy(x) && x in all by {
      forall x | x in r ensures Truthy(x) && x in all {
        var i :| 0 <= i < |r| && r[i] == x;
      }
      forall x | Truthy(x) && x in all ensures x in r {
        var k :| 0 <= k < |all| && all[k] == x;
      }
    }
    assert forall x :: x in all <==> exists k :: 0 <= k < |data| && data[k].remote_type == x by {
      forall x | x in all ensures exists k :: 0 <= k < |data| && data[k].remote_type == x {
        var k :| 0 <= k < |all| && all[k] == x;
      }
      forall k | 0 <= k < |data| ensures data[k].remote_type in all {
        assert all[k] == data[k].remote_type;
      }
    }
    r
  }

  /** The lists the closure searches hold exactly the saved jobs' values. */
  lemma SavedColumns(saved: seq<Option<Rows.Job>>, job: Rows.Job)
    ensures job.category in Categories(SavedData(saved)) <==> SavedCategory(saved, job)
    ensures job.company in Companies(SavedData(saved)) <==> SavedCompany(saved, job)
    ensures Truthy(job.remote_type) && job.remote_type in RemoteTypes(SavedData(saved))
      <==> SavedRemote(saved, job)
  {
    var data := SavedData(saved);
    forall i | 0 <= i < |saved| && saved[i].Some?
      ensures exists k :: 0 <= k < |data| && data[k] == saved[i].value
    {
      assert saved[i].value in data;
    }
    forall k | 0 <= k < |data|
      ensures exists i :: 0 <= i < |saved| && saved[i] == Some(data[k])
    {
      assert Some(data[k]) in saved;
    }
  }

  /** The closure passed to `allJobs.map`: it accumulates `score` and pushes
      onto `reasons` test by test. */
  method ScoreJob(ctx: Context, job: Rows.Job) returns (r: Scored)
    ensures r == Scored(job, Score(ctx, job), Reasons(ctx, job))
  {
    var isSaved := exists i :: 0 <= i < |ctx.saved| && ctx.saved[i].Some? && ctx.saved[i].value.id == job.id;
    if isSaved {
      return Scored(job, -1000, [AlreadySaved]);
    }
    var score, reasons := 0, [];
    if ctx.prefs.Some? {
      score, reasons := MatchPreferences(ctx.prefs.value, job);
    }
    if |ctx.saved| > 0 {
      score, reasons := MatchSavedJobs(ctx.prefs, ctx.saved, job, score, reasons);
    }
    score, reasons := Boost(job, ctx.now - ctx.time(job.published_at), score, reasons);
    r := Scored(job, score, reasons);
  }

  /** The tests against the preferences row. */
  method MatchPreferences(prefs: Rows.Preferences, job: Rows.Job) returns (score: int, reasons: seq<string>)
    ensures score == PreferencePoints(Some(prefs), prefs.salary_min, job)
    ensures reasons == PreferenceReasons(Some(prefs), prefs.salary_min, job)
  {
    score, reasons := 0, [];
    if |prefs.categories| > 0 && job.category in prefs.categories {
      score := score + 50;
      reasons := reasons + [CategoryReason];
    }
    if |prefs.remote_types| > 0 && Truthy(job.remote_type) && job.remote_type.value in prefs.remote_types {
      score := score + 30;
      reasons := reasons + [RemoteReason];
    }
    if |prefs.company_sizes| > 0 && Truthy(job.company_size) && job.company_size.value in prefs.company_sizes {
      score := score + 20;
      reasons := reasons + [SizeReason];
    }
    if NumTruthy(prefs.salary_min) && NumTruthy(job.salary_max) {
      if job.salary_max.value >= prefs.salary_min.value {
        score := score + 25;
        reasons := reasons + [SalaryReason];
      }
    }
  }

  /** The preference reasons name the category and remote matches exactly
      when those matched. */
  lemma PreferenceReasonsMention(prefs: Option<Rows.Preferences>, minSalary: Option<int>, job: Rows.Job)
    ensures CategoryReason in PreferenceReasons(prefs, minSalary, job) <==> CategoryPref(prefs, job)
    ensures RemoteReason in PreferenceReasons(prefs, minSalary, job) <==> RemotePref(prefs, job)
  {
    var rs := PreferenceReasons(prefs, minSalary, job);
    assert CategoryReason != RemoteReason && CategoryReason != SizeReason && CategoryReason != SalaryReason;
    assert RemoteReason != SizeReason && RemoteReason != SalaryReason;
    assert forall x :: x in rs <==>
      || (x == CategoryReason && CategoryPref(prefs, job)) || (x == RemoteReason && RemotePref(prefs, job))
      || (x == SizeReason && SizePref(prefs, job)) || (x == SalaryReason && SalaryPref(prefs, minSalary, job));
  }

  /** The tests against the saved jobs, after the preference tests. */
  method MatchSavedJobs(prefs: Option<Rows.Preferences>, saved: seq<Option<Rows.Job>>, job: Rows.Job,
                        score0: int, reasons0: seq<string>)
    returns (score: int, reasons: seq<string>)
    requires reasons0 == PreferenceReasons(prefs, MinSalary(prefs), job)
    ensures score == score0 + PatternPoints(saved, job)
    ensures reasons == reasons0 + PatternReasons(prefs, saved, job)
  {
    score, reasons := score0, reasons0;
    PreferenceReasonsMention(prefs, MinSalary(prefs), job);
    var data := SavedData(saved);
    SavedColumns(saved, job);
    var categories := Categories(data);
    if job.category in categories {
      score := score + 40;
      if CategoryReason !in reasons {
        reasons := reasons + [SimilarReason];
      }
    }
    ghost var r1 := Why(SavedCategory(saved, job) && !CategoryPref(prefs, job), SimilarReason);
    assert reasons == reasons0 + r1;
    var companies := Companies(data);
    if job.company in companies {
      score := score + 30;
      reasons := reasons + [CompanyReason];
    }
    ghost var r2 := Why(SavedCompany(saved, job), CompanyReason);
    assert reasons == reasons0 + r1 + r2;
    var remoteTypes := RemoteTypes(data);
    assert RemoteReason in reasons <==> RemotePref(prefs, job);
    ghost var before := reasons;
    if Truthy(job.remote_type) && job.remote_type in remoteTypes {
      score := score + 15;
      if RemoteReason !in reasons {
        reasons := reasons + [SimilarRemoteReason];
      }
    }
    ghost var r3 := Why(SavedRemote(saved, job) && !RemotePref(prefs, job), SimilarRemoteReason);
    assert reasons == before + r3;
    assert PatternReasons(prefs, saved, job) == r1 + r2 + r3;
    Regroup(reasons0, r1, r2, r3);
  }

  lemma Regroup(a: seq<string>, b: seq<string>, c: seq<string>, d: seq<string>)
    ensures a + b + c + d == a + (b + c + d)
  {
  }

  /** The featured and recency boosts; `sincePublished` is in milliseconds. */
  method Boost(job: Rows.Job, sincePublished: int, score0: int, reasons0: seq<string>)
    returns (score: int, reasons: seq<string>)
    ensures score == score0 + BoostPoints(job.is_featured, sincePublished)
    ensures reasons == reasons0 + BoostReasons(job.is_featured, sincePublished)
  {
    score, reasons := score0, reasons0;
    if job.is_featured {
      score := score + 10;
      reasons := reasons + [FeaturedReason];
    }
    if sincePublished < 3 * DayMs {
      score := score + 15;
      reasons := reasons + [RecentReason];
    } else if sincePublished < 7 * DayMs {
      score := score + 10;
      reasons := reasons + [WeekReason];
    }
  }

  // ---------------------------------------------------------------------------
  // What the score means

  /** A saved job scores -1000; any other job scores between 0 and the sum of
      all bonuses, since every bonus is positive. */
  lemma ScoreRange(ctx: Context, job: Rows.Job)
    ensures IsSaved(ctx.saved, job) ==> Score(ctx, job) == -1000
    ensures !IsSaved(ctx.saved, job) ==> 0 <= Score(ctx, job) <= 50 + 30 + 20 + 25 + 40 + 30 + 15 + 10 + 15
  {
  }

  /** An unsaved job scores points exactly when it is given a reason. */
  lemma ScoredIffExplained(ctx: Context, job: Rows.Job)
    requires !IsSaved(ctx.saved, job)
    ensures Score(ctx, job) > 0 <==> Reasons(ctx, job) != []
  {
    var ms := MinSalary(ctx.prefs);
    var age := Age(ctx, job);
    assert PreferenceReasons(ctx.prefs, ms, job) == [] <==> PreferencePoints(ctx.prefs, ms, job) == 0;
    assert PatternReasons(ctx.prefs, ctx.saved, job) == [] ==> PatternPoints(ctx.saved, job) == 0 || PreferencePoints(ctx.prefs, ms, job) > 0;
    assert BoostReasons(job.is_featured, age) == [] <==> BoostPoints(job.is_featured, age) == 0;
  }

  /** "Already saved" is the mark of the saved jobs and of no other. */
  lemma AlreadySavedMarksSaved(ctx: Context, job: Rows.Job)
    ensures AlreadySaved in Reasons(ctx, job) <==> IsSaved(ctx.saved, job)
  {
    if !IsSaved(ctx.saved, job) {
      var ms := MinSalary(ctx.prefs);
      var age := Age(ctx, job);
      assert AlreadySaved !in PreferenceReasons(ctx.prefs, ms, job);
      assert AlreadySaved !in PatternReasons(ctx.prefs, ctx.saved, job);
      assert AlreadySaved !in BoostReasons(job.is_featured, age);
    }
  }

  /** "Similar to jobs you saved" is given for a saved job's category only
      when the category preference has not already been given as a reason. */
  lemma SimilarOnlyWithoutPreference(ctx: Context, job: Rows.Job)
    ensures SimilarReason in Reasons(ctx, job)
      <==> !IsSaved(ctx.saved, job) && SavedCategory(ctx.saved, job) && !CategoryPref(ctx.prefs, job)
  {
    if !IsSaved(ctx.saved, job) {
      var ms := MinSalary(ctx.prefs);
      var age := Age(ctx, job);
      assert SimilarReason !in PreferenceReasons(ctx.prefs, ms, job);
      assert SimilarReason !in BoostReasons(job.is_featured, age);
      assert SimilarReason in PatternReasons(ctx.prefs, ctx.saved, job)
        <==> SavedCategory(ctx.saved, job) && !CategoryPref(ctx.prefs, job);
    }
  }

  // ---------------------------------------------------------------------------
  // The salary rule as written

  /** The score as written: the salary test reads `preferences.min_salary`, a
      key the `user_preferences` row does not have (its column is
      `salary_min`), so the threshold it sees is always `undefined`. */
  function ScoreAsWritten(ctx: Context, job: Rows.Job): int {
    if IsSaved(ctx.saved, job) then -1000 else Bonuses(ctx, job, None)
  }

  /** As written, a job that meets the user's minimum salary loses its 25
      points; the corrected score awards them exactly when the job's maximum
      reaches the preferred minimum, and differs in nothing else. */
  lemma SalaryBonusLost(ctx: Context, job: Rows.Job)
    requires !IsSaved(ctx.saved, job) && ctx.prefs.Some?
    ensures Score(ctx, job) - ScoreAsWritten(ctx, job)
      == if NumTruthy(ctx.prefs.value.salary_min) && NumTruthy(job.salary_max)
            && job.salary_max.value >= ctx.prefs.value.salary_min.value then 25 else 0
    ensures SalaryReason in Reasons(ctx, job)
      <==> NumTruthy(ctx.prefs.value.salary_min) && NumTruthy(job.salary_max)
           && job.salary_max.value >= ctx.prefs.value.salary_min.value
  {
    var ms := MinSalary(ctx.prefs);
    assert SalaryReason !in PatternReasons(ctx.prefs, ctx.saved, job);
    assert SalaryReason !in BoostReasons(job.is_featured, Age(ctx, job));
    assert SalaryReason in PreferenceReasons(ctx.prefs, ms, job) <==> SalaryPref(ctx.prefs, ms, job);
  }

  // ---------------------------------------------------------------------------
  // Ranking

  /** `(a, b) => b.score - a.score` is negative: the higher score first. */
  predicate HigherScore(a: Scored, b: Scored) {
    a.score > b.score
  }

  /** `bDate.getTime() - aDate.getTime()` is negative: the newer job first. */
  predicate Newer(time: string -> int, a: Scored, b: Scored) {
    time(a.job.published_at) > time(b.job.published_at)
  }

  predicate Trendable(r: Scored) {
    r.score <= 0 && AlreadySaved !in r.reasons
  }

  function JobsOf(rs: seq<Scored>): (r: seq<Rows.Job>)
    ensures |r| == |rs| && forall i :: 0 <= i < |rs| ==> r[i] == rs[i].job
  {
    seq(|rs|, i requires 0 <= i < |rs| => rs[i].job)
  }

  /** `allJobs.map(closure)`. */
  function ScoreAll(ctx: Context, jobs: seq<Rows.Job>): (r: seq<Scored>)
    ensures |r| == |jobs|
    ensures forall i :: 0 <= i < |jobs| ==> r[i] == Scored(jobs[i], Score(ctx, jobs[i]), Reasons(ctx, jobs[i]))
  {
    seq(|jobs|, i requires 0 <= i < |jobs| => Scored(jobs[i], Score(ctx, jobs[i]), Reasons(ctx, jobs[i])))
  }

  /** `filteredRecommendations`: the positive scores, best first, cut to `limit`. */
  function Personal(recs: seq<Scored>, limit: int): seq<Scored> {
    Slice(Sorting.SortBy(Filter(recs, (r: Scored) => r.score > 0), HigherScore), limit)
  }

  /** `trendingJobs`: the unsaved jobs without points, newest first, cut to `n`. */
  function Trending(recs: seq<Scored>, time: string -> int, n: int): seq<Scored> {
    Slice(Sorting.SortBy(Filter(recs, Trendable), (a, b) => Newer(time, a, b)), n)
  }

  /** The scored jobs in the order they are returned. */
  function Ranked(recs: seq<Scored>, time: string -> int, limit: int): seq<Scored> {
    var p := Personal(recs, limit);
    if |p| < limit then p + Trending(recs, time, limit - |p|) else p
  }

  /** The query function once the queries have answered; `None` is a
      missing `allJobs`. */
  method Recommend(ctx: Context, allJobs: Option<seq<Rows.Job>>, limit: int) returns (jobs: seq<Rows.Job>)
    ensures allJobs.None? ==> jobs == []
    ensures allJobs.Some? ==> jobs == JobsOf(Ranked(ScoreAll(ctx, allJobs.value), ctx.time, limit))
  {
    if allJobs.None? {
      return [];
    }
    var all := allJobs.value;
    var recs := ScoreEach(ctx, all);
    var p := Personal(recs, limit);
    if |p| < limit {
      var t := Trending(recs, ctx.time, limit - |p|);
      jobs := JobsOf(p) + JobsOf(t);
      JobsOfAppend(p, t);
    } else {
      jobs := JobsOf(p);
    }
  }

  /** `allJobs.map(closure)`, one call of the closure per job. */
  method ScoreEach(ctx: Context, all: seq<Rows.Job>) returns (recs: seq<Scored>)
    ensures recs == ScoreAll(ctx, all)
  {
    recs := [];
    for i := 0 to |all|
      invariant |recs| == i
      invariant forall k :: 0 <= k < i ==> recs[k] == Scored(all[k], Score(ctx, all[k]), Reasons(ctx, all[k]))
    {
      var r := ScoreJob(ctx, all[i]);
      recs := recs + [r];
    }
  }

  /** Taking the jobs out commutes with concatenation. */
  lemma JobsOfAppend(p: seq<Scored>, t: seq<Scored>)
    ensures JobsOf(p + t) == JobsOf(p) + JobsOf(t)
  {
  }

  // ---------------------------------------------------------------------------
  // What the ranking guarantees

  /** Every entry carries its own job's score and reasons, as `ScoreAll`
      produces them. */
  ghost predicate Consistent(ctx: Context, recs: seq<Scored>) {
    forall i :: 0 <= i < |recs| ==>
      recs[i].score == Score(ctx, recs[i].job) && recs[i].reasons == Reasons(ctx, recs[i].job)
  }

  lemma ScoreAllConsistent(ctx: Context, jobs: seq<Rows.Job>)
    ensures Consistent(ctx, ScoreAll(ctx, jobs))
  {
  }

  /** An entry of a cut, sorted, filtered list passes the filter and comes
      from the list. */
  lemma PickedMember<T>(s: seq<T>, keep: T -> bool, before: (T, T) -> bool, n: int, k: int)
    requires 0 <= k < |Slice(Sorting.SortBy(Filter(s, keep), before), n)|
    ensures keep(Slice(Sorting.SortBy(Filter(s, keep), before), n)[k])
    ensures Slice(Sorting.SortBy(Filter(s, keep), before), n)[k] in s
  {
    Sorting.SortByMembers(Filter(s, keep), before, k);
  }

  /** No more than `limit` jobs are returned. */
  lemma RankedLength(recs: seq<Scored>, time: string -> int, limit: int)
    requires limit >= 0
    ensures |Ranked(recs, time, limit)| <= limit
  {
  }

  /** A saved job is never recommended, neither for its score nor as a
      trending job. */
  lemma {:induction false} RankedNeverSaved(ctx: Context, recs: seq<Scored>, limit: int, i: int)
    requires Consistent(ctx, recs)
    requires 0 <= i < |Ranked(recs, ctx.time, limit)|
    ensures !IsSaved(ctx.saved, Ranked(recs, ctx.time, limit)[i].job)
  {
    var p := Personal(recs, limit);
    var x := Ranked(recs, ctx.time, limit)[i];
    if i < |p| {
      PickedMember(recs, (r: Scored) => r.score > 0, HigherScore, limit, i);
      assert x == p[i];
    } else {
      var t := Trending(recs, ctx.time, limit - |p|);
      PickedMember(recs, Trendable, (a, b) => Newer(ctx.time, a, b), limit - |p|, i - |p|);
      assert x == t[i - |p|];
      AlreadySavedMarksSaved(ctx, x.job);
    }
  }

  /** The personal part holds positive scores, best first. */
  lemma PersonalOrder(recs: seq<Scored>, limit: int)
    ensures var p := Personal(recs, limit);
      && (forall i :: 0 <= i < |p| ==> p[i].score > 0)
      && (forall i, j :: 0 <= i < j < |p| ==> p[i].score >= p[j].score)
  {
    var p := Personal(recs, limit);
    Sorting.SortedSlice(Filter(recs, (r: Scored) => r.score > 0), HigherScore, limit);
    forall i | 0 <= i < |p| ensures p[i].score > 0 {
      PickedMember(recs, (r: Scored) => r.score > 0, HigherScore, limit, i);
    }
  }

  /** The trending part holds unsaved jobs that scored nothing, newest first. */
  lemma TrendingOrder(ctx: Context, recs: seq<Scored>, n: int)
    requires Consistent(ctx, recs)
    ensures var t := Trending(recs, ctx.time, n);
      && (forall i :: 0 <= i < |t| ==> t[i].score == 0)
      && (forall i, j :: 0 <= i < j < |t| ==>
            ctx.time(t[i].job.published_at) >= ctx.time(t[j].job.published_at))
  {
    var t := Trending(recs, ctx.time, n);
    var newer := (a, b) => Newer(ctx.time, a, b);
    Sorting.SortedSlice(Filter(recs, Trendable), newer, n);
    forall i | 0 <= i < |t| ensures t[i].score == 0 {
      PickedMember(recs, Trendable, newer, n, i);
      AlreadySavedMarksSaved(ctx, t[i].job);
      ScoreRange(ctx, t[i].job);
    }
  }

  /** The returned jobs are first the positive scores, best first, then only
      jobs that scored nothing, newest first. */
  lemma RankedOrder(ctx: Context, recs: seq<Scored>, limit: int)
    requires Consistent(ctx, recs)
    ensures var rs := Ranked(recs, ctx.time, limit);
      var k := |Personal(recs, limit)|;
      && k <= |rs|
      && (forall i :: 0 <= i < k ==> rs[i].score > 0)
      && (forall i, j :: 0 <= i < j < k ==> rs[i].score >= rs[j].score)
      && (forall i :: k <= i < |rs| ==> rs[i].score == 0)
      && (forall i, j :: k <= i < j < |rs| ==>
            ctx.time(rs[i].job.published_at) >= ctx.time(rs[j].job.published_at))
  {
    var p := Personal(recs, limit);
    PersonalOrder(recs, limit);
    if |p| < limit {
      TrendingOrder(ctx, recs, limit - |p|);
    }
  }

  /** Trending jobs are added only after every job with points: none of them
      was cut. */
  lemma {:induction false} TrendingAfterAllScored(recs: seq<Scored>, time: string -> int, limit: int, r: Scored)
    requires |Ranked(recs, time, limit)| > |Personal(recs, limit)|
    requires r in recs && r.score > 0
    ensures r in Personal(recs, limit)
  {
    var f := Filter(recs, (x: Scored) => x.score > 0);
    var sorted := Sorting.SortBy(f, HigherScore);
    assert Personal(recs, limit) == sorted;
    assert r in multiset(sorted);
  }
}
