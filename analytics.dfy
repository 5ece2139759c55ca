/** The aggregations of the analytics hooks (src/hooks/useJobAnalytics.ts).
    Each query function receives the rows of one database query and builds a
    plain object keyed by category, location, company or day in a `forEach`
    loop; these loops are methods proved against `Dict.Aggregate`, and the
    final `Object.entries(...).map(...).sort(...)` steps are functions. The
    queries, their date bounds and the clock are inputs; averages and growth
    are exact rationals. */
module Analytics {
  import opened Util
  import Sorting
  import Dict
  import Rows

  const DayMs := 24 * 60 * 60 * 1000

  /** The counter every group starts from and the step each row makes. */
  function Zero<R>(row: R): nat {
    0
  }

  function Inc<R>(n: nat, row: R): nat {
    n + 1
  }

  function Id(n: nat): nat {
    n
  }

  /** `counts[k] || 0`. */
  function CountOf<K(==)>(counts: seq<(K, nat)>, k: K): nat {
    match Dict.Find(counts, k)
    case Some(n) => n
    case None => 0
  }

  /** Reading a counter, present or not, gives the number of rows with that
      key. */
  lemma CountOfIsGroupSize<R, K>(rows: seq<R>, key: R -> K, k: K)
    ensures CountOf(Dict.Aggregate(rows, key, Zero, Inc), k) == |Dict.Select(rows, key, k)|
  {
    Dict.AggregateFind(rows, key, Zero, Inc, k);
    Dict.FoldCount(Dict.Select(rows, key, k), Zero, Inc, Id);
  }

  /** The number of rows with key `k`, as the counting loop leaves it. */
  lemma {:induction false} CountsAreGroupSizes<R, K>(rows: seq<R>, key: R -> K, i: int)
    requires 0 <= i < |Dict.Aggregate(rows, key, Zero, Inc)|
    ensures var d := Dict.Aggregate(rows, key, Zero, Inc);
      d[i].1 == |Dict.Select(rows, key, d[i].0)| > 0
  {
    var d := Dict.Aggregate(rows, key, Zero, Inc);
    Dict.AggregateAt(rows, key, Zero, Inc, i);
    Dict.FoldCount(Dict.Select(rows, key, d[i].0), Zero, Inc, Id);
  }

  // ---------------------------------------------------------------------------
  // Trending categories (useTrendingCategories)

  predicate HasCategory(job: Rows.Job) {
    job.category != ""
  }

  function CategoryOf(job: Rows.Job): string {
    job.category
  }

  /** `currentCounts` (or `previousCounts`) after the loop: rows without a
      category are skipped. */
  function CategoryCounts(rows: seq<Rows.Job>): seq<(string, nat)> {
    Dict.Aggregate(Filter(rows, HasCategory), CategoryOf, Zero, Inc)
  }

  method CountCategories(rows: seq<Rows.Job>) returns (counts: seq<(string, nat)>)
    ensures counts == CategoryCounts(rows)
  {
    counts := [];
    for i := 0 to |rows|
      invariant counts == CategoryCounts(rows[..i])
    {
      Dict.AggregateFilterStep(rows, i, HasCategory, CategoryOf, Zero, Inc);
      var job := rows[i];
      if job.category != "" {
        var current := Dict.Find(counts, job.category);
        counts := Dict.Upsert(counts, job.category, (if current.Some? then current.value else 0) + 1);
      }
    }
    assert rows[..|rows|] == rows;
  }

  /** Every category with a row appears once, in the order first seen, with
      its number of rows; the counts add up to the rows that have a
      category. */
  lemma CategoryCountsMeaning(rows: seq<Rows.Job>)
    ensures var d := CategoryCounts(rows);
      var kept := Filter(rows, HasCategory);
      && Dict.Keys(d) == Dedupe(Dict.KeysOf(kept, CategoryOf))
      && (forall i :: 0 <= i < |d| ==> d[i].1 == |Dict.Select(kept, CategoryOf, d[i].0)| > 0)
      && Dict.Total(d, Id) == |kept|
  {
    var kept := Filter(rows, HasCategory);
    Dict.AggregateKeys(kept, CategoryOf, Zero, Inc);
    forall i | 0 <= i < |CategoryCounts(rows)|
      ensures CategoryCounts(rows)[i].1 == |Dict.Select(kept, CategoryOf, CategoryCounts(rows)[i].0)| > 0
    {
      CountsAreGroupSizes(kept, CategoryOf, i);
    }
    Dict.AggregateTotal(kept, CategoryOf, Zero, Inc, Id);
  }

  datatype TrendingCategory = TrendingCategory(category: string, count: nat, growth: real)

  /** Percentage growth against the previous period's count. */
  function Growth(count: nat, previousCount: nat): real {
    if previousCount > 0 then (count - previousCount) as real / previousCount as real * 100.0
    else if count > 0 then 100.0
    else 0.0
  }

  /** A category new in this period grows by 100; otherwise the growth has
      the sign of the change. */
  lemma GrowthSign(count: nat, previousCount: nat)
    ensures previousCount == 0 && count > 0 ==> Growth(count, previousCount) == 100.0
    ensures previousCount > 0 ==>
      && (Growth(count, previousCount) > 0.0 <==> count > previousCount)
      && (Growth(count, previousCount) == 0.0 <==> count == previousCount)
      && (Growth(count, previousCount) < 0.0 <==> count < previousCount)
  {
    if previousCount > 0 {
      var q := (count - previousCount) as real / previousCount as real;
      assert q * previousCount as real == (count - previousCount) as real;
    }
  }


  /** `Object.entries(currentCounts).map(...)`. */
  function Growths(current: seq<(string, nat)>, previous: seq<(string, nat)>): (r: seq<TrendingCategory>)
    ensures |r| == |current|
    ensures forall i :: 0 <= i < |current| ==> r[i].category == current[i].0 && r[i].count == current[i].1
    ensures forall i :: 0 <= i < |current| ==>
      r[i].growth == Growth(current[i].1, CountOf(previous, current[i].0))
  {
    seq(|current|, i requires 0 <= i < |current| =>
      TrendingCategory(current[i].0, current[i].1, Growth(current[i].1, CountOf(previous, current[i].0))))
  }

  /** `(a, b) => b.count - a.count` is negative. */
  predicate MoreJobs(a: TrendingCategory, b: TrendingCategory) {
    a.count > b.count
  }

  function TrendingCategories(current: seq<Rows.Job>, previous: seq<Rows.Job>): seq<TrendingCategory> {
    Sorting.SortBy(Growths(CategoryCounts(current), CategoryCounts(previous)), MoreJobs)
  }

  /** The query function of `useTrendingCategories` once both periods'
      rows are known. */
  method TrendingCategoriesQuery(current: seq<Rows.Job>, previous: seq<Rows.Job>) returns (trends: seq<TrendingCategory>)
    ensures trends == TrendingCategories(current, previous)
  {
    var currentCounts := CountCategories(current);
    var previousCounts := CountCategories(previous);
    trends := Sorting.SortBy(Growths(currentCounts, previousCounts), MoreJobs);
  }

  /** The trending categories come most rows first. */
  lemma TrendingCategoriesSorted(current: seq<Rows.Job>, previous: seq<Rows.Job>)
    ensures Sorting.SortedBy(TrendingCategories(current, previous), MoreJobs)
  {
    Sorting.SortBySorted(Growths(CategoryCounts(current), CategoryCounts(previous)), MoreJobs);
  }

  /** Each trending category carries its number of rows in the current
      period and its growth against the number in the previous one, which is
      100 for a category the previous period lacks. */
  lemma TrendingCategoryEntry(current: seq<Rows.Job>, previous: seq<Rows.Job>, k: int)
    requires 0 <= k < |TrendingCategories(current, previous)|
    ensures var t := TrendingCategories(current, previous)[k];
      var n := |Dict.Select(Filter(current, HasCategory), CategoryOf, t.category)|;
      var p := |Dict.Select(Filter(previous, HasCategory), CategoryOf, t.category)|;
      && t.count == n > 0
      && t.growth == Growth(n, p)
      && (p == 0 ==> t.growth == 100.0)
  {
    var g := Growths(CategoryCounts(current), CategoryCounts(previous));
    Sorting.SortByMembers(g, MoreJobs, k);
    var t := TrendingCategories(current, previous)[k];
    var j :| 0 <= j < |g| && g[j] == t;
    CountsAreGroupSizes(Filter(current, HasCategory), CategoryOf, j);
    CountOfIsGroupSize(Filter(previous, HasCategory), CategoryOf, t.category);
  }

  // ---------------------------------------------------------------------------
  // Location insights (useLocationInsights)

  datatype Salary = Salary(min: Option<int>, max: Option<int>)

  datatype LocationGroup = LocationGroup(count: nat, salaries: seq<Salary>)

  /** `job.location || 'Not specified'`. */
  function LocationOf(job: Rows.Job): string {
    if job.location != "" then job.location else "Not specified"
  }

  function NewLocation(job: Rows.Job): LocationGroup {
    LocationGroup(0, [])
  }

  function AddLocation(g: LocationGroup, job: Rows.Job): LocationGroup {
    LocationGroup(g.count + 1, g.salaries + [Salary(job.salary_min, job.salary_max)])
  }

  /** `locationMap` after the loop. */
  function LocationGroups(rows: seq<Rows.Job>): seq<(string, LocationGroup)> {
    Dict.Aggregate(rows, LocationOf, NewLocation, AddLocation)
  }

  method GroupLocations(rows: seq<Rows.Job>) returns (groups: seq<(string, LocationGroup)>)
    ensures groups == LocationGroups(rows)
  {
    groups := [];
    for i := 0 to |rows|
      invariant groups == LocationGroups(rows[..i])
    {
      Dict.AggregateStep(rows, i, LocationOf, NewLocation, AddLocation);
      var job := rows[i];
      var location := if job.location != "" then job.location else "Not specified";
      var found := Dict.Find(groups, location);
      var current := if found.Some? then found.value else NewLocation(job);
      groups := Dict.Upsert(groups, location, AddLocation(current, job));
    }
    assert rows[..|rows|] == rows;
  }

  function SalariesOf(rows: seq<Rows.Job>): (r: seq<Salary>)
    ensures |r| == |rows| && forall i :: 0 <= i < |rows| ==> r[i] == Salary(rows[i].salary_min, rows[i].salary_max)
  {
    seq(|rows|, i requires 0 <= i < |rows| => Salary(rows[i].salary_min, rows[i].salary_max))
  }

  /** A location's group counts its rows and lists their salaries in order. */
  lemma {:induction false} FoldLocation(rows: seq<Rows.Job>)
    requires rows != []
    ensures Dict.Fold(rows, NewLocation, AddLocation) == Some(LocationGroup(|rows|, SalariesOf(rows)))
  {
    var pre := rows[..|rows| - 1];
    if pre != [] {
      FoldLocation(pre);
    }
    assert SalariesOf(rows) == SalariesOf(pre) + [Salary(rows[|rows| - 1].salary_min, rows[|rows| - 1].salary_max)];
  }

  function Mins(ss: seq<Salary>): (r: seq<Option<int>>)
    ensures |r| == |ss| && forall i :: 0 <= i < |ss| ==> r[i] == ss[i].min
  {
    seq(|ss|, i requires 0 <= i < |ss| => ss[i].min)
  }

  function Maxs(ss: seq<Salary>): (r: seq<Option<int>>)
    ensures |r| == |ss| && forall i :: 0 <= i < |ss| ==> r[i] == ss[i].max
  {
    seq(|ss|, i requires 0 <= i < |ss| => ss[i].max)
  }

  /** `.filter((m): m is number => m !== null)`: the known values, in order. */
  function Known(xs: seq<Option<int>>): (r: seq<int>)
    ensures r == [] <==> forall i :: 0 <= i < |xs| ==> xs[i].None?
    ensures forall i :: 0 <= i < |r| ==> Some(r[i]) in xs
  {
    if xs == [] then []
    else
      var pre := Known(xs[..|xs| - 1]);
      assert forall i :: 0 <= i < |xs| - 1 ==> xs[..|xs| - 1][i] == xs[i];
      match xs[|xs| - 1]
      case Some(x) => pre + [x]
      case None => pre
  }

  /** `Known` keeps order and multiplicity: the known values of a
      concatenation are those of its first part, then those of its second. */
  lemma {:induction false} KnownAppend(a: seq<Option<int>>, b: seq<Option<int>>)
    ensures Known(a + b) == Known(a) + Known(b)
    decreases |b|
  {
    if b == [] {
      assert a + b == a;
    } else {
      var b' := b[..|b| - 1];
      assert (a + b)[..|a + b| - 1] == a + b';
      KnownAppend(a, b');
    }
  }

  /** `values.reduce((a, b) => a + b, 0) / values.length`, or `null` for no
      values. */
  function Mean(xs: seq<int>): Option<real> {
    if xs == [] then None else Some(Sum(xs) as real / |xs| as real)
  }

  lemma {:induction false} SumBounds(xs: seq<int>, lo: int, hi: int)
    requires forall i :: 0 <= i < |xs| ==> lo <= xs[i] <= hi
    ensures |xs| * lo <= Sum(xs) <= |xs| * hi
  {
    if xs != [] {
      var n := |xs| - 1;
      SumBounds(xs[..n], lo, hi);
      assert Sum(xs) == Sum(xs[..n]) + xs[n];
      assert n * lo + lo == |xs| * lo && n * hi + hi == |xs| * hi;
    }
  }

  /** An average lies between the smallest and the largest value. */
  lemma MeanBounds(xs: seq<int>, lo: int, hi: int)
    requires xs != [] && forall i :: 0 <= i < |xs| ==> lo <= xs[i] <= hi
    ensures lo as real <= Mean(xs).value <= hi as real
  {
    SumBounds(xs, lo, hi);
    CastProduct(|xs|, lo);
    CastProduct(|xs|, hi);
    DivBounds(Sum(xs) as real, |xs| as real, lo as real, hi as real);
  }

  lemma CastProduct(a: int, b: int)
    ensures (a * b) as real == a as real * b as real
  {
  }

  lemma DivBounds(s: real, n: real, lo: real, hi: real)
    requires n > 0.0 && n * lo <= s <= n * hi
    ensures lo <= s / n <= hi
  {
    assert s / n * n == s;
  }

  datatype LocationInsight = LocationInsight(location: string, count: nat, avgSalaryMin: Option<real>, avgSalaryMax: Option<real>)

  /** `Object.entries(locationMap).map(...)`. */
  function LocationEntries(groups: seq<(string, LocationGroup)>): (r: seq<LocationInsight>)
    ensures |r| == |groups|
    ensures forall i :: 0 <= i < |groups| ==> r[i] == LocationInsight(groups[i].0, groups[i].1.count,
      Mean(Known(Mins(groups[i].1.salaries))), Mean(Known(Maxs(groups[i].1.salaries))))
  {
    seq(|groups|, i requires 0 <= i < |groups| =>
      LocationInsight(groups[i].0, groups[i].1.count,
        Mean(Known(Mins(groups[i].1.salaries))), Mean(Known(Maxs(groups[i].1.salaries)))))
  }

  predicate MoreLocationJobs(a: LocationInsight, b: LocationInsight) {
    a.count > b.count
  }

  function LocationInsights(rows: seq<Rows.Job>): seq<LocationInsight> {
    Sorting.SortBy(LocationEntries(LocationGroups(rows)), MoreLocationJobs)
  }

  method LocationInsightsQuery(rows: seq<Rows.Job>) returns (insights: seq<LocationInsight>)
    ensures insights == LocationInsights(rows)
  {
    var groups := GroupLocations(rows);
    insights := Sorting.SortBy(LocationEntries(groups), MoreLocationJobs);
  }

  lemma LocationInsightsSorted(rows: seq<Rows.Job>)
    ensures Sorting.SortedBy(LocationInsights(rows), MoreLocationJobs)
  {
    Sorting.SortBySorted(LocationEntries(LocationGroups(rows)), MoreLocationJobs);
  }

  /** Each location's group counts its rows and lists their salaries. */
  lemma LocationGroupAt(rows: seq<Rows.Job>, j: int)
    requires 0 <= j < |LocationGroups(rows)|
    ensures var e := LocationGroups(rows)[j];
      var sel := Dict.Select(rows, LocationOf, e.0);
      e.0 != "" && sel != [] && e.1 == LocationGroup(|sel|, SalariesOf(sel))
  {
    var e := LocationGroups(rows)[j];
    Dict.AggregateAt(rows, LocationOf, NewLocation, AddLocation, j);
    var sel := Dict.Select(rows, LocationOf, e.0);
    FoldLocation(sel);
    Dict.SelectAll(rows, LocationOf, e.0);
    assert LocationOf(sel[0]) == e.0;
  }

  /** A location gets no average of a bound exactly when none of its rows
      gives that bound. */
  lemma NoAverageIffUnknown(sel: seq<Rows.Job>)
    ensures Mean(Known(Mins(SalariesOf(sel)))).None? <==> forall j :: 0 <= j < |sel| ==> sel[j].salary_min.None?
    ensures Mean(Known(Maxs(SalariesOf(sel)))).None? <==> forall j :: 0 <= j < |sel| ==> sel[j].salary_max.None?
  {
    var ss := SalariesOf(sel);
    assert forall j :: 0 <= j < |sel| ==> Mins(ss)[j] == sel[j].salary_min;
    assert forall j :: 0 <= j < |sel| ==> Maxs(ss)[j] == sel[j].salary_max;
  }

  /** Each location insight names a non-empty location (rows without one
      are grouped under "Not specified"), counts that location's rows, and
      averages their known salaries, with no average exactly when none of
      them has that bound. */
  lemma LocationInsightEntry(rows: seq<Rows.Job>, k: int)
    requires 0 <= k < |LocationInsights(rows)|
    ensures var t := LocationInsights(rows)[k];
      var sel := Dict.Select(rows, LocationOf, t.location);
      && t.location != ""
      && t.count == |sel| > 0
      && t.avgSalaryMin == Mean(Known(Mins(SalariesOf(sel))))
      && t.avgSalaryMax == Mean(Known(Maxs(SalariesOf(sel))))
      && (t.avgSalaryMin.None? <==> forall j :: 0 <= j < |sel| ==> sel[j].salary_min.None?)
      && (t.avgSalaryMax.None? <==> forall j :: 0 <= j < |sel| ==> sel[j].salary_max.None?)
  {
    var groups := LocationGroups(rows);
    var entries := LocationEntries(groups);
    Sorting.SortByMembers(entries, MoreLocationJobs, k);
    var t := LocationInsights(rows)[k];
    var j :| 0 <= j < |entries| && entries[j] == t;
    LocationGroupAt(rows, j);
    var sel := Dict.Select(rows, LocationOf, groups[j].0);
    assert t.location == groups[j].0;
    NoAverageIffUnknown(sel);
  }

  // ---------------------------------------------------------------------------
  // Company insights (useCompanyInsights)

  datatype CompanyGroup = CompanyGroup(
    count: nat, isFeatured: bool,
    companyLogoUrl: Option<string>, companyUrl: Option<string>, companySize: Option<string>)

  function CompanyOf(job: Rows.Job): string {
    job.company
  }

  /** The entry a company's first row creates. */
  function NewCompany(job: Rows.Job): CompanyGroup {
    CompanyGroup(0, job.is_featured, job.company_logo_url, job.company_url, job.company_size)
  }

  /** `count++`, and a featured row makes the company featured. */
  function AddCompany(g: CompanyGroup, job: Rows.Job): CompanyGroup {
    g.(count := g.count + 1, isFeatured := g.isFeatured || job.is_featured)
  }

  function GroupCount(g: CompanyGroup): nat {
    g.count
  }

  /** `companyMap` after the loop. */
  function CompanyGroups(rows: seq<Rows.Job>): seq<(string, CompanyGroup)> {
    Dict.Aggregate(rows, CompanyOf, NewCompany, AddCompany)
  }

  method GroupCompanies(rows: seq<Rows.Job>) returns (groups: seq<(string, CompanyGroup)>)
    ensures groups == CompanyGroups(rows)
  {
    groups := [];
    for i := 0 to |rows|
      invariant groups == CompanyGroups(rows[..i])
    {
      Dict.AggregateStep(rows, i, CompanyOf, NewCompany, AddCompany);
      var job := rows[i];
      var found := Dict.Find(groups, job.company);
      var current := if found.Some? then found.value else NewCompany(job);
      groups := Dict.Upsert(groups, job.company, AddCompany(current, job));
    }
    assert rows[..|rows|] == rows;
  }

  predicate AnyFeatured(rows: seq<Rows.Job>) {
    exists i :: 0 <= i < |rows| && rows[i].is_featured
  }

  /** A company's group counts its rows, is featured when any of them is,
      and keeps the logo, URL and size of the first of them. */
  lemma {:induction false} FoldCompany(rows: seq<Rows.Job>)
    requires rows != []
    ensures Dict.Fold(rows, NewCompany, AddCompany) == Some(CompanyGroup(|rows|, AnyFeatured(rows),
      rows[0].company_logo_url, rows[0].company_url, rows[0].company_size))
  {
    var pre := rows[..|rows| - 1];
    var last := rows[|rows| - 1];
    if pre != [] {
      FoldCompany(pre);
      assert AnyFeatured(rows) <==> AnyFeatured(pre) || last.is_featured by {
        if AnyFeatured(pre) {
          var i :| 0 <= i < |pre| && pre[i].is_featured;
          assert rows[i].is_featured;
        }
        if AnyFeatured(rows) {
          var i :| 0 <= i < |rows| && rows[i].is_featured;
          if i < |pre| {
            assert pre[i].is_featured;
          }
        }
      }
    } else {
      assert AnyFeatured(rows) <==> rows[0].is_featured;
    }
  }

  datatype CompanyInsight = CompanyInsight(
    company: string, jobCount: nat, isFeatured: bool,
    companyLogoUrl: Option<string>, companyUrl: Option<string>, companySize: Option<string>)

  /** `Object.entries(companyMap).map(...)`. */
  function CompanyEntries(groups: seq<(string, CompanyGroup)>): (r: seq<CompanyInsight>)
    ensures |r| == |groups|
    ensures forall i :: 0 <= i < |groups| ==> r[i] == CompanyInsight(groups[i].0, groups[i].1.count,
      groups[i].1.isFeatured, groups[i].1.companyLogoUrl, groups[i].1.companyUrl, groups[i].1.companySize)
  {
    seq(|groups|, i requires 0 <= i < |groups| =>
      CompanyInsight(groups[i].0, groups[i].1.count, groups[i].1.isFeatured,
        groups[i].1.companyLogoUrl, groups[i].1.companyUrl, groups[i].1.companySize))
  }

  /** The comparator is negative: featured companies first, then more jobs
      first. */
  predicate CompanyBefore(a: CompanyInsight, b: CompanyInsight) {
    (a.isFeatured && !b.isFeatured) || (a.isFeatured == b.isFeatured && a.jobCount > b.jobCount)
  }

  function CompanyInsights(rows: seq<Rows.Job>): seq<CompanyInsight> {
    Sorting.SortBy(CompanyEntries(CompanyGroups(rows)), CompanyBefore)
  }

  method CompanyInsightsQuery(rows: seq<Rows.Job>) returns (insights: seq<CompanyInsight>)
    ensures insights == CompanyInsights(rows)
  {
    var groups := GroupCompanies(rows);
    insights := Sorting.SortBy(CompanyEntries(groups), CompanyBefore);
  }

  /** Featured companies come first, and within each part companies with
      more jobs come first. */
  lemma CompanyInsightsSorted(rows: seq<Rows.Job>)
    ensures var s := CompanyInsights(rows);
      && (forall i, j :: 0 <= i < j < |s| && s[j].isFeatured ==> s[i].isFeatured)
      && (forall i, j :: 0 <= i < j < |s| && s[i].isFeatured == s[j].isFeatured ==> s[i].jobCount >= s[j].jobCount)
  {
    Sorting.SortBySorted(CompanyEntries(CompanyGroups(rows)), CompanyBefore);
  }

  /** Every company with a row has exactly one group, in the order first
      seen, and the groups' counts add up to the number of rows. */
  lemma CompanyGroupsCover(rows: seq<Rows.Job>)
    ensures Dict.Keys(CompanyGroups(rows)) == Dedupe(Dict.KeysOf(rows, CompanyOf))
    ensures Dict.Total(CompanyGroups(rows), GroupCount) == |rows|
  {
    Dict.AggregateKeys(rows, CompanyOf, NewCompany, AddCompany);
    Dict.AggregateTotal(rows, CompanyOf, NewCompany, AddCompany, GroupCount);
  }

  lemma CompanyGroupAt(rows: seq<Rows.Job>, j: int)
    requires 0 <= j < |CompanyGroups(rows)|
    ensures var e := CompanyGroups(rows)[j];
      var sel := Dict.Select(rows, CompanyOf, e.0);
      sel != [] && e.1 == CompanyGroup(|sel|, AnyFeatured(sel),
        sel[0].company_logo_url, sel[0].company_url, sel[0].company_size)
  {
    var e := CompanyGroups(rows)[j];
    Dict.AggregateAt(rows, CompanyOf, NewCompany, AddCompany, j);
    FoldCompany(Dict.Select(rows, CompanyOf, e.0));
  }

  /** Each company insight counts the company's rows, is featured exactly
      when one of them is, and shows the logo, URL and size of the first of
      them. */
  lemma CompanyInsightEntry(rows: seq<Rows.Job>, k: int)
    requires 0 <= k < |CompanyInsights(rows)|
    ensures var t := CompanyInsights(rows)[k];
      var sel := Dict.Select(rows, CompanyOf, t.company);
      && t.jobCount == |sel| > 0
      && (t.isFeatured <==> exists i :: 0 <= i < |sel| && sel[i].is_featured)
      && t.companyLogoUrl == sel[0].company_logo_url
      && t.companyUrl == sel[0].company_url
      && t.companySize == sel[0].company_size
  {
    var groups := CompanyGroups(rows);
    var entries := CompanyEntries(groups);
    Sorting.SortByMembers(entries, CompanyBefore, k);
    var t := CompanyInsights(rows)[k];
    var j :| 0 <= j < |entries| && entries[j] == t;
    CompanyGroupAt(rows, j);
  }

  // ---------------------------------------------------------------------------
  // Job trends (useJobTrends)

  /** `new Date(published_at).toISOString().split('T')[0]`, with the parsing
      (`time`, in milliseconds) and the printing of the day (`day`) as
      parameters. */
  function DayKey(time: string -> int, day: int -> string): string -> string {
    published => day(time(published))
  }

  /** `dateMap` after the loop over the publication dates. */
  function DateCounts(published: seq<string>, time: string -> int, day: int -> string): seq<(string, nat)> {
    Dict.Aggregate(published, DayKey(time, day), Zero, Inc)
  }

  method CountDates(published: seq<string>, time: string -> int, day: int -> string) returns (counts: seq<(string, nat)>)
    ensures counts == DateCounts(published, time, day)
  {
    counts := [];
    for i := 0 to |published|
      invariant counts == DateCounts(published[..i], time, day)
    {
      Dict.AggregateStep(published, i, DayKey(time, day), Zero, Inc);
      var date := day(time(published[i]));
      assert DayKey(time, day)(published[i]) == date;
      var current := Dict.Find(counts, date);
      counts := Dict.Upsert<string, nat>(counts, date, (if current.Some? then current.value else 0) + 1);
    }
    assert published[..|published|] == published;
  }

  datatype JobTrend = JobTrend(date: string, count: nat)

  /** Day `i` of the window that starts at `start`. */
  function TrendAt(counts: seq<(string, nat)>, start: int, day: int -> string, i: int): JobTrend {
    JobTrend(day(start + i * DayMs), CountOf(counts, day(start + i * DayMs)))
  }

  /** The window of `days` days from `start`. */
  function Window(counts: seq<(string, nat)>, start: int, days: int, day: int -> string): (r: seq<JobTrend>)
    ensures |r| == if days > 0 then days else 0
  {
    seq(if days > 0 then days else 0, i => TrendAt(counts, start, day, i))
  }

  /** `new Date(now - days * 24 * 60 * 60 * 1000)`: the first day of the
      window, in milliseconds. */
  function WindowStart(now: int, days: int): int {
    now - days * DayMs
  }

  /** One entry per day of the window that ends before `now`, missing days
      counting zero; a window of no days or fewer has no entries. */
  function Trends(published: seq<string>, now: int, days: int, time: string -> int, day: int -> string): seq<JobTrend> {
    Window(DateCounts(published, time, day), WindowStart(now, days), days, day)
  }

  /** The loop that fills in the days. */
  method FillDays(counts: seq<(string, nat)>, start: int, days: int, day: int -> string) returns (trends: seq<JobTrend>)
    ensures trends == Window(counts, start, days, day)
  {
    trends := [];
    var i := 0;
    while i < days
      invariant 0 <= i <= if days > 0 then days else 0
      invariant |trends| == i
      invariant forall k :: 0 <= k < i ==> trends[k] == TrendAt(counts, start, day, k)
    {
      var date := day(start + i * DayMs);
      trends := trends + [JobTrend(date, CountOf(counts, date))];
      i := i + 1;
    }
  }

  /** The query function of `useJobTrends` once the rows are known. */
  method JobTrendsQuery(published: seq<string>, now: int, days: int, time: string -> int, day: int -> string)
    returns (trends: seq<JobTrend>)
    ensures trends == Trends(published, now, days, time, day)
  {
    var counts := CountDates(published, time, day);
    trends := FillDays(counts, WindowStart(now, days), days, day);
  }

  /** The trends cover the `days` days before `now`, one entry per day in
      order, the last one for the day before `now`; each counts the rows
      published that day. */
  lemma TrendsMeaning(published: seq<string>, now: int, days: int, time: string -> int, day: int -> string)
    ensures var t := Trends(published, now, days, time, day);
      && |t| == (if days > 0 then days else 0)
      && (forall i :: 0 <= i < |t| ==> t[i].date == day(now - (days - i) * DayMs))
      && (forall i :: 0 <= i < |t| ==> t[i].count == |Dict.Select(published, DayKey(time, day), t[i].date)|)
      && (days > 0 ==> t[days - 1].date == day(now - DayMs))
  {
    var t := Trends(published, now, days, time, day);
    forall i | 0 <= i < |t|
      ensures t[i].date == day(now - (days - i) * DayMs)
      ensures t[i].count == |Dict.Select(published, DayKey(time, day), t[i].date)|
    {
      assert WindowStart(now, days) + i * DayMs == now - (days - i) * DayMs;
      CountOfIsGroupSize(published, DayKey(time, day), t[i].date);
    }
  }

  // ---------------------------------------------------------------------------
  // Salary insights (useSalaryInsights)

  /** The guard that skips a row without a category or without both
      salaries. */
  predicate HasSalary(job: Rows.Job) {
    job.category != "" && job.salary_min.Some? && job.salary_max.Some?
  }

  /** `job.salary_currency || 'USD'`. */
  function CurrencyOf(job: Rows.Job): string {
    if job.salary_currency != "" then job.salary_currency else "USD"
  }

  /** A row past the guard: its category, currency and both salaries. */
  datatype SalaryRow = SalaryRow(category: string, currency: string, min: int, max: int)

  /** The rows past the guard, in order. */
  function SalaryRows(rows: seq<Rows.Job>): (r: seq<SalaryRow>)
    ensures |r| <= |rows|
    ensures forall i :: 0 <= i < |r| ==> r[i].category != "" && r[i].currency != ""
  {
    if rows == [] then []
    else
      var pre := SalaryRows(rows[..|rows| - 1]);
      var job := rows[|rows| - 1];
      if HasSalary(job) then pre + [SalaryRow(job.category, CurrencyOf(job), job.salary_min.value, job.salary_max.value)]
      else pre
  }

  datatype SalaryLists = SalaryLists(mins: seq<int>, maxs: seq<int>)

  function RowCategory(r: SalaryRow): string {
    r.category
  }

  function RowCurrency(r: SalaryRow): string {
    r.currency
  }

  function NewLists(r: SalaryRow): SalaryLists {
    SalaryLists([], [])
  }

  /** The two pushes. */
  function AddLists(l: SalaryLists, r: SalaryRow): SalaryLists {
    SalaryLists(l.mins + [r.min], l.maxs + [r.max])
  }

  function NewCurrencies(r: SalaryRow): seq<(string, SalaryLists)> {
    []
  }

  /** What one row does to its category's currency map. */
  function AddCurrency(m: seq<(string, SalaryLists)>, r: SalaryRow): seq<(string, SalaryLists)> {
    var cur := match Dict.Find(m, r.currency) case Some(l) => l case None => NewLists(r);
    Dict.Upsert(m, r.currency, AddLists(cur, r))
  }

  /** `categoryMap` after the loop. */
  function SalaryMap(rows: seq<Rows.Job>): seq<(string, seq<(string, SalaryLists)>)> {
    Dict.Aggregate(SalaryRows(rows), RowCategory, NewCurrencies, AddCurrency)
  }

  method GroupSalaries(rows: seq<Rows.Job>) returns (m: seq<(string, seq<(string, SalaryLists)>)>)
    ensures m == SalaryMap(rows)
  {
    m := [];
    for i := 0 to |rows|
      invariant m == SalaryMap(rows[..i])
    {
      SalaryMapStep(rows, i);
      var job := rows[i];
      if job.category != "" && job.salary_min.Some? && job.salary_max.Some? {
        var row := SalaryRow(job.category, CurrencyOf(job), job.salary_min.value, job.salary_max.value);
        var found := Dict.Find(m, job.category);
        var currencies := if found.Some? then found.value else [];
        m := Dict.Upsert(m, job.category, AddCurrency(currencies, row));
      }
    }
    assert rows[..|rows|] == rows;
  }

  /** One more row: a row past the guard is added to its category's
      currency map, any other row changes nothing. */
  lemma SalaryMapStep(rows: seq<Rows.Job>, i: int)
    requires 0 <= i < |rows|
    ensures var m := SalaryMap(rows[..i]);
      var job := rows[i];
      var cur := match Dict.Find(m, job.category) case Some(c) => c case None => [];
      SalaryMap(rows[..i + 1]) == if HasSalary(job) then
        Dict.Upsert(m, job.category, AddCurrency(cur, SalaryRow(job.category, CurrencyOf(job), job.salary_min.value, job.salary_max.value)))
      else m
  {
    var kept := SalaryRows(rows[..i]);
    assert rows[..i + 1][..i] == rows[..i];
    if HasSalary(rows[i]) {
      var job := rows[i];
      var row := SalaryRow(job.category, CurrencyOf(job), job.salary_min.value, job.salary_max.value);
      assert SalaryRows(rows[..i + 1]) == kept + [row];
      Dict.AggregateStep(kept + [row], |kept|, RowCategory, NewCurrencies, AddCurrency);
      assert (kept + [row])[..|kept|] == kept;
    }
  }

  /** A category's currency map is the grouping of its rows by currency. */
  lemma {:induction false} FoldCurrencies(rs: seq<SalaryRow>)
    requires rs != []
    ensures Dict.Fold(rs, NewCurrencies, AddCurrency) == Some(Dict.Aggregate(rs, RowCurrency, NewLists, AddLists))
  {
    var pre := rs[..|rs| - 1];
    if pre != [] {
      FoldCurrencies(pre);
    }
  }

  function MinsOf(rs: seq<SalaryRow>): (r: seq<int>)
    ensures |r| == |rs| && forall i :: 0 <= i < |rs| ==> r[i] == rs[i].min
  {
    seq(|rs|, i requires 0 <= i < |rs| => rs[i].min)
  }

  function MaxsOf(rs: seq<SalaryRow>): (r: seq<int>)
    ensures |r| == |rs| && forall i :: 0 <= i < |rs| ==> r[i] == rs[i].max
  {
    seq(|rs|, i requires 0 <= i < |rs| => rs[i].max)
  }

  /** A currency's lists hold its rows' salaries in order. */
  lemma {:induction false} FoldLists(rs: seq<SalaryRow>)
    requires rs != []
    ensures Dict.Fold(rs, NewLists, AddLists) == Some(SalaryLists(MinsOf(rs), MaxsOf(rs)))
  {
    var pre := rs[..|rs| - 1];
    if pre != [] {
      FoldLists(pre);
    }
    assert MinsOf(rs) == MinsOf(pre) + [rs[|rs| - 1].min];
    assert MaxsOf(rs) == MaxsOf(pre) + [rs[|rs| - 1].max];
  }

  /** The rows of one category and currency. */
  function Cell(rows: seq<Rows.Job>, category: string, currency: string): seq<SalaryRow> {
    Dict.Select(Dict.Select(SalaryRows(rows), RowCategory, category), RowCurrency, currency)
  }

  /** Each list of the map holds the salaries of the rows of its category and
      currency, and there is at least one; categories and currencies are
      never empty. */
  lemma SalaryMapAt(rows: seq<Rows.Job>, i: int, j: int)
    requires 0 <= i < |SalaryMap(rows)| && 0 <= j < |SalaryMap(rows)[i].1|
    ensures var m := SalaryMap(rows);
      var cell := Cell(rows, m[i].0, m[i].1[j].0);
      && cell != [] && m[i].1[j].1 == SalaryLists(MinsOf(cell), MaxsOf(cell))
      && m[i].0 != "" && m[i].1[j].0 != ""
  {
    var m := SalaryMap(rows);
    var sel := Dict.Select(SalaryRows(rows), RowCategory, m[i].0);
    Dict.AggregateAt(SalaryRows(rows), RowCategory, NewCurrencies, AddCurrency, i);
    FoldCurrencies(sel);
    Dict.AggregateAt(sel, RowCurrency, NewLists, AddLists, j);
    var cell := Dict.Select(sel, RowCurrency, m[i].1[j].0);
    FoldLists(cell);
    CellRow(rows, m[i].0, m[i].1[j].0);
  }

  /** The rows of a cell carry its category and currency. */
  lemma CellRow(rows: seq<Rows.Job>, category: string, currency: string)
    requires Cell(rows, category, currency) != []
    ensures category != "" && currency != ""
  {
    var sel := Dict.Select(SalaryRows(rows), RowCategory, category);
    var cell := Cell(rows, category, currency);
    Dict.SelectAll(SalaryRows(rows), RowCategory, category);
    Dict.SelectAll(sel, RowCurrency, currency);
    Dict.SelectMembers(sel, RowCurrency, currency, 0);
    var p :| 0 <= p < |sel| && sel[p] == cell[0];
    Dict.SelectMembers(SalaryRows(rows), RowCategory, category, p);
    var q :| 0 <= q < |SalaryRows(rows)| && SalaryRows(rows)[q] == cell[0];
  }

  /** No list of the map is empty, so every average is a number. */
  ghost predicate Filled(m: seq<(string, seq<(string, SalaryLists)>)>) {
    forall i, j :: 0 <= i < |m| && 0 <= j < |m[i].1| ==> m[i].1[j].1.mins != [] && m[i].1[j].1.maxs != []
  }

  lemma SalaryMapFilled(rows: seq<Rows.Job>)
    ensures Filled(SalaryMap(rows))
  {
    var m := SalaryMap(rows);
    forall i, j | 0 <= i < |m| && 0 <= j < |m[i].1|
      ensures m[i].1[j].1.mins != [] && m[i].1[j].1.maxs != []
    {
      SalaryMapAt(rows, i, j);
    }
  }

  datatype SalaryInsight = SalaryInsight(category: string, avgSalaryMin: real, avgSalaryMax: real, currency: string)

  /** `reduce((a, b) => a + b, 0) / length` on a list that is not empty. */
  function Average(xs: seq<int>): real
    requires xs != []
  {
    Sum(xs) as real / |xs| as real
  }

  /** The inner `forEach` for one category. */
  function CurrencyInsights(category: string, cs: seq<(string, SalaryLists)>): (r: seq<SalaryInsight>)
    requires forall j :: 0 <= j < |cs| ==> cs[j].1.mins != [] && cs[j].1.maxs != []
    ensures |r| == |cs|
    ensures forall j :: 0 <= j < |cs| ==>
      r[j] == SalaryInsight(category, Average(cs[j].1.mins), Average(cs[j].1.maxs), cs[j].0)
  {
    seq(|cs|, j requires 0 <= j < |cs| =>
      SalaryInsight(category, Average(cs[j].1.mins), Average(cs[j].1.maxs), cs[j].0))
  }

  /** The outer `forEach`: the insights category by category. */
  function Flatten(m: seq<(string, seq<(string, SalaryLists)>)>): seq<SalaryInsight>
    requires Filled(m)
  {
    if m == [] then []
    else
      var n := |m| - 1;
      assert forall j :: 0 <= j < |m[n].1| ==> m[n].1[j].1.mins != [] && m[n].1[j].1.maxs != [];
      Flatten(m[..n]) + CurrencyInsights(m[n].0, m[n].1)
  }

  /** Every insight comes from one list of the map. */
  lemma {:induction false} FlattenMember(m: seq<(string, seq<(string, SalaryLists)>)>, k: int)
    requires Filled(m) && 0 <= k < |Flatten(m)|
    ensures exists i, j :: 0 <= i < |m| && 0 <= j < |m[i].1| &&
                           Flatten(m)[k] == SalaryInsight(m[i].0, Average(m[i].1[j].1.mins), Average(m[i].1[j].1.maxs), m[i].1[j].0)
  {
    var n := |m| - 1;
    var pre := Flatten(m[..n]);
    if k < |pre| {
      FlattenMember(m[..n], k);
      var i, j :| 0 <= i < n && 0 <= j < |m[..n][i].1| &&
        pre[k] == SalaryInsight(m[..n][i].0, Average(m[..n][i].1[j].1.mins), Average(m[..n][i].1[j].1.maxs), m[..n][i].1[j].0);
      assert m[..n][i] == m[i];
    } else {
      var j := k - |pre|;
      assert Flatten(m)[k] == CurrencyInsights(m[n].0, m[n].1)[j];
    }
  }

  /** `(a, b) => b.avgSalaryMax - a.avgSalaryMax` is negative. */
  predicate HigherMax(a: SalaryInsight, b: SalaryInsight) {
    a.avgSalaryMax > b.avgSalaryMax
  }

  function SalaryInsights(rows: seq<Rows.Job>): seq<SalaryInsight> {
    SalaryMapFilled(rows);
    Sorting.SortBy(Flatten(SalaryMap(rows)), HigherMax)
  }

  /** The two nested `forEach` loops that compute the averages. */
  method Averages(m: seq<(string, seq<(string, SalaryLists)>)>) returns (insights: seq<SalaryInsight>)
    requires Filled(m)
    ensures insights == Flatten(m)
  {
    insights := [];
    for i := 0 to |m|
      invariant insights == Flatten(m[..i])
    {
      assert m[..i + 1][..i] == m[..i];
      var category := m[i].0;
      var currencies := m[i].1;
      ghost var done := insights;
      for j := 0 to |currencies|
        invariant insights == done + CurrencyInsights(category, currencies[..j])
      {
        var salaries := currencies[j].1;
        var avgSalaryMin := Sum(salaries.mins) as real / |salaries.mins| as real;
        var avgSalaryMax := Sum(salaries.maxs) as real / |salaries.maxs| as real;
        insights := insights + [SalaryInsight(category, avgSalaryMin, avgSalaryMax, currencies[j].0)];
        assert CurrencyInsights(category, currencies[..j + 1])
            == CurrencyInsights(category, currencies[..j]) + [SalaryInsight(category, avgSalaryMin, avgSalaryMax, currencies[j].0)];
      }
      assert currencies[..|currencies|] == currencies;
    }
    assert m[..|m|] == m;
  }

  method SalaryInsightsQuery(rows: seq<Rows.Job>) returns (insights: seq<SalaryInsight>)
    ensures insights == SalaryInsights(rows)
  {
    var m := GroupSalaries(rows);
    SalaryMapFilled(rows);
    insights := Averages(m);
    insights := Sorting.SortBy(insights, HigherMax);
  }

  /** The insights come highest average maximum first. */
  lemma SalaryInsightsSorted(rows: seq<Rows.Job>)
    ensures Sorting.SortedBy(SalaryInsights(rows), HigherMax)
  {
    SalaryMapFilled(rows);
    Sorting.SortBySorted(Flatten(SalaryMap(rows)), HigherMax);
  }

  /** Each salary insight names a category and a currency that rows past the
      guard have, and carries the averages of those rows' salaries. */
  lemma SalaryInsightEntry(rows: seq<Rows.Job>, k: int)
    requires 0 <= k < |SalaryInsights(rows)|
    ensures var t := SalaryInsights(rows)[k];
      var cell := Cell(rows, t.category, t.currency);
      && cell != []
      && t.category != "" && t.currency != ""
      && t.avgSalaryMin == Average(MinsOf(cell))
      && t.avgSalaryMax == Average(MaxsOf(cell))
  {
    var m := SalaryMap(rows);
    SalaryMapFilled(rows);
    Sorting.SortByMembers(Flatten(m), HigherMax, k);
    var t := SalaryInsights(rows)[k];
    var l :| 0 <= l < |Flatten(m)| && Flatten(m)[l] == t;
    FlattenMember(m, l);
    var i, j :| 0 <= i < |m| && 0 <= j < |m[i].1| &&
      t == SalaryInsight(m[i].0, Average(m[i].1[j].1.mins), Average(m[i].1[j].1.maxs), m[i].1[j].0);
    SalaryMapAt(rows, i, j);
  }

  // ---------------------------------------------------------------------------
  // Featured companies (useFeaturedCompanies)

  datatype FeaturedGroup = FeaturedGroup(
    count: nat, companyLogoUrl: Option<string>, companyUrl: Option<string>, companySize: Option<string>)

  function NewFeatured(job: Rows.Job): FeaturedGroup {
    FeaturedGroup(0, job.company_logo_url, job.company_url, job.company_size)
  }

  function AddFeatured(g: FeaturedGroup, job: Rows.Job): FeaturedGroup {
    g.(count := g.count + 1)
  }

  /** `companyMap` after the loop. */
  function FeaturedGroups(rows: seq<Rows.Job>): seq<(string, FeaturedGroup)> {
    Dict.Aggregate(rows, CompanyOf, NewFeatured, AddFeatured)
  }

  method GroupFeatured(rows: seq<Rows.Job>) returns (groups: seq<(string, FeaturedGroup)>)
    ensures groups == FeaturedGroups(rows)
  {
    groups := [];
    for i := 0 to |rows|
      invariant groups == FeaturedGroups(rows[..i])
    {
      Dict.AggregateStep(rows, i, CompanyOf, NewFeatured, AddFeatured);
      var job := rows[i];
      var found := Dict.Find(groups, job.company);
      var current := if found.Some? then found.value else NewFeatured(job);
      groups := Dict.Upsert(groups, job.company, AddFeatured(current, job));
    }
    assert rows[..|rows|] == rows;
  }

  /** A company's group counts its rows and keeps the logo, URL and size of
      the first of them. */
  lemma {:induction false} FoldFeatured(rows: seq<Rows.Job>)
    requires rows != []
    ensures Dict.Fold(rows, NewFeatured, AddFeatured) == Some(FeaturedGroup(|rows|,
      rows[0].company_logo_url, rows[0].company_url, rows[0].company_size))
  {
    var pre := rows[..|rows| - 1];
    if pre != [] {
      FoldFeatured(pre);
    }
  }

  /** `Object.entries(companyMap).map(...)`: every entry is featured. */
  function FeaturedEntries(groups: seq<(string, FeaturedGroup)>): (r: seq<CompanyInsight>)
    ensures |r| == |groups|
    ensures forall i :: 0 <= i < |groups| ==> r[i] == CompanyInsight(groups[i].0, groups[i].1.count,
      true, groups[i].1.companyLogoUrl, groups[i].1.companyUrl, groups[i].1.companySize)
  {
    seq(|groups|, i requires 0 <= i < |groups| =>
      CompanyInsight(groups[i].0, groups[i].1.count, true,
        groups[i].1.companyLogoUrl, groups[i].1.companyUrl, groups[i].1.companySize))
  }

  /** `(a, b) => b.jobCount - a.jobCount` is negative. */
  predicate MoreCompanyJobs(a: CompanyInsight, b: CompanyInsight) {
    a.jobCount > b.jobCount
  }

  /** The rows are `null` when the query returned none. */
  function FeaturedCompanies(rows: Option<seq<Rows.Job>>, limit: int): seq<CompanyInsight> {
    match rows
    case None => []
    case Some(rs) => Slice(Sorting.SortBy(FeaturedEntries(FeaturedGroups(rs)), MoreCompanyJobs), limit)
  }

  method FeaturedCompaniesQuery(rows: Option<seq<Rows.Job>>, limit: int) returns (companies: seq<CompanyInsight>)
    ensures companies == FeaturedCompanies(rows, limit)
  {
    if rows.None? {
      return [];
    }
    var groups := GroupFeatured(rows.value);
    companies := Sorting.SortBy(FeaturedEntries(groups), MoreCompanyJobs);
    companies := Slice(companies, limit);
  }

  /** At most `limit` companies, all featured, most jobs first. */
  lemma FeaturedCompaniesShape(rows: Option<seq<Rows.Job>>, limit: int)
    ensures var r := FeaturedCompanies(rows, limit);
      && (limit >= 0 ==> |r| <= limit)
      && (forall i :: 0 <= i < |r| ==> r[i].isFeatured)
      && Sorting.SortedBy(r, MoreCompanyJobs)
  {
    if rows.Some? {
      var entries := FeaturedEntries(FeaturedGroups(rows.value));
      Sorting.SortedSlice(entries, MoreCompanyJobs, limit);
      var r := FeaturedCompanies(rows, limit);
      forall i | 0 <= i < |r|
        ensures r[i].isFeatured
      {
        Sorting.SortByMembers(entries, MoreCompanyJobs, i);
      }
    }
  }

  lemma FeaturedGroupAt(rows: seq<Rows.Job>, j: int)
    requires 0 <= j < |FeaturedGroups(rows)|
    ensures var e := FeaturedGroups(rows)[j];
      var sel := Dict.Select(rows, CompanyOf, e.0);
      sel != [] && e.1 == FeaturedGroup(|sel|, sel[0].company_logo_url, sel[0].company_url, sel[0].company_size)
  {
    var e := FeaturedGroups(rows)[j];
    Dict.AggregateAt(rows, CompanyOf, NewFeatured, AddFeatured, j);
    FoldFeatured(Dict.Select(rows, CompanyOf, e.0));
  }

  /** Each featured company counts its rows and shows the logo, URL and size
      of the first of them. */
  lemma FeaturedCompanyEntry(rows: seq<Rows.Job>, limit: int, k: int)
    requires 0 <= k < |FeaturedCompanies(Some(rows), limit)|
    ensures var t := FeaturedCompanies(Some(rows), limit)[k];
      var sel := Dict.Select(rows, CompanyOf, t.company);
      && t.jobCount == |sel| > 0
      && t.companyLogoUrl == sel[0].company_logo_url
      && t.companyUrl == sel[0].company_url
      && t.companySize == sel[0].company_size
  {
    var groups := FeaturedGroups(rows);
    var entries := FeaturedEntries(groups);
    Sorting.SortByMembers(entries, MoreCompanyJobs, k);
    var t := FeaturedCompanies(Some(rows), limit)[k];
    var j :| 0 <= j < |entries| && entries[j] == t;
    FeaturedGroupAt(rows, j);
  }
}
