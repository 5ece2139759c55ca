/** The company page (src/pages/Company.tsx): the company's open jobs grouped
    by category and counted by remote type, its distinct locations, the two
    listings sorted by size, and the short location list with its "+N more"
    line. The jobs are the input `jobs` (`jobsData?.jobs || []`); the
    grouping loops are methods proved against `Dict.Aggregate`. */
module CompanyPage {
  import opened Util
  import Sorting
  import Dict
  import Rows
  import Analytics

  // ---------------------------------------------------------------------------
  // Jobs by category

  /** `job.category || 'Other'`. */
  function CategoryKey(job: Rows.Job): string {
    if job.category != "" then job.category else "Other"
  }

  function NoJobs(job: Rows.Job): seq<Rows.Job> {
    []
  }

  function Push(group: seq<Rows.Job>, job: Rows.Job): seq<Rows.Job> {
    group + [job]
  }

  function Size(group: seq<Rows.Job>): nat {
    |group|
  }

  /** `jobsByCategory` after its `forEach`. */
  function JobsByCategory(jobs: seq<Rows.Job>): seq<(string, seq<Rows.Job>)> {
    Dict.Aggregate(jobs, CategoryKey, NoJobs, Push)
  }

  method GroupByCategory(jobs: seq<Rows.Job>) returns (groups: seq<(string, seq<Rows.Job>)>)
    ensures groups == JobsByCategory(jobs)
  {
    groups := [];
    for i := 0 to |jobs|
      invariant groups == JobsByCategory(jobs[..i])
    {
      Dict.AggregateStep(jobs, i, CategoryKey, NoJobs, Push);
      var job := jobs[i];
      var category := if job.category != "" then job.category else "Other";
      var found := Dict.Find(groups, category);
      var current := if found.Some? then found.value else [];
      groups := Dict.Upsert(groups, category, current + [job]);
    }
    assert jobs[..|jobs|] == jobs;
  }

  /** Pushing rows one by one onto an empty list gives the rows. */
  lemma {:induction false} FoldPush(rows: seq<Rows.Job>)
    ensures rows != [] ==> Dict.Fold(rows, NoJobs, Push) == Some(rows)
  {
    if |rows| > 1 {
      FoldPush(rows[..|rows| - 1]);
      assert rows[..|rows| - 1] + [rows[|rows| - 1]] == rows;
    } else if |rows| == 1 {
      assert rows[..0] == [];
      assert [] + [rows[0]] == rows;
    }
  }

  /** The groups partition the jobs: each key appears once, in the order
      first seen, its group is exactly the jobs with that key in their
      order, and a job without a category is in the group "Other". */
  lemma CategoryGroupsPartition(jobs: seq<Rows.Job>)
    ensures var g := JobsByCategory(jobs);
      && Dict.Keys(g) == Dedupe(Dict.KeysOf(jobs, CategoryKey))
      && Dict.Total(g, Size) == |jobs|
      && forall k :: Dict.Find(g, k).Some? ==> Dict.Find(g, k).value == Dict.Select(jobs, CategoryKey, k) != []
  {
    var g := JobsByCategory(jobs);
    Dict.AggregateKeys(jobs, CategoryKey, NoJobs, Push);
    Dict.AggregateTotal(jobs, CategoryKey, NoJobs, Push, Size);
    forall k | Dict.Find(g, k).Some?
      ensures Dict.Find(g, k).value == Dict.Select(jobs, CategoryKey, k) != []
    {
      Dict.AggregateFind(jobs, CategoryKey, NoJobs, Push, k);
      FoldPush(Dict.Select(jobs, CategoryKey, k));
    }
  }

  lemma NoCategoryIsOther(job: Rows.Job)
    ensures job.category == "" ==> CategoryKey(job) == "Other"
    ensures job.category != "" ==> CategoryKey(job) == job.category
  {
  }

  // ---------------------------------------------------------------------------
  // Jobs by remote type

  /** `job.remote_type || 'not-specified'`. */
  function RemoteKey(job: Rows.Job): string {
    if Truthy(job.remote_type) then job.remote_type.value else "not-specified"
  }

  /** `jobsByRemoteType` after its `forEach`. */
  function JobsByRemoteType(jobs: seq<Rows.Job>): seq<(string, nat)> {
    Dict.Aggregate(jobs, RemoteKey, Analytics.Zero, Analytics.Inc)
  }

  method CountRemoteTypes(jobs: seq<Rows.Job>) returns (counts: seq<(string, nat)>)
    ensures counts == JobsByRemoteType(jobs)
  {
    counts := [];
    for i := 0 to |jobs|
      invariant counts == JobsByRemoteType(jobs[..i])
    {
      Dict.AggregateStep(jobs, i, RemoteKey, Analytics.Zero, Analytics.Inc);
      var job := jobs[i];
      var remoteType := if Truthy(job.remote_type) then job.remote_type.value else "not-specified";
      var found := Dict.Find(counts, remoteType);
      counts := Dict.Upsert<string, nat>(counts, remoteType, (if found.Some? then found.value else 0) + 1);
    }
    assert jobs[..|jobs|] == jobs;
  }

  /** Every remote type of the jobs is counted once, with its number of
      jobs, and the counts add up to the number of jobs. */
  lemma RemoteCountsPartition(jobs: seq<Rows.Job>)
    ensures var d := JobsByRemoteType(jobs);
      && Dict.Keys(d) == Dedupe(Dict.KeysOf(jobs, RemoteKey))
      && (forall i :: 0 <= i < |d| ==> d[i].1 == |Dict.Select(jobs, RemoteKey, d[i].0)| > 0)
      && Dict.Total(d, Analytics.Id) == |jobs|
  {
    Dict.AggregateKeys(jobs, RemoteKey, Analytics.Zero, Analytics.Inc);
    forall i | 0 <= i < |JobsByRemoteType(jobs)|
      ensures JobsByRemoteType(jobs)[i].1 == |Dict.Select(jobs, RemoteKey, JobsByRemoteType(jobs)[i].0)| > 0
    {
      Analytics.CountsAreGroupSizes(jobs, RemoteKey, i);
    }
    Dict.AggregateTotal(jobs, RemoteKey, Analytics.Zero, Analytics.Inc, Analytics.Id);
  }

  /** `type.replace(/-/g, ' ')`, the label of a remote type. */
  function RemoteLabel(remoteType: string): (r: string)
    ensures |r| == |remoteType| && '-' !in r
    ensures forall i :: 0 <= i < |r| ==> r[i] == if remoteType[i] == '-' then ' ' else remoteType[i]
  {
    seq(|remoteType|, i requires 0 <= i < |remoteType| => if remoteType[i] == '-' then ' ' else remoteType[i])
  }

  // ---------------------------------------------------------------------------
  // The sorted listings

  predicate LargerGroup(a: (string, seq<Rows.Job>), b: (string, seq<Rows.Job>)) {
    |a.1| > |b.1|
  }

  predicate LargerCount(a: (string, nat), b: (string, nat)) {
    a.1 > b.1
  }

  /** `Object.entries(jobsByCategory).sort((a, b) => b.length - a.length)`. */
  function CategoryListing(jobs: seq<Rows.Job>): seq<(string, seq<Rows.Job>)> {
    Sorting.SortBy(JobsByCategory(jobs), LargerGroup)
  }

  /** `Object.entries(jobsByRemoteType).sort((a, b) => b - a)`. */
  function RemoteListing(jobs: seq<Rows.Job>): seq<(string, nat)> {
    Sorting.SortBy(JobsByRemoteType(jobs), LargerCount)
  }

  /** Both listings run from the largest group down, and each lists the same
      groups as the dictionary it sorts. */
  lemma ListingsSorted(jobs: seq<Rows.Job>)
    ensures Sorting.SortedBy(CategoryListing(jobs), LargerGroup)
    ensures Sorting.SortedBy(RemoteListing(jobs), LargerCount)
    ensures multiset(CategoryListing(jobs)) == multiset(JobsByCategory(jobs))
    ensures multiset(RemoteListing(jobs)) == multiset(JobsByRemoteType(jobs))
  {
    Sorting.SortBySorted(JobsByCategory(jobs), LargerGroup);
    Sorting.SortBySorted(JobsByRemoteType(jobs), LargerCount);
  }

  // ---------------------------------------------------------------------------
  // Locations

  /** `Array.from(new Set(jobs.map(job => job.location).filter(Boolean)))`. */
  function Locations(jobs: seq<Rows.Job>): seq<string> {
    Dedupe(NonEmpty(Dict.KeysOf(jobs, LocationOf)))
  }

  function LocationOf(job: Rows.Job): string {
    job.location
  }

  /** The locations have no duplicate and no empty entry, and are exactly
      the jobs' non-empty locations. */
  lemma LocationsMeaning(jobs: seq<Rows.Job>)
    ensures NoDup(Locations(jobs))
    ensures forall l :: l in Locations(jobs) <==> l != "" && exists j :: j in jobs && j.location == l
  {
    var ls := Dict.KeysOf(jobs, LocationOf);
    forall l
      ensures l in Locations(jobs) <==> l != "" && exists j :: j in jobs && j.location == l
    {
      if l in Locations(jobs) {
        var i :| 0 <= i < |Locations(jobs)| && Locations(jobs)[i] == l;
        assert l in NonEmpty(ls);
        var k :| 0 <= k < |NonEmpty(ls)| && NonEmpty(ls)[k] == l;
        var m :| 0 <= m < |ls| && ls[m] == l;
        assert jobs[m] in jobs;
      }
      if l != "" && exists j :: j in jobs && j.location == l {
        var j :| j in jobs && j.location == l;
        var m :| 0 <= m < |jobs| && jobs[m] == j;
        assert ls[m] == l;
        var n := NonEmpty(ls);
        var k :| 0 <= k < |n| && n[k] == l;
      }
    }
  }

  const ShownLocations := 5

  /** The "+N more" line for `hidden` locations not shown. */
  function MoreText(hidden: nat): string {
    "+" + NatToString(hidden) + " more " + (if hidden == 1 then "location" else "locations")
  }

  /** The line counts the hidden locations and uses the singular word for
      exactly one. */
  lemma MoreTextShape(hidden: nat)
    ensures StartsWith(MoreText(hidden), "+" + NatToString(hidden) + " more location")
    ensures EndsWith(MoreText(hidden), "s") <==> hidden != 1
  {
    var head := "+" + NatToString(hidden) + " more ";
    var word := if hidden == 1 then "location" else "locations";
    assert MoreText(hidden) == head + word;
    assert (head + word)[..|head| + 8] == head + "location";
    assert (head + word)[|head + word| - 1] == word[|word| - 1];
  }

  /** The location card: the first five locations, and the "+N more" line
      when there are more. */
  function LocationCard(locations: seq<string>): (seq<string>, Option<string>) {
    (Take(locations, ShownLocations),
     if |locations| > ShownLocations then Some(MoreText(|locations| - ShownLocations)) else None)
  }

  /** At most five locations are shown, the first ones; the extra line
      appears exactly when more than five exist, and counts the hidden
      ones. */
  lemma LocationCardShape(locations: seq<string>)
    ensures var (shown, more) := LocationCard(locations);
      && |shown| <= 5
      && shown == locations[..|shown|]
      && (|locations| <= 5 ==> shown == locations)
      && (more.Some? <==> |locations| > 5)
      && (more.Some? ==> more.value == MoreText(|locations| - |shown|))
  {
  }
}
