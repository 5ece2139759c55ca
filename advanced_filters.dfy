/** The handlers of the advanced filter panel
    (src/components/AdvancedFilters.tsx). Each handler builds a new filter
    object from the current one; the three list toggles share one body, here
    `Toggle`. An `undefined` field is `None`. */
module AdvancedFilters {
  import opened Util

  /** The slider's upper end, which stands for "no maximum". */
  const SalaryCeiling := 300000

  datatype FilterOptions = FilterOptions(
    salaryMin: Option<int>, salaryMax: Option<int>,
    categories: Option<seq<string>>, remoteTypes: Option<seq<string>>, companySizes: Option<seq<string>>)

  // ---------------------------------------------------------------------------
  // Toggling a value in a list

  function NotEqual(v: string): string -> bool {
    c => c != v
  }

  /** `list.filter(c => c !== v)`: every occurrence of `v` removed. */
  function Without(xs: seq<string>, v: string): (r: seq<string>)
    ensures forall x :: x in r <==> x in xs && x != v
  {
    Filter(xs, NotEqual(v))
  }

  /** `list || []`, then remove a present value or append an absent one;
      an empty result is stored as `undefined`. */
  function Toggle(list: Option<seq<string>>, v: string): (r: Option<seq<string>>)
    ensures r.Some? ==> r.value != []
    ensures v !in list.GetOr([]) ==> r == Some(list.GetOr([]) + [v])
    ensures v in list.GetOr([]) ==> forall x :: x in r.GetOr([]) <==> x in list.GetOr([]) && x != v
  {
    var xs := list.GetOr([]);
    var next := if v in xs then Without(xs, v) else xs + [v];
    if |next| > 0 then Some(next) else None
  }

  /** Removing a value leaves the others in order: the removal distributes
      over concatenation. */
  lemma WithoutAppend(a: seq<string>, b: seq<string>, v: string)
    ensures Without(a + b, v) == Without(a, v) + Without(b, v)
  {
    FilterAppend(a, b, NotEqual(v));
  }

  /** From a list without the value, removal changes nothing. */
  lemma {:induction false} WithoutAbsent(xs: seq<string>, v: string)
    requires v !in xs
    ensures Without(xs, v) == xs
  {
    if xs != [] {
      WithoutAbsent(xs[..|xs| - 1], v);
      assert xs == xs[..|xs| - 1] + [xs[|xs| - 1]];
    }
  }

  /** Removing a value shortens the list by its number of occurrences. */
  lemma {:induction false} WithoutLength(xs: seq<string>, v: string)
    ensures |Without(xs, v)| == |xs| - Occurrences(xs, v)
  {
    if xs != [] {
      WithoutLength(xs[..|xs| - 1], v);
    }
  }

  /** The list as the handlers read it, with an empty one stored as
      `undefined`. */
  function Normal(list: Option<seq<string>>): Option<seq<string>> {
    if list.GetOr([]) == [] then None else list
  }

  /** Toggling an absent value twice gives back the list (an empty list
      coming back as `undefined`). */
  lemma ToggleTwiceAbsent(list: Option<seq<string>>, v: string)
    requires v !in list.GetOr([])
    ensures Toggle(Toggle(list, v), v) == Normal(list)
  {
    var xs := list.GetOr([]);
    assert v in xs + [v];
    WithoutAbsent(xs, v);
    assert Without(xs + [v], v) == Without(xs, v) by {
      assert (xs + [v])[..|xs|] == xs;
    }
  }

  /** Toggling a present value twice puts it back at the end: the same
      values, without its duplicates. */
  lemma ToggleTwicePresent(list: Option<seq<string>>, v: string)
    requires v in list.GetOr([])
    ensures var r := Toggle(Toggle(list, v), v);
      && r.Some?
      && r.value[|r.value| - 1] == v
      && Occurrences(r.value, v) == 1
      && forall x :: x in r.value <==> x in list.GetOr([])
  {
    var xs := list.GetOr([]);
    var once := Without(xs, v);
    assert v !in once;
    NoOccurrences(once, v);
    var r := once + [v];
    assert r[..|r| - 1] == once;
  }

  lemma {:induction false} NoOccurrences(xs: seq<string>, v: string)
    requires v !in xs
    ensures Occurrences(xs, v) == 0
  {
    if xs != [] {
      NoOccurrences(xs[..|xs| - 1], v);
    }
  }

  /** `(list?.length || 0)`. */
  function Length(list: Option<seq<string>>): nat {
    if list.Some? then |list.value| else 0
  }

  /** A toggle adds one to the list's length or takes away every occurrence
      of the value. */
  lemma ToggleLength(list: Option<seq<string>>, v: string)
    ensures Length(Toggle(list, v)) ==
      if v in list.GetOr([]) then Length(list) - Occurrences(list.GetOr([]), v) else Length(list) + 1
  {
    WithoutLength(list.GetOr([]), v);
  }

  // ---------------------------------------------------------------------------
  // The handlers

  /** `toggleCategory`: only the categories change. */
  function ToggleCategory(f: FilterOptions, category: string): (r: FilterOptions)
    ensures r.categories == Toggle(f.categories, category)
    ensures r.salaryMin == f.salaryMin && r.salaryMax == f.salaryMax
    ensures r.remoteTypes == f.remoteTypes && r.companySizes == f.companySizes
  {
    f.(categories := Toggle(f.categories, category))
  }

  /** `toggleRemoteType`: only the remote types change. */
  function ToggleRemoteType(f: FilterOptions, remoteType: string): (r: FilterOptions)
    ensures r.remoteTypes == Toggle(f.remoteTypes, remoteType)
    ensures r.salaryMin == f.salaryMin && r.salaryMax == f.salaryMax
    ensures r.categories == f.categories && r.companySizes == f.companySizes
  {
    f.(remoteTypes := Toggle(f.remoteTypes, remoteType))
  }

  /** `toggleCompanySize`: only the company sizes change. */
  function ToggleCompanySize(f: FilterOptions, size: string): (r: FilterOptions)
    ensures r.companySizes == Toggle(f.companySizes, size)
    ensures r.salaryMin == f.salaryMin && r.salaryMax == f.salaryMax
    ensures r.categories == f.categories && r.remoteTypes == f.remoteTypes
  {
    f.(companySizes := Toggle(f.companySizes, size))
  }

  /** The slider's initial position: `[salaryMin || 0, salaryMax || 300000]`. */
  function InitialRange(f: FilterOptions): (int, int) {
    (if NumTruthy(f.salaryMin) then f.salaryMin.value else 0,
     if NumTruthy(f.salaryMax) then f.salaryMax.value else SalaryCeiling)
  }

  /** `handleSalaryChange([low, high])`: the new slider position and the new
      filters, where either end of the slider means "no bound". */
  function SalaryChange(f: FilterOptions, low: int, high: int): (r: ((int, int), FilterOptions))
    ensures r.0 == (low, high)
    ensures r.1.salaryMin == if low == 0 then None else Some(low)
    ensures r.1.salaryMax == if high == SalaryCeiling then None else Some(high)
    ensures r.1.categories == f.categories && r.1.remoteTypes == f.remoteTypes && r.1.companySizes == f.companySizes
  {
    ((low, high), f.(salaryMin := if low == 0 then None else Some(low),
                     salaryMax := if high == SalaryCeiling then None else Some(high)))
  }

  /** Reopening the panel on the new filters puts the slider back where it
      was, except when both thumbs were dragged to 0: a maximum of 0 is
      falsy and reads back as the ceiling. */
  lemma SalaryRoundTrip(f: FilterOptions, low: int, high: int)
    ensures InitialRange(SalaryChange(f, low, high).1) == (low, high) <==> high != 0
  {
  }

  /** `activeFiltersCount`. */
  function ActiveFiltersCount(f: FilterOptions): nat {
    (if NumTruthy(f.salaryMin) || NumTruthy(f.salaryMax) then 1 else 0)
    + Length(f.categories) + Length(f.remoteTypes) + Length(f.companySizes)
  }

  /** Toggling a category moves the badge count by one for an absent
      category, and down by its number of occurrences for a present one. */
  lemma ToggleCategoryCount(f: FilterOptions, category: string)
    ensures ActiveFiltersCount(ToggleCategory(f, category)) ==
      if category in f.categories.GetOr([])
      then ActiveFiltersCount(f) - Occurrences(f.categories.GetOr([]), category)
      else ActiveFiltersCount(f) + 1
  {
    ToggleLength(f.categories, category);
  }

  /** No filter is counted exactly when there is no salary bound and every
      list is empty or `undefined`. */
  lemma NoActiveFilters(f: FilterOptions)
    ensures ActiveFiltersCount(f) == 0 <==>
      && !NumTruthy(f.salaryMin) && !NumTruthy(f.salaryMax)
      && f.categories.GetOr([]) == [] && f.remoteTypes.GetOr([]) == [] && f.companySizes.GetOr([]) == []
  {
  }
}
