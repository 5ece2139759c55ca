/** The paging of the jobs list (src/pages/Jobs.tsx): the offset of the
    query, the page count, the "Showing a - b of n" line and the Previous
    and Next buttons. The query result is `count`, `None` while there is no
    data. */
module JobsPage {
  import opened Util
  import AlgoliaSearch

  const Limit := 20

  /** `page * limit`. */
  function Offset(page: int): int {
    page * Limit
  }

  /** `data ? Math.ceil(data.count / limit) : 0`. */
  function TotalPages(count: Option<int>): int {
    match count
    case None => 0
    case Some(n) => AlgoliaSearch.CeilDiv(n, Limit)
  }

  /** The pages hold every job and no page past the last is counted. */
  lemma TotalPagesBounds(count: Option<int>)
    ensures count.None? ==> TotalPages(count) == 0
    ensures count.Some? ==>
      (TotalPages(count) - 1) * Limit < count.value <= TotalPages(count) * Limit
  {
    if count.Some? {
      AlgoliaSearch.CeilDivBounds(count.value, Limit);
    }
  }

  /** The first and last position of the "Showing a - b of n" line. */
  function Shown(page: int, count: int): (int, int) {
    (Offset(page) + 1, if Offset(page) + Limit < count then Offset(page) + Limit else count)
  }

  /** On an existing page the line names at most twenty positions within
      the count, and reaches the count exactly on the last page. */
  lemma ShownRange(page: int, count: int)
    requires 0 <= page < TotalPages(Some(count))
    ensures var (first, last) := Shown(page, count);
      && 1 <= first <= last <= count
      && last - first < Limit
      && (last == count <==> page == TotalPages(Some(count)) - 1)
  {
    TotalPagesBounds(Some(count));
  }

  class Pager {
    var page: int
    /** The count of the last query result. */
    var count: Option<int>

    predicate Valid()
      reads this
    {
      page >= 0
    }

    /** The buttons appear only with more than one page. */
    predicate ControlsShown()
      reads this
    {
      TotalPages(count) > 1
    }

    predicate PreviousDisabled()
      reads this
    {
      page == 0
    }

    predicate NextDisabled()
      reads this
    {
      page >= TotalPages(count) - 1
    }

    constructor ()
      ensures Valid() && page == 0 && count.None?
    {
      page := 0;
      count := None;
    }

    /** A query result arrives; the page stays where it is. */
    method Load(result: Option<int>)
      requires Valid()
      modifies this
      ensures Valid() && count == result && page == old(page)
    {
      count := result;
    }

    /** A click on Previous: nothing when it is disabled, otherwise
      `setPage(p => Math.max(0, p - 1))`. */
    method Previous()
      requires Valid()
      modifies this
      ensures Valid() && count == old(count)
      ensures old(PreviousDisabled()) ==> page == old(page)
      ensures !old(PreviousDisabled()) ==> page == old(page) - 1
    {
      if page != 0 {
        page := if page - 1 > 0 then page - 1 else 0;
      }
    }

    /** A click on Next: nothing when it is disabled, otherwise
      `setPage(p => p + 1)`. */
    method Next()
      requires Valid()
      modifies this
      ensures Valid() && count == old(count)
      ensures old(NextDisabled()) ==> page == old(page)
      ensures !old(NextDisabled()) ==> page == old(page) + 1 && page <= TotalPages(count) - 1
    {
      if page < TotalPages(count) - 1 {
        page := page + 1;
      }
    }
  }

  /** From a page of the result, the buttons never leave the result's
      pages. */
  lemma ButtonsStayOnPages(page: int, count: int)
    requires 0 <= page < TotalPages(Some(count))
    ensures page != 0 ==> 0 <= page - 1 < TotalPages(Some(count))
    ensures page < TotalPages(Some(count)) - 1 ==> page + 1 < TotalPages(Some(count))
  {
  }
}
