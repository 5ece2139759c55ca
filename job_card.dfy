/** The two formatters of the job card (src/components/JobCard.tsx). The
    number formatting of `toLocaleString` is the parameter `show`, and the
    date parsing of `new Date(t).getTime()` the parameter `time` (in
    milliseconds). */
module JobCard {
  import opened Util

  const DayMs := 1000 * 60 * 60 * 24

  /** One bound: the currency, a space and the formatted amount, or nothing
      for a missing or zero bound. */
  function SalaryPart(bound: Option<int>, currency: string, show: int -> string): (r: string)
    ensures NumTruthy(bound) <==> r != ""
  {
    if NumTruthy(bound) then currency + " " + show(bound.value) else ""
  }

  /** `formatSalary`. */
  function FormatSalary(min: Option<int>, max: Option<int>, currency: string, show: int -> string): Option<string> {
    if !NumTruthy(min) && !NumTruthy(max) then None
    else
      var low := SalaryPart(min, currency, show);
      var high := SalaryPart(max, currency, show);
      if low != "" && high != "" then Some(low + " - " + high)
      else if low != "" then Some(low) else Some(high)
  }

  /** No salary without a non-zero bound; with both bounds a range, with one
      only that bound, each after the currency. */
  lemma FormatSalaryCases(min: Option<int>, max: Option<int>, currency: string, show: int -> string)
    ensures var r := FormatSalary(min, max, currency, show);
      && (r.None? <==> !NumTruthy(min) && !NumTruthy(max))
      && (NumTruthy(min) && NumTruthy(max) ==>
        r == Some(currency + " " + show(min.value) + " - " + currency + " " + show(max.value)))
      && (NumTruthy(min) && !NumTruthy(max) ==> r == Some(currency + " " + show(min.value)))
      && (!NumTruthy(min) && NumTruthy(max) ==> r == Some(currency + " " + show(max.value)))
  {
    if NumTruthy(min) && NumTruthy(max) {
      var low := currency + " " + show(min.value);
      var high := currency + " " + show(max.value);
      assert low + " - " + high == currency + " " + show(min.value) + " - " + currency + " " + show(max.value);
    }
  }

  /** `Math.floor(diff / 86400000)`: the divisor is positive, so Euclidean
      division rounds down like `Math.floor`. */
  function DaysBetween(posted: int, now: int): int {
    (now - posted) / DayMs
  }

  /** The whole days elapsed: the largest count of days not exceeding the
      difference. */
  lemma DaysBetweenFloor(posted: int, now: int)
    ensures DaysBetween(posted, now) * DayMs <= now - posted < (DaysBetween(posted, now) + 1) * DayMs
  {
  }

  /** The text for a number of days. */
  function AgeText(days: int): string {
    if days == 0 then "Today"
    else if days == 1 then "Yesterday"
    else if days < 7 then IntToString(days) + " days ago"
    else if days < 30 then NatToString(days / 7) + " weeks ago"
    else NatToString(days / 30) + " months ago"
  }

  /** `formatDate`. */
  function FormatDate(date: string, now: int, time: string -> int): string {
    AgeText(DaysBetween(time(date), now))
  }

  /** Weeks from one to four between a week and a month, a month or more
      from thirty days; anything below seven days other than today and
      yesterday, a date in the future included, is given in days. */
  lemma AgeTextBuckets(days: int)
    ensures days == 0 ==> AgeText(days) == "Today"
    ensures days == 1 ==> AgeText(days) == "Yesterday"
    ensures days < 7 && days != 0 && days != 1 ==> AgeText(days) == IntToString(days) + " days ago"
    ensures 7 <= days < 30 ==> 1 <= days / 7 <= 4 && AgeText(days) == NatToString(days / 7) + " weeks ago"
    ensures days >= 30 ==> days / 30 >= 1 && AgeText(days) == NatToString(days / 30) + " months ago"
  {
  }

  /** A date later than now reads as a negative number of days ago. */
  lemma FutureDate(date: string, now: int, time: string -> int)
    requires time(date) > now
    ensures DaysBetween(time(date), now) < 0
    ensures FormatDate(date, now, time) == IntToString(DaysBetween(time(date), now)) + " days ago"
    ensures FormatDate(date, now, time)[0] == '-'
  {
    DaysBetweenFloor(time(date), now);
  }
}
