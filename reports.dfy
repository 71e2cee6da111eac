/**
 * The countdown to the next earnings report and the "next report" label of the
 * opening message. A date is its day ordinal (see module Calendar); "today" is a
 * parameter instead of a reading of the clock.
 */
module Reports {
  import Calendar

  /** The fixed report dates, in the order the bot lists them. */
  const ReportDates: seq<int> := [
    Calendar.Ordinal(Calendar.Date(2026, 5, 22)),
    Calendar.Ordinal(Calendar.Date(2026, 8, 28)),
    Calendar.Ordinal(Calendar.Date(2026, 11, 13))
  ]

  /**
   * What `get_days_until_report` returns: a day count, or NoUpcoming, which
   * stands for the sentinel string NoUpcomingText.
   */
  datatype Countdown = Days(n: int) | NoUpcoming

  /** The sentinel string the bot returns, and displays, when no report date is left. */
  const NoUpcomingText: string := "Ingen kommande rapport"

  /** The "next report" field: a report date, rendered as YYYY-MM-DD, or "N/A". */
  datatype ReportLabel = On(date: int) | LabelNA

  predicate Sorted(s: seq<int>) {
    forall i, j :: 0 <= i < j < |s| ==> s[i] <= s[j]
  }

  /** i is the index of the first date on or after today, in list order; when there is none, no index satisfies it. */
  predicate IsFirstUpcoming(dates: seq<int>, today: int, i: int) {
    0 <= i < |dates| && dates[i] >= today && forall j :: 0 <= j < i ==> dates[j] < today
  }

  /** The list comprehension `[d for d in report_dates if d.date() >= today]`. */
  function FutureReports(dates: seq<int>, today: int): (r: seq<int>)
    ensures |r| <= |dates|
    ensures forall x :: x in r <==> x in dates && x >= today
    ensures r == [] <==> forall i :: 0 <= i < |dates| ==> dates[i] < today
    ensures r != [] ==> exists i :: IsFirstUpcoming(dates, today, i) && r[0] == dates[i]
  {
    if dates == [] then []
    else
      var rest := FutureReports(dates[1..], today);
      assert forall i :: 0 < i < |dates| ==> dates[i] == dates[1..][i - 1];
      if dates[0] >= today then
        assert IsFirstUpcoming(dates, today, 0);
        [dates[0]] + rest
      else
        assert rest != [] ==> exists i :: IsFirstUpcoming(dates, today, i) && rest[0] == dates[i] by {
          if rest != [] {
            var k :| IsFirstUpcoming(dates[1..], today, k) && rest[0] == dates[1..][k];
            assert IsFirstUpcoming(dates, today, k + 1);
          }
        }
        rest
  }

  /**
   * `get_days_until_report`: the days from today to the first report date in
   * list order that is on or after today, or NoUpcoming when there is none.
   */
  function DaysUntilReport(dates: seq<int>, today: int): (c: Countdown)
    ensures c.NoUpcoming? <==> forall i :: 0 <= i < |dates| ==> dates[i] < today
    ensures c.Days? ==> c.n >= 0
    ensures c.Days? ==> exists i :: IsFirstUpcoming(dates, today, i) && c.n == dates[i] - today
  {
    var future := FutureReports(dates, today);
    if future != [] then Days(future[0] - today) else NoUpcoming
  }

  /** The "next report" selection of the opening message: the first future date, or "N/A". */
  function NextReport(dates: seq<int>, today: int): (next: ReportLabel)
    ensures next.LabelNA? <==> forall i :: 0 <= i < |dates| ==> dates[i] < today
    ensures next.On? ==> exists i :: IsFirstUpcoming(dates, today, i) && next.date == dates[i]
  {
    var future := FutureReports(dates, today);
    if future != [] then On(future[0]) else LabelNA
  }

  /** Only one index can be the first upcoming one. */
  lemma FirstUpcomingUnique(dates: seq<int>, today: int, i: int, j: int)
    requires IsFirstUpcoming(dates, today, i) && IsFirstUpcoming(dates, today, j)
    ensures i == j
  {
  }

  /** The countdown is the first upcoming date in list order, minus today. */
  lemma CountdownIsFirstUpcoming(dates: seq<int>, today: int, i: int)
    requires IsFirstUpcoming(dates, today, i)
    ensures DaysUntilReport(dates, today) == Days(dates[i] - today)
  {
    var c := DaysUntilReport(dates, today);
    var k :| IsFirstUpcoming(dates, today, k) && c.n == dates[k] - today;
    FirstUpcomingUnique(dates, today, i, k);
  }

  /** On a report day itself the countdown is 0, because the filter keeps dates equal to today. */
  lemma ReportDayCountsZero(dates: seq<int>, today: int, i: int)
    requires Sorted(dates)
    requires 0 <= i < |dates| && dates[i] == today
    ensures DaysUntilReport(dates, today) == Days(0)
  {
    var c := DaysUntilReport(dates, today);
    var k :| IsFirstUpcoming(dates, today, k) && c.n == dates[k] - today;
    assert k <= i;
  }

  /**
   * Over a sorted list the first date in list order is the nearest one: the
   * countdown is the least day count over all dates on or after today.
   */
  lemma SortedGivesNearest(dates: seq<int>, today: int)
    requires Sorted(dates)
    ensures DaysUntilReport(dates, today).Days? ==>
      forall j :: 0 <= j < |dates| && dates[j] >= today ==> DaysUntilReport(dates, today).n <= dates[j] - today
  {
    var c := DaysUntilReport(dates, today);
    if c.Days? {
      var k :| IsFirstUpcoming(dates, today, k) && c.n == dates[k] - today;
      forall j | 0 <= j < |dates| && dates[j] >= today
        ensures c.n <= dates[j] - today
      {
        assert k <= j;
      }
    }
  }

  /** Over an unsorted list, list order wins: the countdown need not be the nearest date. */
  lemma UnsortedTakesListOrder()
    ensures DaysUntilReport([20, 10], 0) == Days(20)
    ensures NextReport([20, 10], 0) == On(20)
  {
    CountdownIsFirstUpcoming([20, 10], 0, 0);
  }

  /** The opening message's label names exactly the date the countdown measures. */
  lemma LabelMatchesCountdown(dates: seq<int>, today: int)
    ensures NextReport(dates, today).LabelNA? <==> DaysUntilReport(dates, today).NoUpcoming?
    ensures NextReport(dates, today).On? ==>
      DaysUntilReport(dates, today) == Days(NextReport(dates, today).date - today)
  {
    var next := NextReport(dates, today);
    if next.On? {
      var i :| IsFirstUpcoming(dates, today, i) && next.date == dates[i];
      CountdownIsFirstUpcoming(dates, today, i);
    }
  }

  /** The report dates are Python's ordinals of 2026-05-22, 2026-08-28 and 2026-11-13. */
  lemma ReportDatesValues()
    ensures ReportDates == [739758, 739856, 739933]
  {
    assert ReportDates[0] == 739758 by { Calendar.OrdinalExample(); }
  }

  lemma ReportDatesSorted()
    ensures Sorted(ReportDates)
  {
  }

  /** With today = 2026-05-01 the next report is 2026-05-22, 21 days away. */
  lemma CountdownExample()
    ensures DaysUntilReport(ReportDates, Calendar.Ordinal(Calendar.Date(2026, 5, 1))) == Days(21)
    ensures NextReport(ReportDates, Calendar.Ordinal(Calendar.Date(2026, 5, 1)))
         == On(Calendar.Ordinal(Calendar.Date(2026, 5, 22)))
  {
    CountdownIsFirstUpcoming(ReportDates, Calendar.Ordinal(Calendar.Date(2026, 5, 1)), 0);
  }

  /** After the last report date there is no countdown, only the sentinel. */
  lemma NoUpcomingAfterLastReport(today: int)
    requires today > Calendar.Ordinal(Calendar.Date(2026, 11, 13))
    ensures DaysUntilReport(ReportDates, today) == NoUpcoming
    ensures NextReport(ReportDates, today) == LabelNA
  {
    assert ReportDates[0] < ReportDates[1] < ReportDates[2];
  }
}
