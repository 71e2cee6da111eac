/**
 * `post_opening`: on a weekday, the opening message with the opening price, the
 * previous close, the countdown to the next report and that report's date.
 * The clock reading is the parameter `today` (a day ordinal) and the quote
 * snapshot is the parameter `q`.
 */
module Opening {
  import opened Wrappers
  import opened Quotes
  import opened Reports
  import Calendar

  /** The accent colour of every opening message (0xFFA500, orange). */
  const OpeningColour: int := 0xFFA500

  /** The fields of the opening message that depend on the inputs. */
  datatype OpeningMessage = OpeningMessage(
    openPrice: Field<real>,    // "Öppningskurs"
    prevClose: Field<real>,    // "Föreg. stängning"
    daysLeft: Countdown,       // "Dagar till rapport"
    nextReport: ReportLabel    // "Nästa rapport"
  )

  /** The opening message, or None when today is a Saturday or a Sunday. */
  function PostOpening(today: int, q: Quote): (m: Option<OpeningMessage>)
    ensures m.None? <==> Calendar.IsWeekend(today)
    ensures m.Some? ==> (m.value.openPrice.NA? <==> !Truthy(q.open))
    ensures m.Some? ==> (m.value.prevClose.NA? <==> !Truthy(q.prevClose))
    ensures m.Some? ==> (m.value.nextReport.LabelNA? <==> m.value.daysLeft.NoUpcoming?)
    ensures m.Some? && m.value.nextReport.On? ==>
      m.value.nextReport.date in ReportDates && m.value.daysLeft == Days(m.value.nextReport.date - today)
    ensures m.Some? ==> m.value.openPrice == PriceField(q.open) && m.value.prevClose == PriceField(q.prevClose)
    ensures m.Some? ==> m.value.daysLeft == DaysUntilReport(ReportDates, today)
    ensures m.Some? ==> m.value.nextReport == NextReport(ReportDates, today)
  {
    if Calendar.IsWeekend(today) then None
    else
      LabelMatchesCountdown(ReportDates, today);
      Some(OpeningMessage(
        PriceField(q.open),
        PriceField(q.prevClose),
        DaysUntilReport(ReportDates, today),
        NextReport(ReportDates, today)))
  }

  /** On 2026-05-01 the opening message counts 21 days to the report of 2026-05-22. */
  lemma OpeningExample(q: Quote)
    ensures PostOpening(Calendar.Ordinal(Calendar.Date(2026, 5, 1)), q).Some?
    ensures PostOpening(Calendar.Ordinal(Calendar.Date(2026, 5, 1)), q).value.daysLeft == Days(21)
  {
    Calendar.WeekdayExample();
    CountdownExample();
  }
}
