# Hamlet stock bot — decision layer

A Dafny model of the pure decisions inside `bot.py`, the Discord bot that posts
an opening and a closing summary for the share HAMLET-B.ST on weekdays:

- the countdown to the next earnings report (`get_days_until_report`) and the
  "next report" label of the opening message;
- the weekend gate of both posting routines;
- the closing message's change, its three-colour choice, and the "N/A" rules
  that Python truthiness gives each field.

Dates are Python day ordinals (`date.toordinal()`, 0001-01-01 is day 1).
Module `Calendar` defines that ordinal and `weekday()` on it. It also proves that
ordering ordinals is the same as Python's field-by-field ordering of `date`
values, so the filter `d.date() >= today` and the difference
`(d - today).days` keep their meaning on ordinals. The clock reading is the
parameter `today`. The quote snapshot (`ticker.info`, read with `data.get(...)`
at bot.py:56-57 and 116-121) is the datatype `Quotes.Quote`, a record of
`Option` fields: a field the source does not return is `None`, prices are exact
reals, and volume and market capitalisation are integers. Python's `bool(x)` is
`Truthy` (`TruthyInt` for integers): both `None` and zero are false.

Modules: `Wrappers` (Option), `Calendar`, `Quotes` (quote record, truthiness,
message fields), `Reports` (report dates, countdown, label), `Opening`
(`post_opening`) and `Closing` (`post_closing`).

## Model

| member | source | states |
|---|---|---|
| Calendar.OrdinalOrderIsDateOrder | bot.py:37-39 | for valid dates, one date is before another exactly when its ordinal is smaller, and two dates are equal exactly when their ordinals are, so `>=` and the day difference can be taken on ordinals |
| Calendar.OrdinalExample | bot.py:18-22 | 2026-05-01 and 2026-05-22 get Python's ordinals 739737 and 739758 |
| Calendar.OrdinalEpoch | bot.py:36 | 0001-01-01 is day 1, as in Python's `toordinal` |
| Calendar.Ordinal | bot.py:37-39 | Python's `date.toordinal()`: every valid date gets a positive day number; its order and differences are Python's date order and `(d - today).days` (see the next rows) |
| Calendar.IsWeekend | bot.py:49 | the gate `today.weekday() >= 5` (also at line 109) holds exactly on Saturday (5) and Sunday (6) |
| Calendar.Weekday | bot.py:49 | `weekday()` is always in 0..6 (Monday 0, Sunday 6) |
| Calendar.WeekdayExample | bot.py:49-51 | 2026-05-01 is a Friday and passes the gate; 2026-05-02 and 2026-05-03 are Saturday and Sunday and are stopped by it |
| Calendar.WeekdayNextDay | bot.py:109-111 | the weekday advances by one (mod 7) per day, and the gate `weekday() >= 5` closes exactly on Saturday and Sunday |
| Quotes.Truthy | bot.py:123 | Python's `bool()` of an optional price, as used at lines 70, 76, 123, 131, 140, 152 and 158: false exactly for `None` and for 0 |
| Quotes.TruthyInt | bot.py:130 | Python's `bool()` of an optional volume or market cap, as used at lines 130, 131 and 158: false exactly for `None` and for 0 |
| Quotes.PriceField | bot.py:68-78 | an opening price or previous close reads "N/A" exactly when it is missing or zero, and otherwise shows the value |
| Reports.FutureReports | bot.py:37 | the comprehension keeps exactly the dates on or after today, is empty exactly when every date is before today, and starts with the first qualifying date in list order |
| Reports.DaysUntilReport | bot.py:35-40 | the sentinel is returned exactly when every report date is before today; otherwise the count is non-negative and is the first qualifying date in list order minus today |
| Reports.NextReport | bot.py:60-61 | the label is "N/A" exactly when every report date is before today, and otherwise names the first qualifying date in list order |
| Reports.CountdownIsFirstUpcoming | bot.py:37-39 | whenever index i is the first date on or after today, the countdown is exactly that date minus today |
| Reports.ReportDayCountsZero | bot.py:37 | on a report day of a sorted list the countdown is 0, because the filter keeps a date equal to today |
| Reports.SortedGivesNearest | bot.py:37-39 | over a sorted list the countdown is the least day count over all dates on or after today |
| Reports.UnsortedTakesListOrder | bot.py:39 | over the unsorted list [20, 10] with today 0 the countdown is 20 and the label 20: list order wins over nearness |
| Reports.ReportDatesValues | bot.py:18-22 | the report dates are, in list order, Python's ordinals 739758, 739856 and 739933 of 2026-05-22, 2026-08-28 and 2026-11-13 |
| Reports.ReportDatesSorted | bot.py:18-22 | the bot's report dates are in ascending order, so SortedGivesNearest applies to them |
| Reports.LabelMatchesCountdown | bot.py:59-61 | the opening label is "N/A" exactly when the countdown is the sentinel, and otherwise the countdown measures the labelled date |
| Reports.CountdownExample | bot.py:35-39 | with today 2026-05-01 the countdown is 21 and the label is 2026-05-22 |
| Reports.NoUpcomingAfterLastReport | bot.py:38-40 | after 2026-11-13 the countdown is the sentinel and the label "N/A" |
| Opening.PostOpening | bot.py:46-90 | no message exactly on weekends; otherwise the open and previous-close fields are PriceField of the quote (so "N/A" exactly when falsy), the countdown is DaysUntilReport and the label NextReport of the report dates, and the two agree on which report date is next |
| Opening.OpeningExample | bot.py:59-61 | on 2026-05-01 a message is produced and it counts 21 days to the report |
| Closing.Change | bot.py:123-128 | orange with a change of 0 exactly when price or previous close is falsy; otherwise the change times the previous close is 100 times the price difference, and the colour is green exactly when the change is not negative |
| Closing.ColourFollowsPrice | bot.py:123-125 | with a truthy price and a positive previous close, green exactly when the price is at least the previous close, red exactly when it is below |
| Closing.ChangeExample | bot.py:124-125 | price 110 against previous close 100 gives a change of exactly 10 percent, green |
| Closing.PriceLineField | bot.py:140 | the price line reads "N/A" exactly when the price is falsy, and otherwise shows the price with the computed change |
| Closing.MarketCapField | bot.py:130 | market cap reads "N/A" exactly when it is falsy; otherwise the shown figure times one million is the market cap |
| Closing.DayRangeField | bot.py:152 | the day range reads "N/A" unless both low and high are truthy, and otherwise shows exactly those two values |
| Closing.TurnoverField | bot.py:131 | turnover reads "N/A" unless both volume and price are truthy (the same guard as line 158); otherwise it shows the volume and a figure whose one-million multiple is volume times price |
| Closing.PostClosing | bot.py:106-160 | no message exactly on weekends; otherwise the colour and change come from Change, each field is the field function of exactly the quote fields the source reads (lines 116-121), and every field is "N/A" exactly when an input it needs is falsy |
| Closing.ZeroPriceCountsAsMissing | bot.py:123-131 | a price of zero acts like a missing one: price line and turnover read "N/A" and the colour is orange |
| Closing.PriceWithoutPreviousClose | bot.py:126-140 | a truthy price with a falsy previous close is still shown, with a change of 0 and the colour orange |

## Left out

- Discord: client setup, intents, channel lookup, `channel.send` and `bot.run` with the token from the environment (network I/O through a library outside the model).
- yfinance: `Ticker(...).info` is not fetched; its fields are the `Quote` parameter.
- Scheduling: `tasks.loop` at 09:45 and 17:45 Stockholm time and `on_ready` starting the loops (an external event loop).
- The clock and time zones: `datetime.now(tz)` is the parameter `today`. In the source, `get_days_until_report` reads the clock a second time, so a call that straddles midnight could use two different days. The model reads one day for both.
- Floating point and rendering: `:.2f`, `:,.1f`, the thousands separator, `strftime` of the label, and `str(days_left)` are not modelled. Prices are exact reals. The MSEK figures are stated through their exact relation (figure × 1 000 000).
- The embed's title, emoji, field names, and "Postad" timestamp field (presentation only). The accent colours are the constants `Closing.Hex` and `Opening.OpeningColour`.
- The console messages printed on weekends.
- VWAP: some revisions of the bot compute a volume-weighted average price, but this revision of `bot.py` does not, so it is not part of this model.
- Closing.ColourFollowsPrice: stated only for a positive previous close. With a negative previous close, Python's formula would turn green when the price falls, and the model's `Change` keeps that behaviour.
