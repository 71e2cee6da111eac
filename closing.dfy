/**
 * `post_closing`: on a weekday, the closing message with the price change, its
 * colour, and the market capitalisation, day range and turnover fields, each of
 * which reads "N/A" when an input it needs is missing or zero.
 * The clock reading is the parameter `today` and the quote snapshot is `q`.
 */
module Closing {
  import opened Wrappers
  import opened Quotes
  import Calendar

  /** The three accent colours of the closing message. */
  datatype Colour = Green | Red | Orange

  function Hex(c: Colour): int {
    match c
    case Green => 0x00FF00
    case Red => 0xFF0000
    case Orange => 0xFFA500
  }

  /** The percent change from the previous close and the colour chosen from it. */
  datatype PriceChange = PriceChange(percent: real, colour: Colour)

  /**
   * The change and colour decision: with a truthy price and previous close the
   * change is their relative difference in percent, green when it is not
   * negative and red otherwise; with either one missing or zero the change is 0
   * and the colour orange.
   */
  function Change(price: Option<real>, prevClose: Option<real>): (c: PriceChange)
    ensures c.colour == Orange <==> !(Truthy(price) && Truthy(prevClose))
    ensures c.colour == Orange ==> c.percent == 0.0
    ensures c.colour != Orange ==> c.percent * prevClose.value == (price.value - prevClose.value) * 100.0
    ensures c.colour == Green <==> c.colour != Orange && c.percent >= 0.0
  {
    if Truthy(price) && Truthy(prevClose) then
      var percent := (price.value - prevClose.value) / prevClose.value * 100.0;
      PriceChange(percent, if percent >= 0.0 then Green else Red)
    else
      PriceChange(0.0, Orange)
  }

  /** With a positive previous close, green means the price did not fall and red that it did. */
  lemma ColourFollowsPrice(price: real, prevClose: real)
    requires price != 0.0 && prevClose > 0.0
    ensures Change(Some(price), Some(prevClose)).colour == Green <==> price >= prevClose
    ensures Change(Some(price), Some(prevClose)).colour == Red <==> price < prevClose
  {
    var c := Change(Some(price), Some(prevClose));
    if c.percent >= 0.0 {
      assert c.percent * prevClose >= 0.0;
    } else {
      assert c.percent * prevClose < 0.0;
    }
  }

  /** Price 110 against a previous close of 100 is a rise of 10 percent, shown green. */
  lemma ChangeExample()
    ensures Change(Some(110.0), Some(100.0)) == PriceChange(10.0, Green)
  {
  }

  /** The "Kurs" line: the price with the change in percent. */
  datatype PriceLine = PriceLine(price: real, percent: real)

  /** The "Dagens intervall" line: day low and day high. */
  datatype DayRange = DayRange(low: real, high: real)

  /** The "Omsättning" line: turnover in millions of SEK and the share volume. */
  datatype Turnover = Turnover(msek: real, shares: int)

  /** The price line, shown when the price is truthy, with whatever change was computed. */
  function PriceLineField(price: Option<real>, change: PriceChange): (f: Field<PriceLine>)
    ensures f.NA? <==> !Truthy(price)
    ensures f.Shown? ==> f.value == PriceLine(price.value, change.percent)
  {
    if Truthy(price) then Shown(PriceLine(price.value, change.percent)) else NA
  }

  /** Market capitalisation in millions of SEK, or "N/A" when it is missing or zero. */
  function MarketCapField(marketCap: Option<int>): (f: Field<real>)
    ensures f.NA? <==> !TruthyInt(marketCap)
    ensures f.Shown? ==> f.value * 1000000.0 == marketCap.value as real && f.value != 0.0
  {
    if TruthyInt(marketCap) then Shown(marketCap.value as real / 1000000.0) else NA
  }

  /** The day range, shown only when both the low and the high are truthy. */
  function DayRangeField(low: Option<real>, high: Option<real>): (f: Field<DayRange>)
    ensures f.NA? <==> !(Truthy(low) && Truthy(high))
    ensures f.Shown? ==> low == Some(f.value.low) && high == Some(f.value.high)
  {
    if Truthy(low) && Truthy(high) then Shown(DayRange(low.value, high.value)) else NA
  }

  /** Turnover, shown only when both the volume and the price are truthy. */
  function TurnoverField(volume: Option<int>, price: Option<real>): (f: Field<Turnover>)
    ensures f.NA? <==> !(TruthyInt(volume) && Truthy(price))
    ensures f.Shown? ==> f.value.shares == volume.value
    ensures f.Shown? ==> f.value.msek * 1000000.0 == volume.value as real * price.value && f.value.msek != 0.0
  {
    if TruthyInt(volume) && Truthy(price) then
      Shown(Turnover(volume.value as real * price.value / 1000000.0, volume.value))
    else NA
  }

  /** The inputs-dependent part of the closing message. */
  datatype ClosingMessage = ClosingMessage(
    colour: Colour,
    price: Field<PriceLine>,     // "Kurs"
    marketCap: Field<real>,      // "Börsvärde"
    range: Field<DayRange>,      // "Dagens intervall"
    turnover: Field<Turnover>    // "Omsättning"
  )

  /** The closing message, or None when today is a Saturday or a Sunday. */
  function PostClosing(today: int, q: Quote): (m: Option<ClosingMessage>)
    ensures m.None? <==> Calendar.IsWeekend(today)
    ensures m.Some? ==> m.value.colour == Change(q.price, q.prevClose).colour
    ensures m.Some? ==> (m.value.price.NA? <==> !Truthy(q.price))
    ensures m.Some? && m.value.price.Shown? ==> m.value.price.value.percent == Change(q.price, q.prevClose).percent
    ensures m.Some? ==> (m.value.marketCap.NA? <==> !TruthyInt(q.marketCap))
    ensures m.Some? ==> (m.value.range.NA? <==> !(Truthy(q.dayLow) && Truthy(q.dayHigh)))
    ensures m.Some? ==> (m.value.turnover.NA? <==> !(TruthyInt(q.volume) && Truthy(q.price)))
    ensures m.Some? ==> m.value.price == PriceLineField(q.price, Change(q.price, q.prevClose))
    ensures m.Some? ==> m.value.marketCap == MarketCapField(q.marketCap)
    ensures m.Some? ==> m.value.range == DayRangeField(q.dayLow, q.dayHigh)
    ensures m.Some? ==> m.value.turnover == TurnoverField(q.volume, q.price)
  {
    if Calendar.IsWeekend(today) then None
    else
      var change := Change(q.price, q.prevClose);
      Some(ClosingMessage(
        change.colour,
        PriceLineField(q.price, change),
        MarketCapField(q.marketCap),
        DayRangeField(q.dayLow, q.dayHigh),
        TurnoverField(q.volume, q.price)))
  }

  /**
   * A price of zero counts as missing, exactly like an absent one: the price
   * line and the turnover read "N/A" and the colour falls back to orange.
   */
  lemma ZeroPriceCountsAsMissing(today: int, q: Quote)
    requires !Calendar.IsWeekend(today)
    requires q.price == Some(0.0) || q.price == None
    ensures PostClosing(today, q).Some?
    ensures PostClosing(today, q).value.price == NA
    ensures PostClosing(today, q).value.turnover == NA
    ensures PostClosing(today, q).value.colour == Orange
  {
  }

  /**
   * A price without a usable previous close is still shown, with the change
   * fallback of 0 percent, in orange.
   */
  lemma PriceWithoutPreviousClose(today: int, q: Quote)
    requires !Calendar.IsWeekend(today)
    requires Truthy(q.price) && !Truthy(q.prevClose)
    ensures PostClosing(today, q).Some?
    ensures PostClosing(today, q).value.colour == Orange
    ensures PostClosing(today, q).value.price == Shown(PriceLine(q.price.value, 0.0))
  {
  }
}
