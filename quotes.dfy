/**
 * The quote snapshot the bot reads from the market-data source, and the
 * Python truthiness that decides whether a field is displayed or shown as "N/A".
 */
module Quotes {
  import opened Wrappers

  /**
   * The fields of the quote snapshot the bot asks for with `data.get(...)`.
   * A field the source does not return is None. Prices are exact reals;
   * volume and market capitalisation are whole numbers.
   */
  datatype Quote = Quote(
    open: Option<real>,        // regularMarketOpen
    price: Option<real>,       // regularMarketPrice
    prevClose: Option<real>,   // regularMarketPreviousClose
    volume: Option<int>,       // volume
    marketCap: Option<int>,    // marketCap
    dayLow: Option<real>,      // dayLow
    dayHigh: Option<real>      // dayHigh
  )

  /** Python's `bool(x)` for an optional number: both None and zero are false. */
  predicate Truthy(x: Option<real>): (t: bool)
    ensures !t <==> x == None || x == Some(0.0)
  {
    x.Some? && x.value != 0.0
  }

  predicate TruthyInt(x: Option<int>): (t: bool)
    ensures !t <==> x == None || x == Some(0)
  {
    x.Some? && x.value != 0
  }

  /** One message field: a value to render, or the placeholder "N/A". */
  datatype Field<+T> = Shown(value: T) | NA

  /** A price shown as "{x} SEK" when the value is truthy and as "N/A" otherwise. */
  function PriceField(x: Option<real>): (f: Field<real>)
    ensures f.NA? <==> (x.None? || x.value == 0.0)
    ensures f.Shown? ==> x == Some(f.value) && f.value != 0.0
  {
    if Truthy(x) then Shown(x.value) else NA
  }
}
