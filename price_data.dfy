/** The price-data value types: timeframes, OHLCV candles with their
    construction-time invariant, series with defaulted bounds, pagination
    metadata and update statuses.

    Prices and volumes are `Decimal` in the system, so they are modelled as
    exact integers in a fixed smallest unit; a candle's time is a UTC
    timestamp in seconds. */
module PriceData {
  import opened Wrappers

  /** The supported timeframes and their wire names. */
  datatype Timeframe = OneMin | FiveMin | FifteenMin | ThirtyMin | OneHour | TwoHour | FourHour | Daily
  {
    function Value(): string
    {
      match this
      case OneMin => "1min"
      case FiveMin => "5min"
      case FifteenMin => "15min"
      case ThirtyMin => "30min"
      case OneHour => "1h"
      case TwoHour => "2h"
      case FourHour => "4h"
      case Daily => "daily"
    }
  }

  /** `Timeframe(s)`: the member whose value is `s`, if any. */
  function TimeframeFromValue(s: string): (r: Option<Timeframe>)
    ensures r.Some? ==> r.value.Value() == s
  {
    if s == "1min" then Some(OneMin)
    else if s == "5min" then Some(FiveMin)
    else if s == "15min" then Some(FifteenMin)
    else if s == "30min" then Some(ThirtyMin)
    else if s == "1h" then Some(OneHour)
    else if s == "2h" then Some(TwoHour)
    else if s == "4h" then Some(FourHour)
    else if s == "daily" then Some(Daily)
    else None
  }

  /** Every timeframe is found again from its wire name, so the names are distinct. */
  lemma TimeframeValueRoundTrip(tf: Timeframe)
    ensures TimeframeFromValue(tf.Value()) == Some(tf)
  {
  }

  datatype Candle = Candle(time: int, open: int, low: int, high: int, close: int, volume: int)

  /** The field constraints: every price positive, volume not negative. */
  predicate FieldsInRange(c: Candle)
  {
    c.open > 0 && c.low > 0 && c.high > 0 && c.close > 0 && c.volume >= 0
  }

  /** The cross-field constraint checked after the fields: low <= open, close <= high. */
  predicate PricesOrdered(c: Candle)
  {
    c.low <= c.high && c.low <= c.open <= c.high && c.low <= c.close <= c.high
  }

  /** What every constructed `PriceCandle` satisfies. */
  predicate WellFormed(c: Candle)
  {
    FieldsInRange(c) && PricesOrdered(c)
  }

  datatype CandleError =
    | FieldOutOfRange(field: string)
    | HighBelowLow
    | OpenOutsideRange
    | CloseOutsideRange

  function CandleErrorMessage(e: CandleError): string
  {
    match e
    case FieldOutOfRange(f) => f + " is out of range"
    case HighBelowLow => "High price must be greater than or equal to low price"
    case OpenOutsideRange => "Open price must be between low and high prices"
    case CloseOutsideRange => "Close price must be between low and high prices"
  }

  /** `PriceCandle(...)`: the field constraints first, then high >= low, then
      the open, then the close; the first check that fails is reported. */
  function NewCandle(c: Candle): (r: Result<Candle, CandleError>)
    ensures r.Ok? <==> WellFormed(c)
    ensures r.Ok? ==> r.value == c
    ensures FieldsInRange(c) && c.high < c.low ==> r == Err(HighBelowLow)
    ensures FieldsInRange(c) && c.low <= c.high && !(c.low <= c.open <= c.high) ==> r == Err(OpenOutsideRange)
    ensures FieldsInRange(c) && c.low <= c.high && c.low <= c.open <= c.high && !(c.low <= c.close <= c.high) ==> r == Err(CloseOutsideRange)
  {
    if c.open <= 0 then Err(FieldOutOfRange("open"))
    else if c.low <= 0 then Err(FieldOutOfRange("low"))
    else if c.high <= 0 then Err(FieldOutOfRange("high"))
    else if c.close <= 0 then Err(FieldOutOfRange("close"))
    else if c.volume < 0 then Err(FieldOutOfRange("volume"))
    else if c.high < c.low then Err(HighBelowLow)
    else if !(c.low <= c.open <= c.high) then Err(OpenOutsideRange)
    else if !(c.low <= c.close <= c.high) then Err(CloseOutsideRange)
    else Ok(c)
  }

  /** The earliest candle time of a non-empty list. */
  function MinTime(cs: seq<Candle>): (t: int)
    requires |cs| > 0
    ensures forall i :: 0 <= i < |cs| ==> t <= cs[i].time
    ensures exists i :: 0 <= i < |cs| && cs[i].time == t
  {
    if |cs| == 1 then cs[0].time
    else
      var rest := MinTime(cs[1..]);
      if cs[0].time <= rest then cs[0].time else rest
  }

  /** The latest candle time of a non-empty list. */
  function MaxTime(cs: seq<Candle>): (t: int)
    requires |cs| > 0
    ensures forall i :: 0 <= i < |cs| ==> cs[i].time <= t
    ensures exists i :: 0 <= i < |cs| && cs[i].time == t
  {
    if |cs| == 1 then cs[0].time
    else
      var rest := MaxTime(cs[1..]);
      if cs[0].time >= rest then cs[0].time else rest
  }

  datatype PaginationInfo = PaginationInfo(
    page: int, pageSize: int, totalItems: int, totalPages: int, hasNext: bool, hasPrevious: bool)

  predicate PaginationInRange(p: PaginationInfo)
  {
    p.page >= 1 && 1 <= p.pageSize <= 10000 && p.totalItems >= 0 && p.totalPages >= 0
  }

  /** `PaginationInfo(...)`: rejected unless page >= 1, 1 <= page_size <= 10000
      and both totals are non-negative. */
  function NewPaginationInfo(p: PaginationInfo): (r: Result<PaginationInfo, string>)
    ensures r.Ok? <==> PaginationInRange(p)
    ensures r.Ok? ==> r.value == p
  {
    if p.page < 1 then Err("page must be >= 1")
    else if p.pageSize < 1 || p.pageSize > 10000 then Err("page_size must be between 1 and 10000")
    else if p.totalItems < 0 then Err("total_items must be >= 0")
    else if p.totalPages < 0 then Err("total_pages must be >= 0")
    else Ok(p)
  }

  datatype Series = Series(
    symbol: string,
    timeframe: Timeframe,
    candles: seq<Candle>,
    startDate: Option<int>,
    endDate: Option<int>,
    pagination: Option<PaginationInfo>)

  /** `PriceDataSeries(...)`: the symbol must be non-empty; a bound that is
      not given is taken from the candles when there are any. */
  function NewSeries(symbol: string, timeframe: Timeframe, candles: seq<Candle>,
                     startDate: Option<int>, endDate: Option<int>,
                     pagination: Option<PaginationInfo>): (r: Result<Series, string>)
    ensures r.Ok? <==> |symbol| >= 1
    ensures r.Ok? ==> r.value.symbol == symbol && r.value.timeframe == timeframe
                      && r.value.candles == candles && r.value.pagination == pagination
    ensures r.Ok? && startDate.Some? ==> r.value.startDate == startDate
    ensures r.Ok? && endDate.Some? ==> r.value.endDate == endDate
    ensures r.Ok? && |candles| == 0 ==> r.value.startDate == startDate && r.value.endDate == endDate
    ensures r.Ok? && startDate.None? && |candles| > 0 ==>
              r.value.startDate.Some?
              && (forall i :: 0 <= i < |candles| ==> r.value.startDate.value <= candles[i].time)
              && (exists i :: 0 <= i < |candles| && candles[i].time == r.value.startDate.value)
    ensures r.Ok? && endDate.None? && |candles| > 0 ==>
              r.value.endDate.Some?
              && (forall i :: 0 <= i < |candles| ==> candles[i].time <= r.value.endDate.value)
              && (exists i :: 0 <= i < |candles| && candles[i].time == r.value.endDate.value)
  {
    if |symbol| == 0 then Err("symbol must have at least 1 character")
    else
      var start := if |candles| > 0 && startDate.None? then Some(MinTime(candles)) else startDate;
      var end := if |candles| > 0 && endDate.None? then Some(MaxTime(candles)) else endDate;
      Ok(Series(symbol, timeframe, candles, start, end, pagination))
  }

  datatype DataUpdateStatus = DataUpdateStatus(
    symbol: string,
    timeframe: string,
    lastUpdate: Option<int>,
    recordsUpdated: int,
    success: bool,
    errorMessage: Option<string>)

  /** `DataUpdateStatus(...)`: rejected when records_updated is negative. */
  function NewDataUpdateStatus(s: DataUpdateStatus): (r: Result<DataUpdateStatus, string>)
    ensures r.Ok? <==> s.recordsUpdated >= 0
    ensures r.Ok? ==> r.value == s
  {
    if s.recordsUpdated < 0 then Err("records_updated must be >= 0") else Ok(s)
  }
}
