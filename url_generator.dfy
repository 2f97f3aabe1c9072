/** Vendor URLs for missing periods: one request per period, either on the
    one-minute aggregates endpoint or on the trades endpoint, as the
    settings choose.  A period is a half-open pair of UTC timestamps in
    seconds, `[start, end)`. */
module PolygonUrls {
  import opened Decimal

  /** The vendor settings the generator reads. */
  datatype PolygonSettings = PolygonSettings(useTradesEndpointForGaps: bool, apiKey: string)

  /** The largest page the vendor serves. */
  const MaxLimit: int := 50000

  /** What a URL asks for.  Aggregates take an inclusive millisecond range of
      bar start times; trades take an inclusive nanosecond range. */
  datatype Query =
    | Aggregates(symbol: string, fromMs: int, toMs: int, apiKey: string)
    | Trades(symbol: string, gteNs: int, lteNs: int, limit: int, apiKey: string)

  /** A timestamp in milliseconds and in nanoseconds. */
  function Millis(t: int): int { t * 1000 }
  function Nanos(t: int): int { t * 1000000000 }

  /** The minute bars a period holds: those starting on its grid, inside it. */
  predicate BarInPeriod(t: int, start: int, end: int)
  {
    (t - start) % 60 == 0 && start <= t < end
  }

  /** `_generate_aggregates_url_for_period`: the vendor's upper bound is
      inclusive, so it is set one minute before the end of the period. */
  function AggregatesQuery(symbol: string, start: int, end: int, apiKey: string): Query
  {
    Aggregates(symbol, Millis(start), Millis(end - 60), apiKey)
  }

  /** On a period of whole minutes the aggregates query asks for exactly the
      period's bars. */
  lemma AggregatesQueryMeaning(symbol: string, start: int, end: int, apiKey: string)
    ensures var q := AggregatesQuery(symbol, start, end, apiKey);
      && q.Aggregates? && q.symbol == symbol && q.apiKey == apiKey
      && ((end - start) % 60 == 0 ==>
            forall t :: (t - start) % 60 == 0 ==> (q.fromMs <= Millis(t) <= q.toMs <==> BarInPeriod(t, start, end)))
  {
  }

  /** `generate_trades_url_for_period`: both bounds inclusive; the page size
      is capped at the vendor's maximum. */
  function TradesQuery(symbol: string, start: int, end: int, limit: int, apiKey: string): Query
  {
    Trades(symbol, Nanos(start), Nanos(end), if limit < MaxLimit then limit else MaxLimit, apiKey)
  }

  /** The trades query covers every instant of the period and its end, and
      asks for the requested page unless that exceeds the maximum. */
  lemma TradesQueryMeaning(symbol: string, start: int, end: int, limit: int, apiKey: string)
    ensures var q := TradesQuery(symbol, start, end, limit, apiKey);
      && q.Trades? && q.symbol == symbol && q.apiKey == apiKey
      && (forall t :: q.gteNs <= Nanos(t) <= q.lteNs <==> start <= t <= end)
      && q.limit <= MaxLimit && (limit <= MaxLimit ==> q.limit == limit)
  {
  }

  /** `generate_url_for_period`: the endpoint follows the settings; the trades
      endpoint is asked for a full page. */
  function QueryForPeriod(settings: PolygonSettings, symbol: string, start: int, end: int): Query
  {
    if settings.useTradesEndpointForGaps then TradesQuery(symbol, start, end, MaxLimit, settings.apiKey)
    else AggregatesQuery(symbol, start, end, settings.apiKey)
  }

  /** The trades endpoint is used exactly when the settings ask for it, for the
      requested symbol and key. */
  lemma QueryForPeriodMeaning(settings: PolygonSettings, symbol: string, start: int, end: int)
    ensures var q := QueryForPeriod(settings, symbol, start, end);
      && (q.Trades? <==> settings.useTradesEndpointForGaps)
      && q.symbol == symbol && q.apiKey == settings.apiKey
      && (q.Trades? ==> q.limit == MaxLimit)
  {
  }

  const AggregatesBase: string := "https://api.polygon.io/v2/aggs/ticker/"
  const TradesBase: string := "https://api.polygon.io/v3/trades/"
  const MinuteRange: string := "/range/1/minute/"
  const AggregatesParams: string := "?adjusted=true&sort=asc&limit=50000&apikey="
  const TradesFrom: string := "?timestamp.gte="
  const TradesTo: string := "&timestamp.lte="
  const LimitParam: string := "&limit="
  const KeyParam: string := "&apikey="

  /** The text of a query. */
  function QueryUrl(q: Query): string
  {
    match q
    case Aggregates(symbol, fromMs, toMs, apiKey) =>
      AggregatesBase + symbol + MinuteRange + IntToString(fromMs) + "/" + IntToString(toMs)
      + AggregatesParams + apiKey
    case Trades(symbol, gteNs, lteNs, limit, apiKey) =>
      TradesBase + symbol + TradesFrom + IntToString(gteNs) + TradesTo + IntToString(lteNs)
      + LimitParam + IntToString(limit) + KeyParam + apiKey
  }

  function UrlForPeriod(settings: PolygonSettings, symbol: string, period: (int, int)): string
  {
    QueryUrl(QueryForPeriod(settings, symbol, period.0, period.1))
  }

  /** One URL per period, in order. */
  function PeriodUrls(settings: PolygonSettings, symbol: string, periods: seq<(int, int)>): seq<string>
  {
    seq(|periods|, i requires 0 <= i < |periods| => UrlForPeriod(settings, symbol, periods[i]))
  }

  /** The loop both URL generators share: one URL per period, in order. */
  method UrlPerPeriod(url: ((int, int)) -> string, periods: seq<(int, int)>) returns (urls: seq<string>)
    ensures |urls| == |periods|
    ensures forall i :: 0 <= i < |periods| ==> urls[i] == url(periods[i])
  {
    urls := [];
    var i := 0;
    while i < |periods|
      invariant 0 <= i <= |periods|
      invariant |urls| == i
      invariant forall k :: 0 <= k < i ==> urls[k] == url(periods[k])
    {
      urls := urls + [url(periods[i])];
      i := i + 1;
    }
  }

  /** `generate_urls_for_missing_periods`: one URL per period, in order. */
  method UrlsForMissingPeriods(settings: PolygonSettings, symbol: string, periods: seq<(int, int)>)
    returns (urls: seq<string>)
    ensures |urls| == |periods|
    ensures forall i :: 0 <= i < |periods| ==> urls[i] == UrlForPeriod(settings, symbol, periods[i])
  {
    urls := UrlPerPeriod(p => UrlForPeriod(settings, symbol, p), periods);
  }

  /** The trades URL of one period, asking for a full page. */
  function TradesUrl(apiKey: string, symbol: string, period: (int, int)): string
  {
    QueryUrl(TradesQuery(symbol, period.0, period.1, MaxLimit, apiKey))
  }

  /** `generate_trades_urls_for_missing_periods`: one trades URL per period,
      whatever the settings say. */
  method TradesUrlsForMissingPeriods(apiKey: string, symbol: string, periods: seq<(int, int)>)
    returns (urls: seq<string>)
    ensures |urls| == |periods|
    ensures forall i :: 0 <= i < |periods| ==> urls[i] == TradesUrl(apiKey, symbol, periods[i])
  {
    urls := UrlPerPeriod(p => TradesUrl(apiKey, symbol, p), periods);
  }
}
