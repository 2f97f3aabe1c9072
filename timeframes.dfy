/** The timeframe tables: durations in minutes, pandas frequency names,
    the "only to a longer timeframe" conversion rule and the OHLCV
    aggregation rules. */
module Timeframes {
  import opened Wrappers
  import PriceData

  /** The eight timeframe names the tables know. */
  const KnownTimeframes: set<string> := {"1min", "5min", "15min", "30min", "1h", "2h", "4h", "daily"}

  /** `get_timeframe_minutes`: the duration of a timeframe, None for any
      other string.  Every duration divides a day evenly. */
  function TimeframeMinutes(tf: string): (r: Option<nat>)
    ensures r.Some? <==> tf in KnownTimeframes
    ensures r.Some? ==> r.value >= 1 && 1440 % r.value == 0
  {
    if tf == "1min" then Some(1)
    else if tf == "5min" then Some(5)
    else if tf == "15min" then Some(15)
    else if tf == "30min" then Some(30)
    else if tf == "1h" then Some(60)
    else if tf == "2h" then Some(120)
    else if tf == "4h" then Some(240)
    else if tf == "daily" then Some(1440)
    else None
  }

  /** `get_pandas_frequency`: the same eight keys; "daily" becomes "1D" and
      every other name is already a pandas frequency. */
  function PandasFrequency(tf: string): (r: Option<string>)
    ensures r.Some? <==> TimeframeMinutes(tf).Some?
    ensures r.Some? ==> (r.value == "1D" <==> tf == "daily")
    ensures r.Some? && tf != "daily" ==> r.value == tf
  {
    if tf == "daily" then Some("1D")
    else if tf in KnownTimeframes then Some(tf)
    else None
  }

  /** `validate_timeframe_conversion`: both names known and the target strictly longer. */
  function ValidateTimeframeConversion(from: string, to: string): (ok: bool)
    ensures ok ==> from in KnownTimeframes && to in KnownTimeframes && from != to
    ensures ok <==> TimeframeMinutes(from).Some? && TimeframeMinutes(to).Some?
                    && TimeframeMinutes(to).value > TimeframeMinutes(from).value
  {
    match (TimeframeMinutes(from), TimeframeMinutes(to))
    case (Some(f), Some(t)) => t > f
    case _ => false
  }

  /** `get_supported_timeframes`: the same table as a dictionary. */
  function SupportedTimeframes(): (m: map<string, nat>)
    ensures m.Keys == KnownTimeframes
    ensures forall tf :: tf in m ==> TimeframeMinutes(tf) == Some(m[tf])
  {
    map["1min" := 1, "5min" := 5, "15min" := 15, "30min" := 30,
        "1h" := 60, "2h" := 120, "4h" := 240, "daily" := 1440]
  }

  /** `get_resampling_rules`: the pandas aggregation name for each column. */
  function ResamplingRules(): (m: map<string, string>)
    ensures m.Keys == {"open", "high", "low", "close", "volume"}
  {
    map["open" := "first", "high" := "max", "low" := "min", "close" := "last", "volume" := "sum"]
  }

  /** The durations, entry by entry. */
  lemma TimeframeMinutesTable()
    ensures TimeframeMinutes("1min") == Some(1) && TimeframeMinutes("5min") == Some(5)
    ensures TimeframeMinutes("15min") == Some(15) && TimeframeMinutes("30min") == Some(30)
    ensures TimeframeMinutes("1h") == Some(60) && TimeframeMinutes("2h") == Some(120)
    ensures TimeframeMinutes("4h") == Some(240) && TimeframeMinutes("daily") == Some(1440)
  {
  }

  /** Different names have different durations, so the conversion relation
      orders the timeframes by duration. */
  lemma TimeframeMinutesInjective(a: string, b: string)
    requires TimeframeMinutes(a).Some? && TimeframeMinutes(a) == TimeframeMinutes(b)
    ensures a == b
  {
  }

  /** The conversion rule is a strict order: no timeframe converts to itself... */
  lemma ConversionIrreflexive(tf: string)
    ensures !ValidateTimeframeConversion(tf, tf)
  {
  }

  /** ...and conversions compose. */
  lemma ConversionTransitive(a: string, b: string, c: string)
    requires ValidateTimeframeConversion(a, b) && ValidateTimeframeConversion(b, c)
    ensures ValidateTimeframeConversion(a, c)
  {
  }

  /** Every member of the `Timeframe` enum is in the table under its value. */
  lemma EnumTimeframesKnown(tf: PriceData.Timeframe)
    ensures tf.Value() in KnownTimeframes
  {
  }
}
