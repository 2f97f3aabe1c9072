/** The completeness validator for one-minute US-equity data: per-day
    checks of the stored candles against the trading calendar, the
    missing-minute periods of a day, per-candle integrity checks, and the
    day, range and per-symbol summaries built from them.

    Candle times are UTC seconds; session minutes are numbered from the
    epoch (`t / 60`), and a day's session is `[open, close)` in minutes.
    Periods in a result are half-open pairs of UTC seconds.  Stored data is
    read through a loader, which either returns the day's candles or fails
    with a message (standing for any exception raised while validating). */
module MarketValidation {
  import opened Wrappers
  import opened PriceData
  import opened TradingCalendar
  import opened MinuteRuns
  import opened PolygonUrls

  const MinutesPerDay: int := 1440
  /** The session opens at 13:30 UTC and closes at 20:00 UTC. */
  const OpenMinuteOfDay: int := 13 * 60 + 30
  const CloseMinuteOfDay: int := 20 * 60
  /** Session lengths: 6 h 30 on a full day, 3 h 30 on a half day. */
  const FullSessionMinutes: int := 390
  const HalfSessionMinutes: int := 210

  /** The minute number of a UTC timestamp: seconds and below dropped. */
  function MinuteOf(t: int): int
  {
    t / 60
  }

  function SessionOpen(d: int): int
  {
    d * MinutesPerDay + OpenMinuteOfDay
  }

  /** The validator reads the calendar through the number of candles a day
      is expected to hold: 0 when closed, 210 on a half day, 390 otherwise. */
  type Schedule = int -> nat

  /** The schedule of a calendar. */
  function ScheduleOf(cal: MarketCalendar): Schedule
  {
    d => ExpectedCandleCount(cal, d)
  }

  /** A calendar's schedule is positive exactly on its trading days and 210
      exactly on its half days. */
  lemma ScheduleOfMeaning(cal: MarketCalendar, d: int)
    ensures ScheduleOf(cal)(d) > 0 <==> IsTradingDay(cal, d)
    ensures ScheduleOf(cal)(d) == HalfSessionMinutes <==> IsTradingDay(cal, d) && IsHalfTradingDay(cal, d)
    ensures ScheduleOf(cal)(d) == FullSessionMinutes <==> IsTradingDay(cal, d) && !IsHalfTradingDay(cal, d)
  {
  }

  /** A schedule as a calendar yields: every day closed, half or full. */
  ghost predicate CalendarSchedule(sched: Schedule)
  {
    forall d :: sched(d) == 0 || sched(d) == HalfSessionMinutes || sched(d) == FullSessionMinutes
  }

  lemma ScheduleOfIsCalendarSchedule(cal: MarketCalendar)
    ensures CalendarSchedule(ScheduleOf(cal))
  {
    forall d
      ensures ScheduleOf(cal)(d) == 0 || ScheduleOf(cal)(d) == HalfSessionMinutes || ScheduleOf(cal)(d) == FullSessionMinutes
    {
      ScheduleOfMeaning(cal, d);
    }
  }

  /** Whether `d` is a half day of a trading schedule. */
  predicate HalfDay(sched: Schedule, d: int)
  {
    sched(d) == HalfSessionMinutes
  }

  /** End of the expected minute grid in `_find_missing_periods`: open plus
      the session length. */
  function SessionClose(sched: Schedule, d: int): int
  {
    SessionOpen(d) + (if HalfDay(sched, d) then HalfSessionMinutes else FullSessionMinutes)
  }

  /** End of regular hours in `_filter_regular_market_hours`: the configured
      close, or open plus 3 h 30 on a half day. */
  function RegularClose(sched: Schedule, d: int): int
  {
    if HalfDay(sched, d) then SessionOpen(d) + HalfSessionMinutes else d * MinutesPerDay + CloseMinuteOfDay
  }

  /** The two notions of the session's end agree, and on a trading day a
      session holds as many minutes as the day is expected to have candles. */
  lemma SessionBoundsAgree(sched: Schedule, d: int)
    ensures RegularClose(sched, d) == SessionClose(sched, d)
    ensures sched(d) == HalfSessionMinutes || sched(d) == FullSessionMinutes ==>
              SessionClose(sched, d) - SessionOpen(d) == sched(d)
  {
  }

  // ---------------------------------------------------------------------
  // Missing periods

  /** Minutes of the session that hold at least one candle. */
  function PresentMinutes(cs: seq<Candle>): set<int>
  {
    set i | 0 <= i < |cs| :: MinuteOf(cs[i].time)
  }

  /** The minutes of `[open, close)` not in `present`, in increasing order. */
  function MissingMinutes(open: int, close: int, present: set<int>): seq<int>
    decreases close - open
  {
    if close <= open then []
    else
      var init := MissingMinutes(open, close - 1, present);
      if close - 1 in present then init else init + [close - 1]
  }

  /** The missing minutes are exactly the grid minutes without a candle,
      each once and in increasing order. */
  lemma {:induction false} MissingMinutesMeaning(open: int, close: int, present: set<int>)
    ensures StrictlyIncreasing(MissingMinutes(open, close, present))
    ensures forall t :: t in MissingMinutes(open, close, present) <==> open <= t < close && t !in present
    decreases close - open
  {
    if close > open {
      var init := MissingMinutes(open, close - 1, present);
      MissingMinutesMeaning(open, close - 1, present);
      assert forall i | 0 <= i < |init| :: init[i] in init;
    }
  }

  /** `_find_missing_periods`, in minutes: the whole session when there are
      no candles, otherwise the runs of session minutes without a candle. */
  function MissingPeriodsOf(sched: Schedule, cs: seq<Candle>, d: int): seq<(int, int)>
  {
    if |cs| == 0 then [(SessionOpen(d), SessionClose(sched, d))]
    else GroupRuns(MissingMinutes(SessionOpen(d), SessionClose(sched, d), PresentMinutes(cs)))
  }

  /** The missing periods partition the session minutes without a candle:
      they are non-empty, ordered, separated, inside the session, and a
      session minute is covered by one of them exactly when no candle
      falls in it.  Without candles the whole session is one period. */
  lemma MissingPeriodsPartition(sched: Schedule, cs: seq<Candle>, d: int)
    ensures Separated(MissingPeriodsOf(sched, cs, d))
    ensures forall i :: 0 <= i < |MissingPeriodsOf(sched, cs, d)| ==>
              SessionOpen(d) <= MissingPeriodsOf(sched, cs, d)[i].0 && MissingPeriodsOf(sched, cs, d)[i].1 <= SessionClose(sched, d)
    ensures forall t :: SessionOpen(d) <= t < SessionClose(sched, d) ==>
              (t !in PresentMinutes(cs) <==> exists i :: 0 <= i < |MissingPeriodsOf(sched, cs, d)| && MissingPeriodsOf(sched, cs, d)[i].0 <= t < MissingPeriodsOf(sched, cs, d)[i].1)
    ensures |cs| == 0 ==> MissingPeriodsOf(sched, cs, d) == [(SessionOpen(d), SessionClose(sched, d))]
  {
    var open, close := SessionOpen(d), SessionClose(sched, d);
    var ps := MissingPeriodsOf(sched, cs, d);
    if |cs| > 0 {
      var ms := MissingMinutes(open, close, PresentMinutes(cs));
      MissingMinutesMeaning(open, close, PresentMinutes(cs));
      GroupRunsPartition(ms);
      forall i | 0 <= i < |ps|
        ensures open <= ps[i].0 && ps[i].1 <= close
      {
        ExpandMember(ps[i].0, ps[i].1, ps[i].0);
        ExpandMember(ps[i].0, ps[i].1, ps[i].1 - 1);
        FlattenMember(ps, ps[i].0);
        FlattenMember(ps, ps[i].1 - 1);
      }
      forall t | open <= t < close
        ensures t !in PresentMinutes(cs) <==> exists i :: 0 <= i < |ps| && ps[i].0 <= t < ps[i].1
      {
        GroupRunsCover(ms, t);
      }
    } else {
      forall t | open <= t < close
        ensures t !in PresentMinutes(cs) && ps[0].0 <= t < ps[0].1
      {
      }
    }
  }

  /** The present minutes, one candle at a time. */
  method CollectActualMinutes(cs: seq<Candle>) returns (actual: set<int>)
    ensures actual == PresentMinutes(cs)
  {
    actual := {};
    var i := 0;
    while i < |cs|
      invariant 0 <= i <= |cs|
      invariant actual == PresentMinutes(cs[..i])
    {
      assert cs[..i + 1] == cs[..i] + [cs[i]];
      actual := actual + {MinuteOf(cs[i].time)};
      i := i + 1;
    }
    assert cs[..i] == cs;
  }

  /** The sorted difference between the expected minute grid and the present
      minutes, produced by walking the grid in order. */
  method MissingMinuteList(open: int, close: int, present: set<int>) returns (ms: seq<int>)
    requires open <= close
    ensures ms == MissingMinutes(open, close, present)
  {
    ms := [];
    var current := open;
    while current < close
      invariant open <= current <= close
      invariant ms == MissingMinutes(open, current, present)
      decreases close - current
    {
      if current !in present {
        ms := ms + [current];
      }
      current := current + 1;
    }
  }

  /** `_find_missing_periods`. */
  method FindMissingPeriods(sched: Schedule, cs: seq<Candle>, d: int) returns (periods: seq<(int, int)>)
    ensures periods == MissingPeriodsOf(sched, cs, d)
  {
    var open := SessionOpen(d);
    var close := SessionClose(sched, d);
    if |cs| == 0 {
      return [(open, close)];
    }
    var actual := CollectActualMinutes(cs);
    var missing := MissingMinuteList(open, close, actual);
    periods := GroupConsecutive(missing);
  }

  // ---------------------------------------------------------------------
  // Regular-hours filter

  /** A candle time within regular hours: `open <= t < close`, in seconds. */
  predicate InRegularHours(sched: Schedule, d: int, t: int)
  {
    SessionOpen(d) * 60 <= t < RegularClose(sched, d) * 60
  }

  /** `_filter_regular_market_hours`: the candles within regular hours, in
      their original order. */
  function RegularHours(sched: Schedule, d: int, cs: seq<Candle>): (r: seq<Candle>)
    ensures |r| <= |cs|
  {
    if |cs| == 0 then []
    else
      var init := RegularHours(sched, d, cs[..|cs| - 1]);
      var last := cs[|cs| - 1];
      if InRegularHours(sched, d, last.time) then init + [last] else init
  }

  /** The filter keeps exactly the candles within regular hours. */
  lemma {:induction false} RegularHoursMeaning(sched: Schedule, d: int, cs: seq<Candle>)
    ensures forall c :: c in RegularHours(sched, d, cs) <==> c in cs && InRegularHours(sched, d, c.time)
  {
    if |cs| > 0 {
      RegularHoursMeaning(sched, d, cs[..|cs| - 1]);
      assert cs == cs[..|cs| - 1] + [cs[|cs| - 1]];
    }
  }

  /** A candle is in regular hours exactly when its minute is a session minute. */
  lemma RegularHoursAreSessionMinutes(sched: Schedule, d: int, t: int)
    ensures InRegularHours(sched, d, t) <==> SessionOpen(d) <= MinuteOf(t) < SessionClose(sched, d)
  {
    SessionBoundsAgree(sched, d);
  }

  method FilterRegularMarketHours(sched: Schedule, cs: seq<Candle>, d: int) returns (r: seq<Candle>)
    ensures r == RegularHours(sched, d, cs)
  {
    r := [];
    var i := 0;
    while i < |cs|
      invariant 0 <= i <= |cs|
      invariant r == RegularHours(sched, d, cs[..i])
    {
      assert cs[..i + 1][..i] == cs[..i];
      if InRegularHours(sched, d, cs[i].time) {
        r := r + [cs[i]];
      }
      i := i + 1;
    }
    assert cs[..i] == cs;
  }

  // ---------------------------------------------------------------------
  // Integrity

  /** The errors and warnings of a validation result. */
  datatype Issue =
    | NotATradingDay
    | MissingData(from: int, to: int)
    | NoDataFound(date: int)
    | MissingCandles(count: int, expected: int, actual: int)
    | HighLowInverted(index: int)
    | HighBelowOpenOrClose(index: int)
    | LowAboveOpenOrClose(index: int)
    | InvalidPrice(index: int)
    | NegativeVolume(index: int)
    | ZeroVolume(index: int)
    | ValidationError(message: string)
    | ValidationException(message: string)

  /** One check's contribution: its issue when the check fails. */
  function Flag(failed: bool, issue: Issue): seq<Issue>
  {
    if failed then [issue] else []
  }

  /** The errors of candle `i`, each check independent of the others. */
  function CandleErrors(i: int, c: Candle): seq<Issue>
  {
    Flag(c.high < c.low, HighLowInverted(i))
    + Flag(c.high < c.open || c.high < c.close, HighBelowOpenOrClose(i))
    + Flag(c.low > c.open || c.low > c.close, LowAboveOpenOrClose(i))
    + Flag(c.open <= 0 || c.high <= 0 || c.low <= 0 || c.close <= 0, InvalidPrice(i))
    + Flag(c.volume < 0, NegativeVolume(i))
  }

  /** Zero volume is only a warning. */
  function CandleWarnings(i: int, c: Candle): seq<Issue>
  {
    if c.volume >= 0 && c.volume == 0 then [ZeroVolume(i)] else []
  }

  /** A candle has no integrity error exactly when the candle constructor
      accepts it. */
  lemma CandleErrorsMeaning(i: int, c: Candle)
    ensures |CandleErrors(i, c)| == 0 <==> WellFormed(c)
    ensures |CandleWarnings(i, c)| == 0 <==> c.volume != 0
  {
  }

  function IntegrityErrors(cs: seq<Candle>): seq<Issue>
  {
    if |cs| == 0 then [] else IntegrityErrors(cs[..|cs| - 1]) + CandleErrors(|cs| - 1, cs[|cs| - 1])
  }

  function IntegrityWarnings(cs: seq<Candle>): seq<Issue>
  {
    if |cs| == 0 then [] else IntegrityWarnings(cs[..|cs| - 1]) + CandleWarnings(|cs| - 1, cs[|cs| - 1])
  }

  /** No integrity error exactly when every candle is well formed. */
  lemma {:induction false} IntegrityMeaning(cs: seq<Candle>)
    ensures |IntegrityErrors(cs)| == 0 <==> forall i :: 0 <= i < |cs| ==> WellFormed(cs[i])
  {
    if |cs| > 0 {
      var init := cs[..|cs| - 1];
      IntegrityMeaning(init);
      CandleErrorsMeaning(|cs| - 1, cs[|cs| - 1]);
      assert |IntegrityErrors(cs)| == |IntegrityErrors(init)| + |CandleErrors(|cs| - 1, cs[|cs| - 1])|;
      assert (forall i :: 0 <= i < |cs| ==> WellFormed(cs[i]))
         <==> (forall i :: 0 <= i < |init| ==> WellFormed(init[i])) && WellFormed(cs[|cs| - 1]) by {
        assert forall i :: 0 <= i < |init| ==> init[i] == cs[i];
      }
    }
  }

  /** No warning exactly when no candle has zero volume. */
  lemma {:induction false} IntegrityWarningsMeaning(cs: seq<Candle>)
    ensures |IntegrityWarnings(cs)| == 0 <==> forall i :: 0 <= i < |cs| ==> cs[i].volume != 0
  {
    if |cs| > 0 {
      var init := cs[..|cs| - 1];
      IntegrityWarningsMeaning(init);
      CandleErrorsMeaning(|cs| - 1, cs[|cs| - 1]);
      assert forall i :: 0 <= i < |init| ==> init[i] == cs[i];
    }
  }

  /** The checks of one candle, in the order the validator makes them. */
  method CheckCandle(i: int, c: Candle) returns (errors: seq<Issue>, warnings: seq<Issue>)
    ensures errors == CandleErrors(i, c) && warnings == CandleWarnings(i, c)
  {
    errors, warnings := [], [];
    if c.high < c.low {
      errors := errors + [HighLowInverted(i)];
    }
    assert errors == Flag(c.high < c.low, HighLowInverted(i));
    ghost var done := errors;
    if c.high < c.open || c.high < c.close {
      errors := errors + [HighBelowOpenOrClose(i)];
    }
    assert errors == done + Flag(c.high < c.open || c.high < c.close, HighBelowOpenOrClose(i));
    done := errors;
    if c.low > c.open || c.low > c.close {
      errors := errors + [LowAboveOpenOrClose(i)];
    }
    assert errors == done + Flag(c.low > c.open || c.low > c.close, LowAboveOpenOrClose(i));
    done := errors;
    if c.open <= 0 || c.high <= 0 || c.low <= 0 || c.close <= 0 {
      errors := errors + [InvalidPrice(i)];
    }
    assert errors == done + Flag(c.open <= 0 || c.high <= 0 || c.low <= 0 || c.close <= 0, InvalidPrice(i));
    done := errors;
    if c.volume < 0 {
      errors := errors + [NegativeVolume(i)];
    } else if c.volume == 0 {
      warnings := warnings + [ZeroVolume(i)];
    }
    assert errors == done + Flag(c.volume < 0, NegativeVolume(i));
  }

  /** `_validate_data_integrity`. */
  method ValidateDataIntegrity(cs: seq<Candle>) returns (errors: seq<Issue>, warnings: seq<Issue>)
    ensures errors == IntegrityErrors(cs) && warnings == IntegrityWarnings(cs)
  {
    errors, warnings := [], [];
    var i := 0;
    while i < |cs|
      invariant 0 <= i <= |cs|
      invariant errors == IntegrityErrors(cs[..i]) && warnings == IntegrityWarnings(cs[..i])
    {
      assert cs[..i + 1][..i] == cs[..i];
      var candleErrors, candleWarnings := CheckCandle(i, cs[i]);
      errors := errors + candleErrors;
      warnings := warnings + candleWarnings;
      i := i + 1;
    }
    assert cs[..i] == cs;
  }

  // ---------------------------------------------------------------------
  // One day

  datatype ValidationResult = ValidationResult(
    symbol: string,
    date: int,
    isValid: bool,
    expectedCandles: int,
    actualCandles: int,
    missingPeriods: seq<(int, int)>,
    urls: seq<string>,
    errors: seq<Issue>,
    warnings: seq<Issue>)

  /** The validator's collaborators: the schedule of its calendar, whether
      candles are restricted to regular hours, and its URL generator (a
      symbol and periods of seconds to one URL per period). */
  datatype ValidatorConfig = ValidatorConfig(
    schedule: Schedule,
    enableMarketHoursCheck: bool,
    urlsFor: (string, seq<(int, int)>) -> seq<string>)

  /** The validator over a calendar and vendor settings. */
  function NewValidator(cal: MarketCalendar, enableMarketHoursCheck: bool, settings: PolygonSettings): ValidatorConfig
  {
    ValidatorConfig(ScheduleOf(cal), enableMarketHoursCheck, (symbol, periods) => PeriodUrls(settings, symbol, periods))
  }

  /** Stored one-minute candles of a symbol on a day, or the message of the
      exception raised while loading and checking them. */
  type Loader = (string, int) -> Result<seq<Candle>, string>

  /** Minute periods as periods of UTC seconds. */
  function InSeconds(ps: seq<(int, int)>): (r: seq<(int, int)>)
    ensures |r| == |ps|
  {
    if |ps| == 0 then [] else InSeconds(ps[..|ps| - 1]) + [(ps[|ps| - 1].0 * 60, ps[|ps| - 1].1 * 60)]
  }

  function MissingDataIssues(ps: seq<(int, int)>): (r: seq<Issue>)
    ensures |r| == |ps|
  {
    if |ps| == 0 then [] else MissingDataIssues(ps[..|ps| - 1]) + [MissingData(ps[|ps| - 1].0, ps[|ps| - 1].1)]
  }

  /** `validate_trading_day_data` once the day's candles are loaded: the
      count in regular hours, the missing periods and their URLs (with the
      hours check), then the count, the "no data" and the integrity checks. */
  function LoadedDayValidation(cfg: ValidatorConfig, symbol: string, d: int, expected: int, cs: seq<Candle>): ValidationResult
  {
    var actual := if cfg.enableMarketHoursCheck then |RegularHours(cfg.schedule, d, cs)| else |cs|;
    var periods := if cfg.enableMarketHoursCheck then InSeconds(MissingPeriodsOf(cfg.schedule, cs, d)) else [];
    var urls := if |periods| == 0 then [] else cfg.urlsFor(symbol, periods);
    if actual == 0 then
      ValidationResult(symbol, d, false, expected, 0, periods, urls, MissingDataIssues(periods) + [NoDataFound(d)], [])
    else
      var errors := MissingDataIssues(periods) + Flag(actual < expected, MissingCandles(expected - actual, expected, actual))
                    + IntegrityErrors(cs);
      ValidationResult(symbol, d, |errors| == 0, expected, actual, periods, urls, errors, IntegrityWarnings(cs))
  }

  /** `validate_trading_day_data`. */
  function DayValidation(cfg: ValidatorConfig, load: Loader, symbol: string, d: int): ValidationResult
  {
    var expected := cfg.schedule(d);
    if expected == 0 then
      ValidationResult(symbol, d, true, 0, 0, [], [], [], [NotATradingDay])
    else
      match load(symbol, d)
      case Err(message) => ValidationResult(symbol, d, false, expected, 0, [], [], [ValidationError(message)], [])
      case Ok(cs) => LoadedDayValidation(cfg, symbol, d, expected, cs)
  }

  /** What a day's result promises.  A non-trading day is valid with nothing
      expected and the "not a trading day" warning; a failed load is invalid
      with no candles counted and the error; no candle in regular hours is
      invalid.  Otherwise the result is valid exactly when it has no error. */
  lemma DayValidationMeaning(cfg: ValidatorConfig, load: Loader, symbol: string, d: int)
    ensures var r := DayValidation(cfg, load, symbol, d);
      && r.symbol == symbol && r.date == d
      && r.expectedCandles == cfg.schedule(d)
      && (r.isValid <==> |r.errors| == 0)
      && (cfg.schedule(d) == 0 ==> r.isValid && r.actualCandles == 0 && r.warnings == [NotATradingDay])
      && (cfg.schedule(d) > 0 && load(symbol, d).Err? ==>
            !r.isValid && r.actualCandles == 0 && r.errors == [ValidationError(load(symbol, d).error)])
      && (cfg.schedule(d) > 0 && r.actualCandles == 0 ==> !r.isValid)
  {
  }

  /** A valid trading day is complete: enough candles, all well formed, no
      missing period, and with the hours check every session minute holds a
      candle. */
  lemma ValidDayIsComplete(cfg: ValidatorConfig, load: Loader, symbol: string, d: int)
    requires cfg.schedule(d) > 0 && DayValidation(cfg, load, symbol, d).isValid
    ensures load(symbol, d).Ok?
    ensures DayValidation(cfg, load, symbol, d).actualCandles >= cfg.schedule(d) > 0
    ensures forall i :: 0 <= i < |load(symbol, d).value| ==> WellFormed(load(symbol, d).value[i])
    ensures DayValidation(cfg, load, symbol, d).missingPeriods == []
    ensures cfg.enableMarketHoursCheck ==>
              forall t :: SessionOpen(d) <= t < SessionClose(cfg.schedule, d) ==> t in PresentMinutes(load(symbol, d).value)
  {
    var cs := load(symbol, d).value;
    IntegrityMeaning(cs);
    if cfg.enableMarketHoursCheck {
      MissingPeriodsPartition(cfg.schedule, cs, d);
    }
  }

  /** The "missing data" errors, one per period. */
  method MissingPeriodErrors(periods: seq<(int, int)>) returns (errors: seq<Issue>)
    ensures errors == MissingDataIssues(periods)
  {
    errors := [];
    var i := 0;
    while i < |periods|
      invariant 0 <= i <= |periods|
      invariant errors == MissingDataIssues(periods[..i])
    {
      assert periods[..i + 1][..i] == periods[..i];
      errors := errors + [MissingData(periods[i].0, periods[i].1)];
      i := i + 1;
    }
    assert periods[..i] == periods;
  }

  method ValidateLoadedDay(cfg: ValidatorConfig, symbol: string, d: int, expected: int, cs: seq<Candle>)
    returns (r: ValidationResult)
    ensures r == LoadedDayValidation(cfg, symbol, d, expected, cs)
  {
    var actual;
    if cfg.enableMarketHoursCheck {
      var regular := FilterRegularMarketHours(cfg.schedule, cs, d);
      actual := |regular|;
    } else {
      actual := |cs|;
    }
    var errors: seq<Issue> := [];
    var periods: seq<(int, int)> := [];
    if cfg.enableMarketHoursCheck {
      var minutes := FindMissingPeriods(cfg.schedule, cs, d);
      periods := InSeconds(minutes);
      errors := MissingPeriodErrors(periods);
    }
    assert errors == MissingDataIssues(periods);
    var urls: seq<string> := [];
    if |periods| > 0 {
      urls := cfg.urlsFor(symbol, periods);
    }
    r := FinishDay(symbol, d, expected, actual, periods, urls, errors, cs);
  }

  /** The count, "no data" and integrity checks, after the missing periods. */
  method FinishDay(symbol: string, d: int, expected: int, actual: int, periods: seq<(int, int)>,
                   urls: seq<string>, errors: seq<Issue>, cs: seq<Candle>)
    returns (r: ValidationResult)
    ensures actual == 0 ==> r == ValidationResult(symbol, d, false, expected, 0, periods, urls, errors + [NoDataFound(d)], [])
    ensures actual != 0 ==>
              var all := errors + Flag(actual < expected, MissingCandles(expected - actual, expected, actual))
                         + IntegrityErrors(cs);
              r == ValidationResult(symbol, d, |all| == 0, expected, actual, periods, urls, all, IntegrityWarnings(cs))
  {
    var errs := errors;
    if actual == 0 {
      errs := errs + [NoDataFound(d)];
      return ValidationResult(symbol, d, false, expected, 0, periods, urls, errs, []);
    }
    if actual < expected {
      errs := errs + [MissingCandles(expected - actual, expected, actual)];
    }
    assert errs == errors + Flag(actual < expected, MissingCandles(expected - actual, expected, actual));
    var integrityErrors, integrityWarnings := ValidateDataIntegrity(cs);
    errs := errs + integrityErrors;
    r := ValidationResult(symbol, d, |errs| == 0, expected, actual, periods, urls, errs, integrityWarnings);
  }

  /** `validate_trading_day_data`, step by step. */
  method ValidateTradingDayData(cfg: ValidatorConfig, load: Loader, symbol: string, d: int)
    returns (r: ValidationResult)
    ensures r == DayValidation(cfg, load, symbol, d)
  {
    var expected := cfg.schedule(d);
    if expected == 0 {
      return ValidationResult(symbol, d, true, 0, 0, [], [], [], [NotATradingDay]);
    }
    var loaded := load(symbol, d);
    if loaded.Err? {
      return ValidationResult(symbol, d, false, expected, 0, [], [], [ValidationError(loaded.error)], []);
    }
    r := ValidateLoadedDay(cfg, symbol, d, expected, loaded.value);
  }

  // ---------------------------------------------------------------------
  // Ranges of days and summaries

  /** The results of `day` for the days of `[start, stop)` that `sched`
      trades, in date order. */
  function TradingDayResultsIn(sched: Schedule, day: int -> ValidationResult, start: int, stop: int): seq<ValidationResult>
    decreases stop - start
  {
    if stop <= start then []
    else TradingDayResultsIn(sched, day, start, stop - 1) + (if sched(stop - 1) > 0 then [day(stop - 1)] else [])
  }

  /** One result per trading day of the range, in increasing date order. */
  lemma TradingDayResultsInMeaning(sched: Schedule, day: int -> ValidationResult, start: int, stop: int)
    requires forall d :: day(d).date == d
    ensures var rs := TradingDayResultsIn(sched, day, start, stop);
      && (forall i :: 0 <= i < |rs| ==> start <= rs[i].date < stop && sched(rs[i].date) > 0 && rs[i] == day(rs[i].date))
      && (forall i, j :: 0 <= i < j < |rs| ==> rs[i].date < rs[j].date)
      && (forall d :: start <= d < stop && sched(d) > 0 ==> exists i :: 0 <= i < |rs| && rs[i].date == d)
  {
    TradingDayResultsInMembers(sched, day, start, stop);
    TradingDayResultsInCover(sched, day, start, stop);
  }

  /** Every entry of `rs` is the result of a trading day of `[start, stop)`. */
  ghost predicate TradingDaysOf(rs: seq<ValidationResult>, sched: Schedule, day: int -> ValidationResult, start: int, stop: int)
  {
    forall i :: 0 <= i < |rs| ==> start <= rs[i].date < stop && sched(rs[i].date) > 0 && rs[i] == day(rs[i].date)
  }

  ghost predicate DatesIncrease(rs: seq<ValidationResult>)
  {
    forall i, j :: 0 <= i < j < |rs| ==> rs[i].date < rs[j].date
  }

  /** Every trading day of `[start, stop)` has an entry in `rs`. */
  ghost predicate CoversTradingDays(rs: seq<ValidationResult>, sched: Schedule, start: int, stop: int)
  {
    forall d :: start <= d < stop && sched(d) > 0 ==> exists i :: 0 <= i < |rs| && rs[i].date == d
  }

  /** Every result is a trading day of the range, and a later entry has a
      later date. */
  lemma {:induction false} TradingDayResultsInMembers(sched: Schedule, day: int -> ValidationResult, start: int, stop: int)
    requires forall d :: day(d).date == d
    ensures TradingDaysOf(TradingDayResultsIn(sched, day, start, stop), sched, day, start, stop)
    ensures DatesIncrease(TradingDayResultsIn(sched, day, start, stop))
    decreases stop - start
  {
    if stop > start {
      TradingDayResultsInMembers(sched, day, start, stop - 1);
      var init := TradingDayResultsIn(sched, day, start, stop - 1);
      var rs := TradingDayResultsIn(sched, day, start, stop);
      if sched(stop - 1) > 0 {
        assert rs == init + [day(stop - 1)];
        assert rs[|init|] == day(stop - 1) && rs[|init|].date == stop - 1;
        forall i | 0 <= i < |rs|
          ensures start <= rs[i].date < stop && sched(rs[i].date) > 0 && rs[i] == day(rs[i].date)
        {
          if i < |init| {
            assert rs[i] == init[i];
          }
        }
        forall i, j | 0 <= i < j < |rs|
          ensures rs[i].date < rs[j].date
        {
          assert rs[i] == init[i];
          if j < |init| {
            assert rs[j] == init[j];
          }
        }
      } else {
        assert rs == init;
      }
    }
  }

  /** Every trading day of the range has a result. */
  lemma {:induction false} TradingDayResultsInCover(sched: Schedule, day: int -> ValidationResult, start: int, stop: int)
    requires forall d :: day(d).date == d
    ensures CoversTradingDays(TradingDayResultsIn(sched, day, start, stop), sched, start, stop)
    decreases stop - start
  {
    if stop > start {
      TradingDayResultsInCover(sched, day, start, stop - 1);
      var init := TradingDayResultsIn(sched, day, start, stop - 1);
      var rs := TradingDayResultsIn(sched, day, start, stop);
      if sched(stop - 1) > 0 {
        assert rs == init + [day(stop - 1)];
        assert rs[|init|].date == stop - 1;
        forall d | start <= d < stop && sched(d) > 0
          ensures exists i :: 0 <= i < |rs| && rs[i].date == d
        {
          if d < stop - 1 {
            var i :| 0 <= i < |init| && init[i].date == d;
            assert rs[i] == init[i];
          }
        }
      } else {
        assert rs == init;
      }
    }
  }

  /** The results for the trading days of `[start, stop)`. */
  function RangeValidation(cfg: ValidatorConfig, load: Loader, symbol: string, start: int, stop: int): seq<ValidationResult>
  {
    TradingDayResultsIn(cfg.schedule, d => DayValidation(cfg, load, symbol, d), start, stop)
  }

  /** A range holds one result per trading day, in increasing date order,
      each the day's own validation. */
  lemma RangeValidationMeaning(cfg: ValidatorConfig, load: Loader, symbol: string, start: int, stop: int)
    ensures var rs := RangeValidation(cfg, load, symbol, start, stop);
      && (forall i :: 0 <= i < |rs| ==>
            start <= rs[i].date < stop && cfg.schedule(rs[i].date) > 0
            && rs[i] == DayValidation(cfg, load, symbol, rs[i].date))
      && (forall i, j :: 0 <= i < j < |rs| ==> rs[i].date < rs[j].date)
      && (forall d :: start <= d < stop && cfg.schedule(d) > 0 ==> exists i :: 0 <= i < |rs| && rs[i].date == d)
  {
    var day := d => DayValidation(cfg, load, symbol, d);
    forall d
      ensures day(d).date == d
    {
      DayValidationMeaning(cfg, load, symbol, d);
    }
    TradingDayResultsInMeaning(cfg.schedule, day, start, stop);
  }

  /** `validate_symbol_data_range`: every trading day of `[start, end]`. */
  method ValidateSymbolDataRange(cfg: ValidatorConfig, load: Loader, symbol: string, start: int, end: int)
    returns (results: seq<ValidationResult>)
    ensures results == RangeValidation(cfg, load, symbol, start, end + 1)
  {
    results := [];
    var current := start;
    while current <= end
      invariant current == start || start <= current <= end + 1
      invariant results == RangeValidation(cfg, load, symbol, start, current)
      decreases end - current
    {
      if cfg.schedule(current) > 0 {
        var r := ValidateTradingDayData(cfg, load, symbol, current);
        results := results + [r];
      }
      current := current + 1;
    }
    if end < start {
      assert RangeValidation(cfg, load, symbol, start, end + 1) == [];
    }
  }

  /** The per-symbol completeness figures; percentages are exact (not
      rounded to two places). */
  datatype CompletenessSummary = CompletenessSummary(
    totalTradingDays: int,
    validDays: int,
    invalidDays: int,
    completenessPercentage: real,
    totalExpectedCandles: int,
    totalActualCandles: int,
    missingCandles: int,
    fullDaysCount: int,
    halfDaysCount: int,
    daysWithGaps: int,
    totalMissingPeriods: int,
    averageDailyCompleteness: real,
    worstDayCompleteness: real,
    bestDayCompleteness: real,
    results: seq<ValidationResult>)

  /** `actual / expected * 100`, or `otherwise` when nothing is expected. */
  function Percentage(actual: int, expected: int, otherwise: real): real
  {
    if expected > 0 then actual as real / expected as real * 100.0 else otherwise
  }

  /** A count reaches 100 % exactly when it reaches what is expected. */
  lemma PercentageMeaning(actual: int, expected: int, otherwise: real)
    requires expected > 0
    ensures Percentage(actual, expected, otherwise) >= 100.0 <==> actual >= expected
    ensures actual >= 0 ==> Percentage(actual, expected, otherwise) >= 0.0
  {
    var p := actual as real / expected as real;
    assert p * expected as real == actual as real;
    if actual >= expected {
      assert p >= 1.0;
    } else {
      assert p < 1.0;
    }
  }

  /** The completeness of each day, in order; a day expecting nothing counts
      as complete. */
  function DailyCompleteness(rs: seq<ValidationResult>): (ps: seq<real>)
    ensures |ps| == |rs|
  {
    if |rs| == 0 then []
    else DailyCompleteness(rs[..|rs| - 1]) + [Percentage(rs[|rs| - 1].actualCandles, rs[|rs| - 1].expectedCandles, 100.0)]
  }

  function SumReals(xs: seq<real>): real
  {
    if |xs| == 0 then 0.0 else SumReals(xs[..|xs| - 1]) + xs[|xs| - 1]
  }

  function MinReal(xs: seq<real>): real
    requires |xs| > 0
  {
    if |xs| == 1 then xs[0] else var m := MinReal(xs[..|xs| - 1]); if xs[|xs| - 1] < m then xs[|xs| - 1] else m
  }

  function MaxReal(xs: seq<real>): real
    requires |xs| > 0
  {
    if |xs| == 1 then xs[0] else var m := MaxReal(xs[..|xs| - 1]); if xs[|xs| - 1] > m then xs[|xs| - 1] else m
  }

  /** The smallest and the largest element are elements, and bound all the
      others. */
  lemma {:induction false} MinMaxRealMeaning(xs: seq<real>)
    requires |xs| > 0
    ensures MinReal(xs) in xs && MaxReal(xs) in xs
    ensures forall i :: 0 <= i < |xs| ==> MinReal(xs) <= xs[i] <= MaxReal(xs)
  {
    if |xs| > 1 {
      var init := xs[..|xs| - 1];
      MinMaxRealMeaning(init);
      assert forall i :: 0 <= i < |init| ==> init[i] == xs[i];
      assert forall x :: x in init ==> x in xs;
    }
  }

  function CountValid(rs: seq<ValidationResult>): (n: nat)
    ensures n <= |rs|
  {
    if |rs| == 0 then 0 else CountValid(rs[..|rs| - 1]) + (if rs[|rs| - 1].isValid then 1 else 0)
  }

  function CountExpected(rs: seq<ValidationResult>, k: int): (n: nat)
    ensures n <= |rs|
  {
    if |rs| == 0 then 0 else CountExpected(rs[..|rs| - 1], k) + (if rs[|rs| - 1].expectedCandles == k then 1 else 0)
  }

  function CountGaps(rs: seq<ValidationResult>): (n: nat)
    ensures n <= |rs|
  {
    if |rs| == 0 then 0
    else CountGaps(rs[..|rs| - 1]) + (if rs[|rs| - 1].actualCandles < rs[|rs| - 1].expectedCandles then 1 else 0)
  }

  function SumExpected(rs: seq<ValidationResult>): int
  {
    if |rs| == 0 then 0 else SumExpected(rs[..|rs| - 1]) + rs[|rs| - 1].expectedCandles
  }

  function SumActual(rs: seq<ValidationResult>): int
  {
    if |rs| == 0 then 0 else SumActual(rs[..|rs| - 1]) + rs[|rs| - 1].actualCandles
  }

  function SumPeriods(rs: seq<ValidationResult>): int
  {
    if |rs| == 0 then 0 else SumPeriods(rs[..|rs| - 1]) + |rs[|rs| - 1].missingPeriods|
  }

  /** `_calculate_symbol_summary` (and the same figures inside
      `get_data_completeness_summary`). */
  function SymbolSummary(rs: seq<ValidationResult>): CompletenessSummary
  {
    var valid := CountValid(rs);
    var expected := SumExpected(rs);
    var actual := SumActual(rs);
    var daily := DailyCompleteness(rs);
    CompletenessSummary(
      |rs|, valid, |rs| - valid, Percentage(actual, expected, 0.0), expected, actual, expected - actual,
      CountExpected(rs, FullSessionMinutes), CountExpected(rs, HalfSessionMinutes), CountGaps(rs), SumPeriods(rs),
      if |daily| > 0 then SumReals(daily) / |daily| as real else 0.0,
      if |daily| > 0 then MinReal(daily) else 100.0,
      if |daily| > 0 then MaxReal(daily) else 0.0,
      rs)
  }

  /** Results of trading days: each expects a full or a half session. */
  predicate TradingDayResults(rs: seq<ValidationResult>)
  {
    forall i :: 0 <= i < |rs| ==> rs[i].expectedCandles == HalfSessionMinutes || rs[i].expectedCandles == FullSessionMinutes
  }

  predicate AllValidComplete(rs: seq<ValidationResult>)
  {
    forall i :: 0 <= i < |rs| ==> rs[i].isValid && rs[i].actualCandles >= rs[i].expectedCandles && rs[i].missingPeriods == []
  }

  /** Over trading-day results every day is either a full or a half day; the
      counts are bounded by the number of days; when every day is valid and
      complete there is no gap, no missing period and no missing candle. */
  lemma {:induction false} SummaryCounts(rs: seq<ValidationResult>)
    requires TradingDayResults(rs)
    ensures var s := SymbolSummary(rs);
      && s.fullDaysCount + s.halfDaysCount == s.totalTradingDays
      && 0 <= s.validDays <= s.totalTradingDays && 0 <= s.invalidDays
      && 0 <= s.daysWithGaps <= s.totalTradingDays
      && (AllValidComplete(rs) ==> s.validDays == s.totalTradingDays && s.daysWithGaps == 0
                                   && s.totalMissingPeriods == 0 && s.missingCandles <= 0)
  {
    if |rs| > 0 {
      var init := rs[..|rs| - 1];
      assert forall i :: 0 <= i < |init| ==> init[i] == rs[i];
      SummaryCounts(init);
    }
  }

  /** The summary of a range: its trading days, valid or not, and when every
      day is valid, nothing missing. */
  lemma RangeSummary(cfg: ValidatorConfig, load: Loader, symbol: string, start: int, end: int)
    requires CalendarSchedule(cfg.schedule)
    ensures var rs := RangeValidation(cfg, load, symbol, start, end + 1);
      var s := SymbolSummary(rs);
      && s.fullDaysCount + s.halfDaysCount == s.totalTradingDays == |rs|
      && s.invalidDays == s.totalTradingDays - s.validDays
      && (s.validDays == s.totalTradingDays ==> s.daysWithGaps == 0 && s.totalMissingPeriods == 0 && s.missingCandles <= 0)
  {
    var rs := RangeValidation(cfg, load, symbol, start, end + 1);
    RangeOfTradingDays(cfg, load, symbol, start, end + 1);
    RangeAllValidComplete(cfg, load, symbol, start, end + 1);
    SummaryCounts(rs);
  }

  /** Every day of a range expects a full or a half session. */
  lemma RangeOfTradingDays(cfg: ValidatorConfig, load: Loader, symbol: string, start: int, stop: int)
    requires CalendarSchedule(cfg.schedule)
    ensures TradingDayResults(RangeValidation(cfg, load, symbol, start, stop))
  {
    var rs := RangeValidation(cfg, load, symbol, start, stop);
    RangeValidationMeaning(cfg, load, symbol, start, stop);
    forall i | 0 <= i < |rs|
      ensures rs[i].expectedCandles == cfg.schedule(rs[i].date) > 0
    {
      DayValidationMeaning(cfg, load, symbol, rs[i].date);
    }
  }

  /** When every day of a range is valid, every day is complete. */
  lemma RangeAllValidComplete(cfg: ValidatorConfig, load: Loader, symbol: string, start: int, stop: int)
    requires CalendarSchedule(cfg.schedule)
    ensures var rs := RangeValidation(cfg, load, symbol, start, stop);
      CountValid(rs) == |rs| ==> AllValidComplete(rs)
  {
    var rs := RangeValidation(cfg, load, symbol, start, stop);
    if CountValid(rs) == |rs| {
      RangeValidationMeaning(cfg, load, symbol, start, stop);
      AllValidWhenCounted(rs);
      forall i | 0 <= i < |rs|
        ensures rs[i].actualCandles >= rs[i].expectedCandles && rs[i].missingPeriods == []
      {
        ValidResultIsComplete(cfg, load, symbol, rs[i]);
      }
    }
  }

  lemma ValidResultIsComplete(cfg: ValidatorConfig, load: Loader, symbol: string, r: ValidationResult)
    requires cfg.schedule(r.date) > 0 && r == DayValidation(cfg, load, symbol, r.date) && r.isValid
    ensures r.actualCandles >= r.expectedCandles && r.missingPeriods == []
  {
    ValidDayIsComplete(cfg, load, symbol, r.date);
    DayValidationMeaning(cfg, load, symbol, r.date);
  }

  lemma {:induction false} AllValidWhenCounted(rs: seq<ValidationResult>)
    requires CountValid(rs) == |rs|
    ensures forall i :: 0 <= i < |rs| ==> rs[i].isValid
  {
    if |rs| > 0 {
      var init := rs[..|rs| - 1];
      AllValidWhenCounted(init);
      assert forall i :: 0 <= i < |init| ==> init[i] == rs[i];
    }
  }

  lemma {:induction false} DailyCompletenessAt(rs: seq<ValidationResult>)
    ensures forall i :: 0 <= i < |rs| ==>
              DailyCompleteness(rs)[i] == Percentage(rs[i].actualCandles, rs[i].expectedCandles, 100.0)
  {
    if |rs| > 0 {
      var init := rs[..|rs| - 1];
      DailyCompletenessAt(init);
      assert forall i :: 0 <= i < |init| ==> init[i] == rs[i];
    }
  }

  lemma {:induction false} SumsCompare(rs: seq<ValidationResult>)
    requires forall i :: 0 <= i < |rs| ==> rs[i].actualCandles >= rs[i].expectedCandles
    ensures SumActual(rs) >= SumExpected(rs)
    ensures CountGaps(rs) == 0
  {
    if |rs| > 0 {
      var init := rs[..|rs| - 1];
      assert forall i :: 0 <= i < |init| ==> init[i] == rs[i];
      SumsCompare(init);
    }
  }

  /** When every day holds its expected candles, nothing is missing and every
      completeness figure reaches 100 %. */
  lemma CompleteDaysScoreFull(rs: seq<ValidationResult>)
    requires forall i :: 0 <= i < |rs| ==> rs[i].actualCandles >= rs[i].expectedCandles
    ensures var s := SymbolSummary(rs);
      && s.missingCandles <= 0 && s.daysWithGaps == 0
      && (s.totalExpectedCandles > 0 ==> s.completenessPercentage >= 100.0)
      && (|rs| > 0 ==> s.worstDayCompleteness >= 100.0)
  {
    SumsCompare(rs);
    if SumExpected(rs) > 0 {
      PercentageMeaning(SumActual(rs), SumExpected(rs), 0.0);
    }
    if |rs| > 0 {
      var daily := DailyCompleteness(rs);
      DailyCompletenessAt(rs);
      MinMaxRealMeaning(daily);
      var k :| 0 <= k < |daily| && daily[k] == MinReal(daily);
      if rs[k].expectedCandles > 0 {
        PercentageMeaning(rs[k].actualCandles, rs[k].expectedCandles, 100.0);
      }
    }
  }

  /** The worst day is no better than any day, and the best no worse. */
  lemma WorstAndBestDays(rs: seq<ValidationResult>)
    requires |rs| > 0
    ensures var s := SymbolSummary(rs);
      forall i :: 0 <= i < |rs| ==>
        s.worstDayCompleteness <= Percentage(rs[i].actualCandles, rs[i].expectedCandles, 100.0) <= s.bestDayCompleteness
  {
    DailyCompletenessAt(rs);
    MinMaxRealMeaning(DailyCompleteness(rs));
  }

  // ---------------------------------------------------------------------
  // Symbols

  /** On the validator over a calendar, a day expects the calendar's count,
      a non-trading day carries the "not a trading day" warning, and there
      is one URL per missing period, the one the vendor settings give. */
  lemma NewValidatorDay(cal: MarketCalendar, check: bool, settings: PolygonSettings, load: Loader, symbol: string, d: int)
    ensures var r := DayValidation(NewValidator(cal, check, settings), load, symbol, d);
      && r.expectedCandles == ExpectedCandleCount(cal, d)
      && (!IsTradingDay(cal, d) ==> r.isValid && r.warnings == [NotATradingDay])
      && |r.urls| == |r.missingPeriods|
      && (forall i :: 0 <= i < |r.urls| ==> r.urls[i] == UrlForPeriod(settings, symbol, r.missingPeriods[i]))
  {
    ScheduleOfMeaning(cal, d);
  }

  /** `validate_multiple_symbols`: each listed symbol mapped to its result
      for the day. */
  method ValidateMultipleSymbols(cfg: ValidatorConfig, load: Loader, symbols: seq<string>, d: int)
    returns (results: map<string, ValidationResult>)
    ensures results.Keys == set s | s in symbols
    ensures forall s :: s in results ==> results[s] == DayValidation(cfg, load, s, d)
  {
    results := map[];
    var i := 0;
    while i < |symbols|
      invariant 0 <= i <= |symbols|
      invariant results.Keys == set s | s in symbols[..i]
      invariant forall s :: s in results ==> results[s] == DayValidation(cfg, load, s, d)
    {
      assert symbols[..i + 1] == symbols[..i] + [symbols[i]];
      var r := ValidateTradingDayData(cfg, load, symbols[i], d);
      results := results[symbols[i] := r];
      i := i + 1;
    }
    assert symbols[..i] == symbols;
  }

  /** `get_data_completeness_summary`: each listed symbol mapped to the
      summary of its trading days in `[start, end]`. */
  method GetDataCompletenessSummary(cfg: ValidatorConfig, load: Loader, symbols: seq<string>, start: int, end: int)
    returns (summary: map<string, CompletenessSummary>)
    ensures summary.Keys == set s | s in symbols
    ensures forall s :: s in summary ==> summary[s] == SymbolSummary(RangeValidation(cfg, load, s, start, end + 1))
  {
    summary := map[];
    var i := 0;
    while i < |symbols|
      invariant 0 <= i <= |symbols|
      invariant summary.Keys == set s | s in symbols[..i]
      invariant forall s :: s in summary ==> summary[s] == SymbolSummary(RangeValidation(cfg, load, s, start, end + 1))
    {
      assert symbols[..i + 1] == symbols[..i] + [symbols[i]];
      var results := ValidateSymbolDataRange(cfg, load, symbols[i], start, end);
      summary := summary[symbols[i] := SymbolSummary(results)];
      i := i + 1;
    }
    assert symbols[..i] == symbols;
  }

  /** A day's result asks for an update when it is invalid or holds no
      candle. */
  predicate NeedsUpdate(r: ValidationResult)
  {
    !r.isValid || r.actualCandles == 0
  }

  /** The listed symbols whose result on day `d` asks for an update, in
      order. */
  function SymbolsNeedingUpdate(cfg: ValidatorConfig, load: Loader, symbols: seq<string>, d: int): seq<string>
  {
    if |symbols| == 0 then []
    else
      var last := symbols[|symbols| - 1];
      SymbolsNeedingUpdate(cfg, load, symbols[..|symbols| - 1], d)
      + (if NeedsUpdate(DayValidation(cfg, load, last, d)) then [last] else [])
  }

  /** A symbol is listed exactly when it is given and its result asks for an
      update.  On a trading day that is exactly when the result is invalid;
      on a day the schedule closes, the result is valid but empty, so every
      given symbol is listed. */
  lemma SymbolsNeedingUpdateMeaning(cfg: ValidatorConfig, load: Loader, symbols: seq<string>, d: int)
    ensures forall s :: s in SymbolsNeedingUpdate(cfg, load, symbols, d) <==>
              s in symbols && NeedsUpdate(DayValidation(cfg, load, s, d))
    ensures cfg.schedule(d) > 0 ==>
              forall s :: s in SymbolsNeedingUpdate(cfg, load, symbols, d) <==> s in symbols && !DayValidation(cfg, load, s, d).isValid
    ensures cfg.schedule(d) == 0 ==> SymbolsNeedingUpdate(cfg, load, symbols, d) == symbols
  {
    SymbolsNeedingUpdateMembers(cfg, load, symbols, d);
    if cfg.schedule(d) == 0 {
      SymbolsNeedingUpdateClosedDay(cfg, load, symbols, d);
    } else {
      forall s | s in symbols
        ensures NeedsUpdate(DayValidation(cfg, load, s, d)) <==> !DayValidation(cfg, load, s, d).isValid
      {
        DayValidationMeaning(cfg, load, s, d);
      }
    }
  }

  lemma {:induction false} SymbolsNeedingUpdateMembers(cfg: ValidatorConfig, load: Loader, symbols: seq<string>, d: int)
    ensures forall s :: s in SymbolsNeedingUpdate(cfg, load, symbols, d) <==>
              s in symbols && NeedsUpdate(DayValidation(cfg, load, s, d))
  {
    if |symbols| > 0 {
      var init := symbols[..|symbols| - 1];
      SymbolsNeedingUpdateMembers(cfg, load, init, d);
      assert symbols == init + [symbols[|symbols| - 1]];
    }
  }

  lemma {:induction false} SymbolsNeedingUpdateClosedDay(cfg: ValidatorConfig, load: Loader, symbols: seq<string>, d: int)
    requires cfg.schedule(d) == 0
    ensures SymbolsNeedingUpdate(cfg, load, symbols, d) == symbols
  {
    if |symbols| > 0 {
      var init := symbols[..|symbols| - 1];
      SymbolsNeedingUpdateClosedDay(cfg, load, init, d);
      assert symbols == init + [symbols[|symbols| - 1]];
      DayValidationMeaning(cfg, load, symbols[|symbols| - 1], d);
    }
  }

  /** `t` is the last day the schedule trades strictly before `today`. */
  predicate PreviousTradingDayOf(sched: Schedule, today: int, t: int)
  {
    t < today && sched(t) > 0 && forall x :: t < x < today ==> sched(x) == 0
  }

  /** There is at most one such day. */
  lemma PreviousTradingDayUnique(sched: Schedule, today: int, t: int, u: int)
    requires PreviousTradingDayOf(sched, today, t) && PreviousTradingDayOf(sched, today, u)
    ensures t == u
  {
  }

  /** The default target of `find_symbols_needing_update`: yesterday, moved
      back while it is not a trading day.  The loop ends only if some earlier
      day trades. */
  method PreviousTradingDay(sched: Schedule, today: int) returns (t: int)
    requires exists w :: w < today && sched(w) > 0
    ensures PreviousTradingDayOf(sched, today, t)
  {
    ghost var w :| w < today && sched(w) > 0;
    t := today - 1;
    while sched(t) == 0
      invariant w <= t < today
      invariant forall x :: t < x < today ==> sched(x) == 0
      decreases t - w
    {
      t := t - 1;
    }
  }

  /** `find_symbols_needing_update`: the given target day, or by default the
      previous trading day, and the symbols whose result on it asks for an
      update. */
  method FindSymbolsNeedingUpdate(cfg: ValidatorConfig, load: Loader, symbols: seq<string>, target: Option<int>, today: int)
    returns (needing: seq<string>)
    requires target.None? ==> exists w :: w < today && cfg.schedule(w) > 0
    ensures target.Some? ==> needing == SymbolsNeedingUpdate(cfg, load, symbols, target.value)
    ensures target.None? ==>
              exists t :: PreviousTradingDayOf(cfg.schedule, today, t) && needing == SymbolsNeedingUpdate(cfg, load, symbols, t)
  {
    var d;
    if target.Some? {
      d := target.value;
    } else {
      d := PreviousTradingDay(cfg.schedule, today);
    }
    needing := [];
    var i := 0;
    while i < |symbols|
      invariant 0 <= i <= |symbols|
      invariant needing == SymbolsNeedingUpdate(cfg, load, symbols[..i], d)
    {
      assert symbols[..i + 1][..i] == symbols[..i];
      var r := ValidateTradingDayData(cfg, load, symbols[i], d);
      if !r.isValid || r.actualCandles == 0 {
        needing := needing + [symbols[i]];
      }
      i := i + 1;
    }
    assert symbols[..i] == symbols;
  }
}
