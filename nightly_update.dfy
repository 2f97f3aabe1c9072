/** The nightly update of stock market data: for each symbol, the range of
    trading days to fetch, a validation of what is stored, the download of
    1-minute candles, the resampling to the other timeframes, progress
    reports along the way, and a summary over all symbols.  The services it
    relies on (calendar, validator, downloader, resampling workflow, the
    storage's last update) are parameters, and the symbols are processed one
    after the other. */
module NightlyUpdate {
  import opened Wrappers
  import opened PriceData
  import Dicts
  import Dates
  import Storage
  import TradingCalendar
  import MarketValidation
  import ResamplingWorkflow
  import NightlyProgress

  /** The nightly update settings the service reads. */
  datatype NightlySettings = NightlySettings(
    enableDataValidation: bool,
    enableAutoResampling: bool,
    maxConcurrentSymbols: nat,
    largeCapSymbols: seq<string>,
    midCapSymbols: seq<string>)

  /** The collaborators: whether a day trades, the range validator, the
      1-minute downloader, the resampling workflow (without stopping on
      errors, to the default targets) and the time of the last stored
      1-minute candle of a symbol. */
  datatype Services = Services(
    tradingDay: int -> bool,
    validate: (string, int, int) -> seq<MarketValidation.ValidationResult>,
    download: (string, int, int) -> seq<DataUpdateStatus>,
    resample: (string, int, int) -> ResamplingWorkflow.WorkflowResult,
    lastUpdate: string -> Option<int>)

  /** The calendar's trading days as the service asks for them. */
  function CalendarDays(cal: TradingCalendar.MarketCalendar): int -> bool
  {
    d => TradingCalendar.IsTradingDay(cal, d)
  }

  /** The last update the storage reports for a symbol's 1-minute data. */
  function StorageLastUpdate(files: map<Storage.FileKey, seq<Candle>>): string -> Option<int>
  {
    s => Storage.LastUpdateDate(files, s, OneMin.Value())
  }

  /** `get_default_symbols`: the large caps, in order, then the mid caps. */
  function GetDefaultSymbols(settings: NightlySettings): (r: seq<string>)
    ensures |r| == |settings.largeCapSymbols| + |settings.midCapSymbols|
    ensures r[..|settings.largeCapSymbols|] == settings.largeCapSymbols
    ensures r[|settings.largeCapSymbols|..] == settings.midCapSymbols
    ensures forall s :: s in r <==> s in settings.largeCapSymbols || s in settings.midCapSymbols
  {
    settings.largeCapSymbols + settings.midCapSymbols
  }

  // ---------------------------------------------------------------------
  // The result of one symbol

  /** `NightlyUpdateResult`. */
  datatype NightlyUpdateResult = NightlyUpdateResult(
    symbol: string,
    startDate: int,
    endDate: int,
    success: bool,
    validationResults: seq<MarketValidation.ValidationResult>,
    updateStatuses: seq<DataUpdateStatus>,
    resamplingResults: Dicts.Dict<nat>,
    errorMessage: Option<string>)
  {
    /** `total_candles_updated`. */
    function TotalCandlesUpdated(): int
    {
      SuccessfulRecords(updateStatuses)
    }

    /** `total_resampled_candles`. */
    function TotalResampledCandles(): nat
    {
      Dicts.Sum(resamplingResults)
    }
  }

  /** The records updated, counting successful statuses only. */
  function SuccessfulRecords(ss: seq<DataUpdateStatus>): int
  {
    if |ss| == 0 then 0
    else SuccessfulRecords(ss[..|ss| - 1]) + (if ss[|ss| - 1].success then ss[|ss| - 1].recordsUpdated else 0)
  }

  /** The successful statuses, in order. */
  function SuccessfulStatuses(ss: seq<DataUpdateStatus>): seq<DataUpdateStatus>
  {
    if |ss| == 0 then []
    else SuccessfulStatuses(ss[..|ss| - 1]) + (if ss[|ss| - 1].success then [ss[|ss| - 1]] else [])
  }

  /** The records of all the given statuses. */
  function AllRecords(ss: seq<DataUpdateStatus>): int
  {
    if |ss| == 0 then 0 else AllRecords(ss[..|ss| - 1]) + ss[|ss| - 1].recordsUpdated
  }

  /** The successful statuses are exactly those of the list that succeeded,
      and when none failed they are the whole list. */
  lemma {:induction false} SuccessfulStatusesMeaning(ss: seq<DataUpdateStatus>)
    ensures forall s :: s in SuccessfulStatuses(ss) <==> s in ss && s.success
    ensures (forall i :: 0 <= i < |ss| ==> ss[i].success) ==> SuccessfulStatuses(ss) == ss
  {
    if |ss| > 0 {
      var init := ss[..|ss| - 1];
      SuccessfulStatusesMeaning(init);
      assert ss == init + [ss[|ss| - 1]];
    }
  }

  /** The candles updated are the records of the successful statuses: a
      failed status counts for nothing. */
  lemma {:induction false} SuccessfulRecordsMeaning(ss: seq<DataUpdateStatus>)
    ensures SuccessfulRecords(ss) == AllRecords(SuccessfulStatuses(ss))
  {
    if |ss| > 0 {
      var init := ss[..|ss| - 1];
      SuccessfulRecordsMeaning(init);
      var last := ss[|ss| - 1];
      var fs := SuccessfulStatuses(init);
      if last.success {
        assert (fs + [last])[..|fs|] == fs;
      } else {
        assert fs + [] == fs;
      }
    }
  }

  // ---------------------------------------------------------------------
  // The range to update

  /** The start before trimming: the custom start, else the date of the
      last stored candle (that very day, so a partly downloaded day is
      fetched again), else thirty days before today. */
  function UntrimmedStart(customStart: Option<int>, lastUpdate: Option<int>, today: int): int
  {
    if customStart.Some? then customStart.value
    else if lastUpdate.None? then today - 30
    else Dates.DayOf(lastUpdate.value)
  }

  /** The end before trimming: the custom end, else yesterday. */
  function UntrimmedEnd(customEnd: Option<int>, today: int): int
  {
    if customEnd.Some? then customEnd.value else today - 1
  }

  /** The first loop of `get_update_date_range`: the start moves forward
      past non-trading days, up to one past the end. */
  function SkipForward(tradingDay: int -> bool, s: int, e: int): int
    decreases if s <= e then e - s + 1 else 0
  {
    if s <= e && !tradingDay(s) then SkipForward(tradingDay, s + 1, e) else s
  }

  /** The second loop: the end moves back past non-trading days, down to
      one before the start. */
  function SkipBackward(tradingDay: int -> bool, s: int, e: int): int
    decreases if e >= s then e - s + 1 else 0
  {
    if e >= s && !tradingDay(e) then SkipBackward(tradingDay, s, e - 1) else e
  }

  /** `get_update_date_range`: the untrimmed range with non-trading days
      cut from both ends. */
  function UpdateRange(tradingDay: int -> bool, customStart: Option<int>, customEnd: Option<int>,
                       lastUpdate: Option<int>, today: int): (int, int)
  {
    var s := SkipForward(tradingDay, UntrimmedStart(customStart, lastUpdate, today), UntrimmedEnd(customEnd, today));
    (s, SkipBackward(tradingDay, s, UntrimmedEnd(customEnd, today)))
  }

  lemma {:induction false} SkipForwardMeaning(tradingDay: int -> bool, s: int, e: int)
    ensures var r := SkipForward(tradingDay, s, e);
      && s <= r
      && (s <= e ==> r <= e + 1)
      && (s > e ==> r == s)
      && (r <= e ==> tradingDay(r))
      && (forall d :: s <= d < r ==> !tradingDay(d))
    decreases if s <= e then e - s + 1 else 0
  {
    if s <= e && !tradingDay(s) {
      SkipForwardMeaning(tradingDay, s + 1, e);
    }
  }

  lemma {:induction false} SkipBackwardMeaning(tradingDay: int -> bool, s: int, e: int)
    ensures var r := SkipBackward(tradingDay, s, e);
      && r <= e
      && (e >= s ==> r >= s - 1)
      && (e < s ==> r == e)
      && (r >= s ==> tradingDay(r))
      && (forall d :: r < d <= e ==> !tradingDay(d))
    decreases if e >= s then e - s + 1 else 0
  {
    if e >= s && !tradingDay(e) {
      SkipBackwardMeaning(tradingDay, s, e - 1);
    }
  }

  /** Trimming only drops non-trading days from the ends: afterwards the
      range is empty or starts and ends on trading days, and every trading
      day of the untrimmed range is still in it. */
  lemma TrimMeaning(tradingDay: int -> bool, s0: int, e0: int)
    ensures var s := SkipForward(tradingDay, s0, e0);
      var e := SkipBackward(tradingDay, s, e0);
      && s0 <= s && e <= e0
      && (s > e || (tradingDay(s) && tradingDay(e)))
      && (forall d :: s0 <= d <= e0 && tradingDay(d) ==> s <= d <= e)
      && (s > e ==> forall d :: s0 <= d <= e0 ==> !tradingDay(d))
  {
    var s := SkipForward(tradingDay, s0, e0);
    SkipForwardMeaning(tradingDay, s0, e0);
    SkipBackwardMeaning(tradingDay, s, e0);
  }

  /** Without a custom start, the range starts on the day of the last
      stored candle (never the day after), or thirty days back when nothing
      is stored; without a custom end it ends yesterday. */
  lemma DefaultRangeMeaning(lastUpdate: Option<int>, today: int)
    ensures lastUpdate.Some? ==>
      Dates.StartOfDay(UntrimmedStart(None, lastUpdate, today)) <= lastUpdate.value
        < Dates.StartOfDay(UntrimmedStart(None, lastUpdate, today)) + Dates.SecondsPerDay
    ensures lastUpdate.None? ==> UntrimmedStart(None, lastUpdate, today) == today - 30
    ensures UntrimmedEnd(None, today) == today - 1
  {
  }

  /** `get_update_date_range`, with its two trimming loops. */
  method GetUpdateDateRange(svc: Services, symbol: string, customStart: Option<int>, customEnd: Option<int>,
                            today: int)
    returns (start: int, end: int)
    ensures (start, end) == UpdateRange(svc.tradingDay, customStart, customEnd, svc.lastUpdate(symbol), today)
  {
    if customStart.Some? {
      start := customStart.value;
    } else {
      var last := svc.lastUpdate(symbol);
      start := if last.None? then today - 30 else Dates.DayOf(last.value);
    }
    end := UntrimmedEnd(customEnd, today);
    ghost var s0, e0 := start, end;
    while start <= end && !svc.tradingDay(start)
      invariant SkipForward(svc.tradingDay, start, end) == SkipForward(svc.tradingDay, s0, e0)
      invariant end == e0
      decreases end - start
    {
      start := start + 1;
    }
    while end >= start && !svc.tradingDay(end)
      invariant SkipBackward(svc.tradingDay, start, end) == SkipBackward(svc.tradingDay, start, e0)
      decreases end - start
    {
      end := end - 1;
    }
  }

  // ---------------------------------------------------------------------
  // One symbol

  /** One progress report: status, percentage, step and error message. */
  datatype Report = Report(status: string, percentage: real, step: string, error: Option<string>)

  /** What one symbol's update returns and the progress it reports. */
  datatype SymbolRun = SymbolRun(result: NightlyUpdateResult, reports: seq<Report>)

  /** The options of an update request that shape each symbol's run. */
  datatype RunOptions = RunOptions(
    customStart: Option<int>,
    customEnd: Option<int>,
    forceValidation: bool,
    enableResampling: bool)

  const NoUpdatesMessage: string := "No updates needed - data is current"
  const DownloadFailedPrefix: string := "1-minute data update failed: "

  /** A message as an f-string shows it: a missing one reads "None". */
  function Shown(m: Option<string>): string
  {
    if m.Some? then m.value else "None"
  }

  function Starting(): Report { Report("validating", 10.0, "Starting validation", None) }
  function Validating(): Report { Report("validating", 20.0, "Validating existing data", None) }
  function Downloading(): Report { Report("downloading", 40.0, "Downloading 1-minute data", None) }
  function Resampling(): Report { Report("resampling", 70.0, "Resampling to other timeframes", None) }

  /** Whether the 1-minute download succeeded: a first status that says so. */
  predicate Downloaded(statuses: seq<DataUpdateStatus>)
  {
    |statuses| > 0 && statuses[0].success
  }

  /** Whether resampling runs: auto-resampling enabled in the settings and
      for the request, and some 1-minute records updated. */
  predicate ResampleWanted(settings: NightlySettings, opts: RunOptions, statuses: seq<DataUpdateStatus>)
    requires |statuses| > 0
  {
    settings.enableAutoResampling && opts.enableResampling && statuses[0].recordsUpdated > 0
  }

  /** The per-symbol body of `update_multiple_symbols_with_progress`; the
      reports are made only when `reporting`. */
  function SymbolUpdate(svc: Services, settings: NightlySettings, opts: RunOptions, today: int,
                        reporting: bool, symbol: string): SymbolRun
  {
    var range := UpdateRange(svc.tradingDay, opts.customStart, opts.customEnd, svc.lastUpdate(symbol), today);
    var s, e := range.0, range.1;
    if s > e then
      SymbolRun(NightlyUpdateResult(symbol, s, e, true, [], [], [], Some(NoUpdatesMessage)),
                if reporting then [Starting(), Report("completed", 100.0, "No updates needed", None)] else [])
    else
      var validations := if opts.forceValidation && settings.enableDataValidation then svc.validate(symbol, s, e) else [];
      var statuses := svc.download(symbol, s, e);
      var begun := [Starting(), Validating(), Downloading()];
      if !Downloaded(statuses) then
        var error := if |statuses| > 0 then statuses[0].errorMessage else Some("Unknown error");
        SymbolRun(NightlyUpdateResult(symbol, s, e, false, validations, statuses, [],
                                      Some(DownloadFailedPrefix + Shown(error))),
                  if reporting then begun + [Report("failed", 100.0, "Failed to download data", error)] else [])
      else
        var resample := ResampleWanted(settings, opts, statuses);
        var results := if resample then svc.resample(symbol, s, e).results else [];
        SymbolRun(NightlyUpdateResult(symbol, s, e, true, validations, statuses, results, None),
                  if reporting then
                    begun + (if resample then [Resampling()] else [])
                    + [Report("completed", 100.0, "Processing completed", None)]
                  else [])
  }

  /** `update_symbol_data`: the same steps with the automatic range, the
      request's resampling switch on, and no progress reports. */
  function UpdateSymbolData(svc: Services, settings: NightlySettings, today: int, symbol: string,
                            forceValidation: bool): NightlyUpdateResult
  {
    SymbolUpdate(svc, settings, RunOptions(None, None, forceValidation, true), today, false, symbol).result
  }

  /** A symbol whose range is empty succeeds at once with "No updates
      needed", nothing downloaded; a missing or failed 1-minute status
      fails the symbol with a message that starts "1-minute data update
      failed: "; otherwise it succeeds, and resampling results exist only
      when resampling was wanted. */
  lemma SymbolUpdateMeaning(svc: Services, settings: NightlySettings, opts: RunOptions, today: int,
                            reporting: bool, symbol: string)
    ensures var run := SymbolUpdate(svc, settings, opts, today, reporting, symbol);
      var range := UpdateRange(svc.tradingDay, opts.customStart, opts.customEnd, svc.lastUpdate(symbol), today);
      && run.result.symbol == symbol
      && (run.result.startDate, run.result.endDate) == range
      && (range.0 > range.1 ==>
            run.result.success && run.result.errorMessage == Some(NoUpdatesMessage)
            && run.result.updateStatuses == [] && run.result.resamplingResults == [])
      && (range.0 <= range.1 ==>
            var statuses := svc.download(symbol, range.0, range.1);
            && run.result.updateStatuses == statuses
            && (run.result.success <==> Downloaded(statuses))
            && (!run.result.success ==>
                  run.result.errorMessage.Some?
                  && DownloadFailedPrefix <= run.result.errorMessage.value
                  && run.result.resamplingResults == [])
            && (run.result.resamplingResults != [] ==> ResampleWanted(settings, opts, statuses)))
  {
  }

  /** The reports go validating, then completed when there is nothing to
      do; otherwise validating, validating, downloading, perhaps resampling,
      then completed or failed.  Each report is further along than the one
      before, the last is at 100, and it says "completed" exactly when the
      symbol succeeded.  Without reporting there are none. */
  lemma ReportsMeaning(svc: Services, settings: NightlySettings, opts: RunOptions, today: int, symbol: string)
    ensures var run := SymbolUpdate(svc, settings, opts, today, true, symbol);
      var rs := run.reports;
      var range := (run.result.startDate, run.result.endDate);
      && |rs| >= 2 && rs[0].status == "validating" && rs[1].status != "downloading"
      && (range.0 > range.1 ==> |rs| == 2)
      && (range.0 <= range.1 ==>
            && 4 <= |rs| <= 5 && rs[1].status == "validating" && rs[2].status == "downloading"
            && (|rs| == 5 ==> rs[3].status == "resampling"))
      && NightlyProgress.Finished(rs[|rs| - 1].status)
      && rs[|rs| - 1].percentage == 100.0
      && (forall i :: 0 <= i < |rs| - 1 ==> rs[i].percentage < rs[i + 1].percentage)
      && (rs[|rs| - 1].status == "completed" <==> run.result.success)
    ensures SymbolUpdate(svc, settings, opts, today, false, symbol).reports == []
  {
  }

  /** The progress updates of one symbol's reports, at time `now`. */
  function Events(rs: seq<Report>, now: int): (es: seq<NightlyProgress.Event>)
    ensures |es| == |rs|
    ensures forall i :: 0 <= i < |rs| ==>
      es[i] == NightlyProgress.Event(rs[i].status, rs[i].percentage, rs[i].step, rs[i].error, now)
  {
    seq(|rs|, i requires 0 <= i < |rs| =>
      NightlyProgress.Event(rs[i].status, rs[i].percentage, rs[i].step, rs[i].error, now))
  }

  /** The first "downloading" update of a series is the one at `k`. */
  lemma {:induction false} FirstDownloadAt(es: seq<NightlyProgress.Event>, k: int)
    requires 0 <= k < |es| && es[k].status == "downloading"
    requires forall i :: 0 <= i < k ==> es[i].status != "downloading"
    ensures NightlyProgress.FirstDownload(es) == Some(es[k].now)
    decreases k
  {
    if k > 0 {
      FirstDownloadAt(es[1..], k - 1);
    }
  }

  /** A series without a "downloading" update sets no start time. */
  lemma {:induction false} NoDownload(es: seq<NightlyProgress.Event>)
    requires forall i :: 0 <= i < |es| ==> es[i].status != "downloading"
    ensures NightlyProgress.FirstDownload(es) == None
    decreases |es|
  {
    if |es| > 0 {
      NoDownload(es[1..]);
    }
  }

  /** Once its reports are in, a queued symbol is finished at 100 with its
      end time set; it failed exactly when the update failed, and its start
      time is set exactly when a download was attempted. */
  lemma ReportedProgress(svc: Services, settings: NightlySettings, opts: RunOptions, today: int,
                         symbol: string, now: int)
    ensures var run := SymbolUpdate(svc, settings, opts, today, true, symbol);
      var q := NightlyProgress.Replay(NightlyProgress.Queued(symbol), Events(run.reports, now));
      && q.symbol == symbol
      && NightlyProgress.Finished(q.status)
      && q.percentage == 100.0
      && q.completedAt == Some(now)
      && (q.status == "failed" <==> !run.result.success)
      && (q.startedAt.Some? <==> run.result.startDate <= run.result.endDate)
  {
    var run := SymbolUpdate(svc, settings, opts, today, true, symbol);
    ReportsMeaning(svc, settings, opts, today, symbol);
    ReportedEvents(run, symbol, now);
  }

  /** The same, for any run whose reports have the shape of a symbol's. */
  lemma ReportedEvents(run: SymbolRun, symbol: string, now: int)
    requires var rs := run.reports;
      && |rs| >= 2 && rs[0].status == "validating" && rs[1].status != "downloading"
      && (run.result.startDate > run.result.endDate ==> |rs| == 2)
      && (run.result.startDate <= run.result.endDate ==>
            4 <= |rs| <= 5 && rs[1].status == "validating" && rs[2].status == "downloading")
      && NightlyProgress.Finished(rs[|rs| - 1].status)
      && rs[|rs| - 1].percentage == 100.0
      && (rs[|rs| - 1].status == "completed" <==> run.result.success)
    ensures var q := NightlyProgress.Replay(NightlyProgress.Queued(symbol), Events(run.reports, now));
      && q.symbol == symbol
      && NightlyProgress.Finished(q.status)
      && q.percentage == 100.0
      && q.completedAt == Some(now)
      && (q.status == "failed" <==> !run.result.success)
      && (q.startedAt.Some? <==> run.result.startDate <= run.result.endDate)
  {
    var es := Events(run.reports, now);
    var p := NightlyProgress.Queued(symbol);
    NightlyProgress.ReplayMeaning(p, es);
    ReplayPercentage(p, es);
    LastFinishOfLast(es);
    if run.result.startDate <= run.result.endDate {
      FirstDownloadAt(es, 2);
    } else {
      NoDownload(es);
    }
  }

  /** The percentage after a series of updates is the last one given. */
  lemma {:induction false} ReplayPercentage(p: NightlyProgress.SymbolProgress, es: seq<NightlyProgress.Event>)
    requires |es| > 0
    ensures NightlyProgress.Replay(p, es).percentage == es[|es| - 1].percentage
    decreases |es|
  {
    if |es| > 1 {
      ReplayPercentage(NightlyProgress.Apply(p, es[0]), es[1..]);
    }
  }

  /** A series that ends on a finishing update finishes at that update. */
  lemma {:induction false} LastFinishOfLast(es: seq<NightlyProgress.Event>)
    requires |es| > 0 && NightlyProgress.Finished(es[|es| - 1].status)
    ensures NightlyProgress.LastFinish(es) == Some(es[|es| - 1].now)
    decreases |es|
  {
    if |es| > 1 {
      LastFinishOfLast(es[1..]);
    }
  }

  // ---------------------------------------------------------------------
  // Many symbols

  /** Each symbol's run under fixed services, settings and options. */
  function RunsOf(svc: Services, settings: NightlySettings, opts: RunOptions, today: int, reporting: bool)
    : string -> SymbolRun
  {
    s => SymbolUpdate(svc, settings, opts, today, reporting, s)
  }

  /** The results of a run over `symbols`, filed by symbol in order; a
      repeated symbol keeps its last result at its first place. */
  function Results(runs: string -> SymbolRun, symbols: seq<string>): Dicts.Dict<NightlyUpdateResult>
  {
    if |symbols| == 0 then []
    else
      var s := symbols[|symbols| - 1];
      Dicts.Put(Results(runs, symbols[..|symbols| - 1]), s, runs(s).result)
  }

  /** Every symbol gets one result, filed under it, and no other symbol
      has one. */
  lemma {:induction false} ResultsMeaning(runs: string -> SymbolRun, symbols: seq<string>)
    ensures var rs := Results(runs, symbols);
      && Dicts.DistinctKeys(rs)
      && (forall s :: s in Dicts.Keys(rs) <==> s in symbols)
      && (forall s :: s in symbols ==> Dicts.Get(rs, s) == Some(runs(s).result))
  {
    if |symbols| > 0 {
      var init := symbols[..|symbols| - 1];
      var s := symbols[|symbols| - 1];
      var prev := Results(runs, init);
      ResultsMeaning(runs, init);
      Dicts.PutMeaning(prev, s, runs(s).result);
      assert forall x :: x in symbols <==> x in init || x == s;
    }
  }

  lemma ResultsSnoc(runs: string -> SymbolRun, symbols: seq<string>, i: int)
    requires 0 <= i < |symbols|
    ensures Results(runs, symbols[..i + 1]) == Dicts.Put(Results(runs, symbols[..i]), symbols[i], runs(symbols[i]).result)
  {
    assert symbols[..i + 1][..i] == symbols[..i];
  }

  /** The collecting loop of `update_multiple_symbols`. */
  method CollectResults(runs: string -> SymbolRun, symbols: seq<string>)
    returns (results: Dicts.Dict<NightlyUpdateResult>)
    ensures results == Results(runs, symbols)
  {
    results := [];
    var i := 0;
    while i < |symbols|
      invariant 0 <= i <= |symbols|
      invariant results == Results(runs, symbols[..i])
    {
      ResultsSnoc(runs, symbols, i);
      results := Dicts.Put(results, symbols[i], runs(symbols[i]).result);
      i := i + 1;
    }
    assert symbols[..i] == symbols;
  }

  /** `update_multiple_symbols`, one symbol after the other. */
  method UpdateMultipleSymbols(svc: Services, settings: NightlySettings, today: int, symbols: Option<seq<string>>)
    returns (results: Dicts.Dict<NightlyUpdateResult>)
    ensures results == Results(RunsOf(svc, settings, RunOptions(None, None, true, true), today, false),
                               symbols.GetOr(GetDefaultSymbols(settings)))
  {
    var names := if symbols.Some? then symbols.value else GetDefaultSymbols(settings);
    results := CollectResults(RunsOf(svc, settings, RunOptions(None, None, true, true), today, false), names);
  }

  /** The progress tables after a series of reports for one symbol. */
  function Reported(tracking: map<string, NightlyProgress.Table>, requestId: string, symbol: string,
                    es: seq<NightlyProgress.Event>): map<string, NightlyProgress.Table>
    decreases |es|
  {
    if |es| == 0 then tracking
    else
      var e := es[0];
      Reported(NightlyProgress.AfterUpdate(tracking, requestId, symbol, e.status, e.percentage, e.step, e.error, e.now),
               requestId, symbol, es[1..])
  }

  /** The progress tables after every symbol's reports, in order. */
  function ReportedAll(tracking: map<string, NightlyProgress.Table>, requestId: string, runs: string -> SymbolRun,
                       now: int, symbols: seq<string>): map<string, NightlyProgress.Table>
    decreases |symbols|
  {
    if |symbols| == 0 then tracking
    else
      ReportedAll(Reported(tracking, requestId, symbols[0], Events(runs(symbols[0]).reports, now)), requestId, runs,
                  now, symbols[1..])
  }

  /** Reports for a symbol of a tracked request replay onto that symbol's
      entry and leave every other entry and request alone. */
  lemma {:induction false} ReportedMeaning(tracking: map<string, NightlyProgress.Table>, requestId: string,
                                           symbol: string, es: seq<NightlyProgress.Event>)
    requires requestId in tracking && NightlyProgress.TableValid(tracking[requestId])
    ensures var r := Reported(tracking, requestId, symbol, es);
      && r.Keys == tracking.Keys
      && (forall id :: id in tracking && id != requestId ==> r[id] == tracking[id])
      && NightlyProgress.TableValid(r[requestId])
      && (forall s :: s in Dicts.Keys(r[requestId]) <==> s in Dicts.Keys(tracking[requestId]))
      && (forall s :: s != symbol ==> Dicts.Get(r[requestId], s) == Dicts.Get(tracking[requestId], s))
      && (symbol in Dicts.Keys(tracking[requestId]) ==>
            Dicts.Get(r[requestId], symbol)
            == Some(NightlyProgress.Replay(Dicts.Get(tracking[requestId], symbol).value, es)))
    decreases |es|
  {
    if |es| > 0 {
      var e := es[0];
      var t := tracking[requestId];
      var next := NightlyProgress.AfterUpdate(tracking, requestId, symbol, e.status, e.percentage, e.step, e.error, e.now);
      NightlyProgress.AfterUpdateMeaning(tracking, requestId, symbol, e.status, e.percentage, e.step, e.error, e.now);
      if symbol in Dicts.Keys(t) {
        var p := Dicts.Get(t, symbol).value;
        GetSymbol(t, symbol);
        NightlyProgress.UpdatedValid(t, symbol, NightlyProgress.Updated(p, e.status, e.percentage, e.step, e.error, e.now));
      }
      ReportedMeaning(next, requestId, symbol, es[1..]);
    }
  }

  /** In a valid table, a symbol's entry carries that symbol. */
  lemma GetSymbol(t: NightlyProgress.Table, symbol: string)
    requires NightlyProgress.TableValid(t) && symbol in Dicts.Keys(t)
    ensures Dicts.Get(t, symbol).Some? && Dicts.Get(t, symbol).value.symbol == symbol
  {
    var i :| 0 <= i < |t| && Dicts.Keys(t)[i] == symbol;
    assert t[i] in t;
    Dicts.GetUnique(t, symbol);
  }

  /** After the reports of distinct symbols, each tracked one holds the
      replay of its own reports onto its earlier entry; the table's symbols
      and the other requests are unchanged. */
  lemma {:induction false} ReportedAllMeaning(tracking: map<string, NightlyProgress.Table>, requestId: string,
                                              runs: string -> SymbolRun, now: int, symbols: seq<string>)
    requires requestId in tracking && NightlyProgress.TableValid(tracking[requestId])
    requires forall i, j :: 0 <= i < j < |symbols| ==> symbols[i] != symbols[j]
    ensures var r := ReportedAll(tracking, requestId, runs, now, symbols);
      && r.Keys == tracking.Keys
      && (forall id :: id in tracking && id != requestId ==> r[id] == tracking[id])
      && NightlyProgress.TableValid(r[requestId])
      && (forall s :: s in Dicts.Keys(r[requestId]) <==> s in Dicts.Keys(tracking[requestId]))
      && (forall s :: s !in symbols ==> Dicts.Get(r[requestId], s) == Dicts.Get(tracking[requestId], s))
      && (forall s :: s in symbols && s in Dicts.Keys(tracking[requestId]) ==>
            Dicts.Get(r[requestId], s)
            == Some(NightlyProgress.Replay(Dicts.Get(tracking[requestId], s).value, Events(runs(s).reports, now))))
    decreases |symbols|
  {
    if |symbols| > 0 {
      var s0 := symbols[0];
      var next := Reported(tracking, requestId, s0, Events(runs(s0).reports, now));
      ReportedMeaning(tracking, requestId, s0, Events(runs(s0).reports, now));
      ReportedAllMeaning(next, requestId, runs, now, symbols[1..]);
      assert forall s :: s in symbols <==> s == s0 || s in symbols[1..];
      assert s0 !in symbols[1..] by {
        forall i | 0 <= i < |symbols[1..]|
          ensures symbols[1..][i] != s0
        {
          assert symbols[1..][i] == symbols[i + 1];
        }
      }
    }
  }

  /** The callback loop for one symbol: each report becomes a progress
      update. */
  method ReportRun(progress: NightlyProgress.ProgressService, requestId: string, symbol: string,
                   rs: seq<Report>, now: int)
    requires progress.Valid()
    modifies progress
    ensures progress.Valid() && progress.activeUpdates == old(progress.activeUpdates)
    ensures progress.progressTracking == Reported(old(progress.progressTracking), requestId, symbol, Events(rs, now))
  {
    ghost var es := Events(rs, now);
    var i := 0;
    while i < |rs|
      invariant 0 <= i <= |rs|
      invariant progress.Valid() && progress.activeUpdates == old(progress.activeUpdates)
      invariant Reported(progress.progressTracking, requestId, symbol, es[i..])
             == Reported(old(progress.progressTracking), requestId, symbol, es)
    {
      assert es[i..][1..] == es[i + 1..];
      progress.UpdateSymbolProgress(requestId, symbol, rs[i].status, rs[i].percentage, rs[i].step, rs[i].error, now);
      i := i + 1;
    }
  }

  /** The loop of `update_multiple_symbols_with_progress` over given runs:
      each symbol's reports go to the progress service under `requestId`,
      and its result is filed. */
  method RunAll(progress: NightlyProgress.ProgressService, runs: string -> SymbolRun, now: int,
                requestId: string, symbols: seq<string>)
    returns (results: Dicts.Dict<NightlyUpdateResult>)
    requires progress.Valid()
    modifies progress
    ensures progress.Valid() && progress.activeUpdates == old(progress.activeUpdates)
    ensures results == Results(runs, symbols)
    ensures progress.progressTracking == ReportedAll(old(progress.progressTracking), requestId, runs, now, symbols)
  {
    results := [];
    var i := 0;
    while i < |symbols|
      invariant 0 <= i <= |symbols|
      invariant progress.Valid() && progress.activeUpdates == old(progress.activeUpdates)
      invariant results == Results(runs, symbols[..i])
      invariant ReportedAll(progress.progressTracking, requestId, runs, now, symbols[i..])
             == ReportedAll(old(progress.progressTracking), requestId, runs, now, symbols)
    {
      ResultsSnoc(runs, symbols, i);
      assert symbols[i..][1..] == symbols[i + 1..];
      var run := runs(symbols[i]);
      ReportRun(progress, requestId, symbols[i], run.reports, now);
      results := Dicts.Put(results, symbols[i], run.result);
      i := i + 1;
    }
    assert symbols[..i] == symbols;
  }

  /** `update_multiple_symbols_with_progress`, one symbol after the other,
      with the progress callback of `execute_nightly_update`: reports are
      made only under a non-empty request id. */
  method UpdateMultipleSymbolsWithProgress(progress: NightlyProgress.ProgressService, svc: Services,
                                           settings: NightlySettings, opts: RunOptions, today: int, now: int,
                                           requestId: string, symbols: Option<seq<string>>)
    returns (results: Dicts.Dict<NightlyUpdateResult>)
    requires progress.Valid()
    modifies progress
    ensures progress.Valid() && progress.activeUpdates == old(progress.activeUpdates)
    ensures var runs := RunsOf(svc, settings, opts, today, requestId != "");
      var names := symbols.GetOr(GetDefaultSymbols(settings));
      && results == Results(runs, names)
      && progress.progressTracking == ReportedAll(old(progress.progressTracking), requestId, runs, now, names)
  {
    var names := if symbols.Some? then symbols.value else GetDefaultSymbols(settings);
    results := RunAll(progress, RunsOf(svc, settings, opts, today, requestId != ""), now, requestId, names);
  }

  /** Without reporting, the progress tables are left as they were. */
  lemma {:induction false} SilentRuns(tracking: map<string, NightlyProgress.Table>, requestId: string, svc: Services,
                                      settings: NightlySettings, opts: RunOptions, today: int, now: int,
                                      symbols: seq<string>)
    ensures ReportedAll(tracking, requestId, RunsOf(svc, settings, opts, today, false), now, symbols) == tracking
    decreases |symbols|
  {
    if |symbols| > 0 {
      ReportsMeaning(svc, settings, opts, today, symbols[0]);
      SilentRuns(tracking, requestId, svc, settings, opts, today, now, symbols[1..]);
    }
  }

  // ---------------------------------------------------------------------
  // Summary

  /** `NightlyUpdateSummary`, without the duration. */
  datatype NightlyUpdateSummary = NightlyUpdateSummary(
    totalSymbols: nat,
    successfulUpdates: nat,
    failedUpdates: int,
    totalCandlesUpdated: int,
    totalResampledCandles: nat,
    earliestStartDate: Option<int>,
    latestEndDate: Option<int>,
    symbolsWithValidationErrors: nat,
    totalValidationErrors: nat,
    resamplingSummary: Dicts.Dict<nat>)

  type ResultTable = Dicts.Dict<NightlyUpdateResult>

  function CountSuccessful(rs: ResultTable): (n: nat)
    ensures n <= |rs|
  {
    if |rs| == 0 then 0 else CountSuccessful(rs[..|rs| - 1]) + (if rs[|rs| - 1].1.success then 1 else 0)
  }

  function SumCandlesUpdated(rs: ResultTable): int
  {
    if |rs| == 0 then 0 else SumCandlesUpdated(rs[..|rs| - 1]) + rs[|rs| - 1].1.TotalCandlesUpdated()
  }

  function SumResampled(rs: ResultTable): nat
  {
    if |rs| == 0 then 0 else SumResampled(rs[..|rs| - 1]) + rs[|rs| - 1].1.TotalResampledCandles()
  }

  /** The per-timeframe totals the summary loop accumulates. */
  function ResamplingTotals(rs: ResultTable): Dicts.Dict<nat>
  {
    if |rs| == 0 then [] else ResamplingWorkflow.AddCounts(ResamplingTotals(rs[..|rs| - 1]), rs[|rs| - 1].1.resamplingResults)
  }

  function MinOpt(a: Option<int>, b: int): int
  {
    if a.Some? && a.value <= b then a.value else b
  }

  function MaxOpt(a: Option<int>, b: int): int
  {
    if a.Some? && a.value >= b then a.value else b
  }

  /** `min(r.start_date ...)`, none without results. */
  function EarliestStart(rs: ResultTable): Option<int>
  {
    if |rs| == 0 then None else Some(MinOpt(EarliestStart(rs[..|rs| - 1]), rs[|rs| - 1].1.startDate))
  }

  /** `max(r.end_date ...)`, none without results. */
  function LatestEnd(rs: ResultTable): Option<int>
  {
    if |rs| == 0 then None else Some(MaxOpt(LatestEnd(rs[..|rs| - 1]), rs[|rs| - 1].1.endDate))
  }

  predicate HasInvalidDay(vs: seq<MarketValidation.ValidationResult>)
  {
    exists i :: 0 <= i < |vs| && !vs[i].isValid
  }

  function ErrorCount(vs: seq<MarketValidation.ValidationResult>): nat
  {
    if |vs| == 0 then 0 else ErrorCount(vs[..|vs| - 1]) + |vs[|vs| - 1].errors|
  }

  function CountWithInvalidDays(rs: ResultTable): nat
  {
    if |rs| == 0 then 0
    else CountWithInvalidDays(rs[..|rs| - 1]) + (if HasInvalidDay(rs[|rs| - 1].1.validationResults) then 1 else 0)
  }

  function SumValidationErrors(rs: ResultTable): nat
  {
    if |rs| == 0 then 0 else SumValidationErrors(rs[..|rs| - 1]) + ErrorCount(rs[|rs| - 1].1.validationResults)
  }

  /** The summary `execute_nightly_update` builds from the results. */
  function SummarySpec(rs: ResultTable): NightlyUpdateSummary
  {
    NightlyUpdateSummary(|rs|, CountSuccessful(rs), |rs| - CountSuccessful(rs), SumCandlesUpdated(rs),
                         SumResampled(rs), EarliestStart(rs), LatestEnd(rs), CountWithInvalidDays(rs),
                         SumValidationErrors(rs), ResamplingTotals(rs))
  }

  lemma {:induction false} EarliestLatestMeaning(rs: ResultTable)
    ensures EarliestStart(rs).None? <==> |rs| == 0
    ensures LatestEnd(rs).None? <==> |rs| == 0
    ensures EarliestStart(rs).Some? ==>
      (exists i :: 0 <= i < |rs| && rs[i].1.startDate == EarliestStart(rs).value)
      && (forall i :: 0 <= i < |rs| ==> EarliestStart(rs).value <= rs[i].1.startDate)
    ensures LatestEnd(rs).Some? ==>
      (exists i :: 0 <= i < |rs| && rs[i].1.endDate == LatestEnd(rs).value)
      && (forall i :: 0 <= i < |rs| ==> rs[i].1.endDate <= LatestEnd(rs).value)
  {
    if |rs| > 0 {
      var init := rs[..|rs| - 1];
      EarliestLatestMeaning(init);
      assert forall i :: 0 <= i < |init| ==> init[i] == rs[i];
      if |init| > 0 {
        var i :| 0 <= i < |init| && init[i].1.startDate == EarliestStart(init).value;
        var j :| 0 <= j < |init| && init[j].1.endDate == LatestEnd(init).value;
        assert rs[i] == init[i] && rs[j] == init[j];
      }
    }
  }

  /** The per-timeframe resampling totals have distinct timeframes and add
      up to the resampled candles of all symbols. */
  lemma {:induction false} ResamplingTotalsSum(rs: ResultTable)
    ensures Dicts.DistinctKeys(ResamplingTotals(rs))
    ensures Dicts.Sum(ResamplingTotals(rs)) == SumResampled(rs)
  {
    if |rs| > 0 {
      var init := rs[..|rs| - 1];
      ResamplingTotalsSum(init);
      ResamplingWorkflow.AddCountsDistinct(ResamplingTotals(init), rs[|rs| - 1].1.resamplingResults);
      ResamplingWorkflow.AddCountsSum(ResamplingTotals(init), rs[|rs| - 1].1.resamplingResults);
    }
  }

  /** The candles all symbols' resampling created for `tf`, added up symbol
      by symbol. */
  function ResampledCount(rs: ResultTable, tf: string): nat
  {
    if |rs| == 0 then 0 else ResampledCount(rs[..|rs| - 1], tf) + Dicts.KeySum(rs[|rs| - 1].1.resamplingResults, tf)
  }

  /** Each timeframe's resampling total is the sum of that timeframe's counts
      over all symbols, and the totals name exactly the timeframes some
      symbol's resampling names. */
  lemma {:induction false} ResamplingTotalsAt(rs: ResultTable, tf: string)
    ensures Dicts.Get(ResamplingTotals(rs), tf).GetOr(0) == ResampledCount(rs, tf)
    ensures tf in Dicts.Keys(ResamplingTotals(rs)) <==>
            exists i :: 0 <= i < |rs| && tf in Dicts.Keys(rs[i].1.resamplingResults)
  {
    if |rs| > 0 {
      var init := rs[..|rs| - 1];
      var last := rs[|rs| - 1].1.resamplingResults;
      var prev := ResamplingTotals(init);
      assert ResamplingTotals(rs) == ResamplingWorkflow.AddCounts(prev, last);
      assert ResampledCount(rs, tf) == ResampledCount(init, tf) + Dicts.KeySum(last, tf);
      ResamplingTotalsAt(init, tf);
      ResamplingTotalsSum(init);
      ResamplingWorkflow.AddCountsAt(prev, last, tf);
      ResamplingWorkflow.AddCountsKeys(prev, last, tf);
      if tf in Dicts.Keys(last) {
        assert tf in Dicts.Keys(rs[|rs| - 1].1.resamplingResults);
      } else if exists i :: 0 <= i < |rs| && tf in Dicts.Keys(rs[i].1.resamplingResults) {
        var i :| 0 <= i < |rs| && tf in Dicts.Keys(rs[i].1.resamplingResults);
        assert i < |rs| - 1 && init[i] == rs[i];
      }
    }
  }

  lemma {:induction false} CountWithInvalidDaysBound(rs: ResultTable)
    ensures CountWithInvalidDays(rs) <= |rs|
  {
    if |rs| > 0 {
      CountWithInvalidDaysBound(rs[..|rs| - 1]);
    }
  }

  /** The summary splits the symbols into successful and failed ones; its
      date range is the smallest start and the largest end over the results
      (none without results); its resampling summary holds, under each
      timeframe some symbol's resampling names, the sum of that timeframe's
      counts, and adds up to the resampled total; at most every symbol has
      validation errors. */
  lemma SummaryMeaning(rs: ResultTable)
    ensures var s := SummarySpec(rs);
      && s.totalSymbols == |rs|
      && s.successfulUpdates + s.failedUpdates == s.totalSymbols
      && 0 <= s.failedUpdates
      && (s.earliestStartDate.None? <==> |rs| == 0)
      && (s.latestEndDate.None? <==> |rs| == 0)
      && (s.earliestStartDate.Some? ==> forall i :: 0 <= i < |rs| ==> s.earliestStartDate.value <= rs[i].1.startDate)
      && (s.latestEndDate.Some? ==> forall i :: 0 <= i < |rs| ==> rs[i].1.endDate <= s.latestEndDate.value)
      && (forall tf :: Dicts.Get(s.resamplingSummary, tf).GetOr(0) == ResampledCount(rs, tf))
      && (forall tf :: tf in Dicts.Keys(s.resamplingSummary) <==>
                       exists i :: 0 <= i < |rs| && tf in Dicts.Keys(rs[i].1.resamplingResults))
      && Dicts.Sum(s.resamplingSummary) == s.totalResampledCandles
      && s.symbolsWithValidationErrors <= s.totalSymbols
  {
    EarliestLatestMeaning(rs);
    ResamplingTotalsSum(rs);
    CountWithInvalidDaysBound(rs);
    forall tf
      ensures Dicts.Get(ResamplingTotals(rs), tf).GetOr(0) == ResampledCount(rs, tf)
      ensures tf in Dicts.Keys(ResamplingTotals(rs)) <==>
              exists i :: 0 <= i < |rs| && tf in Dicts.Keys(rs[i].1.resamplingResults)
    {
      ResamplingTotalsAt(rs, tf);
    }
  }

  /** The resampling summary loop of `execute_nightly_update`. */
  method ResamplingSummary(rs: ResultTable) returns (acc: Dicts.Dict<nat>)
    ensures acc == ResamplingTotals(rs)
  {
    acc := [];
    var i := 0;
    while i < |rs|
      invariant 0 <= i <= |rs|
      invariant acc == ResamplingTotals(rs[..i])
    {
      assert rs[..i + 1][..i] == rs[..i];
      acc := ResamplingWorkflow.AddAllCounts(acc, rs[i].1.resamplingResults);
      i := i + 1;
    }
    assert rs[..i] == rs;
  }

  // ---------------------------------------------------------------------
  // The background job

  /** `NightlyUpdateRequest`. */
  datatype NightlyUpdateRequest = NightlyUpdateRequest(
    symbols: Option<seq<string>>,
    forceValidation: bool,
    maxConcurrent: Option<nat>,
    enableResampling: bool,
    startDate: Option<int>,
    endDate: Option<int>)

  /** `NightlyUpdateResponse`, without the per-symbol API models. */
  datatype NightlyUpdateResponse = NightlyUpdateResponse(
    requestId: string,
    startedAt: int,
    completedAt: int,
    summary: NightlyUpdateSummary,
    symbolsRequested: Option<seq<string>>,
    symbolsProcessed: seq<string>,
    maxConcurrentUsed: nat,
    overallSuccess: bool)

  function OptionsOf(request: NightlyUpdateRequest): RunOptions
  {
    RunOptions(request.startDate, request.endDate, request.forceValidation, request.enableResampling)
  }

  /** `execute_nightly_update`: the request is marked running, its symbols
      (the defaults when it names none) are updated with progress reported
      under the request id, the summary and response are built, and the
      request stops being active.  The progress tables are kept. */
  method ExecuteNightlyUpdate(progress: NightlyProgress.ProgressService, svc: Services, settings: NightlySettings,
                              requestId: string, request: NightlyUpdateRequest, today: int,
                              startTime: int, endTime: int)
    returns (response: NightlyUpdateResponse)
    requires progress.Valid() && requestId != ""
    modifies progress
    ensures progress.Valid()
    ensures progress.activeUpdates == old(progress.activeUpdates) - {requestId}
    ensures var symbols := request.symbols.GetOr(GetDefaultSymbols(settings));
      var runs := RunsOf(svc, settings, OptionsOf(request), today, true);
      var rs := Results(runs, symbols);
      && progress.progressTracking == ReportedAll(old(progress.progressTracking), requestId, runs, endTime, symbols)
      && response.summary == SummarySpec(rs)
      && response.symbolsProcessed == Dicts.Keys(rs)
    ensures response.requestId == requestId && response.symbolsRequested == request.symbols
    ensures response.startedAt == startTime && response.completedAt == endTime
    ensures response.maxConcurrentUsed == request.maxConcurrent.GetOr(settings.maxConcurrentSymbols)
    ensures response.overallSuccess <==> response.summary.failedUpdates == 0
  {
    if requestId in progress.activeUpdates {
      progress.StoreActiveUpdate(requestId, progress.activeUpdates[requestId].(status := "running"));
    }
    var symbols := if request.symbols.Some? then request.symbols.value else GetDefaultSymbols(settings);
    var runs := RunsOf(svc, settings, OptionsOf(request), today, true);
    var results := RunAll(progress, runs, endTime, requestId, symbols);
    response := BuildResponse(results, requestId, request, settings, startTime, endTime);
    progress.RemoveActiveUpdate(requestId);
  }

  /** The response of `execute_nightly_update` for the results of a run. */
  method BuildResponse(results: ResultTable, requestId: string, request: NightlyUpdateRequest,
                       settings: NightlySettings, startTime: int, endTime: int)
    returns (response: NightlyUpdateResponse)
    ensures response.summary == SummarySpec(results)
    ensures response.symbolsProcessed == Dicts.Keys(results)
    ensures response.requestId == requestId && response.symbolsRequested == request.symbols
    ensures response.startedAt == startTime && response.completedAt == endTime
    ensures response.maxConcurrentUsed == request.maxConcurrent.GetOr(settings.maxConcurrentSymbols)
    ensures response.overallSuccess <==> response.summary.failedUpdates == 0
  {
    var resampling := ResamplingSummary(results);
    var successful := CountSuccessful(results);
    var summary := NightlyUpdateSummary(|results|, successful, |results| - successful, SumCandlesUpdated(results),
                                        SumResampled(results), EarliestStart(results), LatestEnd(results),
                                        CountWithInvalidDays(results), SumValidationErrors(results), resampling);
    response := NightlyUpdateResponse(requestId, startTime, endTime, summary, request.symbols, Dicts.Keys(results),
                                      if request.maxConcurrent.Some? then request.maxConcurrent.value
                                      else settings.maxConcurrentSymbols,
                                      |results| - successful == 0);
  }
}
