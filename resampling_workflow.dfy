/** The stock-market resampling workflow: one symbol resampled into each
    target timeframe in a fixed shortest-first order, optionally stopping at
    the first failure; a summary over the results of many symbols; and the
    daily-only background job. */
module ResamplingWorkflow {
  import opened Wrappers
  import opened PriceData
  import opened Timeframes
  import opened AssetTypes
  import Dicts
  import Storage
  import Resampling
  import Classification

  /** The resampling order, from the shortest timeframe to the longest. */
  const StandardOrder: seq<string> := ["5min", "15min", "30min", "1h", "2h", "4h", "daily"]

  /** Every entry is a known timeframe, and the minutes strictly increase. */
  predicate ByMinutes(ts: seq<string>)
  {
    && (forall i :: 0 <= i < |ts| ==> TimeframeMinutes(ts[i]).Some?)
    && (forall i, j :: 0 <= i < j < |ts| ==> TimeframeMinutes(ts[i]).value < TimeframeMinutes(ts[j]).value)
  }

  lemma StandardOrderByMinutes()
    ensures ByMinutes(StandardOrder)
  {
    var ms := [5, 15, 30, 60, 120, 240, 1440];
    forall i | 0 <= i < |StandardOrder|
      ensures TimeframeMinutes(StandardOrder[i]) == Some(ms[i])
    {
    }
  }

  /** The entries of `order` that `wanted` lists, in the order's order. */
  function InOrder(order: seq<string>, wanted: seq<string>): seq<string>
  {
    if |order| == 0 then []
    else InOrder(order[..|order| - 1], wanted) + (if order[|order| - 1] in wanted then [order[|order| - 1]] else [])
  }

  /** Filtering keeps exactly the wanted entries. */
  lemma {:induction false} InOrderMembers(order: seq<string>, wanted: seq<string>)
    ensures forall tf :: tf in InOrder(order, wanted) <==> tf in order && tf in wanted
  {
    if |order| > 0 {
      var init := order[..|order| - 1];
      InOrderMembers(init, wanted);
      assert order == init + [order[|order| - 1]];
    }
  }

  /** Filtering an order sorted by minutes keeps it sorted. */
  lemma {:induction false} InOrderSorted(order: seq<string>, wanted: seq<string>)
    requires ByMinutes(order)
    ensures ByMinutes(InOrder(order, wanted))
  {
    if |order| > 0 {
      var init := order[..|order| - 1];
      var last := order[|order| - 1];
      assert ByMinutes(init) by {
        assert forall i :: 0 <= i < |init| ==> init[i] == order[i];
      }
      InOrderSorted(init, wanted);
      InOrderMembers(init, wanted);
      var r := InOrder(init, wanted);
      forall x | x in r
        ensures TimeframeMinutes(x).value < TimeframeMinutes(last).value
      {
        var k :| 0 <= k < |init| && init[k] == x;
        assert order[k] == x;
      }
      if last in wanted {
        MinutesSnoc(r, last);
      }
    }
  }

  lemma MinutesSnoc(r: seq<string>, last: string)
    requires ByMinutes(r) && TimeframeMinutes(last).Some?
    requires forall x :: x in r ==> TimeframeMinutes(x).value < TimeframeMinutes(last).value
    ensures ByMinutes(r + [last])
  {
    var ab := r + [last];
    forall i, j | 0 <= i < j < |ab|
      ensures TimeframeMinutes(ab[i]).value < TimeframeMinutes(ab[j]).value
    {
      if j == |r| {
        assert ab[i] in r;
      }
    }
  }

  /** `get_target_timeframes` keeps the requested timeframes that the
      standard order knows, each once, shortest first; a one-minute or an
      unknown timeframe is never a target. */
  lemma TargetTimeframesMeaning(wanted: seq<string>)
    ensures var ts := InOrder(StandardOrder, wanted);
      && ByMinutes(ts)
      && (forall i, j :: 0 <= i < j < |ts| ==> ts[i] != ts[j])
      && (forall tf :: tf in ts <==> tf in StandardOrder && tf in wanted)
      && "1min" !in ts
  {
    StandardOrderByMinutes();
    InOrderMembers(StandardOrder, wanted);
    InOrderSorted(StandardOrder, wanted);
    var ts := InOrder(StandardOrder, wanted);
    forall i, j | 0 <= i < j < |ts|
      ensures ts[i] != ts[j]
    {
      assert TimeframeMinutes(ts[i]).value < TimeframeMinutes(ts[j]).value;
    }
  }

  // ---------------------------------------------------------------------
  // One symbol, every target timeframe

  /** `ResamplingWorkflowResult`. */
  datatype WorkflowResult = WorkflowResult(
    symbol: string,
    sourceTimeframe: string,
    targetTimeframes: seq<string>,
    success: bool,
    results: Dicts.Dict<nat>,
    errors: Dicts.Dict<string>)
  {
    /** `total_candles_created`. */
    function TotalCandlesCreated(): nat
    {
      Dicts.Sum(results)
    }

    /** `successful_timeframes`: the targets that created candles. */
    function SuccessfulTimeframes(): (ts: seq<string>)
      ensures forall tf :: tf in ts <==> tf in targetTimeframes && Dicts.Get(results, tf).Some? && Dicts.Get(results, tf).value > 0
    {
      Select(targetTimeframes, tf => Dicts.Get(results, tf).Some? && Dicts.Get(results, tf).value > 0)
    }

    /** `failed_timeframes`: the targets that have an error. */
    function FailedTimeframes(): (ts: seq<string>)
      ensures forall tf :: tf in ts <==> tf in targetTimeframes && tf in Dicts.Keys(errors)
    {
      Select(targetTimeframes, tf => tf in Dicts.Keys(errors))
    }
  }

  /** The entries of `ts` that `keep` accepts, in order. */
  function Select(ts: seq<string>, keep: string -> bool): (r: seq<string>)
    ensures |r| <= |ts|
    ensures forall x :: x in r <==> x in ts && keep(x)
  {
    if |ts| == 0 then []
    else
      var init := Select(ts[..|ts| - 1], keep);
      assert ts == ts[..|ts| - 1] + [ts[|ts| - 1]];
      init + (if keep(ts[|ts| - 1]) then [ts[|ts| - 1]] else [])
  }

  type Files = map<Storage.FileKey, seq<Candle>>

  /** Resampling one target timeframe against the files as they stand. */
  type Step = (Files, string) -> Resampling.Stored

  /** `resample_and_store` for one symbol of the given asset type, from
      `source` to the timeframe the step is given. */
  function ResampleStep(asset: AssetType, symbol: string, source: string, start: Option<int>, end: Option<int>): Step
  {
    (files: Files, tf: string) => Resampling.ResampleAndStoreSpec(files, asset, symbol, source, tf, start, end)
  }

  lemma ResampleStepApply(asset: AssetType, symbol: string, source: string, start: Option<int>, end: Option<int>,
                          files: Files, tf: string)
    ensures ResampleStep(asset, symbol, source, start, end)(files, tf)
         == Resampling.ResampleAndStoreSpec(files, asset, symbol, source, tf, start, end)
  {
  }

  /** What the workflow loop has built so far, and whether it broke off. */
  datatype Run = Run(results: Dicts.Dict<nat>, errors: Dicts.Dict<string>, files: Files, stopped: bool)

  /** One target timeframe: its count, or its error (which ends the loop
      when `stop` is set). */
  function WorkflowStep(prev: Run, tf: string, st: Resampling.Stored, stop: bool): Run
  {
    match st.count
    case Ok(n) => Run(Dicts.Put(prev.results, tf, n), prev.errors, st.files, false)
    case Err(e) => Run(prev.results, Dicts.Put(prev.errors, tf, e), st.files, stop)
  }

  /** The workflow loop over `targets`: each target resampled and stored
      against the files the previous ones left, until one fails with `stop`
      set. */
  function WorkflowRun(files: Files, step: Step, targets: seq<string>, stop: bool): Run
  {
    if |targets| == 0 then Run([], [], files, false)
    else
      var prev := WorkflowRun(files, step, targets[..|targets| - 1], stop);
      if prev.stopped then prev
      else WorkflowStep(prev, targets[|targets| - 1], step(prev.files, targets[|targets| - 1]), stop)
  }

  lemma WorkflowRunSnoc(files: Files, step: Step, targets: seq<string>, i: nat, stop: bool, prev: Run)
    requires i < |targets|
    requires prev == WorkflowRun(files, step, targets[..i], stop) && !prev.stopped
    ensures WorkflowStep(prev, targets[i], step(prev.files, targets[i]), stop)
         == WorkflowRun(files, step, targets[..i + 1], stop)
  {
    assert targets[..i + 1][..i] == targets[..i];
  }

  /** Once the loop has broken off, later targets change nothing. */
  lemma {:induction false} StoppedRunStays(files: Files, step: Step, targets: seq<string>, k: nat, stop: bool)
    requires k <= |targets|
    requires WorkflowRun(files, step, targets[..k], stop).stopped
    ensures WorkflowRun(files, step, targets, stop) == WorkflowRun(files, step, targets[..k], stop)
  {
    if k < |targets| {
      var init := targets[..|targets| - 1];
      assert init[..k] == targets[..k];
      StoppedRunStays(files, step, init, k, stop);
    } else {
      assert targets[..k] == targets;
    }
  }

  predicate Distinct(ts: seq<string>)
  {
    forall i, j :: 0 <= i < j < |ts| ==> ts[i] != ts[j]
  }

  /** The keys of a run: distinct, drawn from the targets, and no target
      both succeeded and failed. */
  predicate KeysFrom(run: Run, targets: seq<string>)
  {
    && Dicts.DistinctKeys(run.results) && Dicts.DistinctKeys(run.errors)
    && (forall tf :: tf in Dicts.Keys(run.results) ==> tf in targets)
    && (forall tf :: tf in Dicts.Keys(run.errors) ==> tf in targets)
    && (forall tf :: !(tf in Dicts.Keys(run.results) && tf in Dicts.Keys(run.errors)))
  }

  /** Every target has a count or an error. */
  predicate Covers(run: Run, targets: seq<string>)
  {
    forall tf :: tf in targets ==> tf in Dicts.Keys(run.results) || tf in Dicts.Keys(run.errors)
  }

  /** One step over a target not yet seen keeps the keys distinct and
      covers that target. */
  lemma StepKeys(prev: Run, init: seq<string>, tf: string, st: Resampling.Stored, stop: bool)
    requires KeysFrom(prev, init) && tf !in init
    ensures KeysFrom(WorkflowStep(prev, tf, st, stop), init + [tf])
    ensures Covers(prev, init) ==> Covers(WorkflowStep(prev, tf, st, stop), init + [tf])
  {
    match st.count
    case Ok(n) =>
      Dicts.PutMeaning(prev.results, tf, n);
    case Err(e) =>
      Dicts.PutMeaning(prev.errors, tf, e);
  }

  /** Over distinct targets, `results` and `errors` have distinct keys,
      drawn from the targets, and no target is in both.  Without `stop`
      the loop never breaks off and every target is in one of them. */
  lemma {:induction false} WorkflowKeys(files: Files, step: Step, targets: seq<string>, stop: bool)
    requires Distinct(targets)
    ensures KeysFrom(WorkflowRun(files, step, targets, stop), targets)
    ensures !stop ==> !WorkflowRun(files, step, targets, stop).stopped
    ensures !stop ==> Covers(WorkflowRun(files, step, targets, stop), targets)
  {
    if |targets| > 0 {
      var init := targets[..|targets| - 1];
      var last := targets[|targets| - 1];
      assert Distinct(init);
      WorkflowKeys(files, step, init, stop);
      var prev := WorkflowRun(files, step, init, stop);
      assert targets == init + [last];
      assert last !in init;
      if prev.stopped {
        assert KeysFrom(prev, targets);
      } else {
        StepKeys(prev, init, last, step(prev.files, last), stop);
      }
    }
  }

  /** The run broke off at target `k`: it is the run up to and including
      `k`, whose one error is `k`'s, and every target before `k` succeeded. */
  ghost predicate StoppedAt(files: Files, step: Step, targets: seq<string>, k: int, run: Run)
  {
    && 0 <= k < |targets|
    && |run.errors| == 1 && run.errors[0].0 == targets[k]
    && run == WorkflowRun(files, step, targets[..k + 1], true)
    && |WorkflowRun(files, step, targets[..k], true).errors| == 0
  }

  /** With `stop`, the loop breaks off exactly when a target fails, and
      then it broke off at the failing target. */
  lemma {:induction false} WorkflowStops(files: Files, step: Step, targets: seq<string>)
    ensures WorkflowRun(files, step, targets, true).stopped <==> |WorkflowRun(files, step, targets, true).errors| > 0
    ensures WorkflowRun(files, step, targets, true).stopped ==>
              exists k :: StoppedAt(files, step, targets, k, WorkflowRun(files, step, targets, true))
  {
    if |targets| > 0 {
      var init := targets[..|targets| - 1];
      WorkflowStops(files, step, init);
      var prev := WorkflowRun(files, step, init, true);
      if prev.stopped {
        var k :| StoppedAt(files, step, init, k, prev);
        assert init[..k + 1] == targets[..k + 1] && init[..k] == targets[..k];
        assert StoppedAt(files, step, targets, k, prev);
      } else {
        LastStepStops(files, step, targets, prev);
      }
    }
  }

  lemma LastStepStops(files: Files, step: Step, targets: seq<string>, prev: Run)
    requires |targets| > 0
    requires prev == WorkflowRun(files, step, targets[..|targets| - 1], true)
    requires !prev.stopped && |prev.errors| == 0
    ensures WorkflowRun(files, step, targets, true).stopped <==> |WorkflowRun(files, step, targets, true).errors| > 0
    ensures WorkflowRun(files, step, targets, true).stopped ==>
              StoppedAt(files, step, targets, |targets| - 1, WorkflowRun(files, step, targets, true))
  {
    var last := |targets| - 1;
    assert targets[..last + 1] == targets;
    var st := step(prev.files, targets[last]);
    if st.count.Err? {
      assert Dicts.Put(prev.errors, targets[last], st.count.error) == [(targets[last], st.count.error)];
    }
  }

  /** The workflow's report for a finished run: successful exactly when no
      target failed. */
  function WorkflowReport(symbol: string, source: string, targets: seq<string>, run: Run): (r: WorkflowResult)
    ensures r.success <==> |r.errors| == 0
    ensures r.targetTimeframes == targets && r.results == run.results && r.errors == run.errors
  {
    WorkflowResult(symbol, source, targets, |run.errors| == 0, run.results, run.errors)
  }

  // ---------------------------------------------------------------------
  // Many symbols

  /** The results of the multi-symbol workflow so far, the files they leave,
      and whether it broke off. */
  datatype MultiRun = MultiRun(results: Dicts.Dict<WorkflowResult>, files: Files, stopped: bool)

  /** `resample_multiple_symbols_complete_workflow`: each symbol's complete
      workflow over the same targets, never stopping within a symbol; with
      `stopOnSymbolError`, the first symbol that does not fully succeed ends
      the loop. */
  function MultiRunSpec(files: Files, steps: string -> Step, symbols: seq<string>, source: string,
                        targets: seq<string>, stopOnSymbolError: bool): MultiRun
  {
    if |symbols| == 0 then MultiRun([], files, false)
    else
      var prev := MultiRunSpec(files, steps, symbols[..|symbols| - 1], source, targets, stopOnSymbolError);
      if prev.stopped then prev
      else MultiStep(prev, steps, symbols[|symbols| - 1], source, targets, stopOnSymbolError)
  }

  /** One symbol of the multi-symbol loop. */
  function MultiStep(prev: MultiRun, steps: string -> Step, symbol: string, source: string,
                     targets: seq<string>, stopOnSymbolError: bool): MultiRun
  {
    var run := WorkflowRun(prev.files, steps(symbol), targets, false);
    var r := WorkflowReport(symbol, source, targets, run);
    MultiRun(Dicts.Put(prev.results, symbol, r), run.files, !r.success && stopOnSymbolError)
  }

  /** Once the multi-symbol loop has broken off, later symbols change
      nothing. */
  lemma {:induction false} MultiStoppedStays(files: Files, steps: string -> Step, symbols: seq<string>, k: nat,
                                             source: string, targets: seq<string>,
                                             stopOnSymbolError: bool)
    requires k <= |symbols|
    requires MultiRunSpec(files, steps, symbols[..k], source, targets, stopOnSymbolError).stopped
    ensures MultiRunSpec(files, steps, symbols, source, targets, stopOnSymbolError)
         == MultiRunSpec(files, steps, symbols[..k], source, targets, stopOnSymbolError)
  {
    if k < |symbols| {
      var init := symbols[..|symbols| - 1];
      assert init[..k] == symbols[..k];
      MultiStoppedStays(files, steps, init, k, source, targets, stopOnSymbolError);
    } else {
      assert symbols[..k] == symbols;
    }
  }

  lemma MultiRunSnoc(files: Files, steps: string -> Step, symbols: seq<string>, i: nat, source: string,
                     targets: seq<string>, stopOnSymbolError: bool, prev: MultiRun)
    requires i < |symbols| && !prev.stopped
    requires prev == MultiRunSpec(files, steps, symbols[..i], source, targets, stopOnSymbolError)
    ensures MultiStep(prev, steps, symbols[i], source, targets, stopOnSymbolError)
         == MultiRunSpec(files, steps, symbols[..i + 1], source, targets, stopOnSymbolError)
  {
    assert symbols[..i + 1][..i] == symbols[..i];
  }

  /** Every result is filed under its own symbol and reports the shared
      targets. */
  predicate FiledBySymbol(results: Dicts.Dict<WorkflowResult>, targets: seq<string>)
  {
    forall i :: 0 <= i < |results| ==> results[i].1.symbol == results[i].0 && results[i].1.targetTimeframes == targets
  }

  predicate AllSucceeded(results: Dicts.Dict<WorkflowResult>)
  {
    forall i :: 0 <= i < |results| ==> results[i].1.success
  }

  predicate MultiKeys(m: MultiRun, symbols: seq<string>, targets: seq<string>, stopOnSymbolError: bool)
  {
    && Dicts.DistinctKeys(m.results) && FiledBySymbol(m.results, targets)
    && (forall s :: s in Dicts.Keys(m.results) ==> s in symbols)
    && (!stopOnSymbolError ==> !m.stopped && forall s :: s in symbols ==> s in Dicts.Keys(m.results))
  }

  /** The results are filed one per symbol, under distinct keys drawn from
      the symbols; without `stopOnSymbolError` every symbol is processed. */
  lemma {:induction false} MultiRunKeys(files: Files, steps: string -> Step, symbols: seq<string>, source: string,
                                        targets: seq<string>, stopOnSymbolError: bool)
    ensures MultiKeys(MultiRunSpec(files, steps, symbols, source, targets, stopOnSymbolError),
                      symbols, targets, stopOnSymbolError)
  {
    if |symbols| > 0 {
      var init := symbols[..|symbols| - 1];
      var symbol := symbols[|symbols| - 1];
      MultiRunKeys(files, steps, init, source, targets, stopOnSymbolError);
      var prev := MultiRunSpec(files, steps, init, source, targets, stopOnSymbolError);
      assert symbols == init + [symbol];
      if !prev.stopped {
        var run := WorkflowRun(prev.files, steps(symbol), targets, false);
        FileResult(prev.results, symbol, WorkflowReport(symbol, source, targets, run), targets);
      }
    }
  }

  /** Filing a result under its own symbol keeps the results filed by
      symbol, with distinct keys, and adds the symbol to the keys. */
  lemma FileResult(results: Dicts.Dict<WorkflowResult>, symbol: string, r: WorkflowResult, targets: seq<string>)
    requires Dicts.DistinctKeys(results) && FiledBySymbol(results, targets)
    requires r.symbol == symbol && r.targetTimeframes == targets
    ensures Dicts.DistinctKeys(Dicts.Put(results, symbol, r)) && FiledBySymbol(Dicts.Put(results, symbol, r), targets)
    ensures forall s :: s in Dicts.Keys(Dicts.Put(results, symbol, r)) <==> s in Dicts.Keys(results) || s == symbol
  {
    Dicts.PutMeaning(results, symbol, r);
    Dicts.PutEntries(results, symbol, r);
    var d := Dicts.Put(results, symbol, r);
    forall i | 0 <= i < |d|
      ensures d[i].1.symbol == d[i].0 && d[i].1.targetTimeframes == targets
    {
      assert d[i] in d;
      if d[i] in results {
        var j :| 0 <= j < |results| && results[j] == d[i];
      }
    }
  }

  /** With `stopOnSymbolError`, the loop breaks off exactly when a result
      that did not fully succeed has been filed. */
  lemma {:induction false} MultiRunStops(files: Files, steps: string -> Step, symbols: seq<string>, source: string,
                                         targets: seq<string>)
    ensures var m := MultiRunSpec(files, steps, symbols, source, targets, true);
      m.stopped <==> !AllSucceeded(m.results)
  {
    if |symbols| > 0 {
      var init := symbols[..|symbols| - 1];
      var symbol := symbols[|symbols| - 1];
      MultiRunStops(files, steps, init, source, targets);
      var prev := MultiRunSpec(files, steps, init, source, targets, true);
      if !prev.stopped {
        var run := WorkflowRun(prev.files, steps(symbol), targets, false);
        var r := WorkflowReport(symbol, source, targets, run);
        Dicts.PutEntries(prev.results, symbol, r);
        var d := Dicts.Put(prev.results, symbol, r);
        if r.success {
          forall i | 0 <= i < |d|
            ensures d[i].1.success
          {
            assert d[i] in d;
            if d[i] in prev.results {
              var j :| 0 <= j < |prev.results| && prev.results[j] == d[i];
            }
          }
        } else {
          var i :| 0 <= i < |d| && d[i] == (symbol, r);
        }
      }
    }
  }

  // ---------------------------------------------------------------------
  // Summaries over many symbols

  /** `get_workflow_summary`. */
  datatype WorkflowSummary = WorkflowSummary(
    totalSymbols: nat,
    successfulSymbols: nat,
    failedSymbols: int,
    totalCandlesCreated: nat,
    timeframeSummary: Dicts.Dict<nat>,
    errorSummary: Dicts.Dict<seq<string>>)

  function CountSuccessful(rs: Dicts.Dict<WorkflowResult>): (n: nat)
    ensures n <= |rs|
  {
    if |rs| == 0 then 0 else CountSuccessful(rs[..|rs| - 1]) + (if rs[|rs| - 1].1.success then 1 else 0)
  }

  function TotalCandles(rs: Dicts.Dict<WorkflowResult>): nat
  {
    if |rs| == 0 then 0 else TotalCandles(rs[..|rs| - 1]) + rs[|rs| - 1].1.TotalCandlesCreated()
  }

  /** The per-timeframe counts of one result added into `acc`. */
  function AddCounts(acc: Dicts.Dict<nat>, counts: Dicts.Dict<nat>): Dicts.Dict<nat>
  {
    if |counts| == 0 then acc
    else
      var prev := AddCounts(acc, counts[..|counts| - 1]);
      var e := counts[|counts| - 1];
      Dicts.Put(prev, e.0, Dicts.Get(prev, e.0).GetOr(0) + e.1)
  }

  function TimeframeTotals(rs: Dicts.Dict<WorkflowResult>): Dicts.Dict<nat>
  {
    if |rs| == 0 then [] else AddCounts(TimeframeTotals(rs[..|rs| - 1]), rs[|rs| - 1].1.results)
  }

  /** The line an error contributes: `"{symbol}: {error}"`. */
  function ErrorLine(symbol: string, error: string): string
  {
    symbol + ": " + error
  }

  /** The errors of one result appended, line by line, under their
      timeframes. */
  function AddErrors(acc: Dicts.Dict<seq<string>>, symbol: string, errors: Dicts.Dict<string>): Dicts.Dict<seq<string>>
  {
    if |errors| == 0 then acc
    else
      var prev := AddErrors(acc, symbol, errors[..|errors| - 1]);
      var e := errors[|errors| - 1];
      Dicts.Put(prev, e.0, Dicts.Get(prev, e.0).GetOr([]) + [ErrorLine(symbol, e.1)])
  }

  function ErrorLines(rs: Dicts.Dict<WorkflowResult>): Dicts.Dict<seq<string>>
  {
    if |rs| == 0 then [] else AddErrors(ErrorLines(rs[..|rs| - 1]), rs[|rs| - 1].1.symbol, rs[|rs| - 1].1.errors)
  }

  function SummarySpec(rs: Dicts.Dict<WorkflowResult>): WorkflowSummary
  {
    if |rs| == 0 then WorkflowSummary(0, 0, 0, 0, [], [])
    else
      WorkflowSummary(|rs|, CountSuccessful(rs), |rs| - CountSuccessful(rs), TotalCandles(rs),
                      TimeframeTotals(rs), ErrorLines(rs))
  }

  lemma {:induction false} AddCountsDistinct(acc: Dicts.Dict<nat>, counts: Dicts.Dict<nat>)
    requires Dicts.DistinctKeys(acc)
    ensures Dicts.DistinctKeys(AddCounts(acc, counts))
  {
    if |counts| > 0 {
      var e := counts[|counts| - 1];
      AddCountsDistinct(acc, counts[..|counts| - 1]);
      var prev := AddCounts(acc, counts[..|counts| - 1]);
      Dicts.PutMeaning(prev, e.0, Dicts.Get(prev, e.0).GetOr(0) + e.1);
    }
  }

  lemma AddCountsLast(acc: Dicts.Dict<nat>, counts: Dicts.Dict<nat>, prev: Dicts.Dict<nat>, v: nat)
    requires |counts| > 0 && prev == AddCounts(acc, counts[..|counts| - 1])
    requires v == Dicts.Get(prev, counts[|counts| - 1].0).GetOr(0) + counts[|counts| - 1].1
    ensures AddCounts(acc, counts) == Dicts.Put(prev, counts[|counts| - 1].0, v)
  {
  }

  /** Adding one result's counts adds their sum to the running total. */
  lemma {:induction false} AddCountsSum(acc: Dicts.Dict<nat>, counts: Dicts.Dict<nat>)
    requires Dicts.DistinctKeys(acc)
    ensures Dicts.Sum(AddCounts(acc, counts)) == Dicts.Sum(acc) + Dicts.Sum(counts)
  {
    if |counts| > 0 {
      var init := counts[..|counts| - 1];
      var e := counts[|counts| - 1];
      AddCountsSum(acc, init);
      AddCountsDistinct(acc, init);
      var prev := AddCounts(acc, init);
      var v := Dicts.Get(prev, e.0).GetOr(0) + e.1;
      Dicts.PutSum(prev, e.0, v);
      AddCountsLast(acc, counts, prev, v);
      assert counts == init + [e];
      Dicts.SumSnoc(init, e);
    }
  }

  /** The per-timeframe totals add up to the total of candles created. */
  lemma {:induction false} TimeframeTotalsSum(rs: Dicts.Dict<WorkflowResult>)
    ensures Dicts.DistinctKeys(TimeframeTotals(rs))
    ensures Dicts.Sum(TimeframeTotals(rs)) == TotalCandles(rs)
  {
    if |rs| > 0 {
      TimeframeTotalsSum(rs[..|rs| - 1]);
      AddCountsDistinct(TimeframeTotals(rs[..|rs| - 1]), rs[|rs| - 1].1.results);
      AddCountsSum(TimeframeTotals(rs[..|rs| - 1]), rs[|rs| - 1].1.results);
    }
  }

  /** Adding one result's counts raises each timeframe's entry by exactly
      what that result files under it. */
  lemma {:induction false} AddCountsAt(acc: Dicts.Dict<nat>, counts: Dicts.Dict<nat>, tf: string)
    requires Dicts.DistinctKeys(acc)
    ensures Dicts.Get(AddCounts(acc, counts), tf).GetOr(0) == Dicts.Get(acc, tf).GetOr(0) + Dicts.KeySum(counts, tf)
  {
    if |counts| > 0 {
      var init := counts[..|counts| - 1];
      var e := counts[|counts| - 1];
      AddCountsAt(acc, init, tf);
      AddCountsDistinct(acc, init);
      var prev := AddCounts(acc, init);
      var v := Dicts.Get(prev, e.0).GetOr(0) + e.1;
      AddCountsLast(acc, counts, prev, v);
      Dicts.PutMeaning(prev, e.0, v);
      if e.0 == tf {
        assert Dicts.Get(AddCounts(acc, counts), tf) == Some(v);
      } else {
        assert Dicts.Get(AddCounts(acc, counts), tf) == Dicts.Get(prev, tf);
      }
    }
  }

  /** After adding one result's counts, the timeframes present are those
      present before and those the result names. */
  lemma {:induction false} AddCountsKeys(acc: Dicts.Dict<nat>, counts: Dicts.Dict<nat>, tf: string)
    requires Dicts.DistinctKeys(acc)
    ensures tf in Dicts.Keys(AddCounts(acc, counts)) <==> tf in Dicts.Keys(acc) || tf in Dicts.Keys(counts)
  {
    if |counts| > 0 {
      var init := counts[..|counts| - 1];
      var e := counts[|counts| - 1];
      AddCountsKeys(acc, init, tf);
      AddCountsDistinct(acc, init);
      var prev := AddCounts(acc, init);
      var v := Dicts.Get(prev, e.0).GetOr(0) + e.1;
      AddCountsLast(acc, counts, prev, v);
      Dicts.PutMeaning(prev, e.0, v);
      assert Dicts.Keys(counts) == Dicts.Keys(init) + [e.0];
    }
  }

  /** The candles all results created for `tf`, added up result by result. */
  function TimeframeCount(rs: Dicts.Dict<WorkflowResult>, tf: string): nat
  {
    if |rs| == 0 then 0 else TimeframeCount(rs[..|rs| - 1], tf) + Dicts.KeySum(rs[|rs| - 1].1.results, tf)
  }

  /** Each timeframe's total is the sum of that timeframe's counts over all
      results, and the totals name exactly the timeframes some result names. */
  lemma {:induction false} TimeframeTotalsAt(rs: Dicts.Dict<WorkflowResult>, tf: string)
    ensures Dicts.Get(TimeframeTotals(rs), tf).GetOr(0) == TimeframeCount(rs, tf)
    ensures tf in Dicts.Keys(TimeframeTotals(rs)) <==> exists i :: 0 <= i < |rs| && tf in Dicts.Keys(rs[i].1.results)
  {
    if |rs| > 0 {
      var init := rs[..|rs| - 1];
      var last := rs[|rs| - 1].1.results;
      var prev := TimeframeTotals(init);
      assert TimeframeTotals(rs) == AddCounts(prev, last);
      assert TimeframeCount(rs, tf) == TimeframeCount(init, tf) + Dicts.KeySum(last, tf);
      TimeframeTotalsAt(init, tf);
      TimeframeTotalsSum(init);
      AddCountsAt(prev, last, tf);
      AddCountsKeys(prev, last, tf);
      if tf in Dicts.Keys(last) {
        assert tf in Dicts.Keys(rs[|rs| - 1].1.results);
      } else if exists i :: 0 <= i < |rs| && tf in Dicts.Keys(rs[i].1.results) {
        var i :| 0 <= i < |rs| && tf in Dicts.Keys(rs[i].1.results);
        assert i < |rs| - 1 && init[i] == rs[i];
      }
    }
  }

  /** The summary splits the symbols into successful and failed ones; its
      timeframe summary holds, under each timeframe some result names, the
      sum of that timeframe's counts, and adds up to the candle total; no
      results give an all-zero summary. */
  lemma SummaryMeaning(rs: Dicts.Dict<WorkflowResult>)
    ensures var s := SummarySpec(rs);
      && s.totalSymbols == |rs|
      && s.successfulSymbols + s.failedSymbols == s.totalSymbols
      && 0 <= s.failedSymbols
      && (forall tf :: Dicts.Get(s.timeframeSummary, tf).GetOr(0) == TimeframeCount(rs, tf))
      && (forall tf :: tf in Dicts.Keys(s.timeframeSummary) <==>
                       exists i :: 0 <= i < |rs| && tf in Dicts.Keys(rs[i].1.results))
      && Dicts.Sum(s.timeframeSummary) == s.totalCandlesCreated
      && (|rs| == 0 ==> s == WorkflowSummary(0, 0, 0, 0, [], []))
  {
    TimeframeTotalsSum(rs);
    forall tf
      ensures Dicts.Get(TimeframeTotals(rs), tf).GetOr(0) == TimeframeCount(rs, tf)
      ensures tf in Dicts.Keys(TimeframeTotals(rs)) <==> exists i :: 0 <= i < |rs| && tf in Dicts.Keys(rs[i].1.results)
    {
      TimeframeTotalsAt(rs, tf);
    }
  }

  /** `dict.fromkeys(symbols, 0)`: what the background job returns when
      bulk resampling raises. */
  function DailyFallback(symbols: seq<string>): (r: Dicts.Dict<nat>)
    ensures forall s :: s in Dicts.Keys(r) <==> s in symbols
    ensures Dicts.Sum(r) == 0
  {
    var r := Dicts.FromKeys(symbols, 0);
    Dicts.SumZeros(r);
    r
  }

  // ---------------------------------------------------------------------
  // The service object

  /** `StockMarketResamplingWorkflow`: a resampling service, the configured
      target timeframes and the standard order. */
  class StockMarketResamplingWorkflow {
    const service: Resampling.DataResamplingService
    const configuredTargets: seq<string>
    const standardOrder: seq<string>

    constructor (configured: seq<string>)
      ensures fresh(service) && fresh(service.storage) && fresh(service.classifier)
      ensures configuredTargets == configured && standardOrder == StandardOrder
      ensures service.storage.files == map[]
    {
      service := new Resampling.DataResamplingService();
      configuredTargets := configured;
      standardOrder := StandardOrder;
    }

    /** `get_target_timeframes`: the custom list when given, else the
        configured one, filtered through the standard order. */
    method GetTargetTimeframes(custom: Option<seq<string>>) returns (ordered: seq<string>)
      ensures ordered == InOrder(standardOrder, if custom.Some? then custom.value else configuredTargets)
    {
      var wanted := if custom.Some? then custom.value else configuredTargets;
      ordered := [];
      var i := 0;
      while i < |standardOrder|
        invariant 0 <= i <= |standardOrder|
        invariant ordered == InOrder(standardOrder[..i], wanted)
      {
        assert standardOrder[..i + 1][..i] == standardOrder[..i];
        if standardOrder[i] in wanted {
          ordered := ordered + [standardOrder[i]];
        }
        i := i + 1;
      }
      assert standardOrder[..i] == standardOrder;
    }

    /** `resample_symbol_complete_workflow`: each target resampled and
        stored in turn; a failure is recorded against its timeframe and,
        with `stopOnError`, ends the loop. */
    method ResampleSymbolCompleteWorkflow(symbol: string, source: string, targets: Option<seq<string>>,
                                          start: Option<int>, end: Option<int>, stopOnError: bool)
      returns (r: WorkflowResult)
      modifies service.storage
      ensures var ts := if targets.Some? then targets.value else InOrder(standardOrder, configuredTargets);
        var asset := Classification.ClassifyWith(old(service.classifier.cryptoSymbols), old(service.classifier.commoditySymbols), symbol);
        var step := ResampleStep(asset, symbol, source, start, end);
        var run := WorkflowRun(old(service.storage.files), step, ts, stopOnError);
        r == WorkflowReport(symbol, source, ts, run) && service.storage.files == run.files
    {
      var ts: seq<string>;
      if targets.Some? {
        ts := targets.value;
      } else {
        ts := GetTargetTimeframes(None);
      }
      ghost var files0 := service.storage.files;
      ghost var asset := Classification.ClassifyWith(service.classifier.cryptoSymbols, service.classifier.commoditySymbols, symbol);
      ghost var step := ResampleStep(asset, symbol, source, start, end);
      var results: Dicts.Dict<nat> := [];
      var errors: Dicts.Dict<string> := [];
      var i := 0;
      while i < |ts|
        invariant 0 <= i <= |ts|
        invariant Run(results, errors, service.storage.files, false)
               == WorkflowRun(files0, step, ts[..i], stopOnError)
      {
        ghost var prev := Run(results, errors, service.storage.files, false);
        var count := ResampleTarget(symbol, source, ts[i], start, end);
        WorkflowRunSnoc(files0, step, ts, i, stopOnError, prev);
        if count.Ok? {
          results := Dicts.Put(results, ts[i], count.value);
        } else {
          errors := Dicts.Put(errors, ts[i], count.error);
          if stopOnError {
            StoppedRunStays(files0, step, ts, i + 1, stopOnError);
            break;
          }
        }
        i := i + 1;
      }
      if i == |ts| {
        assert ts[..i] == ts;
      }
      r := WorkflowResult(symbol, source, ts, |errors| == 0, results, errors);
    }

    /** `resample_multiple_symbols_complete_workflow`: every result is filed
        under its own symbol with the shared targets; every symbol is
        processed unless, with `stopOnSymbolError`, a symbol that did not
        fully succeed broke the loop off. */
    method ResampleMultipleSymbols(symbols: seq<string>, source: string, targets: Option<seq<string>>,
                                   start: Option<int>, end: Option<int>, stopOnSymbolError: bool)
      returns (results: Dicts.Dict<WorkflowResult>)
      modifies service.storage
      ensures var ts := if targets.Some? then targets.value else InOrder(standardOrder, configuredTargets);
        Dicts.DistinctKeys(results) && FiledBySymbol(results, ts)
      ensures forall s :: s in Dicts.Keys(results) ==> s in symbols
      ensures !stopOnSymbolError || AllSucceeded(results) ==> forall s :: s in symbols ==> s in Dicts.Keys(results)
    {
      var ts: seq<string>;
      if targets.Some? {
        ts := targets.value;
      } else {
        ts := GetTargetTimeframes(None);
      }
      results := [];
      var i := 0;
      while i < |symbols|
        invariant 0 <= i <= |symbols|
        invariant Dicts.DistinctKeys(results) && FiledBySymbol(results, ts)
        invariant forall s :: s in Dicts.Keys(results) <==> s in symbols[..i]
      {
        var result := SymbolWorkflow(symbols[i], source, ts, start, end);
        FileResult(results, symbols[i], result, ts);
        assert symbols[..i + 1] == symbols[..i] + [symbols[i]];
        results := Dicts.Put(results, symbols[i], result);
        if !result.success && stopOnSymbolError {
          Dicts.PutEntries(results, symbols[i], result);
          assert (symbols[i], result) in results;
          return;
        }
        i := i + 1;
      }
      assert symbols[..i] == symbols;
    }

    /** One symbol's complete workflow, never stopping on an error, as
        the multi-symbol loop runs it. */
    method SymbolWorkflow(symbol: string, source: string, ts: seq<string>, start: Option<int>, end: Option<int>)
      returns (result: WorkflowResult)
      modifies service.storage
      ensures result.symbol == symbol && result.targetTimeframes == ts
      ensures result.success <==> |result.errors| == 0
    {
      result := ResampleSymbolCompleteWorkflow(symbol, source, Some(ts), start, end, false);
    }

    /** One iteration's call to `resample_and_store`, as a step. */
    method ResampleTarget(symbol: string, source: string, tf: string, start: Option<int>, end: Option<int>)
      returns (count: Result<nat, string>)
      modifies service.storage
      ensures Resampling.Stored(count, service.storage.files)
           == ResampleStep(Classification.ClassifyWith(old(service.classifier.cryptoSymbols), old(service.classifier.commoditySymbols), symbol),
                           symbol, source, start, end)(old(service.storage.files), tf)
    {
      count := service.ResampleAndStore(symbol, source, tf, start, end);
      ResampleStepApply(service.classifier.Classifier()(symbol), symbol, source, start, end, old(service.storage.files), tf);
    }

    /** `get_workflow_summary`: counts, totals and the per-timeframe counts
        and error lines, gathered result by result. */
    method GetWorkflowSummary(rs: Dicts.Dict<WorkflowResult>) returns (s: WorkflowSummary)
      ensures s == SummarySpec(rs)
    {
      if |rs| == 0 {
        return WorkflowSummary(0, 0, 0, 0, [], []);
      }
      var successful := 0;
      var total := 0;
      var timeframes: Dicts.Dict<nat> := [];
      var errorLines: Dicts.Dict<seq<string>> := [];
      var i := 0;
      while i < |rs|
        invariant 0 <= i <= |rs|
        invariant successful == CountSuccessful(rs[..i]) && total == TotalCandles(rs[..i])
        invariant timeframes == TimeframeTotals(rs[..i]) && errorLines == ErrorLines(rs[..i])
      {
        assert rs[..i + 1][..i] == rs[..i];
        var result := rs[i].1;
        if result.success {
          successful := successful + 1;
        }
        total := total + result.TotalCandlesCreated();
        timeframes := AddAllCounts(timeframes, result.results);
        errorLines := AddAllErrors(errorLines, result.symbol, result.errors);
        i := i + 1;
      }
      assert rs[..i] == rs;
      s := WorkflowSummary(|rs|, successful, |rs| - successful, total, timeframes, errorLines);
    }

    /** `resample_daily_background`: every symbol resampled from one-minute
        to daily candles, counted per symbol. */
    method ResampleDailyBackground(symbols: seq<string>, start: Option<int>, end: Option<int>)
      returns (results: Dicts.Dict<nat>)
      modifies service.storage
      ensures Resampling.Bulk(results, service.storage.files)
           == Resampling.BulkSpec(old(service.storage.files), service.classifier.Classifier(), symbols,
                                  "1min", "daily", start, end)
    {
      results := service.BulkResample(symbols, "1min", "daily", start, end);
    }
  }

  /** The inner loop of the timeframe summary: one result's counts. */
  method AddAllCounts(acc: Dicts.Dict<nat>, counts: Dicts.Dict<nat>) returns (r: Dicts.Dict<nat>)
    ensures r == AddCounts(acc, counts)
  {
    r := acc;
    var j := 0;
    while j < |counts|
      invariant 0 <= j <= |counts|
      invariant r == AddCounts(acc, counts[..j])
    {
      assert counts[..j + 1][..j] == counts[..j];
      var tf := counts[j].0;
      r := Dicts.Put(r, tf, Dicts.Get(r, tf).GetOr(0) + counts[j].1);
      j := j + 1;
    }
    assert counts[..j] == counts;
  }

  /** The inner loop of the error summary: one result's error lines. */
  method AddAllErrors(acc: Dicts.Dict<seq<string>>, symbol: string, errors: Dicts.Dict<string>)
    returns (r: Dicts.Dict<seq<string>>)
    ensures r == AddErrors(acc, symbol, errors)
  {
    r := acc;
    var j := 0;
    while j < |errors|
      invariant 0 <= j <= |errors|
      invariant r == AddErrors(acc, symbol, errors[..j])
    {
      assert errors[..j + 1][..j] == errors[..j];
      var tf := errors[j].0;
      r := Dicts.Put(r, tf, Dicts.Get(r, tf).GetOr([]) + [ErrorLine(symbol, errors[j].1)]);
      j := j + 1;
    }
    assert errors[..j] == errors;
  }
}
