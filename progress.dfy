/** The progress of nightly update requests: for each request, a table of
    per-symbol progress in the order the symbols were listed, and the
    requests that are still active.  Times (`datetime.now()`) are passed in
    as plain numbers. */
module NightlyProgress {
  import opened Wrappers
  import Dicts
  import Decimal

  /** `SymbolProgress`; the percentage is kept as the caller gives it. */
  datatype SymbolProgress = SymbolProgress(
    symbol: string,
    status: string,
    percentage: real,
    currentStep: string,
    errorMessage: Option<string>,
    startedAt: Option<int>,
    completedAt: Option<int>)

  /** `ActiveUpdateInfo`: the symbols of the request, when it started, its
      status ("starting", "running", "failed") and its error, if any. */
  datatype ActiveUpdateInfo = ActiveUpdateInfo(
    symbols: seq<string>,
    startedAt: int,
    status: string,
    error: Option<string>)

  /** `ProgressInfo` without the averaged percentage and the time estimate. */
  datatype ProgressInfo = ProgressInfo(
    totalSymbols: nat,
    completedSymbols: nat,
    currentSymbol: Option<string>,
    currentStep: string,
    symbolsInProgress: seq<string>)

  type Table = Dicts.Dict<SymbolProgress>

  predicate Finished(status: string)
  {
    status == "completed" || status == "failed"
  }

  /** Neither waiting nor finished. */
  predicate InFlight(status: string)
  {
    status != "pending" && !Finished(status)
  }

  /** The entry `initialize_progress_tracking` gives each symbol. */
  function Queued(symbol: string): SymbolProgress
  {
    SymbolProgress(symbol, "pending", 0.0, "Queued for processing", None, None, None)
  }

  /** The table after `initialize_progress_tracking`: each listed symbol,
      queued, a repeated symbol once. */
  function QueuedAll(symbols: seq<string>): Table
  {
    if |symbols| == 0 then []
    else
      var s := symbols[|symbols| - 1];
      Dicts.Put(QueuedAll(symbols[..|symbols| - 1]), s, Queued(s))
  }

  lemma QueuedAllSnoc(symbols: seq<string>, i: int)
    requires 0 <= i < |symbols|
    ensures QueuedAll(symbols[..i + 1]) == Dicts.Put(QueuedAll(symbols[..i]), symbols[i], Queued(symbols[i]))
  {
    assert symbols[..i + 1][..i] == symbols[..i];
  }

  /** After initialisation every listed symbol, and no other, is pending at
      zero with "Queued for processing". */
  lemma {:induction false} QueuedAllMeaning(symbols: seq<string>)
    ensures Dicts.DistinctKeys(QueuedAll(symbols))
    ensures forall s :: s in Dicts.Keys(QueuedAll(symbols)) <==> s in symbols
    ensures forall e :: e in QueuedAll(symbols) ==> e.1 == Queued(e.0)
  {
    if |symbols| > 0 {
      var init := symbols[..|symbols| - 1];
      var s := symbols[|symbols| - 1];
      QueuedAllMeaning(init);
      Dicts.PutMeaning(QueuedAll(init), s, Queued(s));
      Dicts.PutEntries(QueuedAll(init), s, Queued(s));
      assert forall x :: x in symbols <==> x in init || x == s;
    }
  }

  /** One call of `update_symbol_progress` on an entry: status, percentage
      and step are replaced; the error message only by a non-empty one; the
      start time is set on the first "downloading" update, and the end time
      on every "completed" or "failed" one. */
  function Updated(p: SymbolProgress, status: string, percentage: real, step: string,
                   error: Option<string>, now: int): SymbolProgress
  {
    p.(status := status, percentage := percentage, currentStep := step,
       errorMessage := if error.Some? && error.value != "" then error else p.errorMessage,
       startedAt := if status == "downloading" && p.startedAt.None? then Some(now) else p.startedAt,
       completedAt := if Finished(status) then Some(now) else p.completedAt)
  }

  /** The progress tables after `update_symbol_progress`: only a symbol of
      a known request changes. */
  function AfterUpdate(tracking: map<string, Table>, requestId: string, symbol: string, status: string,
                       percentage: real, step: string, error: Option<string>, now: int): map<string, Table>
  {
    if requestId in tracking && symbol in Dicts.Keys(tracking[requestId]) then
      var table := tracking[requestId];
      tracking[requestId := Dicts.Put(table, symbol, Updated(Dicts.Get(table, symbol).value, status,
                                                               percentage, step, error, now))]
    else tracking
  }

  /** An update of a known symbol changes that symbol's entry and nothing
      else; an update of an unknown request or symbol changes nothing. */
  lemma AfterUpdateMeaning(tracking: map<string, Table>, requestId: string, symbol: string, status: string,
                           percentage: real, step: string, error: Option<string>, now: int)
    requires requestId in tracking ==> Dicts.DistinctKeys(tracking[requestId])
    ensures var r := AfterUpdate(tracking, requestId, symbol, status, percentage, step, error, now);
      && r.Keys == tracking.Keys
      && (forall id :: id in tracking && id != requestId ==> r[id] == tracking[id])
      && (requestId !in tracking || symbol !in Dicts.Keys(tracking[requestId]) ==> r == tracking)
    ensures requestId in tracking && symbol in Dicts.Keys(tracking[requestId]) ==>
      var r := AfterUpdate(tracking, requestId, symbol, status, percentage, step, error, now);
      var p := Dicts.Get(tracking[requestId], symbol).value;
      && Dicts.DistinctKeys(r[requestId])
      && (forall s :: s in Dicts.Keys(r[requestId]) <==> s in Dicts.Keys(tracking[requestId]))
      && Dicts.Get(r[requestId], symbol) == Some(Updated(p, status, percentage, step, error, now))
      && (forall s :: s != symbol ==> Dicts.Get(r[requestId], s) == Dicts.Get(tracking[requestId], s))
  {
    if requestId in tracking && symbol in Dicts.Keys(tracking[requestId]) {
      var table := tracking[requestId];
      var p := Dicts.Get(table, symbol).value;
      Dicts.PutMeaning(table, symbol, Updated(p, status, percentage, step, error, now));
    }
  }

  // ---------------------------------------------------------------------
  // A symbol's progress over a series of updates

  /** The arguments of one `update_symbol_progress` call for a symbol. */
  datatype Event = Event(status: string, percentage: real, step: string, error: Option<string>, now: int)

  function Apply(p: SymbolProgress, e: Event): SymbolProgress
  {
    Updated(p, e.status, e.percentage, e.step, e.error, e.now)
  }

  function Replay(p: SymbolProgress, es: seq<Event>): SymbolProgress
    decreases |es|
  {
    if |es| == 0 then p else Replay(Apply(p, es[0]), es[1..])
  }

  /** The time of the first "downloading" update. */
  function FirstDownload(es: seq<Event>): Option<int>
  {
    if |es| == 0 then None
    else if es[0].status == "downloading" then Some(es[0].now)
    else FirstDownload(es[1..])
  }

  /** The time of the last "completed" or "failed" update. */
  function LastFinish(es: seq<Event>): Option<int>
  {
    if |es| == 0 then None
    else if LastFinish(es[1..]).Some? then LastFinish(es[1..])
    else if Finished(es[0].status) then Some(es[0].now)
    else None
  }

  /** The last non-empty error message. */
  function LastError(es: seq<Event>): Option<string>
  {
    if |es| == 0 then None
    else if LastError(es[1..]).Some? then LastError(es[1..])
    else if es[0].error.Some? && es[0].error.value != "" then es[0].error
    else None
  }

  /** Over any series of updates, the start time is set once, by the first
      "downloading" update, the end time is that of the last "completed" or
      "failed" update, and the error message is the last non-empty one; the
      symbol never changes. */
  lemma {:induction false} ReplayMeaning(p: SymbolProgress, es: seq<Event>)
    ensures var q := Replay(p, es);
      && q.symbol == p.symbol
      && q.startedAt == (if p.startedAt.Some? then p.startedAt else FirstDownload(es))
      && q.completedAt == (if LastFinish(es).Some? then LastFinish(es) else p.completedAt)
      && q.errorMessage == (if LastError(es).Some? then LastError(es) else p.errorMessage)
      && (|es| > 0 ==> q.status == es[|es| - 1].status && q.currentStep == es[|es| - 1].step)
    decreases |es|
  {
    if |es| > 0 {
      ReplayMeaning(Apply(p, es[0]), es[1..]);
      if |es| > 1 {
        assert es[1..][|es[1..]| - 1] == es[|es| - 1];
      }
    }
  }

  // ---------------------------------------------------------------------
  // Overall progress

  /** How many symbols have completed or failed. */
  function CountFinished(t: Table): (n: nat)
    ensures n <= |t|
  {
    if |t| == 0 then 0 else CountFinished(t[..|t| - 1]) + (if Finished(t[|t| - 1].1.status) then 1 else 0)
  }

  /** The symbols in flight, in table order. */
  function InFlightSymbols(t: Table): seq<string>
  {
    if |t| == 0 then []
    else InFlightSymbols(t[..|t| - 1]) + (if InFlight(t[|t| - 1].1.status) then [t[|t| - 1].1.symbol] else [])
  }

  /** `", ".join(names)`. */
  function Join(names: seq<string>): string
  {
    if |names| == 0 then ""
    else if |names| == 1 then names[0]
    else Join(names[..|names| - 1]) + ", " + names[|names| - 1]
  }

  const AllCompleted: string := "All symbols completed"

  /** The current step of the overall progress: all done; else the first
      three symbols in flight and how many more; else not started. */
  function StepText(total: nat, completed: nat, inFlight: seq<string>): string
  {
    if completed == total then AllCompleted
    else if |inFlight| > 0 then
      "Processing " + Join(inFlight[..if |inFlight| < 3 then |inFlight| else 3])
      + (if |inFlight| > 3 then " and " + Decimal.NatToString(|inFlight| - 3) + " more" else "")
    else "Starting processing"
  }

  lemma StepTextMeaning(total: nat, completed: nat, inFlight: seq<string>)
    ensures StepText(total, completed, inFlight) == AllCompleted <==> completed == total
  {
    var s := StepText(total, completed, inFlight);
    if completed != total {
      assert s[0] != AllCompleted[0];
    }
  }

  /** Finished and in-flight symbols are distinct entries of the table. */
  lemma {:induction false} CountsBounded(t: Table)
    ensures CountFinished(t) + |InFlightSymbols(t)| <= |t|
  {
    if |t| > 0 {
      CountsBounded(t[..|t| - 1]);
    }
  }

  lemma {:induction false} InFlightMembers(t: Table)
    ensures forall s :: s in InFlightSymbols(t) <==> exists e :: e in t && e.1.symbol == s && InFlight(e.1.status)
  {
    if |t| > 0 {
      var init := t[..|t| - 1];
      InFlightMembers(init);
      assert t == init + [t[|t| - 1]];
      forall s
        ensures s in InFlightSymbols(t) <==> exists e :: e in t && e.1.symbol == s && InFlight(e.1.status)
      {
        if exists e :: e in t && e.1.symbol == s && InFlight(e.1.status) {
          var e :| e in t && e.1.symbol == s && InFlight(e.1.status);
          if e != t[|t| - 1] {
            assert e in init;
          }
        }
      }
    }
  }

  /** Nothing is finished or in flight in a freshly queued table. */
  lemma {:induction false} QueuedIdle(t: Table)
    requires forall e :: e in t ==> e.1 == Queued(e.0)
    ensures CountFinished(t) == 0 && InFlightSymbols(t) == []
  {
    if |t| > 0 {
      assert t[|t| - 1] in t;
      QueuedIdle(t[..|t| - 1]);
    }
  }

  /** One entry per symbol, filed under that symbol. */
  predicate TableValid(t: Table)
  {
    && Dicts.DistinctKeys(t)
    && (forall e :: e in t ==> e.1.symbol == e.0)
  }

  lemma QueuedAllValid(symbols: seq<string>)
    ensures TableValid(QueuedAll(symbols))
  {
    QueuedAllMeaning(symbols);
  }

  /** Updating one entry of a valid table keeps it valid. */
  lemma UpdatedValid(t: Table, symbol: string, q: SymbolProgress)
    requires TableValid(t) && symbol in Dicts.Keys(t) && q.symbol == symbol
    ensures TableValid(Dicts.Put(t, symbol, q))
  {
    Dicts.PutEntries(t, symbol, q);
    Dicts.PutMeaning(t, symbol, q);
  }

  // ---------------------------------------------------------------------
  // The service

  /** `NightlyUpdateProgressService`: the active requests and the progress
      table of every tracked request. */
  class ProgressService {
    var activeUpdates: map<string, ActiveUpdateInfo>
    var progressTracking: map<string, Table>

    /** Each table has one entry per symbol, filed under that symbol. */
    ghost predicate Valid()
      reads this
    {
      forall id :: id in progressTracking ==> TableValid(progressTracking[id])
    }

    constructor()
      ensures Valid() && activeUpdates == map[] && progressTracking == map[]
    {
      activeUpdates := map[];
      progressTracking := map[];
    }

    /** `initialize_progress_tracking`: a fresh table for the request, each
        listed symbol queued. */
    method InitializeProgressTracking(requestId: string, symbols: seq<string>)
      requires Valid()
      modifies this
      ensures Valid() && activeUpdates == old(activeUpdates)
      ensures progressTracking == old(progressTracking)[requestId := QueuedAll(symbols)]
    {
      progressTracking := progressTracking[requestId := []];
      var i := 0;
      while i < |symbols|
        invariant 0 <= i <= |symbols|
        invariant activeUpdates == old(activeUpdates)
        invariant progressTracking == old(progressTracking)[requestId := QueuedAll(symbols[..i])]
      {
        QueuedAllSnoc(symbols, i);
        var table := progressTracking[requestId];
        progressTracking := progressTracking[requestId := Dicts.Put(table, symbols[i], Queued(symbols[i]))];
        i := i + 1;
      }
      assert symbols[..i] == symbols;
      QueuedAllValid(symbols);
    }

    /** `update_symbol_progress`. */
    method UpdateSymbolProgress(requestId: string, symbol: string, status: string, percentage: real,
                                step: string, error: Option<string>, now: int)
      requires Valid()
      modifies this
      ensures Valid() && activeUpdates == old(activeUpdates)
      ensures progressTracking == AfterUpdate(old(progressTracking), requestId, symbol, status, percentage, step, error, now)
    {
      if requestId in progressTracking && symbol in Dicts.Keys(progressTracking[requestId]) {
        var table := progressTracking[requestId];
        var p := Dicts.Get(table, symbol).value;
        var q := Updated(p, status, percentage, step, error, now);
        Dicts.GetUnique(table, symbol);
        UpdatedValid(table, symbol, q);
        progressTracking := progressTracking[requestId := Dicts.Put(table, symbol, q)];
      }
    }

    /** `calculate_overall_progress`, without the averaged percentage and
        the time estimate. */
    function CalculateOverallProgress(requestId: string): ProgressInfo
      reads this
    {
      if requestId !in progressTracking then ProgressInfo(0, 0, None, "Unknown", [])
      else
        var t := progressTracking[requestId];
        var inFlight := InFlightSymbols(t);
        ProgressInfo(|t|, CountFinished(t), if |inFlight| > 0 then Some(inFlight[0]) else None,
                     StepText(|t|, CountFinished(t), inFlight), inFlight)
    }

    /** `get_symbol_progress`: the request's table, empty when unknown. */
    function GetSymbolProgress(requestId: string): Table
      reads this
    {
      if requestId in progressTracking then progressTracking[requestId] else []
    }

    predicate HasProgressTracking(requestId: string)
      reads this
    {
      requestId in progressTracking
    }

    /** `store_active_update`. */
    method StoreActiveUpdate(requestId: string, info: ActiveUpdateInfo)
      modifies this
      ensures activeUpdates == old(activeUpdates)[requestId := info]
      ensures progressTracking == old(progressTracking)
    {
      activeUpdates := activeUpdates[requestId := info];
    }

    /** `get_active_update`. */
    function GetActiveUpdate(requestId: string): (r: Option<ActiveUpdateInfo>)
      reads this
    {
      if requestId in activeUpdates then Some(activeUpdates[requestId]) else None
    }

    /** `remove_active_update`: that request, and only it, is no longer
        active; removing an absent request changes nothing. */
    method RemoveActiveUpdate(requestId: string)
      modifies this
      ensures activeUpdates == old(activeUpdates) - {requestId}
      ensures progressTracking == old(progressTracking)
    {
      if requestId in activeUpdates {
        activeUpdates := activeUpdates - {requestId};
      }
    }

    /** `get_all_active_updates`: a copy of the active requests. */
    method GetAllActiveUpdates() returns (r: map<string, ActiveUpdateInfo>)
      ensures r == activeUpdates
    {
      r := activeUpdates;
    }

    /** `cleanup_progress_tracking`. */
    method CleanupProgressTracking(requestId: string)
      requires Valid()
      modifies this
      ensures Valid() && activeUpdates == old(activeUpdates)
      ensures progressTracking == old(progressTracking) - {requestId}
    {
      if requestId in progressTracking {
        progressTracking := progressTracking - {requestId};
      }
    }
  }

  /** Overall progress: an unknown request has no symbols and step
      "Unknown"; otherwise it counts the table's symbols and the finished
      ones, lists the symbols in flight in table order with the first one as
      the current symbol, and its step says all are done exactly when every
      symbol is finished. */
  lemma OverallProgressMeaning(svc: ProgressService, requestId: string)
    ensures requestId !in svc.progressTracking ==>
      svc.CalculateOverallProgress(requestId) == ProgressInfo(0, 0, None, "Unknown", [])
    ensures requestId in svc.progressTracking ==>
      var r := svc.CalculateOverallProgress(requestId);
      var t := svc.progressTracking[requestId];
      && r.totalSymbols == |t|
      && r.completedSymbols + |r.symbolsInProgress| <= r.totalSymbols
      && (forall s :: s in r.symbolsInProgress <==> exists e :: e in t && e.1.symbol == s && InFlight(e.1.status))
      && (r.currentSymbol.Some? <==> |r.symbolsInProgress| > 0)
      && (r.currentSymbol.Some? ==> r.currentSymbol.value == r.symbolsInProgress[0])
      && (r.currentStep == AllCompleted <==> r.completedSymbols == r.totalSymbols)
  {
    if requestId in svc.progressTracking {
      var t := svc.progressTracking[requestId];
      CountsBounded(t);
      InFlightMembers(t);
      StepTextMeaning(|t|, CountFinished(t), InFlightSymbols(t));
    }
  }

  /** Right after initialisation nothing is finished or in flight: the step
      is "Starting processing", or "All symbols completed" for no symbols. */
  lemma InitialProgress(symbols: seq<string>)
    ensures var t := QueuedAll(symbols);
      && CountFinished(t) == 0 && InFlightSymbols(t) == []
      && StepText(|t|, 0, []) == (if |symbols| == 0 then AllCompleted else "Starting processing")
  {
    QueuedAllMeaning(symbols);
    var t := QueuedAll(symbols);
    QueuedIdle(t);
    if |symbols| > 0 {
      assert symbols[0] in Dicts.Keys(t);
    }
  }
}
