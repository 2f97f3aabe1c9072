/** The batch planning and tracking of the Polygon.io client: the timeframe
    table, the batch size that keeps a request under the vendor's candle
    limit, the split of a day range into batches, the retry policy of one
    batch, the per-batch bookkeeping of a fetch and the re-attempt of the
    failed batches.

    Dates are day numbers.  What the vendor answers is a parameter: `fetch`
    gives the outcome of one batch (after its retries) and `attempt` the
    outcome of the n-th try of one request; waiting is returned as the list
    of delays instead of being slept. */
module PolygonClient {
  import opened Wrappers
  import opened PriceData
  import opened CandleSeqs
  import Timeframes

  /** The exceptions a request can raise.  Rate-limit and authentication
      errors are not Polygon errors; every kind is a provider error. */
  datatype ProviderError =
    | RateLimitError(message: string)
    | AuthenticationError(message: string)
    | PolygonError(message: string)
    | OtherError(message: string)

  /** The kinds `_fetch_batch_with_retry` tries again. */
  predicate Retryable(e: ProviderError)
  {
    e.RateLimitError? || e.PolygonError?
  }

  // ---------------------------------------------------------------------
  // Timeframes and batch size

  /** `_get_polygon_timeframe`: the multiplier and timespan of the
      aggregates endpoint. */
  function PolygonTimeframe(tf: string): (r: Result<(nat, string), ProviderError>)
    ensures r.Err? <==> tf !in {"1min", "5min", "15min", "30min", "1h", "2h", "4h", "daily", "1day"}
    ensures r.Err? ==> r.error == PolygonError("Unsupported timeframe: " + tf)
  {
    if tf == "1min" then Ok((1, "minute"))
    else if tf == "5min" then Ok((5, "minute"))
    else if tf == "15min" then Ok((15, "minute"))
    else if tf == "30min" then Ok((30, "minute"))
    else if tf == "1h" then Ok((1, "hour"))
    else if tf == "2h" then Ok((2, "hour"))
    else if tf == "4h" then Ok((4, "hour"))
    else if tf == "daily" || tf == "1day" then Ok((1, "day"))
    else Err(PolygonError("Unsupported timeframe: " + tf))
  }

  function TimespanMinutes(timespan: string): nat
  {
    if timespan == "minute" then 1 else if timespan == "hour" then 60 else 1440
  }

  /** Every timeframe of the system maps to a bar of the same length. */
  lemma PolygonTimeframeAgrees(tf: string)
    requires Timeframes.TimeframeMinutes(tf).Some?
    ensures PolygonTimeframe(tf).Ok?
    ensures PolygonTimeframe(tf).value.0 * TimespanMinutes(PolygonTimeframe(tf).value.1)
         == Timeframes.TimeframeMinutes(tf).value
  {
    Timeframes.TimeframeMinutesTable();
  }

  /** The estimated candles per trading day; an unknown timeframe counts as
      1-minute data. */
  function CandlesPerDay(tf: string): (n: nat)
    ensures n >= 1
  {
    if tf == "1min" then 390
    else if tf == "5min" then 78
    else if tf == "15min" then 26
    else if tf == "30min" then 13
    else if tf == "1h" then 7
    else if tf == "2h" then 4
    else if tf == "4h" then 2
    else if tf == "daily" || tf == "1day" then 1
    else 390
  }

  /** The most days a batch may span: 60 for 1-minute data, 90 for 5- and
      15-minute data, a year otherwise. */
  function BatchCap(tf: string): nat
  {
    if tf == "1min" then 60 else if tf == "5min" || tf == "15min" then 90 else 365
  }

  /** `_calculate_batch_size`. */
  function BatchSize(tf: string): (n: nat)
    ensures 1 <= n <= BatchCap(tf)
    ensures n == 45000 / CandlesPerDay(tf) || n == BatchCap(tf)
  {
    var maxDays := 45000 / CandlesPerDay(tf);
    if maxDays <= BatchCap(tf) then maxDays else BatchCap(tf)
  }

  /** A batch never asks for more than 45000 estimated candles, and it is as
      long as both bounds allow. */
  lemma BatchSizeMeaning(tf: string)
    ensures BatchSize(tf) * CandlesPerDay(tf) <= 45000
    ensures (BatchSize(tf) + 1) * CandlesPerDay(tf) > 45000 || BatchSize(tf) == BatchCap(tf)
  {
    var c := CandlesPerDay(tf);
    var q := 45000 / c;
    assert q * c + 45000 % c == 45000;
    if BatchSize(tf) == q {
      assert (q + 1) * c == q * c + c;
    } else {
      assert BatchSize(tf) <= q;
      MulMono(BatchSize(tf), q, c);
    }
  }

  lemma MulMono(a: nat, b: nat, c: nat)
    requires a <= b
    ensures a * c <= b * c
  {
  }

  /** The batch sizes of the table, as the tests pin them down. */
  lemma BatchSizeTable()
    ensures BatchSize("1min") == 60 && BatchSize("5min") == 90 && BatchSize("15min") == 90
    ensures BatchSize("30min") == 365 && BatchSize("1h") == 365 && BatchSize("daily") == 365
    ensures BatchSize("weekly") == 115
  {
  }

  // ---------------------------------------------------------------------
  // Batch plan

  function Min(a: int, b: int): int
  {
    if a <= b then a else b
  }

  /** The number of days from `from` to `to`, both included (zero or less
      when the range is reversed). */
  function RangeDays(from: int, to: int): int
  {
    to - from + 1
  }

  /** `⌈days / size⌉`, as the batch loop computes it. */
  function NumBatches(days: int, size: nat): nat
    requires size >= 1 && days >= 1
  {
    (days + size - 1) / size
  }

  /** Batch number `i` of a range longer than one batch: `size` days from
      `from + i * size`, cut at `to`. */
  function Batch(from: int, to: int, size: nat, i: int): (int, int)
  {
    (from + i * size, Min(from + i * size + size - 1, to))
  }

  /** The first `n` batches of a range longer than one batch. */
  function Batches(from: int, to: int, size: nat, n: nat): seq<(int, int)>
  {
    if n == 0 then [] else Batches(from, to, size, n - 1) + [Batch(from, to, size, n - 1)]
  }

  lemma {:induction false} BatchesIndex(from: int, to: int, size: nat, n: nat)
    ensures |Batches(from, to, size, n)| == n
    ensures forall i :: 0 <= i < n ==> Batches(from, to, size, n)[i] == Batch(from, to, size, i)
  {
    if n > 0 {
      BatchesIndex(from, to, size, n - 1);
    }
  }

  /** The batches of a fetch: the whole range when it fits in one batch,
      else consecutive runs of `size` days, the last one cut at `to`. */
  function Plan(from: int, to: int, size: nat): seq<(int, int)>
    requires size >= 1
  {
    var days := RangeDays(from, to);
    if days <= size then [(from, to)]
    else Batches(from, to, size, NumBatches(days, size))
  }

  lemma CeilBounds(days: int, size: nat)
    requires size >= 1 && days >= 1
    ensures (NumBatches(days, size) - 1) * size < days <= NumBatches(days, size) * size
    ensures NumBatches(days, size) >= 1
  {
    var q, r := (days + size - 1) / size, (days + size - 1) % size;
    assert days + size - 1 == q * size + r;
    assert (q - 1) * size == q * size - size;
  }

  /** The batch `b` of a range longer than one batch, and where the next
      one starts. */
  lemma PlanStep(from: int, to: int, size: nat, b: int)
    requires size >= 1 && RangeDays(from, to) > size
    requires 0 <= b < NumBatches(RangeDays(from, to), size)
    ensures |Plan(from, to, size)| == NumBatches(RangeDays(from, to), size)
    ensures Plan(from, to, size)[b] == (from + b * size, Min(from + b * size + size - 1, to))
    ensures b + 1 < NumBatches(RangeDays(from, to), size) ==>
      Min(from + b * size + size - 1, to) + 1 == from + (b + 1) * size
  {
    var n := NumBatches(RangeDays(from, to), size);
    BatchesIndex(from, to, size, n);
    if b + 1 < n {
      CeilBounds(RangeDays(from, to), size);
      MulMono(b + 1, n - 1, size);
      assert (b + 1) * size == b * size + size;
    }
  }

  /** The last batch of a range longer than one batch ends at `to`. */
  lemma PlanLast(from: int, to: int, size: nat)
    requires size >= 1 && RangeDays(from, to) > size
    ensures var p := Plan(from, to, size);
      |p| >= 1 && p[|p| - 1].1 == to
  {
    var days := RangeDays(from, to);
    var n := NumBatches(days, size);
    CeilBounds(days, size);
    BatchesIndex(from, to, size, n);
    assert (n - 1) * size + size == n * size;
  }

  /** A batch of a range longer than one batch is not empty. */
  lemma PlanNonEmpty(from: int, to: int, size: nat, b: int)
    requires size >= 1 && RangeDays(from, to) > size
    requires 0 <= b < NumBatches(RangeDays(from, to), size)
    ensures from + b * size <= to
  {
    var n := NumBatches(RangeDays(from, to), size);
    CeilBounds(RangeDays(from, to), size);
    MulMono(b, n - 1, size);
  }

  /** A non-empty range is split into batches that start at `from`, end at
      `to`, follow each other without gap or overlap, and span at most
      `size` days each; there are `⌈days / size⌉` of them when the range is
      longer than one batch. */
  lemma PlanMeaning(from: int, to: int, size: nat)
    requires size >= 1 && from <= to
    ensures var p := Plan(from, to, size);
      && |p| >= 1
      && p[0].0 == from && p[|p| - 1].1 == to
      && (forall i :: 0 <= i < |p| ==> p[i].0 <= p[i].1 && p[i].1 - p[i].0 + 1 <= size)
      && (forall i :: 0 <= i < |p| - 1 ==> p[i + 1].0 == p[i].1 + 1)
      && (RangeDays(from, to) > size ==> |p| == NumBatches(RangeDays(from, to), size))
  {
    var days := RangeDays(from, to);
    if days > size {
      var n := NumBatches(days, size);
      var p := Plan(from, to, size);
      PlanStep(from, to, size, 0);
      PlanLast(from, to, size);
      forall i | 0 <= i < |p|
        ensures p[i].0 <= p[i].1 && p[i].1 - p[i].0 + 1 <= size
      {
        PlanStep(from, to, size, i);
        PlanNonEmpty(from, to, size, i);
      }
      forall i | 0 <= i < |p| - 1
        ensures p[i + 1].0 == p[i].1 + 1
      {
        PlanStep(from, to, size, i);
        PlanStep(from, to, size, i + 1);
      }
    }
  }

  /** Every day of a non-empty range falls in exactly one batch. */
  lemma PlanPartition(from: int, to: int, size: nat, day: int)
    requires size >= 1 && from <= day <= to
    ensures var p := Plan(from, to, size);
      exists i :: 0 <= i < |p| && p[i].0 <= day <= p[i].1
    ensures var p := Plan(from, to, size);
      forall i, j :: 0 <= i < |p| && 0 <= j < |p| && p[i].0 <= day <= p[i].1 && p[j].0 <= day <= p[j].1 ==> i == j
  {
    var p := Plan(from, to, size);
    PlanMeaning(from, to, size);
    Chained(p, from, to, day);
    forall i, j | 0 <= i < |p| && 0 <= j < |p| && p[i].0 <= day <= p[i].1 && p[j].0 <= day <= p[j].1
      ensures i == j
    {
      if i < j {
        ChainedOrder(p, i, j);
      } else if j < i {
        ChainedOrder(p, j, i);
      }
    }
  }

  predicate IsChain(p: seq<(int, int)>)
  {
    && (forall i :: 0 <= i < |p| ==> p[i].0 <= p[i].1)
    && (forall i :: 0 <= i < |p| - 1 ==> p[i + 1].0 == p[i].1 + 1)
  }

  /** In a chain, a later range starts after an earlier one ends. */
  lemma {:induction false} ChainedOrder(p: seq<(int, int)>, i: int, j: int)
    requires IsChain(p) && 0 <= i < j < |p|
    ensures p[i].1 < p[j].0
    decreases j - i
  {
    if j > i + 1 {
      ChainedOrder(p, i, j - 1);
    }
  }

  /** A chain from `from` to `to` covers every day in between. */
  lemma {:induction false} Chained(p: seq<(int, int)>, from: int, to: int, day: int)
    requires IsChain(p) && |p| >= 1 && p[0].0 == from && p[|p| - 1].1 == to && from <= day <= to
    ensures exists i :: 0 <= i < |p| && p[i].0 <= day <= p[i].1
    decreases |p|
  {
    if day > p[0].1 {
      var rest := p[1..];
      assert |p| > 1;
      assert rest[0].0 == p[0].1 + 1;
      Chained(rest, p[0].1 + 1, to, day);
      var i :| 0 <= i < |rest| && rest[i].0 <= day <= rest[i].1;
      assert p[i + 1] == rest[i];
    } else {
      assert p[0].0 <= day <= p[0].1;
    }
  }

  // ---------------------------------------------------------------------
  // Retry of one batch

  function Pow2(n: nat): nat
  {
    if n == 0 then 1 else 2 * Pow2(n - 1)
  }

  /** The outcome of `_fetch_batch_with_retry` from try number `k` on, and
      the delays slept before each later try. */
  function RetryFrom(attempt: nat -> Result<seq<Candle>, ProviderError>, maxRetries: int, k: nat)
    : (Result<seq<Candle>, ProviderError>, seq<nat>)
    decreases maxRetries + 1 - k
  {
    if k > maxRetries then (Ok([]), [])
    else match attempt(k)
      case Ok(cs) => (Ok(cs), [])
      case Err(e) =>
        if !Retryable(e) || k == maxRetries then (Err(e), [])
        else
          var rest := RetryFrom(attempt, maxRetries, k + 1);
          (rest.0, [Pow2(k)] + rest.1)
  }

  /** The first try whose outcome ends the loop: a success, an error that
      is not retried, or the last try. */
  predicate Ends(attempt: nat -> Result<seq<Candle>, ProviderError>, maxRetries: int, k: nat)
  {
    attempt(k).Ok? || !Retryable(attempt(k).error) || k == maxRetries
  }

  /** The retry policy: at most `max_retries + 1` tries, the delay before
      try `k + 1` is `2^k` seconds, every try before the last one failed
      with a retried error, and the last one's outcome is returned as it is
      (a success, or its error re-raised). */
  lemma {:induction false} RetryMeaning(attempt: nat -> Result<seq<Candle>, ProviderError>, maxRetries: int, k: nat)
    requires k <= maxRetries
    ensures var (r, delays) := RetryFrom(attempt, maxRetries, k);
      && k + |delays| <= maxRetries
      && (forall i :: 0 <= i < |delays| ==> delays[i] == Pow2(k + i))
      && (forall i :: k <= i < k + |delays| ==> attempt(i).Err? && Retryable(attempt(i).error))
      && Ends(attempt, maxRetries, k + |delays|)
      && r == attempt(k + |delays|)
    decreases maxRetries + 1 - k
  {
    if !Ends(attempt, maxRetries, k) {
      RetryMeaning(attempt, maxRetries, k + 1);
      var rest := RetryFrom(attempt, maxRetries, k + 1);
      var delays := [Pow2(k)] + rest.1;
      forall i | 0 <= i < |delays|
        ensures delays[i] == Pow2(k + i)
      {
        if i > 0 {
          assert delays[i] == rest.1[i - 1];
        }
      }
    }
  }

  /** An authentication error is never retried. */
  lemma AuthenticationNotRetried(attempt: nat -> Result<seq<Candle>, ProviderError>, maxRetries: int)
    requires maxRetries >= 0 && attempt(0).Err? && attempt(0).error.AuthenticationError?
    ensures RetryFrom(attempt, maxRetries, 0) == (attempt(0), [])
  {
  }

  /** `_fetch_batch_with_retry`. */
  method FetchBatchWithRetry(attempt: nat -> Result<seq<Candle>, ProviderError>, maxRetries: int)
    returns (r: Result<seq<Candle>, ProviderError>, delays: seq<nat>)
    ensures (r, delays) == RetryFrom(attempt, maxRetries, 0)
  {
    delays := [];
    var k: nat := 0;
    assert delays + RetryFrom(attempt, maxRetries, k).1 == RetryFrom(attempt, maxRetries, k).1;
    while k <= maxRetries
      invariant RetryFrom(attempt, maxRetries, 0).0 == RetryFrom(attempt, maxRetries, k).0
      invariant RetryFrom(attempt, maxRetries, 0).1 == delays + RetryFrom(attempt, maxRetries, k).1
      decreases maxRetries + 1 - k
    {
      var outcome := attempt(k);
      if outcome.Ok? || !Retryable(outcome.error) || k == maxRetries {
        assert delays + [] == delays;
        return outcome, delays;
      }
      ghost var rest := RetryFrom(attempt, maxRetries, k + 1).1;
      assert delays + ([Pow2(k)] + rest) == (delays + [Pow2(k)]) + rest;
      delays := delays + [Pow2(k)];
      k := k + 1;
    }
    assert delays + [] == delays;
    r := Ok([]);
  }

  // ---------------------------------------------------------------------
  // Batch bookkeeping

  /** `BatchInfo`, without its wall-clock `attempted_at`. */
  datatype BatchInfo = BatchInfo(startDate: int, endDate: int, success: bool, candlesCount: nat,
                                 errorMessage: Option<string>)

  function Successful(bs: seq<BatchInfo>): seq<BatchInfo>
  {
    if |bs| == 0 then []
    else Successful(bs[..|bs| - 1]) + (if bs[|bs| - 1].success then [bs[|bs| - 1]] else [])
  }

  /** `get_failed_batches`: the failed batches in order. */
  function Failed(bs: seq<BatchInfo>): seq<BatchInfo>
  {
    if |bs| == 0 then []
    else Failed(bs[..|bs| - 1]) + (if !bs[|bs| - 1].success then [bs[|bs| - 1]] else [])
  }

  /** The successful and the failed batches are those of `bs` that did and
      did not succeed. */
  lemma {:induction false} SplitMembers(bs: seq<BatchInfo>)
    ensures forall b :: b in Successful(bs) <==> b in bs && b.success
    ensures forall b :: b in Failed(bs) <==> b in bs && !b.success
  {
    if |bs| > 0 {
      SplitMembers(bs[..|bs| - 1]);
      assert bs == bs[..|bs| - 1] + [bs[|bs| - 1]];
    }
  }

  /** Every batch is either successful or failed. */
  lemma {:induction false} SplitCounts(bs: seq<BatchInfo>)
    ensures |Successful(bs)| + |Failed(bs)| == |bs|
  {
    if |bs| > 0 {
      SplitCounts(bs[..|bs| - 1]);
    }
  }

  lemma SuccessfulSnoc(bs: seq<BatchInfo>, b: BatchInfo)
    ensures Successful(bs + [b]) == Successful(bs) + (if b.success then [b] else [])
    ensures Failed(bs + [b]) == Failed(bs) + (if !b.success then [b] else [])
  {
    assert (bs + [b])[..|bs|] == bs;
  }

  lemma {:induction false} SuccessfulConcat(a: seq<BatchInfo>, b: seq<BatchInfo>)
    ensures Successful(a + b) == Successful(a) + Successful(b)
    ensures Failed(a + b) == Failed(a) + Failed(b)
  {
    if |b| > 0 {
      SuccessfulConcat(a, b[..|b| - 1]);
      assert (a + b)[..|a + b| - 1] == a + b[..|b| - 1];
    } else {
      assert a + b == a;
    }
  }

  function Ranges(bs: seq<BatchInfo>): seq<(int, int)>
  {
    seq(|bs|, i requires 0 <= i < |bs| => (bs[i].startDate, bs[i].endDate))
  }

  /** `FetchResult`: the candles of a fetch and one record per batch, with
      running counters. */
  class FetchResult {
    const symbol: string
    const timeframe: string
    var candles: seq<Candle>
    var batches: seq<BatchInfo>
    var totalBatches: nat
    var successfulBatches: nat
    var failedBatches: nat

    /** The counters agree with the records. */
    ghost predicate Valid()
      reads this
    {
      && totalBatches == |batches|
      && successfulBatches == |Successful(batches)|
      && failedBatches == |Failed(batches)|
    }

    constructor (symbol: string, timeframe: string, candles: seq<Candle>)
      ensures this.symbol == symbol && this.timeframe == timeframe && this.candles == candles
      ensures batches == [] && totalBatches == 0 && successfulBatches == 0 && failedBatches == 0
      ensures Valid()
    {
      this.symbol := symbol;
      this.timeframe := timeframe;
      this.candles := candles;
      batches := [];
      totalBatches := 0;
      successfulBatches := 0;
      failedBatches := 0;
    }

    /** `add_batch`. */
    method AddBatch(b: BatchInfo)
      requires Valid()
      modifies this
      ensures batches == old(batches) + [b] && candles == old(candles)
      ensures totalBatches == old(totalBatches) + 1
      ensures successfulBatches == old(successfulBatches) + (if b.success then 1 else 0)
      ensures failedBatches == old(failedBatches) + (if b.success then 0 else 1)
      ensures Valid()
    {
      SuccessfulSnoc(batches, b);
      batches := batches + [b];
      totalBatches := totalBatches + 1;
      if b.success {
        successfulBatches := successfulBatches + 1;
      } else {
        failedBatches := failedBatches + 1;
      }
    }

    /** `get_missing_date_ranges`. */
    function MissingDateRanges(): seq<(int, int)>
      reads this
    {
      Ranges(Failed(batches))
    }

    /** `has_failures`. */
    predicate HasFailures()
      reads this
    {
      failedBatches > 0
    }
  }

  /** The counters add up, and a fetch has failures exactly when one of its
      batches failed; the missing ranges are those of the failed batches, in
      order. */
  lemma FetchResultMeaning(r: FetchResult)
    requires r.Valid()
    ensures r.totalBatches == r.successfulBatches + r.failedBatches
    ensures r.HasFailures() <==> exists b :: b in r.batches && !b.success
    ensures |r.MissingDateRanges()| == r.failedBatches
    ensures forall rg :: rg in r.MissingDateRanges() <==>
      exists b :: b in r.batches && !b.success && rg == (b.startDate, b.endDate)
  {
    SplitCounts(r.batches);
    SplitMembers(r.batches);
    var f := Failed(r.batches);
    if r.failedBatches > 0 {
      assert f[0] in f;
    }
    forall rg | rg in r.MissingDateRanges()
      ensures exists b :: b in r.batches && !b.success && rg == (b.startDate, b.endDate)
    {
      var i :| 0 <= i < |f| && Ranges(f)[i] == rg;
      assert f[i] in f;
    }
    forall b | b in r.batches && !b.success
      ensures (b.startDate, b.endDate) in r.MissingDateRanges()
    {
      assert b in f;
      var i :| 0 <= i < |f| && f[i] == b;
      assert Ranges(f)[i] == (b.startDate, b.endDate);
    }
  }

  // ---------------------------------------------------------------------
  // Fetch with tracking

  /** The outcome of one batch, as `fetch` reports it. */
  function Outcome(fetch: ((int, int)) -> Result<seq<Candle>, ProviderError>, rg: (int, int))
    : Result<seq<Candle>, ProviderError>
  {
    fetch(rg)
  }

  /** The record of one batch: a success with its candle count, or a failure
      with the error's text (every exception is caught). */
  function Record(rg: (int, int), outcome: Result<seq<Candle>, ProviderError>): (b: BatchInfo)
  {
    match outcome
    case Ok(cs) => BatchInfo(rg.0, rg.1, true, |cs|, None)
    case Err(e) => BatchInfo(rg.0, rg.1, false, 0, Some(e.message))
  }

  /** The records of the batches `plan`, in order. */
  function Records(fetch: ((int, int)) -> Result<seq<Candle>, ProviderError>, plan: seq<(int, int)>): (r: seq<BatchInfo>)
    ensures |r| == |plan|
  {
    if |plan| == 0 then []
    else Records(fetch, plan[..|plan| - 1]) + [Record(plan[|plan| - 1], Outcome(fetch, plan[|plan| - 1]))]
  }

  /** The candles a batch contributes: those fetched, none on an error. */
  function OkCandles(outcome: Result<seq<Candle>, ProviderError>): seq<Candle>
  {
    match outcome case Ok(cs) => cs case Err(_) => []
  }

  /** The candles of the successful batches of `plan`, batch after batch. */
  function Gathered(fetch: ((int, int)) -> Result<seq<Candle>, ProviderError>, plan: seq<(int, int)>): seq<Candle>
  {
    if |plan| == 0 then []
    else Gathered(fetch, plan[..|plan| - 1])
         + OkCandles(Outcome(fetch, plan[|plan| - 1]))
  }

  /** Each record is the record of its batch: the ranges are the plan's and
      a batch succeeded exactly when its fetch did. */
  lemma {:induction false} RecordsMeaning(fetch: ((int, int)) -> Result<seq<Candle>, ProviderError>, plan: seq<(int, int)>)
    ensures Ranges(Records(fetch, plan)) == plan
    ensures forall i :: 0 <= i < |plan| ==>
      (Records(fetch, plan)[i].success <==> Outcome(fetch, plan[i]).Ok?)
  {
    if |plan| > 0 {
      RecordsMeaning(fetch, plan[..|plan| - 1]);
    }
  }

  lemma RecordsSnoc(fetch: ((int, int)) -> Result<seq<Candle>, ProviderError>, plan: seq<(int, int)>, i: int)
    requires 0 <= i < |plan|
    ensures Records(fetch, plan[..i + 1]) == Records(fetch, plan[..i]) + [Record(plan[i], Outcome(fetch, plan[i]))]
    ensures Gathered(fetch, plan[..i + 1]) == Gathered(fetch, plan[..i]) + OkCandles(Outcome(fetch, plan[i]))
  {
    assert plan[..i + 1][..i] == plan[..i];
  }

  /** One batch of the fetch loop: the outcome is recorded and the counters
      follow. */
  method Track(result: FetchResult, rg: (int, int), outcome: Result<seq<Candle>, ProviderError>)
    requires result.Valid()
    modifies result
    ensures result.Valid() && result.candles == old(result.candles)
    ensures result.batches == old(result.batches) + [Record(rg, outcome)]
  {
    if outcome.Ok? {
      result.AddBatch(BatchInfo(rg.0, rg.1, true, |outcome.value|, None));
    } else {
      result.AddBatch(BatchInfo(rg.0, rg.1, false, 0, Some(outcome.error.message)));
    }
  }

  /** `fetch_historical_data_with_tracking`: the end date defaults to
      `today` and the start date to the day before the end; each batch of
      the plan is fetched in turn and recorded, and the candles gathered are
      sorted by time. */
  method FetchHistoricalDataWithTracking(symbol: string, timeframe: string, fromDate: Option<int>,
                                         toDate: Option<int>, today: int,
                                         fetch: ((int, int)) -> Result<seq<Candle>, ProviderError>)
    returns (result: FetchResult)
    ensures fresh(result) && result.Valid()
    ensures result.symbol == symbol && result.timeframe == timeframe
    ensures var to := toDate.GetOr(today);
      var plan := Plan(fromDate.GetOr(to - 1), to, BatchSize(timeframe));
      && result.batches == Records(fetch, plan)
      && result.candles == SortByTime(Gathered(fetch, plan))
  {
    var to := toDate.GetOr(today);
    var from := fromDate.GetOr(to - 1);
    var size := BatchSize(timeframe);
    result := new FetchResult(symbol, timeframe, []);
    var all := FetchPlanned(result, fetch, from, to, size);
    result.candles := SortByTime(all);
  }

  /** The batches of `fetch_historical_data_with_tracking`: one request for
      a range that fits in a batch, else the batch loop. */
  method FetchPlanned(result: FetchResult, fetch: ((int, int)) -> Result<seq<Candle>, ProviderError>,
                      from: int, to: int, size: nat)
    returns (all: seq<Candle>)
    requires size >= 1 && result.Valid() && result.batches == []
    modifies result
    ensures result.Valid()
    ensures result.batches == Records(fetch, Plan(from, to, size))
    ensures all == Gathered(fetch, Plan(from, to, size))
  {
    var days := RangeDays(from, to);
    ghost var plan := Plan(from, to, size);
    if days <= size {
      var outcome := Outcome(fetch, (from, to));
      RecordsSnoc(fetch, plan, 0);
      all := OkCandles(outcome);
      Track(result, (from, to), outcome);
      assert plan[..1] == plan;
    } else {
      all := [];
      var n := NumBatches(days, size);
      CeilBounds(days, size);
      PlanStep(from, to, size, 0);
      var current := from;
      var b := 0;
      while b < n
        invariant 0 <= b <= n == |plan|
        invariant b < n ==> current == from + b * size
        invariant result.Valid()
        invariant result.batches == Records(fetch, plan[..b])
        invariant all == Gathered(fetch, plan[..b])
      {
        var batchEnd := Min(current + size - 1, to);
        PlanStep(from, to, size, b);
        all := FetchBatch(result, fetch, plan, b, (current, batchEnd), all);
        current := batchEnd + 1;
        b := b + 1;
      }
      assert plan[..b] == plan;
    }
  }

  /** One turn of the batch loop: batch `b` of the plan is fetched, recorded
      and its candles gathered. */
  method FetchBatch(result: FetchResult, fetch: ((int, int)) -> Result<seq<Candle>, ProviderError>,
                    ghost plan: seq<(int, int)>, b: nat, rg: (int, int), all: seq<Candle>)
    returns (all': seq<Candle>)
    requires b < |plan| && plan[b] == rg && result.Valid()
    requires result.batches == Records(fetch, plan[..b]) && all == Gathered(fetch, plan[..b])
    modifies result
    ensures result.Valid()
    ensures result.batches == Records(fetch, plan[..b + 1]) && all' == Gathered(fetch, plan[..b + 1])
  {
    var outcome := Outcome(fetch, rg);
    RecordsSnoc(fetch, plan, b);
    all' := all + OkCandles(outcome);
    Track(result, rg, outcome);
  }

  /** The first loop of `retry_failed_batches`: the successful batches of
      `bs` are copied in order. */
  method KeepSuccessful(r: FetchResult, bs: seq<BatchInfo>)
    requires r.Valid()
    modifies r
    ensures r.Valid() && r.candles == old(r.candles)
    ensures r.batches == old(r.batches) + Successful(bs)
  {
    ghost var before := r.batches;
    var i := 0;
    while i < |bs|
      invariant 0 <= i <= |bs|
      invariant r.Valid() && r.candles == old(r.candles)
      invariant r.batches == before + Successful(bs[..i])
    {
      SuccessfulSnoc(bs[..i], bs[i]);
      assert bs[..i + 1] == bs[..i] + [bs[i]];
      if bs[i].success {
        r.AddBatch(bs[i]);
      }
      i := i + 1;
    }
    assert bs[..i] == bs;
  }

  /** The second loop of `retry_failed_batches`: each range is fetched
      again, its candles appended and its outcome recorded. */
  method RetryEach(r: FetchResult, fetch: ((int, int)) -> Result<seq<Candle>, ProviderError>, ranges: seq<(int, int)>)
    requires r.Valid()
    modifies r
    ensures r.Valid()
    ensures r.batches == old(r.batches) + Records(fetch, ranges)
    ensures r.candles == old(r.candles) + Gathered(fetch, ranges)
  {
    ghost var batches0, candles0 := r.batches, r.candles;
    var j := 0;
    while j < |ranges|
      invariant 0 <= j <= |ranges|
      invariant r.Valid()
      invariant r.batches == batches0 + Records(fetch, ranges[..j])
      invariant r.candles == candles0 + Gathered(fetch, ranges[..j])
    {
      var outcome := Outcome(fetch, ranges[j]);
      RecordsSnoc(fetch, ranges, j);
      r.candles := r.candles + OkCandles(outcome);
      Track(r, ranges[j], outcome);
      j := j + 1;
    }
    assert ranges[..j] == ranges;
  }

  /** `retry_failed_batches`: a fetch without failures is returned as it
      is; otherwise a new result keeps the successful batches and the
      candles, then re-fetches each failed batch once, in order, recording
      the new outcome, and sorts the candles. */
  method RetryFailedBatches(fr: FetchResult, fetch: ((int, int)) -> Result<seq<Candle>, ProviderError>)
    returns (r: FetchResult)
    requires fr.Valid()
    ensures r.Valid()
    ensures |Failed(fr.batches)| == 0 ==> r == fr
    ensures |Failed(fr.batches)| > 0 ==>
      && fresh(r)
      && r.symbol == fr.symbol && r.timeframe == fr.timeframe
      && r.batches == Successful(fr.batches) + Records(fetch, Ranges(Failed(fr.batches)))
      && r.candles == SortByTime(fr.candles + Gathered(fetch, Ranges(Failed(fr.batches))))
  {
    var failed := Failed(fr.batches);
    if |failed| == 0 {
      return fr;
    }
    r := new FetchResult(fr.symbol, fr.timeframe, fr.candles);
    KeepSuccessful(r, fr.batches);
    assert [] + Successful(fr.batches) == Successful(fr.batches);
    RetryEach(r, fetch, Ranges(failed));
    r.candles := SortByTime(r.candles);
  }

  /** A retry keeps the number of batches, keeps every successful batch, and
      cannot add failures. */
  lemma RetryCounts(bs: seq<BatchInfo>, fetch: ((int, int)) -> Result<seq<Candle>, ProviderError>)
    ensures var after := Successful(bs) + Records(fetch, Ranges(Failed(bs)));
      && |after| == |bs|
      && Successful(bs) <= after
      && |Failed(after)| <= |Failed(bs)|
  {
    var recs := Records(fetch, Ranges(Failed(bs)));
    SplitCounts(bs);
    SplitCounts(recs);
    SuccessfulConcat(Successful(bs), recs);
    NoneFailed(bs);
  }

  lemma {:induction false} NoneFailed(bs: seq<BatchInfo>)
    ensures Failed(Successful(bs)) == []
  {
    if |bs| > 0 {
      NoneFailed(bs[..|bs| - 1]);
      SuccessfulConcat(Successful(bs[..|bs| - 1]), if bs[|bs| - 1].success then [bs[|bs| - 1]] else []);
    }
  }

  // ---------------------------------------------------------------------
  // Trades

  /** The most trades one request may ask for. */
  const TradesCap: nat := 50000

  /** The `limit` parameter of a trades request. */
  function TradesLimit(limit: int): (r: int)
    ensures r <= TradesCap
    ensures r == limit || r == TradesCap
    ensures limit <= TradesCap ==> r == limit
  {
    if limit <= TradesCap then limit else TradesCap
  }

  /** One trade as the vendor sends it; optional fields may be missing.
      Prices are in the smallest unit. */
  datatype TradeRow = TradeRow(t: int, p: int, s: int, x: int, c: Option<seq<int>>, i: Option<string>)

  /** A trade as `fetch_trades_data` returns it. */
  datatype FormattedTrade = FormattedTrade(timestampNs: int, price: int, size: int, exchangeId: int,
                                           conditions: seq<int>, tradeId: string)

  function Format(t: TradeRow): FormattedTrade
  {
    FormattedTrade(t.t, t.p, t.s, t.x, t.c.GetOr([]), t.i.GetOr(""))
  }

  /** `fetch_trades_data`, given the reply of the trades request: one
      formatted trade per row, in order; any error comes back as a Polygon
      error, whatever its kind. */
  function FetchTrades(reply: Result<seq<TradeRow>, ProviderError>): (r: Result<seq<FormattedTrade>, ProviderError>)
    ensures reply.Err? <==> r.Err?
    ensures r.Err? ==> r.error == PolygonError("Failed to fetch trades data: " + reply.error.message)
    ensures r.Ok? ==> |r.value| == |reply.value|
    ensures r.Ok? ==> forall k :: 0 <= k < |r.value| ==> r.value[k] == Format(reply.value[k])
  {
    match reply
    case Err(e) => Err(PolygonError("Failed to fetch trades data: " + e.message))
    case Ok(rows) => Ok(seq(|rows|, k requires 0 <= k < |rows| => Format(rows[k])))
  }
}
