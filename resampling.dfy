/** The resampling service: loads stored candles of one timeframe, buckets
    them on the grid the asset type calls for, folds each bucket into one
    candle, stamps the results and builds a series of the target timeframe;
    optionally stores it, for one symbol or many. */
module Resampling {
  import opened Wrappers
  import opened PriceData
  import opened CandleSeqs
  import opened Timeframes
  import opened AssetTypes
  import opened Dates
  import opened Buckets
  import Storage
  import Classification
  import Dicts

  /** The targets that follow the asset's trading session. */
  const SessionTargets: set<string> := {"5min", "15min", "30min"}

  /** pandas' `offset="20h"`: US equity days end at the 20:00 UTC close. */
  const MarketCloseOffset: nat := 1200

  /** 20:00 UTC, the time of day daily candles are stamped with. */
  const DailyStampSeconds: int := 72000

  // ---------------------------------------------------------------------
  // Alignment

  /** `_resample_dataframe`'s choice of bucket edges, in minutes after UTC
      midnight: the session offset for 5/15/30-minute targets, the 20:00
      close for US equity days, UTC midnight otherwise. */
  function AlignmentOffset(asset: AssetType, to: string): nat
  {
    if to in SessionTargets then SessionOffsetMinutes(asset).GetOr(0)
    else if to == "daily" && asset == UsEquity then MarketCloseOffset
    else 0
  }

  function MetadataOr(metadata: map<string, string>, key: string, default: string): string
  {
    if key in metadata then metadata[key] else default
  }

  /** The provider's alignment strategy, "market_session" when absent. */
  function Strategy(metadata: map<string, string>): string
  {
    MetadataOr(metadata, "alignment_strategy", "market_session")
  }

  /** Whether the provider aggregates on UTC boundaries. */
  predicate UtcAligned(metadata: map<string, string>)
  {
    Strategy(metadata) == "utc_aligned"
  }

  /** Whether the provider's daily boundary is "asset_specific" (the
      default is "market_close"). */
  predicate AssetSpecificDays(metadata: map<string, string>)
  {
    MetadataOr(metadata, "daily_boundary", "market_close") == "asset_specific"
  }

  /** `_resample_dataframe_with_provider_alignment`'s choice: a provider
      with the "utc_aligned" strategy gets UTC edges, except US equity days
      when its daily boundary is "asset_specific"; any other strategy (the
      default is "market_session") falls back to the asset rules. */
  function ProviderOffset(asset: AssetType, to: string, metadata: map<string, string>): nat
  {
    if UtcAligned(metadata) then
      if to == "daily" && AssetSpecificDays(metadata) && asset == UsEquity then MarketCloseOffset else 0
    else AlignmentOffset(asset, to)
  }

  /** Both session offsets are whole numbers of 5, 15 and 30 minutes. */
  lemma SessionOffsetsOnUtcGrid(asset: AssetType, to: string, t: int)
    requires to in SessionTargets
    ensures BucketStart(t, AlignmentOffset(asset, to), TimeframeMinutes(to).value)
            == BucketStart(t, 0, TimeframeMinutes(to).value)
  {
    var m := TimeframeMinutes(to).value;
    var o := AlignmentOffset(asset, to);
    SessionTargetPeriods(to);
    SessionOffsetValues(asset, to);
    SessionOffsetWhole(o, m);
    WholePeriodOffset(t, o, m);
  }

  lemma SessionOffsetWhole(o: nat, m: nat)
    requires o == 0 || o == 810 || o == 480
    requires m == 5 || m == 15 || m == 30
    ensures o % m == 0
  {
    if o == 810 {
      if m == 5 { assert 810 == 162 * 5; } else if m == 15 { assert 810 == 54 * 15; } else { assert 810 == 27 * 30; }
    } else if o == 480 {
      if m == 5 { assert 480 == 96 * 5; } else if m == 15 { assert 480 == 32 * 15; } else { assert 480 == 16 * 30; }
    }
  }

  /** Midnight UTC is an edge of every 5/15/30-minute UTC grid. */
  lemma MidnightOnGrid(d: int, m: nat)
    requires m == 5 || m == 15 || m == 30
    ensures StartOfDay(d) % (m * 60) == 0
  {
    var k := if m == 5 then 288 else if m == 15 then 96 else 48;
    assert StartOfDay(d) == (d * k) * (m * 60);
    MultipleMod(d * k, m * 60);
  }

  /** The session targets' periods. */
  lemma SessionTargetPeriods(to: string)
    requires to in SessionTargets
    ensures TimeframeMinutes(to).value == 5 || TimeframeMinutes(to).value == 15 || TimeframeMinutes(to).value == 30
  {
  }

  /** The session offsets: 13:30 for US equities, 08:00 for forex, none
      (UTC midnight) for the rest. */
  lemma SessionOffsetValues(asset: AssetType, to: string)
    requires to in SessionTargets
    ensures AlignmentOffset(asset, to) == 0 || AlignmentOffset(asset, to) == 810 || AlignmentOffset(asset, to) == 480
  {
    SessionOffsetsTable();
  }

  /** Every alignment the service picks gives the same buckets as UTC
      alignment, except daily buckets of US equities. */
  lemma AlignmentIsUtcExceptUsEquityDays(asset: AssetType, to: string, t: int)
    requires to in KnownTimeframes
    requires to != "daily" || asset != UsEquity
    ensures BucketStart(t, AlignmentOffset(asset, to), TimeframeMinutes(to).value)
            == BucketStart(t, 0, TimeframeMinutes(to).value)
  {
    if to in SessionTargets {
      SessionOffsetsOnUtcGrid(asset, to, t);
    }
  }

  /** US equity days do differ: UTC midnight of any date falls in the US
      equity day that began at 20:00 UTC the evening before, while it starts
      a day of every other asset type. */
  lemma UsEquityDaysStartAtClose(asset: AssetType, d: int)
    ensures asset == UsEquity ==>
      BucketStart(StartOfDay(d), AlignmentOffset(asset, "daily"), 1440) == StartOfDay(d - 1) + DailyStampSeconds
    ensures asset != UsEquity ==>
      BucketStart(StartOfDay(d), AlignmentOffset(asset, "daily"), 1440) == StartOfDay(d)
  {
    var o := AlignmentOffset(asset, "daily");
    if asset == UsEquity {
      var b := StartOfDay(d - 1) + DailyStampSeconds;
      assert b - o * 60 == (d - 1) * 86400;
      MultipleMod(d - 1, 86400);
      BucketStartUnique(StartOfDay(d), b, o, 1440);
    } else {
      assert o == 0;
      MultipleMod(d, 86400);
      BucketStartUnique(StartOfDay(d), StartOfDay(d), o, 1440);
    }
  }

  /** With an asset session, the session's opening minute starts a bucket
      of every 5/15/30-minute target on every day. */
  lemma SessionOpenStartsBucket(asset: AssetType, to: string, d: int)
    requires to in SessionTargets && SessionOffsetMinutes(asset).Some?
    ensures var open := StartOfDay(d) + SessionOffsetMinutes(asset).value * 60;
      BucketStart(open, AlignmentOffset(asset, to), TimeframeMinutes(to).value) == open
  {
    var m := TimeframeMinutes(to).value;
    var o := SessionOffsetMinutes(asset).value;
    var open := StartOfDay(d) + o * 60;
    SessionTargetPeriods(to);
    MidnightOnGrid(d, m);
    BucketStartUnique(open, open, o, m);
  }

  /** With no alignment metadata, or a strategy other than "utc_aligned",
      the provider variant aligns as the asset rules do; with
      "utc_aligned" it is UTC-aligned except asset-specific US equity days. */
  lemma ProviderOffsetMeaning(asset: AssetType, to: string, metadata: map<string, string>, t: int)
    requires to in KnownTimeframes
    ensures !UtcAligned(metadata)
            ==> ProviderOffset(asset, to, metadata) == AlignmentOffset(asset, to)
    ensures UtcAligned(metadata)
            && !(to == "daily" && asset == UsEquity && AssetSpecificDays(metadata))
            ==> BucketStart(t, ProviderOffset(asset, to, metadata), TimeframeMinutes(to).value)
                == BucketStart(t, 0, TimeframeMinutes(to).value)
    ensures UtcAligned(metadata)
            && to == "daily" && asset == UsEquity && AssetSpecificDays(metadata)
            ==> ProviderOffset(asset, to, metadata) == AlignmentOffset(asset, to)
  {
  }

  // ---------------------------------------------------------------------
  // Stamping (`_dataframe_to_candles`)

  /** The time `_dataframe_to_candles` gives a row whose bucket starts at
      `b`, as the code is written: intraday rows keep `b`, daily rows get
      20:00 UTC on the date of `b`. */
  function StampAsWritten(b: int, to: string): int
  {
    if to == "daily" then StartOfDay(DayOf(b)) + DailyStampSeconds else b
  }

  /** The stamp the daily branch is meant to give: 20:00 UTC on the date
      the bucket ends, that is, the date of its last second.  For buckets
      that start at UTC midnight this is the date of `b`. */
  function Stamp(b: int, to: string): int
  {
    if to == "daily" then StartOfDay(DayOf(b + SecondsPerDay - 1)) + DailyStampSeconds else b
  }

  lemma DayOfUnique(t: int, d: int)
    requires d * SecondsPerDay <= t < (d + 1) * SecondsPerDay
    ensures DayOf(t) == d
  {
  }

  /** A daily bucket of a US equity holds the whole regular session of a
      date `d` (13:30 to 20:00 UTC) and starts at 20:00 UTC the day before. */
  lemma UsEquitySessionBucket(t: int, d: int)
    requires StartOfDay(d) + 810 * 60 <= t < StartOfDay(d) + DailyStampSeconds
    ensures BucketStart(t, AlignmentOffset(UsEquity, "daily"), 1440) == StartOfDay(d - 1) + DailyStampSeconds
  {
    var b := StartOfDay(d - 1) + DailyStampSeconds;
    assert b - MarketCloseOffset * 60 == (d - 1) * 86400;
    MultipleMod(d - 1, 86400);
    BucketStartUnique(t, b, MarketCloseOffset, 1440);
  }

  /** As written, a US equity session candle of date `d` is aggregated into
      a daily candle stamped 20:00 UTC of the day before. */
  lemma StampAsWrittenMisdatesSessions(t: int, d: int)
    requires StartOfDay(d) + 810 * 60 <= t < StartOfDay(d) + DailyStampSeconds
    ensures StampAsWritten(BucketStart(t, AlignmentOffset(UsEquity, "daily"), 1440), "daily")
            == StartOfDay(d - 1) + DailyStampSeconds
  {
    UsEquitySessionBucket(t, d);
    DayOfUnique(StartOfDay(d - 1) + DailyStampSeconds, d - 1);
  }

  /** The same for one concrete session: a trade at 14:30 UTC on
      2024-01-02 (day 19724) ends up in a candle stamped 2024-01-01 20:00 UTC. */
  lemma StampAsWrittenExample()
    ensures StampAsWritten(BucketStart(19724 * 86400 + 52200, AlignmentOffset(UsEquity, "daily"), 1440), "daily")
            == 19723 * 86400 + 72000
  {
    StampAsWrittenMisdatesSessions(19724 * 86400 + 52200, 19724);
  }

  /** The intended stamp: a US equity session candle of date `d` is in the
      daily candle of date `d`, and with UTC-midnight alignment any candle
      of date `d` is. */
  lemma StampDatesSessions(asset: AssetType, t: int, d: int)
    requires StartOfDay(d) <= t < StartOfDay(d + 1)
    requires asset == UsEquity ==> StartOfDay(d) + 810 * 60 <= t < StartOfDay(d) + DailyStampSeconds
    ensures Stamp(BucketStart(t, AlignmentOffset(asset, "daily"), 1440), "daily") == StartOfDay(d) + DailyStampSeconds
  {
    if asset == UsEquity {
      UsEquitySessionBucket(t, d);
      DayOfUnique(StartOfDay(d - 1) + DailyStampSeconds + SecondsPerDay - 1, d);
    } else {
      MultipleMod(d, 86400);
      BucketStartUnique(t, StartOfDay(d), 0, 1440);
      DayOfUnique(StartOfDay(d) + SecondsPerDay - 1, d);
    }
  }

  /** The stamp of two daily buckets keeps them a day apart, and an
      intraday stamp is the b itself: stamping keeps buckets of one grid
      in strictly increasing order. */
  lemma StampIncreasing(b1: int, b2: int, offset: nat, to: string)
    requires to in KnownTimeframes
    requires (b1 - offset * 60) % (TimeframeMinutes(to).value * 60) == 0
    requires (b2 - offset * 60) % (TimeframeMinutes(to).value * 60) == 0
    requires b1 < b2
    ensures Stamp(b1, to) < Stamp(b2, to)
  {
    if to == "daily" {
      EdgesApart(b1, b2, offset, 1440);
      var d1 := DayOf(b1 + SecondsPerDay - 1);
      var d2 := DayOf(b2 + SecondsPerDay - 1);
      assert d1 < d2;
    }
  }

  /** A bucket's candle with its stamp. */
  function Relabel(r: Candle, to: string): Candle
  {
    r.(time := Stamp(r.time, to))
  }

  /** `_dataframe_to_candles`: each row, stamped, in order; a row that the
      candle constructor rejects is skipped. */
  function Emit(rows: seq<Candle>, to: string): seq<Candle>
  {
    if |rows| == 0 then []
    else
      var c := Relabel(rows[|rows| - 1], to);
      Emit(rows[..|rows| - 1], to) + (if NewCandle(c).Ok? then [c] else [])
  }

  /** Everything emitted is a well-formed stamped row, and every well-formed
      row is emitted; when all rows are well-formed, nothing is skipped. */
  lemma {:induction false} EmitMeaning(rows: seq<Candle>, to: string)
    ensures forall x :: x in Emit(rows, to) ==> WellFormed(x)
    ensures forall x :: x in Emit(rows, to) <==> exists r :: r in rows && WellFormed(r) && x == Relabel(r, to)
    ensures (forall r :: r in rows ==> WellFormed(r)) ==>
              |Emit(rows, to)| == |rows|
              && forall i :: 0 <= i < |rows| ==> Emit(rows, to)[i] == Relabel(rows[i], to)
  {
    if |rows| > 0 {
      var init := rows[..|rows| - 1];
      var last := rows[|rows| - 1];
      EmitMeaning(init, to);
      assert forall r :: r in rows <==> r in init || r == last;
      assert WellFormed(Relabel(last, to)) == WellFormed(last);
    }
  }

  /** The conversion loop of `_dataframe_to_candles`. */
  method DataframeToCandles(rows: seq<Candle>, to: string) returns (candles: seq<Candle>)
    ensures candles == Emit(rows, to)
  {
    candles := [];
    var i := 0;
    while i < |rows|
      invariant 0 <= i <= |rows|
      invariant candles == Emit(rows[..i], to)
    {
      var c := NewCandle(Relabel(rows[i], to));
      assert rows[..i + 1][..i] == rows[..i];
      if c.Ok? {
        candles := candles + [c.value];
      }
      i := i + 1;
    }
    assert rows[..i] == rows;
  }

  // ---------------------------------------------------------------------
  // The resampled rows

  /** `_candles_to_dataframe` sorts by time, `resample(...).agg(...)` with
      `dropna` is the fold over the grid, `_dataframe_to_candles` stamps. */
  function ResampleRows(src: seq<Candle>, offset: nat, minutes: nat, to: string): seq<Candle>
    requires minutes > 0
  {
    Emit(Aggregate(SortByTime(src), Grid(offset, minutes)), to)
  }

  /** `_candles_to_dataframe`, the frame's resampling and
      `_dataframe_to_candles`, one after the other. */
  method ResampleFrame(src: seq<Candle>, offset: nat, minutes: nat, to: string) returns (rows: seq<Candle>)
    requires minutes > 0
    ensures rows == ResampleRows(src, offset, minutes, to)
  {
    rows := DataframeToCandles(Aggregate(SortByTime(src), Grid(offset, minutes)), to);
  }

  /** Every bucket candle of well-formed rows is emitted, stamped. */
  lemma ResampleRowsAreStampedFold(src: seq<Candle>, offset: nat, minutes: nat, to: string)
    requires minutes > 0
    requires forall c :: c in src ==> WellFormed(c)
    ensures var agg := Aggregate(SortByTime(src), Grid(offset, minutes));
      |ResampleRows(src, offset, minutes, to)| == |agg|
      && forall i :: 0 <= i < |agg| ==> ResampleRows(src, offset, minutes, to)[i] == Relabel(agg[i], to)
  {
    var cs := SortByTime(src);
    AggregateWellFormed(cs, Grid(offset, minutes));
    EmitMeaning(Aggregate(cs, Grid(offset, minutes)), to);
  }

  /** The bucket starts of the fold lie on the grid. */
  lemma FoldOnGrid(cs: seq<Candle>, offset: nat, minutes: nat)
    requires minutes > 0
    requires SortedByTime(cs)
    ensures forall b :: b in Labels(Aggregate(cs, Grid(offset, minutes))) ==>
      (b - offset * 60) % (minutes * 60) == 0
  {
    var grid := Grid(offset, minutes);
    var agg := Aggregate(cs, grid);
    AggregateLabelsOfCandles(cs, grid);
    forall b | b in Labels(agg)
      ensures (b - offset * 60) % (minutes * 60) == 0
    {
      var i :| 0 <= i < |agg| && Labels(agg)[i] == b;
      assert agg[i] in agg;
      var c :| c in cs && grid(c.time) == agg[i].time;
      BucketStartOnGrid(c.time, b, offset, minutes);
    }
  }

  lemma BucketStartOnGrid(t: int, b: int, offset: nat, minutes: nat)
    requires minutes > 0 && b == BucketStart(t, offset, minutes)
    ensures (b - offset * 60) % (minutes * 60) == 0
  {
  }

  /** Increasing starts of one grid have increasing stamps. */
  lemma StampsIncreasing(ls: seq<int>, offset: nat, to: string)
    requires to in KnownTimeframes
    requires Increasing(ls)
    requires forall b :: b in ls ==> (b - offset * 60) % (TimeframeMinutes(to).value * 60) == 0
    ensures forall i, j :: 0 <= i < j < |ls| ==> Stamp(ls[i], to) < Stamp(ls[j], to)
  {
    forall i, j | 0 <= i < j < |ls|
      ensures Stamp(ls[i], to) < Stamp(ls[j], to)
    {
      assert ls[i] in ls && ls[j] in ls;
      StampIncreasing(ls[i], ls[j], offset, to);
    }
  }

  /** What resampling well-formed rows gives: nothing exactly when there
      are no rows, and otherwise well-formed candles in strictly increasing
      time order. */
  lemma ResampleRowsMeaning(src: seq<Candle>, offset: nat, to: string)
    requires to in KnownTimeframes
    requires forall c :: c in src ==> WellFormed(c)
    ensures var rows := ResampleRows(src, offset, TimeframeMinutes(to).value, to);
      && (|rows| == 0 <==> |src| == 0)
      && (forall x :: x in rows ==> WellFormed(x))
      && StrictlyIncreasing(rows)
  {
    var m := TimeframeMinutes(to).value;
    var rows := ResampleRows(src, offset, m, to);
    var cs := SortByTime(src);
    var grid := Grid(offset, m);
    var agg := Aggregate(cs, grid);
    ResampleRowsAreStampedFold(src, offset, m, to);
    AggregateTimes(cs, grid);
    FoldOnGrid(cs, offset, m);
    StampsIncreasing(Labels(agg), offset, to);
    EmitMeaning(agg, to);
    assert |src| == |cs|;
  }

  /** A candle's value in one of the five OHLCV columns, by column name. */
  function Field(c: Candle, col: string): int
  {
    if col == "open" then c.open
    else if col == "high" then c.high
    else if col == "low" then c.low
    else if col == "close" then c.close
    else c.volume
  }

  /** One column of a group, in the group's order. */
  function Column(g: seq<Candle>, col: string): (vs: seq<int>)
    ensures |vs| == |g|
  {
    seq(|g|, i requires 0 <= i < |g| => Field(g[i], col))
  }

  function MaxOf(vs: seq<int>): int
    requires |vs| > 0
  {
    if |vs| == 1 then vs[0] else Max(MaxOf(vs[..|vs| - 1]), vs[|vs| - 1])
  }

  function MinOf(vs: seq<int>): int
    requires |vs| > 0
  {
    if |vs| == 1 then vs[0] else Min(MinOf(vs[..|vs| - 1]), vs[|vs| - 1])
  }

  function SumOf(vs: seq<int>): int
  {
    if |vs| == 0 then 0 else SumOf(vs[..|vs| - 1]) + vs[|vs| - 1]
  }

  /** The pandas reduction a rule names, over one non-empty column; None for
      a name pandas would not accept here. */
  function Reduce(rule: string, vs: seq<int>): Option<int>
    requires |vs| > 0
  {
    if rule == "first" then Some(vs[0])
    else if rule == "last" then Some(vs[|vs| - 1])
    else if rule == "max" then Some(MaxOf(vs))
    else if rule == "min" then Some(MinOf(vs))
    else if rule == "sum" then Some(SumOf(vs))
    else None
  }

  lemma ColumnInit(g: seq<Candle>, col: string)
    requires |g| > 0
    ensures Column(g[..|g| - 1], col) == Column(g, col)[..|g| - 1]
  {
  }

  /** The fold's extremes and volume are the column reductions. */
  lemma {:induction false} FoldIsColumnReductions(g: seq<Candle>)
    requires |g| > 0
    ensures MaxOf(Column(g, "high")) == Highest(g)
    ensures MinOf(Column(g, "low")) == Lowest(g)
    ensures SumOf(Column(g, "volume")) == TotalVolume(g)
  {
    if |g| > 1 {
      FoldIsColumnReductions(g[..|g| - 1]);
      ColumnInit(g, "high");
      ColumnInit(g, "low");
      ColumnInit(g, "volume");
    } else {
      assert Column(g, "volume")[..0] == [];
      assert g[..0] == [];
    }
  }

  /** `get_resampling_rules` names, for each of the five columns, exactly the
      reduction that the bucket fold computes for that column. */
  lemma ResamplingRulesAreTheFold(g: seq<Candle>, b: int)
    requires |g| > 0
    ensures ResamplingRules().Keys == {"open", "high", "low", "close", "volume"}
    ensures Reduce(ResamplingRules()["open"], Column(g, "open")) == Some(Combined(g, b).open)
    ensures Reduce(ResamplingRules()["high"], Column(g, "high")) == Some(Combined(g, b).high)
    ensures Reduce(ResamplingRules()["low"], Column(g, "low")) == Some(Combined(g, b).low)
    ensures Reduce(ResamplingRules()["close"], Column(g, "close")) == Some(Combined(g, b).close)
    ensures Reduce(ResamplingRules()["volume"], Column(g, "volume")) == Some(Combined(g, b).volume)
  {
    FoldIsColumnReductions(g);
  }

  /** The candle the reference definition gives bucket `b`, stamped; none
      for an empty bucket. */
  function BucketCandle(cs: seq<Candle>, b: int, bucket: int -> int, to: string): Option<Candle>
  {
    var g := InBucket(cs, b, bucket);
    if |g| == 0 then None else Some(Relabel(Combined(g, b), to))
  }

  /** Every candle of `rows` is the stamped candle of a non-empty bucket. */
  ghost predicate FromBuckets(rows: seq<Candle>, cs: seq<Candle>, bucket: int -> int, to: string)
  {
    forall x :: x in rows ==> exists b :: BucketCandle(cs, b, bucket, to) == Some(x)
  }

  /** Each resampled candle is the stamped reference candle of a non-empty
      bucket: first open, highest high, lowest low, last close, summed
      volume. */
  lemma ResampleRowsContents(src: seq<Candle>, offset: nat, minutes: nat, to: string)
    requires minutes > 0
    requires forall c :: c in src ==> WellFormed(c)
    ensures FromBuckets(ResampleRows(src, offset, minutes, to), SortByTime(src), Grid(offset, minutes), to)
  {
    var rows := ResampleRows(src, offset, minutes, to);
    var cs := SortByTime(src);
    var grid := Grid(offset, minutes);
    var agg := Aggregate(cs, grid);
    ResampleRowsAreStampedFold(src, offset, minutes, to);
    AggregateContents(cs, grid);
    forall x | x in rows
      ensures exists b :: BucketCandle(cs, b, grid, to) == Some(x)
    {
      var i :| 0 <= i < |rows| && rows[i] == x;
      assert Reference(cs, agg[i], grid);
      assert BucketCandle(cs, agg[i].time, grid, to) == Some(x);
    }
  }

  /** Every source row is in the bucket of some resampled candle. */
  lemma ResampleRowsCover(src: seq<Candle>, offset: nat, minutes: nat, to: string)
    requires minutes > 0
    requires forall c :: c in src ==> WellFormed(c)
    ensures forall c :: c in src ==> exists x ::
      x in ResampleRows(src, offset, minutes, to) && x.time == Stamp(BucketStart(c.time, offset, minutes), to)
  {
    var rows := ResampleRows(src, offset, minutes, to);
    var cs := SortByTime(src);
    var grid := Grid(offset, minutes);
    var agg := Aggregate(cs, grid);
    ResampleRowsAreStampedFold(src, offset, minutes, to);
    AggregateTimes(cs, grid);
    forall c | c in src
      ensures exists x :: x in rows && x.time == Stamp(BucketStart(c.time, offset, minutes), to)
    {
      assert c in cs;
      var ls := Labels(agg);
      assert grid(c.time) in ls;
      var i :| 0 <= i < |ls| && ls[i] == grid(c.time);
      assert rows[i] in rows;
    }
  }

  // ---------------------------------------------------------------------
  // The service

  /** `_get_timeframe_enum`. */
  function TimeframeEnum(to: string): (r: Result<Timeframe, string>)
    ensures r.Ok? <==> to in KnownTimeframes
    ensures r.Ok? ==> r.value.Value() == to
  {
    match TimeframeFromValue(to)
    case Some(tf) => Ok(tf)
    case None => Err("Unsupported timeframe: " + to)
  }

  // The fixed texts of the service's messages.
  const FailedPrefix: string := "Failed to resample "
  const ProviderSuffix: string := " with provider alignment: "
  const InvalidPrefix: string := "Invalid timeframe conversion: "
  const InvalidAdvice: string := ". Target timeframe must represent a longer period than source timeframe."
  const FrameUnsupported: string := "Failed to resample DataFrame with provider alignment: Unsupported timeframe: "

  /** The message `resample_data` wraps every failure in. */
  function Failure(symbol: string, from: string, to: string, detail: string): string
  {
    FailedPrefix + symbol + " from " + from + " to " + to + ": " + detail
  }

  /** The message the provider variant wraps every failure in. */
  function ProviderFailure(symbol: string, from: string, to: string, detail: string): string
  {
    FailedPrefix + symbol + " from " + from + " to " + to + ProviderSuffix + detail
  }

  /** The message for a conversion that does not go to a longer timeframe. */
  function InvalidConversion(from: string, to: string): string
  {
    InvalidPrefix + from + " \U{2192} " + to + InvalidAdvice
  }

  /** The load both variants start with: `load_data` with its defaults
      (newest first, no pagination). */
  function LoadSource(files: map<Storage.FileKey, seq<Candle>>, symbol: string, from: string,
                      start: Option<int>, end: Option<int>): Result<Series, string>
  {
    Storage.LoadSpec(files, symbol, from, start, end, "desc", None, None)
  }

  /** The rows a resampling reads; none when the load fails. */
  function SourceCandles(files: map<Storage.FileKey, seq<Candle>>, symbol: string, from: string,
                         start: Option<int>, end: Option<int>): seq<Candle>
  {
    match LoadSource(files, symbol, from, start, end)
    case Ok(s) => s.candles
    case Err(_) => []
  }

  /** `resample_data` for a symbol of type `asset`: the conversion must go
      to a longer timeframe; the stored rows of the source timeframe are
      resampled on the asset's grid into a series of the target timeframe;
      every failure is reported as "Failed to resample ...". */
  function ResampleSpec(files: map<Storage.FileKey, seq<Candle>>, asset: AssetType, symbol: string,
                        from: string, to: string, start: Option<int>, end: Option<int>): Result<Series, string>
  {
    if !ValidateTimeframeConversion(from, to) then Err(Failure(symbol, from, to, InvalidConversion(from, to)))
    else
      match LoadSource(files, symbol, from, start, end)
      case Err(e) => Err(Failure(symbol, from, to, e))
      case Ok(src) => Resampled(src.candles, asset, symbol, from, to)
  }

  /** The loaded rows of a valid conversion, resampled into a series; an
      empty source gives an empty series. */
  function Resampled(src: seq<Candle>, asset: AssetType, symbol: string, from: string, to: string): Result<Series, string>
    requires to in KnownTimeframes
  {
    var rows :=
      if |src| == 0 then []
      else ResampleRows(src, AlignmentOffset(asset, to), TimeframeMinutes(to).value, to);
    match NewSeries(symbol, TimeframeEnum(to).value, rows, None, None, None)
    case Err(e) => Err(Failure(symbol, from, to, e))
    case Ok(s) => Ok(s)
  }

  /** `resample_data_with_provider_alignment`: no conversion check; an
      unknown target fails, on the empty path when the target is looked up
      and otherwise when its pandas frequency is. */
  function ProviderResampleSpec(files: map<Storage.FileKey, seq<Candle>>, asset: AssetType, symbol: string,
                                from: string, to: string, metadata: map<string, string>,
                                start: Option<int>, end: Option<int>): Result<Series, string>
  {
    match ProviderResampled(LoadSource(files, symbol, from, start, end), asset, symbol, to, metadata)
    case Err(e) => Err(ProviderFailure(symbol, from, to, e))
    case Ok(s) => Ok(s)
  }

  /** The provider variant after its load, before its failures are wrapped. */
  function ProviderResampled(load: Result<Series, string>, asset: AssetType, symbol: string,
                             to: string, metadata: map<string, string>): Result<Series, string>
  {
    match load
    case Err(e) => Err(e)
    case Ok(src) => ProviderFrame(src.candles, asset, symbol, to, metadata)
  }

  /** The provider variant on the loaded rows: an empty load gives an empty
      series of the target; otherwise the target's pandas frequency must
      exist. */
  function ProviderFrame(src: seq<Candle>, asset: AssetType, symbol: string,
                         to: string, metadata: map<string, string>): Result<Series, string>
  {
    if |src| == 0 then
      match TimeframeEnum(to)
      case Err(e) => Err(e)
      case Ok(tf) => NewSeries(symbol, tf, [], None, None, None)
    else if to !in KnownTimeframes then
      Err(FrameUnsupported + to)
    else
      var rows := ResampleRows(src, ProviderOffset(asset, to, metadata), TimeframeMinutes(to).value, to);
      NewSeries(symbol, TimeframeEnum(to).value, rows, None, None, None)
  }

  /** The steps of the provider variant after its load. */
  method ResampleLoaded(load: Result<Series, string>, asset: AssetType, symbol: string,
                        to: string, metadata: map<string, string>) returns (r: Result<Series, string>)
    ensures r == ProviderResampled(load, asset, symbol, to, metadata)
  {
    if load.Err? {
      return Err(load.error);
    }
    if |load.value.candles| == 0 {
      match TimeframeEnum(to)
      case Err(e) => return Err(e);
      case Ok(tf) => return NewSeries(symbol, tf, [], None, None, None);
    }
    r := ResampleNonEmpty(load.value.candles, asset, symbol, to, metadata);
  }

  /** The frame work of the provider variant on a non-empty load. */
  method ResampleNonEmpty(src: seq<Candle>, asset: AssetType, symbol: string,
                          to: string, metadata: map<string, string>) returns (r: Result<Series, string>)
    requires |src| > 0
    ensures r == ProviderFrame(src, asset, symbol, to, metadata)
  {
    if to !in KnownTimeframes {
      return Err(FrameUnsupported + to);
    }
    var rows := ResampleFrame(src, ProviderOffset(asset, to, metadata), TimeframeMinutes(to).value, to);
    r := NewSeries(symbol, TimeframeEnum(to).value, rows, None, None, None);
  }

  /** The outcome of `resample_data`: a series exactly when the conversion
      is valid and the symbol non-empty, of that symbol and the target
      timeframe. */
  lemma ResampleOutcome(files: map<Storage.FileKey, seq<Candle>>, asset: AssetType, symbol: string,
                        from: string, to: string, start: Option<int>, end: Option<int>)
    ensures var r := ResampleSpec(files, asset, symbol, from, to, start, end);
      && (r.Ok? <==> ValidateTimeframeConversion(from, to) && |symbol| >= 1)
      && (r.Ok? ==> r.value.symbol == symbol && r.value.timeframe.Value() == to)
  {
    Storage.LoadOutcome(files, symbol, from, start, end, "desc", None, None);
    if ValidateTimeframeConversion(from, to) {
      assert TimeframeFromValue(from).Some?;
    }
  }

  /** Every failure of `resample_data` names the symbol and both
      timeframes, and an invalid conversion is reported as such. */
  lemma ResampleErrors(files: map<Storage.FileKey, seq<Candle>>, asset: AssetType, symbol: string,
                       from: string, to: string, start: Option<int>, end: Option<int>)
    ensures var r := ResampleSpec(files, asset, symbol, from, to, start, end);
      && (!ValidateTimeframeConversion(from, to) ==> r == Err(Failure(symbol, from, to, InvalidConversion(from, to))))
      && (r.Err? ==> exists detail :: r.error == Failure(symbol, from, to, detail))
  {
  }

  /** The candles of a resampled series are the resampled source rows. */
  lemma ResampleSpecRows(files: map<Storage.FileKey, seq<Candle>>, asset: AssetType, symbol: string,
                         from: string, to: string, start: Option<int>, end: Option<int>)
    requires ResampleSpec(files, asset, symbol, from, to, start, end).Ok?
    ensures to in KnownTimeframes
    ensures ResampleSpec(files, asset, symbol, from, to, start, end).value.candles
            == ResampleRows(SourceCandles(files, symbol, from, start, end), AlignmentOffset(asset, to), TimeframeMinutes(to).value, to)
  {
    var src := SourceCandles(files, symbol, from, start, end);
    if |src| == 0 {
      assert Aggregate(SortByTime(src), Grid(AlignmentOffset(asset, to), TimeframeMinutes(to).value)) == [];
    }
  }

  /** A resampled series is empty exactly when the source is, and holds
      well-formed candles in strictly increasing time order. */
  lemma ResampleSeriesMeaning(files: map<Storage.FileKey, seq<Candle>>, asset: AssetType, symbol: string,
                              from: string, to: string, start: Option<int>, end: Option<int>)
    requires ResampleSpec(files, asset, symbol, from, to, start, end).Ok?
    ensures var s := ResampleSpec(files, asset, symbol, from, to, start, end).value;
      && (|s.candles| == 0 <==> |SourceCandles(files, symbol, from, start, end)| == 0)
      && (forall x :: x in s.candles ==> WellFormed(x))
      && StrictlyIncreasing(s.candles)
  {
    var src := SourceCandles(files, symbol, from, start, end);
    Storage.LoadOutcome(files, symbol, from, start, end, "desc", None, None);
    ResampleSpecRows(files, asset, symbol, from, to, start, end);
    ResampleRowsMeaning(src, AlignmentOffset(asset, to), to);
  }

  /** Each candle of a resampled series is the stamped reference candle of
      a non-empty bucket of the asset's grid. */
  lemma ResampleSeriesContents(files: map<Storage.FileKey, seq<Candle>>, asset: AssetType, symbol: string,
                               from: string, to: string, start: Option<int>, end: Option<int>)
    requires ResampleSpec(files, asset, symbol, from, to, start, end).Ok?
    ensures to in KnownTimeframes
    ensures FromBuckets(ResampleSpec(files, asset, symbol, from, to, start, end).value.candles,
                        SortByTime(SourceCandles(files, symbol, from, start, end)),
                        Grid(AlignmentOffset(asset, to), TimeframeMinutes(to).value), to)
  {
    var src := SourceCandles(files, symbol, from, start, end);
    Storage.LoadOutcome(files, symbol, from, start, end, "desc", None, None);
    ResampleSpecRows(files, asset, symbol, from, to, start, end);
    ResampleRowsContents(src, AlignmentOffset(asset, to), TimeframeMinutes(to).value, to);
  }

  /** Every source row's bucket has its candle in a resampled series. */
  lemma ResampleSeriesCover(files: map<Storage.FileKey, seq<Candle>>, asset: AssetType, symbol: string,
                            from: string, to: string, start: Option<int>, end: Option<int>)
    requires ResampleSpec(files, asset, symbol, from, to, start, end).Ok?
    ensures to in KnownTimeframes
    ensures forall c :: c in SourceCandles(files, symbol, from, start, end) ==>
      exists x :: x in ResampleSpec(files, asset, symbol, from, to, start, end).value.candles
                  && x.time == Stamp(BucketStart(c.time, AlignmentOffset(asset, to), TimeframeMinutes(to).value), to)
  {
    var src := SourceCandles(files, symbol, from, start, end);
    Storage.LoadOutcome(files, symbol, from, start, end, "desc", None, None);
    ResampleSpecRows(files, asset, symbol, from, to, start, end);
    ResampleRowsCover(src, AlignmentOffset(asset, to), TimeframeMinutes(to).value, to);
  }

  // ---------------------------------------------------------------------
  // The provider variant

  /** The provider variant succeeds exactly when the source timeframe and
      the target are known timeframes and the symbol is non-empty; it does
      not check that the target is longer. */
  lemma ProviderOutcome(files: map<Storage.FileKey, seq<Candle>>, asset: AssetType, symbol: string,
                        from: string, to: string, metadata: map<string, string>,
                        start: Option<int>, end: Option<int>)
    ensures var r := ProviderResampleSpec(files, asset, symbol, from, to, metadata, start, end);
      && (r.Ok? <==> TimeframeFromValue(from).Some? && to in KnownTimeframes && |symbol| >= 1)
      && (r.Ok? ==> r.value.symbol == symbol && r.value.timeframe.Value() == to)
  {
    Storage.LoadOutcome(files, symbol, from, start, end, "desc", None, None);
  }

  /** Every failure of the provider variant names the symbol and both
      timeframes. */
  lemma ProviderErrors(files: map<Storage.FileKey, seq<Candle>>, asset: AssetType, symbol: string,
                       from: string, to: string, metadata: map<string, string>,
                       start: Option<int>, end: Option<int>)
    ensures var r := ProviderResampleSpec(files, asset, symbol, from, to, metadata, start, end);
      r.Err? ==> exists detail :: r.error == ProviderFailure(symbol, from, to, detail)
  {
  }

  /** Without the "utc_aligned" strategy, the provider variant gives what
      `resample_data` gives for every valid conversion. */
  lemma ProviderFallsBack(files: map<Storage.FileKey, seq<Candle>>, asset: AssetType, symbol: string,
                          from: string, to: string, metadata: map<string, string>,
                          start: Option<int>, end: Option<int>)
    requires ValidateTimeframeConversion(from, to)
    requires !UtcAligned(metadata)
    ensures var p := ProviderResampleSpec(files, asset, symbol, from, to, metadata, start, end);
      var r := ResampleSpec(files, asset, symbol, from, to, start, end);
      p.Ok? == r.Ok? && (p.Ok? ==> p.value == r.value)
  {
    Storage.LoadOutcome(files, symbol, from, start, end, "desc", None, None);
    ResampleOutcome(files, asset, symbol, from, to, start, end);
    assert ProviderOffset(asset, to, metadata) == AlignmentOffset(asset, to);
  }

  /** The provider variant's series have the same shape as `resample_data`'s,
      on the provider's grid: empty exactly when the source is, well-formed
      candles in strictly increasing time order. */
  lemma ProviderSeriesMeaning(files: map<Storage.FileKey, seq<Candle>>, asset: AssetType, symbol: string,
                              from: string, to: string, metadata: map<string, string>,
                              start: Option<int>, end: Option<int>)
    requires ProviderResampleSpec(files, asset, symbol, from, to, metadata, start, end).Ok?
    ensures var s := ProviderResampleSpec(files, asset, symbol, from, to, metadata, start, end).value;
      && (|s.candles| == 0 <==> |SourceCandles(files, symbol, from, start, end)| == 0)
      && (forall x :: x in s.candles ==> WellFormed(x))
      && StrictlyIncreasing(s.candles)
  {
    var src := SourceCandles(files, symbol, from, start, end);
    Storage.LoadOutcome(files, symbol, from, start, end, "desc", None, None);
    if |src| > 0 {
      ResampleRowsMeaning(src, ProviderOffset(asset, to, metadata), to);
    }
  }

  // ---------------------------------------------------------------------
  // Storing

  /** What `resample_and_store` returns, and the files it leaves. */
  datatype Stored = Stored(count: Result<nat, string>, files: map<Storage.FileKey, seq<Candle>>)

  /** `resample_and_store` after the resampling: a failure passes through
      with the files unchanged; an empty series stores nothing and counts 0;
      otherwise the series is stored and its length counted. */
  function StoreStep(files: map<Storage.FileKey, seq<Candle>>, r: Result<Series, string>): Stored
  {
    match r
    case Err(e) => Stored(Err(e), files)
    case Ok(s) =>
      if |s.candles| == 0 then Stored(Ok(0), files)
      else Stored(Ok(|s.candles|), Storage.AfterStore(files, s))
  }

  function ResampleAndStoreSpec(files: map<Storage.FileKey, seq<Candle>>, asset: AssetType, symbol: string,
                                from: string, to: string, start: Option<int>, end: Option<int>): Stored
  {
    StoreStep(files, ResampleSpec(files, asset, symbol, from, to, start, end))
  }

  /** Resampling and storing keeps every file valid, counts 0 exactly when
      there was nothing to resample (and then leaves the files as they
      were), and fails exactly when `resample_data` does. */
  lemma ResampleAndStoreMeaning(files: map<Storage.FileKey, seq<Candle>>, asset: AssetType, symbol: string,
                                from: string, to: string, start: Option<int>, end: Option<int>)
    requires Storage.FilesValid(files)
    ensures var st := ResampleAndStoreSpec(files, asset, symbol, from, to, start, end);
      && Storage.FilesValid(st.files)
      && (st.count.Ok? <==> ValidateTimeframeConversion(from, to) && |symbol| >= 1)
      && (st.count.Ok? ==> (st.count.value == 0 <==> |SourceCandles(files, symbol, from, start, end)| == 0))
      && (st.count.Err? || st.count.value == 0 ==> st.files == files)
  {
    var res := ResampleSpec(files, asset, symbol, from, to, start, end);
    ResampleOutcome(files, asset, symbol, from, to, start, end);
    if res.Ok? {
      ResampleSeriesMeaning(files, asset, symbol, from, to, start, end);
      if |res.value.candles| > 0 {
        Storage.StoreKeepsValid(files, res.value);
      }
    }
  }

  /** The results of `bulk_resample` so far, and the files they leave. */
  datatype Bulk = Bulk(results: Dicts.Dict<nat>, files: map<Storage.FileKey, seq<Candle>>)

  /** `bulk_resample`: each symbol in turn, against the files as the
      previous ones left them; a failing symbol counts 0. */
  function BulkSpec(files: map<Storage.FileKey, seq<Candle>>, classify: string -> AssetType, symbols: seq<string>,
                    from: string, to: string, start: Option<int>, end: Option<int>): Bulk
  {
    if |symbols| == 0 then Bulk([], files)
    else
      var prev := BulkSpec(files, classify, symbols[..|symbols| - 1], from, to, start, end);
      var symbol := symbols[|symbols| - 1];
      BulkStep(prev, symbol, ResampleAndStoreSpec(prev.files, classify(symbol), symbol, from, to, start, end))
  }

  /** One symbol of the bulk loop: its count, or 0 when it fails. */
  function BulkStep(prev: Bulk, symbol: string, step: Stored): Bulk
  {
    Bulk(Dicts.Put(prev.results, symbol, Counted(step.count)), step.files)
  }

  /** What a symbol counts for in the bulk results. */
  function Counted(count: Result<nat, string>): nat
  {
    if count.Ok? then count.value else 0
  }

  /** The bulk fold over one more symbol is one more step. */
  lemma BulkSpecSnoc(files0: map<Storage.FileKey, seq<Candle>>, classify: string -> AssetType, symbols: seq<string>,
                     i: nat, from: string, to: string, start: Option<int>, end: Option<int>,
                     prev: Bulk, step: Stored)
    requires i < |symbols|
    requires prev == BulkSpec(files0, classify, symbols[..i], from, to, start, end)
    requires step == ResampleAndStoreSpec(prev.files, classify(symbols[i]), symbols[i], from, to, start, end)
    ensures Bulk(Dicts.Put(prev.results, symbols[i], Counted(step.count)), step.files)
         == BulkSpec(files0, classify, symbols[..i + 1], from, to, start, end)
  {
    assert symbols[..i + 1][..i] == symbols[..i];
  }

  /** One bulk step adds its symbol's entry and keeps the files valid. */
  lemma BulkStepMeaning(prev: Bulk, classify: string -> AssetType,
                        symbol: string, from: string, to: string, start: Option<int>, end: Option<int>)
    requires Dicts.DistinctKeys(prev.results) && Storage.FilesValid(prev.files)
    ensures var next := BulkStep(prev, symbol, ResampleAndStoreSpec(prev.files, classify(symbol), symbol, from, to, start, end));
      && Dicts.DistinctKeys(next.results)
      && (forall k :: k in Dicts.Keys(next.results) <==> k in Dicts.Keys(prev.results) || k == symbol)
      && Storage.FilesValid(next.files)
  {
    ResampleAndStoreMeaning(prev.files, classify(symbol), symbol, from, to, start, end);
    var step := ResampleAndStoreSpec(prev.files, classify(symbol), symbol, from, to, start, end);
    Dicts.PutMeaning(prev.results, symbol, Counted(step.count));
  }

  /** Under an invalid conversion a bulk step counts 0 and stores nothing. */
  lemma BulkStepInvalid(prev: Bulk, classify: string -> AssetType,
                        symbol: string, from: string, to: string, start: Option<int>, end: Option<int>)
    requires !ValidateTimeframeConversion(from, to)
    requires Dicts.DistinctKeys(prev.results)
    ensures var next := BulkStep(prev, symbol, ResampleAndStoreSpec(prev.files, classify(symbol), symbol, from, to, start, end));
      && next.files == prev.files
      && Dicts.DistinctKeys(next.results)
      && Dicts.Sum(next.results) + Dicts.Get(prev.results, symbol).GetOr(0) == Dicts.Sum(prev.results)
  {
    ResampleErrors(prev.files, classify(symbol), symbol, from, to, start, end);
    var step := ResampleAndStoreSpec(prev.files, classify(symbol), symbol, from, to, start, end);
    assert step.count.Err? && step.files == prev.files;
    assert BulkStep(prev, symbol, step).results == Dicts.Put(prev.results, symbol, 0);
    Dicts.PutSum(prev.results, symbol, 0);
    Dicts.PutMeaning(prev.results, symbol, 0);
  }

  /** The bulk result has one entry per distinct symbol, for exactly the
      given symbols, and the files stay valid. */
  lemma {:induction false} BulkMeaning(files: map<Storage.FileKey, seq<Candle>>, classify: string -> AssetType,
                                       symbols: seq<string>, from: string, to: string,
                                       start: Option<int>, end: Option<int>)
    requires Storage.FilesValid(files)
    ensures Dicts.DistinctKeys(BulkSpec(files, classify, symbols, from, to, start, end).results)
    ensures forall k :: k in Dicts.Keys(BulkSpec(files, classify, symbols, from, to, start, end).results) <==> k in symbols
    ensures Storage.FilesValid(BulkSpec(files, classify, symbols, from, to, start, end).files)
  {
    if |symbols| > 0 {
      var init := symbols[..|symbols| - 1];
      var symbol := symbols[|symbols| - 1];
      BulkMeaning(files, classify, init, from, to, start, end);
      BulkStepMeaning(BulkSpec(files, classify, init, from, to, start, end), classify, symbol, from, to, start, end);
      assert forall k :: k in symbols <==> k in init || k == symbol;
    }
  }

  /** An invalid conversion stores nothing and counts 0 for every symbol. */
  lemma {:induction false} BulkInvalidConversion(files: map<Storage.FileKey, seq<Candle>>, classify: string -> AssetType,
                                                 symbols: seq<string>, from: string, to: string,
                                                 start: Option<int>, end: Option<int>)
    requires !ValidateTimeframeConversion(from, to)
    ensures Dicts.DistinctKeys(BulkSpec(files, classify, symbols, from, to, start, end).results)
    ensures BulkSpec(files, classify, symbols, from, to, start, end).files == files
    ensures Dicts.Sum(BulkSpec(files, classify, symbols, from, to, start, end).results) == 0
  {
    if |symbols| > 0 {
      var init := symbols[..|symbols| - 1];
      var symbol := symbols[|symbols| - 1];
      BulkInvalidConversion(files, classify, init, from, to, start, end);
      BulkStepInvalid(BulkSpec(files, classify, init, from, to, start, end), classify, symbol, from, to, start, end);
    }
  }

  // ---------------------------------------------------------------------
  // The service object

  /** `DataResamplingService`: a storage service and a classifier of its
      own, both built fresh. */
  class DataResamplingService {
    const storage: Storage.DataStorage
    const classifier: Classification.AssetClassificationService

    constructor ()
      ensures fresh(storage) && fresh(classifier)
      ensures storage.files == map[]
      ensures classifier.cryptoSymbols == Classification.DefaultCryptoSymbols
      ensures classifier.commoditySymbols == Classification.DefaultCommoditySymbols
    {
      storage := new Storage.DataStorage();
      classifier := new Classification.AssetClassificationService();
    }

    /** `resample_data`, for the symbol's asset type as the classifier
        sees it now. */
    method ResampleData(symbol: string, from: string, to: string, start: Option<int>, end: Option<int>)
      returns (r: Result<Series, string>)
      ensures r == ResampleSpec(storage.files, classifier.ClassifySymbol(symbol), symbol, from, to, start, end)
    {
      if !ValidateTimeframeConversion(from, to) {
        return Err(Failure(symbol, from, to, InvalidConversion(from, to)));
      }
      var source := storage.LoadData(symbol, from, start, end, "desc", None, None);
      if source.Err? {
        return Err(Failure(symbol, from, to, source.error));
      }
      var rows: seq<Candle> := [];
      if |source.value.candles| > 0 {
        var asset := classifier.ClassifySymbol(symbol);
        rows := ResampleFrame(source.value.candles, AlignmentOffset(asset, to), TimeframeMinutes(to).value, to);
      }
      var series := NewSeries(symbol, TimeframeEnum(to).value, rows, None, None, None);
      if series.Err? {
        return Err(Failure(symbol, from, to, series.error));
      }
      r := series;
    }

    /** `resample_data_with_provider_alignment`. */
    method ResampleDataWithProviderAlignment(symbol: string, from: string, to: string,
                                             metadata: map<string, string>, start: Option<int>, end: Option<int>)
      returns (r: Result<Series, string>)
      ensures r == ProviderResampleSpec(storage.files, classifier.ClassifySymbol(symbol), symbol, from, to,
                                        metadata, start, end)
    {
      var source := storage.LoadData(symbol, from, start, end, "desc", None, None);
      var inner := ResampleLoaded(source, classifier.ClassifySymbol(symbol), symbol, to, metadata);
      r := if inner.Err? then Err(ProviderFailure(symbol, from, to, inner.error)) else inner;
    }

    /** `resample_and_store`: the count of stored candles, 0 when there
        were none; the files change only by storing them. */
    method ResampleAndStore(symbol: string, from: string, to: string, start: Option<int>, end: Option<int>)
      returns (r: Result<nat, string>)
      modifies storage
      ensures Stored(r, storage.files) == ResampleAndStoreSpec(old(storage.files), classifier.Classifier()(symbol), symbol, from, to, start, end)
    {
      var series := ResampleData(symbol, from, to, start, end);
      if series.Err? {
        return Err(series.error);
      }
      if |series.value.candles| == 0 {
        return Ok(0);
      }
      storage.StoreData(series.value);
      r := Ok(|series.value.candles|);
    }

    /** `bulk_resample`: each symbol in turn; a symbol that fails counts 0. */
    method BulkResample(symbols: seq<string>, from: string, to: string, start: Option<int>, end: Option<int>)
      returns (results: Dicts.Dict<nat>)
      modifies storage
      ensures Bulk(results, storage.files) == BulkSpec(old(storage.files), classifier.Classifier(), symbols, from, to, start, end)
    {
      ghost var files0 := storage.files;
      ghost var classify := classifier.Classifier();
      results := [];
      var i := 0;
      while i < |symbols|
        invariant 0 <= i <= |symbols|
        invariant classifier.Classifier() == classify
        invariant Bulk(results, storage.files) == BulkSpec(files0, classify, symbols[..i], from, to, start, end)
      {
        var symbol := symbols[i];
        ghost var prev := Bulk(results, storage.files);
        var count := ResampleAndStore(symbol, from, to, start, end);
        BulkSpecSnoc(files0, classify, symbols, i, from, to, start, end, prev, Stored(count, storage.files));
        results := Dicts.Put(results, symbol, Counted(count));
        i := i + 1;
      }
      assert symbols[..i] == symbols;
    }
  }
}
