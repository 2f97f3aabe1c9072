/** Gap recovery: for each missing period, the vendor's minute candles that
    fall inside the period are merged into the stored 1-minute files, and
    each attempt is reported.  What the vendor answers is a parameter. */
module GapFilling {
  import opened Wrappers
  import opened PriceData
  import opened CandleSeqs
  import opened Dates
  import Storage
  import PolygonUrls

  // ---------------------------------------------------------------------
  // What the vendor answers

  /** One element of an aggregates reply's `results`: each field is an
      integer, or absent when missing or not a number; `t` is in
      milliseconds. */
  datatype VendorRow = VendorRow(t: Option<int>, o: Option<int>, h: Option<int>, l: Option<int>,
                                 c: Option<int>, v: Option<int>)

  /** An HTTP reply: its status code and the `results` list of its body
      (empty when the body has none). */
  datatype HttpReply = HttpReply(statusCode: int, results: seq<VendorRow>)

  /** What the vendor does for one period; an `Err` carries the text of the
      exception raised. */
  datatype Vendor = Vendor(
    trades: Result<nat, string>,
    reply: Result<HttpReply, string>,
    probe: Result<nat, string>)
  // trades: how many trades the 50000-trade fetch returns;
  // reply:  the GET of the period's URL;
  // probe:  how many trades the one-trade fetch of the activity check returns.

  /** The response a period gets. */
  function VendorFor(vendor: ((int, int)) -> Vendor, p: (int, int)): Vendor
  {
    vendor(p)
  }

  /** Only a 200 reply's rows are used; any other status gives none. */
  function ReplyRows(reply: Result<HttpReply, string>): Result<seq<VendorRow>, string>
  {
    match reply
    case Err(e) => Err(e)
    case Ok(r) => if r.statusCode == 200 then Ok(r.results) else Ok([])
  }

  /** The rows an attempt works on: with the trades endpoint, the trades are
      fetched first and the period's URL is only asked when some exist;
      otherwise the period's URL is asked directly. */
  function FetchRows(useTrades: bool, v: Vendor): (r: Result<seq<VendorRow>, string>)
    ensures !useTrades ==> r == ReplyRows(v.reply)
    ensures useTrades && v.trades.Err? ==> r == Err(v.trades.error)
    ensures useTrades && v.trades.Ok? ==> r == if v.trades.value > 0 then ReplyRows(v.reply) else Ok([])
  {
    if useTrades then
      match v.trades
      case Err(e) => Err(e)
      case Ok(n) => if n > 0 then ReplyRows(v.reply) else Ok([])
    else ReplyRows(v.reply)
  }

  /** A row as a candle: none when its time or any value is missing; the
      time becomes whole seconds. */
  function RowCandle(r: VendorRow): Option<Candle>
  {
    if r.t.None? || r.o.None? || r.h.None? || r.l.None? || r.c.None? || r.v.None? then None
    else Some(Candle(r.t.value / 1000, r.o.value, r.l.value, r.h.value, r.c.value, r.v.value))
  }

  /** The candles of the rows, in order, skipping incomplete rows; the first
      candle that breaks the candle invariant raises, and its error ends the
      attempt. */
  function ToCandles(rows: seq<VendorRow>): Result<seq<Candle>, string>
  {
    if |rows| == 0 then Ok([])
    else
      match ToCandles(rows[..|rows| - 1])
      case Err(e) => Err(e)
      case Ok(cs) =>
        match RowCandle(rows[|rows| - 1])
        case None => Ok(cs)
        case Some(c) =>
          match NewCandle(c)
          case Err(e) => Err(CandleErrorMessage(e))
          case Ok(c') => Ok(cs + [c'])
  }

  /** Conversion fails exactly when a complete row breaks the candle
      invariant; otherwise it yields exactly the candles of the complete
      rows, all well-formed. */
  lemma {:induction false} ToCandlesMeaning(rows: seq<VendorRow>)
    ensures ToCandles(rows).Ok? <==>
              forall i :: 0 <= i < |rows| && RowCandle(rows[i]).Some? ==> WellFormed(RowCandle(rows[i]).value)
    ensures ToCandles(rows).Ok? ==>
              forall c :: c in ToCandles(rows).value <==> exists i :: 0 <= i < |rows| && RowCandle(rows[i]) == Some(c)
    ensures ToCandles(rows).Ok? ==> forall c :: c in ToCandles(rows).value ==> WellFormed(c)
  {
    if |rows| > 0 {
      var init := rows[..|rows| - 1];
      ToCandlesMeaning(init);
      assert forall i :: 0 <= i < |init| ==> init[i] == rows[i];
      var last := RowCandle(rows[|rows| - 1]);
      if ToCandles(init).Ok? {
        var cs := ToCandles(init).value;
        if last.Some? && NewCandle(last.value).Ok? {
          forall c | c in cs + [last.value]
            ensures exists i :: 0 <= i < |rows| && RowCandle(rows[i]) == Some(c)
          {
            if c in cs {
              var i :| 0 <= i < |init| && RowCandle(init[i]) == Some(c);
              assert RowCandle(rows[i]) == Some(c);
            } else {
              assert RowCandle(rows[|rows| - 1]) == Some(c);
            }
          }
        }
      } else {
        var i :| 0 <= i < |init| && RowCandle(init[i]).Some? && !WellFormed(RowCandle(init[i]).value);
        assert RowCandle(rows[i]) == RowCandle(init[i]);
      }
    }
  }

  /** The candles inside the period, both ends included, in their order. */
  function InPeriod(cs: seq<Candle>, start: int, end: int): (r: seq<Candle>)
    ensures forall c :: c in r <==> c in cs && start <= c.time <= end
    ensures |r| <= |cs|
  {
    if |cs| == 0 then []
    else InPeriod(cs[..|cs| - 1], start, end)
         + (if start <= cs[|cs| - 1].time <= end then [cs[|cs| - 1]] else [])
  }

  /** The candles an attempt recovers, or the error it raised. */
  function Recovered(useTrades: bool, v: Vendor, start: int, end: int): Result<seq<Candle>, string>
  {
    match FetchRows(useTrades, v)
    case Err(e) => Err(e)
    case Ok(rows) =>
      match ToCandles(rows)
      case Err(e) => Err(e)
      case Ok(cs) => Ok(InPeriod(cs, start, end))
  }

  /** `_check_trading_activity`: activity exactly when the probe returned a
      trade; an error counts as none. */
  function CheckTradingActivity(probe: Result<nat, string>): (r: (bool, string))
    ensures r.0 <==> probe.Ok? && probe.value > 0
    ensures probe.Err? ==> r.1 == "Error checking trades: " + probe.error
  {
    match probe
    case Ok(n) => (n > 0, "Trading activity check completed")
    case Err(e) => (false, "Error checking trades: " + e)
  }

  // ---------------------------------------------------------------------
  // One attempt's report

  /** `GapFillResult`; the period's bounds are kept as timestamps. */
  datatype GapFillResult = GapFillResult(
    startTime: int,
    endTime: int,
    attempted: bool,
    success: bool,
    candlesRecovered: nat,
    vendorUnavailable: bool,
    polygonApiUrl: Option<string>,
    tradesApiUrl: Option<string>,
    hasTradingActivity: Option<bool>,
    errorMessage: Option<string>)

  const VendorFailed: string := "Failed to fetch data from vendor"
  const NoActivity: string := "No trading activity detected during this period"

  /** `_fill_single_gap`'s report. */
  function GapReport(settings: PolygonUrls.PolygonSettings, symbol: string, start: int, end: int,
                     v: Vendor): GapFillResult
  {
    var url := PolygonUrls.UrlForPeriod(settings, symbol, (start, end));
    var tradesUrl := PolygonUrls.TradesUrl(settings.apiKey, symbol, (start, end));
    match Recovered(settings.useTradesEndpointForGaps, v, start, end)
    case Err(e) => GapFillResult(start, end, true, false, 0, false, Some(url), Some(tradesUrl), None, Some(e))
    case Ok(relevant) =>
      if |relevant| == 0 then
        var activity := CheckTradingActivity(v.probe).0;
        GapFillResult(start, end, true, false, 0, true, Some(url), Some(tradesUrl), Some(activity),
                      Some(if activity then VendorFailed else NoActivity))
      else
        GapFillResult(start, end, true, true, |relevant|, false, Some(url), None, Some(true), None)
  }

  /** An attempt succeeds exactly when some vendor candle lies inside the
      period, and then reports their number and no trades URL; with none,
      the vendor is unavailable and the activity probe decides the message;
      an exception is reported with its text and unknown activity. */
  lemma GapReportMeaning(settings: PolygonUrls.PolygonSettings, symbol: string, start: int, end: int, v: Vendor)
    ensures var r := GapReport(settings, symbol, start, end, v);
      var rec := Recovered(settings.useTradesEndpointForGaps, v, start, end);
      && r.attempted && r.startTime == start && r.endTime == end
      && r.polygonApiUrl == Some(PolygonUrls.UrlForPeriod(settings, symbol, (start, end)))
      && (r.success <==> rec.Ok? && |rec.value| > 0)
      && (r.success ==> r.candlesRecovered == |rec.value| && !r.vendorUnavailable
                        && r.hasTradingActivity == Some(true) && r.tradesApiUrl.None? && r.errorMessage.None?)
      && (!r.success ==> r.candlesRecovered == 0
                         && r.tradesApiUrl == Some(PolygonUrls.TradesUrl(settings.apiKey, symbol, (start, end))))
      && (rec.Ok? && |rec.value| == 0 ==>
            r.vendorUnavailable
            && r.hasTradingActivity == Some(v.probe.Ok? && v.probe.value > 0)
            && r.errorMessage == Some(if v.probe.Ok? && v.probe.value > 0 then VendorFailed else NoActivity))
      && (rec.Err? ==> !r.vendorUnavailable && r.hasTradingActivity.None? && r.errorMessage == Some(rec.error))
  {
  }

  // ---------------------------------------------------------------------
  // Merging recovered candles into a date

  /** The recovered candles whose time is not among `times`, in order. */
  function Absent(incoming: seq<Candle>, times: set<int>): (r: seq<Candle>)
    ensures forall c :: c in r <==> c in incoming && c.time !in times
  {
    if |incoming| == 0 then []
    else Absent(incoming[..|incoming| - 1], times)
         + (if incoming[|incoming| - 1].time !in times then [incoming[|incoming| - 1]] else [])
  }

  /** One date's merge: the existing candles and each recovered candle whose
      time they lack, sorted by time (a stable sort). */
  function MergeRecovered(existing: seq<Candle>, incoming: seq<Candle>): seq<Candle>
  {
    SortByTime(existing + Absent(incoming, Times(existing)))
  }

  /** The merge is sorted, loses no existing candle and adds exactly the
      recovered candles at new times; at an existing time only existing
      candles remain, and the times are the union of both. */
  lemma MergeRecoveredMeaning(existing: seq<Candle>, incoming: seq<Candle>)
    ensures SortedByTime(MergeRecovered(existing, incoming))
    ensures multiset(MergeRecovered(existing, incoming))
         == multiset(existing) + multiset(Absent(incoming, Times(existing)))
    ensures forall c :: c in MergeRecovered(existing, incoming) && c.time in Times(existing) ==> c in existing
    ensures Times(MergeRecovered(existing, incoming)) == Times(existing) + Times(incoming)
  {
    var extra := Absent(incoming, Times(existing));
    var r := MergeRecovered(existing, incoming);
    SortByTimePermutes(existing + extra);
    TimesOfSameElements(r, existing + extra);
    TimesOfConcat(existing, extra);
    forall t | t in Times(incoming)
      ensures t in Times(existing) + Times(extra)
    {
      var c :| c in incoming && c.time == t;
      if t !in Times(existing) {
        assert c in extra;
      }
    }
  }

  /** What one date's merge does to the files: the date's existing 1-minute
      candles are loaded (newest first), merged with the recovered ones and
      stored back; a load or a series that cannot be built leaves the files
      as they are. */
  function DateMerge(files: map<Storage.FileKey, seq<Candle>>, symbol: string, d: int,
                     incoming: seq<Candle>): map<Storage.FileKey, seq<Candle>>
  {
    match Storage.LoadSpec(files, symbol, OneMin.Value(), Some(d), Some(d), "desc", None, None)
    case Err(_) => files
    case Ok(existing) =>
      match NewSeries(symbol, OneMin, MergeRecovered(existing.candles, incoming), None, None, None)
      case Err(_) => files
      case Ok(s) => Storage.AfterStore(files, s)
  }

  /** With the files as the store leaves them, the one-date load of a merge
      succeeds for a named symbol and returns the rows of that date's file. */
  lemma DateLoadValid(files: map<Storage.FileKey, seq<Candle>>, symbol: string, d: int)
    requires Storage.FilesValid(files) && |symbol| >= 1
    ensures var r := Storage.LoadSpec(files, symbol, OneMin.Value(), Some(d), Some(d), "desc", None, None);
      && r.Ok?
      && forall c :: c in r.value.candles <==> c in Storage.FileRows(files, Storage.IntradayFile(OneMin.Value(), symbol, d))
  {
    var rows := Storage.FileRows(files, Storage.IntradayFile(OneMin.Value(), symbol, d));
    Storage.OneDateLoad(files, symbol, OneMin, d, "desc");
    Storage.OrderedMembers(rows, false);
    assert forall c :: c in Storage.Ordered(rows, false) ==> WellFormed(c);
  }

  /** A merge of candles of one date holds candles of that date only. */
  lemma MergedOnDate(existing: seq<Candle>, incoming: seq<Candle>, d: int)
    requires forall c :: c in existing ==> DayOf(c.time) == d
    requires forall c :: c in incoming ==> DayOf(c.time) == d
    ensures forall c :: c in MergeRecovered(existing, incoming) ==> DayOf(c.time) == d
  {
    MergeRecoveredMeaning(existing, incoming);
    forall c | c in MergeRecovered(existing, incoming)
      ensures DayOf(c.time) == d
    {
      assert c in multiset(MergeRecovered(existing, incoming));
      assert c in existing || c in Absent(incoming, Times(existing));
    }
  }

  /** The series a merge of date `d` stores, when the files are as the store
      leaves them: all its candles are of date `d`, and its times are the
      times of the date's file and the recovered times. */
  lemma MergedSeries(files: map<Storage.FileKey, seq<Candle>>, symbol: string, d: int, incoming: seq<Candle>)
    requires Storage.FilesValid(files)
    requires |symbol| >= 1
    requires forall c :: c in incoming ==> DayOf(c.time) == d
    ensures var r := Storage.LoadSpec(files, symbol, OneMin.Value(), Some(d), Some(d), "desc", None, None);
      && r.Ok?
      && var merged := MergeRecovered(r.value.candles, incoming);
      && NewSeries(symbol, OneMin, merged, None, None, None).Ok?
      && DateMerge(files, symbol, d, incoming) == Storage.AfterStore(files, NewSeries(symbol, OneMin, merged, None, None, None).value)
      && (forall c :: c in merged ==> DayOf(c.time) == d)
      && Times(merged) == Times(Storage.FileRows(files, Storage.IntradayFile(OneMin.Value(), symbol, d))) + Times(incoming)
  {
    var k := Storage.IntradayFile(OneMin.Value(), symbol, d);
    var rows := Storage.FileRows(files, k);
    DateLoadValid(files, symbol, d);
    var existing := Storage.LoadSpec(files, symbol, OneMin.Value(), Some(d), Some(d), "desc", None, None).value.candles;
    assert forall c :: c in existing ==> DayOf(c.time) == d by {
      assert k in files ==> Storage.FileValid(k, files[k]);
    }
    TimesOfSameElements(existing, rows);
    MergeRecoveredMeaning(existing, incoming);
    MergedOnDate(existing, incoming, d);
  }

  /** With the files as the store leaves them, merging recovered candles of
      date `d` leaves the date's 1-minute file holding the times it held and
      the recovered times. */
  lemma DateMergeTimes(files: map<Storage.FileKey, seq<Candle>>, symbol: string, d: int,
                       incoming: seq<Candle>)
    requires Storage.FilesValid(files)
    requires |symbol| >= 1 && |incoming| > 0
    requires forall c :: c in incoming ==> DayOf(c.time) == d
    ensures var k := Storage.IntradayFile(OneMin.Value(), symbol, d);
      && k in DateMerge(files, symbol, d, incoming)
      && Times(DateMerge(files, symbol, d, incoming)[k]) == Times(Storage.FileRows(files, k)) + Times(incoming)
  {
    var k := Storage.IntradayFile(OneMin.Value(), symbol, d);
    MergedSeries(files, symbol, d, incoming);
    var existing := Storage.LoadSpec(files, symbol, OneMin.Value(), Some(d), Some(d), "desc", None, None).value.candles;
    var merged := MergeRecovered(existing, incoming);
    var s := NewSeries(symbol, OneMin, merged, None, None, None).value;
    assert incoming[0].time in Times(merged);
    Storage.TouchedKeys(s, k);
    Storage.StoreWrites(files, s, k);
    Storage.IncomingOfDate(s, k);
    TimesOfSameElements(Storage.Incoming(s, k), merged);
  }

  /** Merging recovered candles of date `d` touches no file but that date's
      1-minute file of the symbol. */
  lemma DateMergeFrame(files: map<Storage.FileKey, seq<Candle>>, symbol: string, d: int,
                       incoming: seq<Candle>, k': Storage.FileKey)
    requires Storage.FilesValid(files)
    requires forall c :: c in incoming ==> DayOf(c.time) == d
    requires k' != Storage.IntradayFile(OneMin.Value(), symbol, d)
    ensures k' in DateMerge(files, symbol, d, incoming) <==> k' in files
    ensures k' in files ==> DateMerge(files, symbol, d, incoming)[k'] == files[k']
  {
    if |symbol| >= 1 {
      MergedSeries(files, symbol, d, incoming);
      var existing := Storage.LoadSpec(files, symbol, OneMin.Value(), Some(d), Some(d), "desc", None, None).value.candles;
      var s := NewSeries(symbol, OneMin, MergeRecovered(existing, incoming), None, None, None).value;
      Storage.TouchedKeys(s, k');
      Storage.StoreFrame(files, s, k');
    }
  }

  /** Merging well-formed recovered candles keeps the files as the store
      leaves them. */
  lemma DateMergeKeepsValid(files: map<Storage.FileKey, seq<Candle>>, symbol: string, d: int,
                            incoming: seq<Candle>)
    requires Storage.FilesValid(files)
    requires forall c :: c in incoming ==> DayOf(c.time) == d && WellFormed(c)
    ensures Storage.FilesValid(DateMerge(files, symbol, d, incoming))
  {
    if |symbol| >= 1 {
      var k := Storage.IntradayFile(OneMin.Value(), symbol, d);
      MergedSeries(files, symbol, d, incoming);
      DateLoadValid(files, symbol, d);
      var existing := Storage.LoadSpec(files, symbol, OneMin.Value(), Some(d), Some(d), "desc", None, None).value.candles;
      var merged := MergeRecovered(existing, incoming);
      MergeRecoveredMeaning(existing, incoming);
      forall c | c in merged
        ensures WellFormed(c)
      {
        assert c in multiset(merged);
        if c in existing {
          assert k in files && Storage.FileValid(k, files[k]);
        } else {
          assert c in Absent(incoming, Times(existing));
        }
      }
      Storage.StoreKeepsValid(files, NewSeries(symbol, OneMin, merged, None, None, None).value);
    }
  }

  /** The dates of `dates` merged one after another, each with the
      recovered candles of that date. */
  function StoreDates(files: map<Storage.FileKey, seq<Candle>>, symbol: string, cs: seq<Candle>,
                      dates: seq<int>): map<Storage.FileKey, seq<Candle>>
  {
    if |dates| == 0 then files
    else DateMerge(StoreDates(files, symbol, cs, dates[..|dates| - 1]), symbol, dates[|dates| - 1],
                   Storage.CandlesOn(cs, dates[|dates| - 1]))
  }

  /** Storing recovered candles: grouped by date in order of first
      appearance, each date merged in turn. */
  function StoreRecovered(files: map<Storage.FileKey, seq<Candle>>, symbol: string,
                          cs: seq<Candle>): map<Storage.FileKey, seq<Candle>>
  {
    StoreDates(files, symbol, cs, Storage.FirstDates(cs))
  }

  /** Storing well-formed recovered candles keeps the files as the store
      leaves them. */
  lemma {:induction false} StoreDatesKeepsValid(files: map<Storage.FileKey, seq<Candle>>, symbol: string,
                                                cs: seq<Candle>, dates: seq<int>)
    requires Storage.FilesValid(files)
    requires forall c :: c in cs ==> WellFormed(c)
    ensures Storage.FilesValid(StoreDates(files, symbol, cs, dates))
  {
    if |dates| > 0 {
      var d := dates[|dates| - 1];
      StoreDatesKeepsValid(files, symbol, cs, dates[..|dates| - 1]);
      DateMergeKeepsValid(StoreDates(files, symbol, cs, dates[..|dates| - 1]), symbol, d, Storage.CandlesOn(cs, d));
    }
  }

  /** No file of `a` is gone from `b` or has lost a time. */
  predicate Grown(a: map<Storage.FileKey, seq<Candle>>, b: map<Storage.FileKey, seq<Candle>>)
  {
    forall k :: k in a ==> k in b && Times(a[k]) <= Times(b[k])
  }

  /** Every candle of `cs` on one of `dates` has its time in the 1-minute
      file of its date. */
  predicate Covers(files: map<Storage.FileKey, seq<Candle>>, symbol: string, cs: seq<Candle>, dates: seq<int>)
  {
    forall c :: c in cs && DayOf(c.time) in dates ==>
      Storage.IntradayFile(OneMin.Value(), symbol, DayOf(c.time)) in files
      && c.time in Times(files[Storage.IntradayFile(OneMin.Value(), symbol, DayOf(c.time))])
  }

  /** A merge of a date with recovered candles loses no time of any file. */
  lemma DateMergeGrows(files: map<Storage.FileKey, seq<Candle>>, symbol: string, d: int, incoming: seq<Candle>)
    requires Storage.FilesValid(files)
    requires |symbol| >= 1 && |incoming| > 0
    requires forall c :: c in incoming ==> DayOf(c.time) == d
    ensures Grown(files, DateMerge(files, symbol, d, incoming))
  {
    DateMergeTimes(files, symbol, d, incoming);
    forall k | k in files && k != Storage.IntradayFile(OneMin.Value(), symbol, d)
      ensures k in DateMerge(files, symbol, d, incoming)
      ensures DateMerge(files, symbol, d, incoming)[k] == files[k]
    {
      DateMergeFrame(files, symbol, d, incoming, k);
    }
  }

  lemma {:induction false} StoreDatesMeaning(files: map<Storage.FileKey, seq<Candle>>, symbol: string,
                                             cs: seq<Candle>, dates: seq<int>)
    requires Storage.FilesValid(files)
    requires |symbol| >= 1
    requires forall c :: c in cs ==> WellFormed(c)
    requires forall d :: d in dates ==> d in Storage.DaysOf(cs)
    ensures Grown(files, StoreDates(files, symbol, cs, dates))
    ensures Covers(StoreDates(files, symbol, cs, dates), symbol, cs, dates)
  {
    if |dates| > 0 {
      var init := dates[..|dates| - 1];
      var d := dates[|dates| - 1];
      var before := StoreDates(files, symbol, cs, init);
      var incoming := Storage.CandlesOn(cs, d);
      StoreDatesMeaning(files, symbol, cs, init);
      StoreDatesKeepsValid(files, symbol, cs, init);
      assert d in Storage.DaysOf(cs);
      var c0 :| c0 in cs && DayOf(c0.time) == d;
      assert c0 in incoming;
      DateMergeGrows(before, symbol, d, incoming);
      DateMergeTimes(before, symbol, d, incoming);
      var after := DateMerge(before, symbol, d, incoming);
      forall c | c in cs && DayOf(c.time) in dates
        ensures Storage.IntradayFile(OneMin.Value(), symbol, DayOf(c.time)) in after
        ensures c.time in Times(after[Storage.IntradayFile(OneMin.Value(), symbol, DayOf(c.time))])
      {
        if DayOf(c.time) == d {
          assert c in incoming;
        } else {
          assert DayOf(c.time) in init;
        }
      }
    }
  }

  /** Storing recovered candles loses no time of any file, and afterwards
      every recovered candle's time is in the 1-minute file of its date. */
  lemma StoreRecoveredMeaning(files: map<Storage.FileKey, seq<Candle>>, symbol: string, cs: seq<Candle>)
    requires Storage.FilesValid(files)
    requires |symbol| >= 1
    requires forall c :: c in cs ==> WellFormed(c)
    ensures Storage.FilesValid(StoreRecovered(files, symbol, cs))
    ensures Grown(files, StoreRecovered(files, symbol, cs))
    ensures forall c :: c in cs ==>
      Storage.IntradayFile(OneMin.Value(), symbol, DayOf(c.time)) in StoreRecovered(files, symbol, cs)
      && c.time in Times(StoreRecovered(files, symbol, cs)[Storage.IntradayFile(OneMin.Value(), symbol, DayOf(c.time))])
  {
    var dates := Storage.FirstDates(cs);
    StoreDatesKeepsValid(files, symbol, cs, dates);
    StoreDatesMeaning(files, symbol, cs, dates);
    forall c | c in cs
      ensures DayOf(c.time) in dates
    {
      assert DayOf(c.time) in Storage.DaysOf(cs);
    }
  }

  /** What one attempt does to the files: only a successful one stores. */
  function FillFiles(files: map<Storage.FileKey, seq<Candle>>, settings: PolygonUrls.PolygonSettings,
                     symbol: string, start: int, end: int, v: Vendor): map<Storage.FileKey, seq<Candle>>
  {
    match Recovered(settings.useTradesEndpointForGaps, v, start, end)
    case Err(_) => files
    case Ok(relevant) => if |relevant| > 0 then StoreRecovered(files, symbol, relevant) else files
  }

  /** The attempts for `periods`, one after another. */
  function FillAll(files: map<Storage.FileKey, seq<Candle>>, settings: PolygonUrls.PolygonSettings,
                   symbol: string, periods: seq<(int, int)>,
                   vendor: ((int, int)) -> Vendor): map<Storage.FileKey, seq<Candle>>
  {
    if |periods| == 0 then files
    else
      var p := periods[|periods| - 1];
      FillFiles(FillAll(files, settings, symbol, periods[..|periods| - 1], vendor), settings, symbol,
                p.0, p.1, VendorFor(vendor, p))
  }

  lemma FillAllSnoc(files: map<Storage.FileKey, seq<Candle>>, settings: PolygonUrls.PolygonSettings,
                     symbol: string, ps: seq<(int, int)>, i: nat, vendor: ((int, int)) -> Vendor)
    requires i < |ps|
    ensures FillAll(files, settings, symbol, ps[..i + 1], vendor)
         == FillFiles(FillAll(files, settings, symbol, ps[..i], vendor), settings, symbol, ps[i].0, ps[i].1,
                      VendorFor(vendor, ps[i]))
  {
    assert ps[..i + 1][..i] == ps[..i];
  }

  /** `missing_periods[:max_attempts]`, with Python's slice bounds: a
      negative bound counts from the end. */
  function Attempted(periods: seq<(int, int)>, maxAttempts: int): (r: seq<(int, int)>)
    ensures r <= periods
    ensures 0 <= maxAttempts ==> |r| == if maxAttempts < |periods| then maxAttempts else |periods|
    ensures maxAttempts < 0 ==> |r| == if |periods| + maxAttempts > 0 then |periods| + maxAttempts else 0
  {
    if maxAttempts >= 0 then periods[..if maxAttempts < |periods| then maxAttempts else |periods|]
    else periods[..if |periods| + maxAttempts > 0 then |periods| + maxAttempts else 0]
  }

  // ---------------------------------------------------------------------
  // Counting what was stored

  /** The candles with `start <= t < end`: the period half-open. */
  function CountInWindow(cs: seq<Candle>, start: int, end: int): nat
  {
    if |cs| == 0 then 0
    else CountInWindow(cs[..|cs| - 1], start, end) + (if start <= cs[|cs| - 1].time < end then 1 else 0)
  }

  /** What one date contributes: the candles of the symbol's 1-minute file
      for that date inside the window.  The load returns them newest first
      (`Storage.OneDateLoad`); `CountLoadedDay` shows the order does not
      change the count. */
  function DayCount(files: map<Storage.FileKey, seq<Candle>>, symbol: string, start: int, end: int, d: int): nat
  {
    if |symbol| == 0 then 0
    else CountInWindow(Storage.ReadBack(Storage.FileRows(files, Storage.IntradayFile(OneMin.Value(), symbol, d))), start, end)
  }

  lemma {:induction false} CountConcat(a: seq<Candle>, b: seq<Candle>, start: int, end: int)
    ensures CountInWindow(a + b, start, end) == CountInWindow(a, start, end) + CountInWindow(b, start, end)
  {
    if |b| == 0 {
      assert a + b == a;
    } else {
      CountConcat(a, b[..|b| - 1], start, end);
      assert (a + b)[..|a + b| - 1] == a + b[..|b| - 1];
    }
  }

  /** The count in a window depends on which candles there are, not on their
      order. */
  lemma {:induction false} CountPermutation(a: seq<Candle>, b: seq<Candle>, start: int, end: int)
    requires multiset(a) == multiset(b)
    ensures CountInWindow(a, start, end) == CountInWindow(b, start, end)
    decreases |a|
  {
    if |a| == 0 {
      assert |multiset(b)| == 0;
    } else {
      var x := a[|a| - 1];
      var init := a[..|a| - 1];
      assert a == init + [x];
      assert x in multiset(b);
      var i :| 0 <= i < |b| && b[i] == x;
      var rest := b[..i] + b[i + 1..];
      assert b == b[..i] + [x] + b[i + 1..];
      RemoveMatching(a, b, i);
      CountPermutation(init, rest, start, end);
      CountConcat(init, [x], start, end);
      CountConcat(b[..i], [x], start, end);
      CountConcat(b[..i] + [x], b[i + 1..], start, end);
      CountConcat(b[..i], b[i + 1..], start, end);
    }
  }

  /** Taking the same element out of two permutations of each other leaves
      permutations of each other. */
  lemma RemoveMatching<T>(a: seq<T>, b: seq<T>, i: nat)
    requires multiset(a) == multiset(b)
    requires |a| > 0 && i < |b| && b[i] == a[|a| - 1]
    ensures multiset(a[..|a| - 1]) == multiset(b[..i] + b[i + 1..])
  {
    var x := b[i];
    assert a == a[..|a| - 1] + [x];
    assert b == b[..i] + [x] + b[i + 1..];
    var ma, mb := multiset(a[..|a| - 1]), multiset(b[..i] + b[i + 1..]);
    assert ma + multiset{x} == mb + multiset{x};
    assert (ma + multiset{x}) - multiset{x} == ma;
    assert (mb + multiset{x}) - multiset{x} == mb;
  }

  /** Counting what a one-date load returns counts the date's file. */
  lemma CountLoadedDay(files: map<Storage.FileKey, seq<Candle>>, symbol: string, start: int, end: int, d: int)
    requires |symbol| >= 1
    ensures CountInWindow(Storage.DateRows(files, OneMin.Value(), symbol, d, false), start, end)
         == DayCount(files, symbol, start, end, d)
  {
    var rows := Storage.FileRows(files, Storage.IntradayFile(OneMin.Value(), symbol, d));
    Storage.OrderedMembers(rows, false);
    Storage.OrderedMultiset(rows, false);
    CountPermutation(Storage.Ordered(rows, false), rows, start, end);
  }

  /** The candles inside the window on the `n` dates from `first` on. */
  function CountDays(files: map<Storage.FileKey, seq<Candle>>, symbol: string, start: int, end: int,
                     first: int, n: nat): nat
  {
    if n == 0 then 0
    else CountDays(files, symbol, start, end, first, n - 1) + DayCount(files, symbol, start, end, first + n - 1)
  }

  lemma CountDaysNext(files: map<Storage.FileKey, seq<Candle>>, symbol: string, start: int, end: int,
                       first: int, k: nat)
    ensures CountDays(files, symbol, start, end, first, k + 1)
         == CountDays(files, symbol, start, end, first, k) + DayCount(files, symbol, start, end, first + k)
  {
    assert first + (k + 1) - 1 == first + k;
  }

  /** The number of dates from `a` to `b`, both included. */
  function DaysBetween(a: int, b: int): nat
  {
    if a <= b then b - a + 1 else 0
  }

  /** `_count_recovered_candles`: every date from the start's to the end's. */
  function CountRecovered(files: map<Storage.FileKey, seq<Candle>>, symbol: string, start: int, end: int): nat
  {
    CountDays(files, symbol, start, end, DayOf(start), DaysBetween(DayOf(start), DayOf(end)))
  }

  // ---------------------------------------------------------------------
  // The service

  /** `GapFillingService`: the store it writes to and the vendor settings. */
  class GapFillingService {
    const storage: Storage.DataStorage
    const settings: PolygonUrls.PolygonSettings

    constructor (storage: Storage.DataStorage, settings: PolygonUrls.PolygonSettings)
      ensures this.storage == storage && this.settings == settings
    {
      this.storage := storage;
      this.settings := settings;
    }

    /** `fill_gaps_for_periods`: the first `maxAttempts` periods (by Python's
        slice rule), in order, one report each; the files take each
        successful attempt's candles in turn. */
    method FillGapsForPeriods(symbol: string, periods: seq<(int, int)>, maxAttempts: int,
                              vendor: ((int, int)) -> Vendor)
      returns (results: seq<GapFillResult>)
      modifies storage
      ensures var ps := Attempted(periods, maxAttempts);
        && |results| == |ps|
        && (forall i :: 0 <= i < |ps| ==>
              results[i] == GapReport(settings, symbol, ps[i].0, ps[i].1, VendorFor(vendor, ps[i])))
        && storage.files == FillAll(old(storage.files), settings, symbol, ps, vendor)
    {
      var ps := Attempted(periods, maxAttempts);
      ghost var files0 := storage.files;
      results := [];
      var i := 0;
      while i < |ps|
        invariant 0 <= i <= |ps|
        invariant |results| == i
        invariant forall k :: 0 <= k < i ==>
                    results[k] == GapReport(settings, symbol, ps[k].0, ps[k].1, VendorFor(vendor, ps[k]))
        invariant storage.files == FillAll(files0, settings, symbol, ps[..i], vendor)
      {
        var r := FillSingleGap(symbol, ps[i].0, ps[i].1, VendorFor(vendor, ps[i]));
        FillAllSnoc(files0, settings, symbol, ps, i, vendor);
        results := results + [r];
        i := i + 1;
      }
      assert ps[..i] == ps;
    }

    /** `_fill_single_gap`. */
    method FillSingleGap(symbol: string, start: int, end: int, v: Vendor) returns (r: GapFillResult)
      modifies storage
      ensures r == GapReport(settings, symbol, start, end, v)
      ensures storage.files == FillFiles(old(storage.files), settings, symbol, start, end, v)
    {
      var url := PolygonUrls.UrlForPeriod(settings, symbol, (start, end));
      var tradesUrl := PolygonUrls.TradesUrl(settings.apiKey, symbol, (start, end));
      var rows := FetchRows(settings.useTradesEndpointForGaps, v);
      if rows.Err? {
        return GapFillResult(start, end, true, false, 0, false, Some(url), Some(tradesUrl), None, Some(rows.error));
      }
      var candles := ConvertRows(rows.value);
      if candles.Err? {
        return GapFillResult(start, end, true, false, 0, false, Some(url), Some(tradesUrl), None, Some(candles.error));
      }
      var relevant := FilterPeriod(candles.value, start, end);
      if |relevant| == 0 {
        var activity := CheckTradingActivity(v.probe).0;
        return GapFillResult(start, end, true, false, 0, true, Some(url), Some(tradesUrl), Some(activity),
                             Some(if activity then VendorFailed else NoActivity));
      }
      StoreRecoveredCandles(symbol, relevant);
      r := GapFillResult(start, end, true, true, |relevant|, false, Some(url), None, Some(true), None);
    }

    /** The storing loop of `_fill_single_gap`: the recovered candles grouped
        by date, then each date merged in turn. */
    method StoreRecoveredCandles(symbol: string, cs: seq<Candle>)
      modifies storage
      ensures storage.files == StoreRecovered(old(storage.files), symbol, cs)
    {
      var byDate, dates := Storage.GroupByDate(cs);
      ghost var files0 := storage.files;
      var j := 0;
      while j < |dates|
        invariant 0 <= j <= |dates|
        invariant storage.files == StoreDates(files0, symbol, cs, dates[..j])
      {
        assert dates[..j + 1][..j] == dates[..j];
        MergeDate(symbol, dates[j], byDate[dates[j]]);
        j := j + 1;
      }
      assert dates[..j] == dates;
    }

    /** One date of the storing loop. */
    method MergeDate(symbol: string, d: int, incoming: seq<Candle>)
      modifies storage
      ensures storage.files == DateMerge(old(storage.files), symbol, d, incoming)
    {
      var loaded := storage.LoadData(symbol, OneMin.Value(), Some(d), Some(d), "desc", None, None);
      if loaded.Err? {
        return;
      }
      var all := AddAbsent(loaded.value.candles, incoming);
      var s := NewSeries(symbol, OneMin, SortByTime(all), None, None, None);
      if s.Err? {
        return;
      }
      storage.StoreData(s.value);
    }

    /** One date of `_count_recovered_candles`: a load that raises counts
        nothing. */
    method CountDay(ghost files: map<Storage.FileKey, seq<Candle>>, symbol: string, d: int, start: int, end: int)
      returns (c: nat)
      requires storage.files == files
      ensures c == DayCount(files, symbol, start, end, d)
    {
      var series := storage.LoadData(symbol, OneMin.Value(), Some(d), Some(d), "desc", None, None);
      Storage.OneDateLoad(files, symbol, OneMin, d, "desc");
      c := 0;
      if series.Ok? {
        c := CountWindow(series.value.candles, start, end);
        CountLoadedDay(files, symbol, start, end, d);
      }
    }

    /** `_count_recovered_candles`. */
    method CountRecoveredCandles(symbol: string, start: int, end: int) returns (total: nat)
      ensures total == CountRecovered(storage.files, symbol, start, end)
    {
      var first := DayOf(start);
      total := CountFrom(symbol, start, end, first, DaysBetween(first, DayOf(end)));
    }

    /** The counting loop of `_count_recovered_candles`, over `n` dates from
        `first` on. */
    method CountFrom(symbol: string, start: int, end: int, first: int, n: nat) returns (total: nat)
      ensures total == CountDays(storage.files, symbol, start, end, first, n)
    {
      ghost var files := storage.files;
      total := 0;
      var k: nat := 0;
      while k < n
        invariant k <= n
        invariant total == CountDays(files, symbol, start, end, first, k)
      {
        var c := CountDay(files, symbol, first + k, start, end);
        CountDaysNext(files, symbol, start, end, first, k);
        total := total + c;
        k := k + 1;
      }
    }
  }

  /** The conversion loop of `_fill_single_gap`. */
  method ConvertRows(rows: seq<VendorRow>) returns (r: Result<seq<Candle>, string>)
    ensures r == ToCandles(rows)
  {
    var cs: seq<Candle> := [];
    var i := 0;
    while i < |rows|
      invariant 0 <= i <= |rows|
      invariant ToCandles(rows[..i]) == Ok(cs)
    {
      assert rows[..i + 1][..i] == rows[..i];
      var c := RowCandle(rows[i]);
      if c.Some? {
        var checked := NewCandle(c.value);
        if checked.Err? {
          ToCandlesErrStays(rows, i + 1, CandleErrorMessage(checked.error));
          return Err(CandleErrorMessage(checked.error));
        }
        cs := cs + [checked.value];
      }
      i := i + 1;
    }
    assert rows[..i] == rows;
    r := Ok(cs);
  }

  /** Once a prefix of the rows raises, the whole conversion raises the same
      error. */
  lemma {:induction false} ToCandlesErrStays(rows: seq<VendorRow>, k: nat, e: string)
    requires k <= |rows|
    requires ToCandles(rows[..k]) == Err(e)
    ensures ToCandles(rows) == Err(e)
    decreases |rows| - k
  {
    if k < |rows| {
      assert rows[..k + 1][..k] == rows[..k];
      ToCandlesErrStays(rows, k + 1, e);
    } else {
      assert rows[..k] == rows;
    }
  }

  /** The in-period filter loop of `_fill_single_gap`. */
  method FilterPeriod(cs: seq<Candle>, start: int, end: int) returns (r: seq<Candle>)
    ensures r == InPeriod(cs, start, end)
  {
    r := [];
    var i := 0;
    while i < |cs|
      invariant 0 <= i <= |cs|
      invariant r == InPeriod(cs[..i], start, end)
    {
      assert cs[..i + 1][..i] == cs[..i];
      assert InPeriod(cs[..i + 1], start, end)
          == InPeriod(cs[..i], start, end) + (if start <= cs[i].time <= end then [cs[i]] else []);
      if start <= cs[i].time <= end {
        r := r + [cs[i]];
      }
      i := i + 1;
    }
    assert cs[..i] == cs;
  }

  /** The duplicate-avoiding loop of one date's merge: each recovered candle
      whose time the existing candles lack is appended. */
  method AddAbsent(existing: seq<Candle>, incoming: seq<Candle>) returns (all: seq<Candle>)
    ensures all == existing + Absent(incoming, Times(existing))
  {
    var times := Times(existing);
    all := existing;
    var i := 0;
    while i < |incoming|
      invariant 0 <= i <= |incoming|
      invariant all == existing + Absent(incoming[..i], times)
    {
      assert incoming[..i + 1][..i] == incoming[..i];
      if incoming[i].time !in times {
        all := all + [incoming[i]];
      }
      i := i + 1;
    }
    assert incoming[..i] == incoming;
  }

  /** The counting loop of one date in `_count_recovered_candles`. */
  method CountWindow(cs: seq<Candle>, start: int, end: int) returns (n: nat)
    ensures n == CountInWindow(cs, start, end)
  {
    n := 0;
    var i := 0;
    while i < |cs|
      invariant 0 <= i <= |cs|
      invariant n == CountInWindow(cs[..i], start, end)
    {
      assert cs[..i + 1][..i] == cs[..i];
      if start <= cs[i].time < end {
        n := n + 1;
      }
      i := i + 1;
    }
    assert cs[..i] == cs;
  }
}
