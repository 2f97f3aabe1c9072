/** The candle store: one Parquet file per symbol for daily candles and one
    file per (timeframe, symbol, UTC date) for intraday candles, under the
    candles directory.  The file system is modelled as a map from file to
    its rows; reading and writing a file are map lookups and updates. */
module Storage {
  import opened Wrappers
  import opened Dates
  import opened PriceData
  import opened CandleSeqs

  /** A file under the candles directory. */
  datatype FileKey =
    | DailyFile(symbol: string)
    | IntradayFile(timeframe: string, symbol: string, date: int)

  /** `_get_file_path`: the daily file of a symbol, or the file of one date
      for any other timeframe, which then needs the date. */
  function GetFilePath(symbol: string, timeframe: string, date: Option<int>): Result<FileKey, string>
  {
    if timeframe == Daily.Value() then Ok(DailyFile(symbol))
    else if date.None? then Err("Date is required for intraday data storage")
    else Ok(IntradayFile(timeframe, symbol, date.value))
  }

  /** The path of a file relative to the candles directory. */
  function PathText(k: FileKey): string
  {
    match k
    case DailyFile(symbol) => "daily/" + symbol + ".parquet"
    case IntradayFile(timeframe, symbol, date) => timeframe + "/" + symbol + "/" + IsoDate(date) + ".parquet"
  }

  /** The ten characters before the ".parquet" extension. */
  function FileStem(path: string): string
  {
    if |path| < 18 then "" else path[|path| - 18..|path| - 8]
  }

  /** Only an intraday path without a date is refused; and the date the loader
      reads back from an intraday file name is the date the file was written
      for. */
  lemma GetFilePathMeaning(symbol: string, timeframe: string, date: Option<int>)
    ensures var r := GetFilePath(symbol, timeframe, date);
      && (r.Err? <==> timeframe != "daily" && date.None?)
      && (r.Ok? ==> (r.value.DailyFile? <==> timeframe == "daily") && r.value.symbol == symbol)
      && (r.Ok? && r.value.IntradayFile? ==> r.value.timeframe == timeframe && r.value.date == date.value)
      && (r.Ok? && r.value.IntradayFile? && MinDay <= date.value <= MaxDay ==>
            ParseIsoDate(FileStem(PathText(r.value))) == Some(date.value))
  {
    var r := GetFilePath(symbol, timeframe, date);
    if r.Ok? && r.value.IntradayFile? && MinDay <= date.value <= MaxDay {
      var d := date.value;
      ParseIsoDateRoundTrip(d);
      var iso := IsoDate(d);
      assert |iso| == 10;
      var path := PathText(r.value);
      assert path == (timeframe + "/" + symbol + "/") + iso + ".parquet";
      assert FileStem(path) == iso;
    }
  }

  /** The candles of `cs` dated `d` (UTC), in their order. */
  function CandlesOn(cs: seq<Candle>, d: int): (r: seq<Candle>)
    ensures forall c :: c in r <==> c in cs && DayOf(c.time) == d
  {
    if |cs| == 0 then []
    else CandlesOn(cs[..|cs| - 1], d) + (if DayOf(cs[|cs| - 1].time) == d then [cs[|cs| - 1]] else [])
  }

  /** The UTC dates of a list of candles, each once, in order of first
      appearance: the key order of a dictionary grouping them by date. */
  function FirstDates(cs: seq<Candle>): (ds: seq<int>)
    ensures forall a, b :: 0 <= a < b < |ds| ==> ds[a] != ds[b]
    ensures forall d :: d in ds <==> d in DaysOf(cs)
  {
    if |cs| == 0 then []
    else
      var init := cs[..|cs| - 1];
      var prev := FirstDates(init);
      assert cs == init + [cs[|cs| - 1]];
      if DayOf(cs[|cs| - 1].time) in prev then prev else prev + [DayOf(cs[|cs| - 1].time)]
  }

  lemma FirstDatesStep(cs: seq<Candle>, i: int)
    requires 0 <= i < |cs|
    ensures FirstDates(cs[..i + 1]) == if DayOf(cs[i].time) in FirstDates(cs[..i]) then FirstDates(cs[..i])
                                      else FirstDates(cs[..i]) + [DayOf(cs[i].time)]
  {
    assert cs[..i + 1][..i] == cs[..i];
  }

  /** The UTC dates of a list of candles. */
  function DaysOf(cs: seq<Candle>): set<int>
  {
    set c | c in cs :: DayOf(c.time)
  }

  /** The files a store of `s` writes. */
  function Touched(s: Series): set<FileKey>
  {
    if |s.candles| == 0 then {}
    else if s.timeframe == Daily then {DailyFile(s.symbol)}
    else set d | d in DaysOf(s.candles) :: IntradayFile(s.timeframe.Value(), s.symbol, d)
  }

  /** The candles of `s` that go to file `k`. */
  function Incoming(s: Series, k: FileKey): seq<Candle>
  {
    if k.DailyFile? then s.candles else CandlesOn(s.candles, k.date)
  }

  /** `_candles_to_dataframe`: sorted by date, last of each date kept. */
  function NewFrame(cs: seq<Candle>): seq<Candle>
  {
    MergeKeepLast([], cs)
  }

  /** What file `k` holds after `incoming` is written to it: merged with the
      existing rows when the file exists, else the new rows alone. */
  function StoredContent(files: map<FileKey, seq<Candle>>, k: FileKey, incoming: seq<Candle>): seq<Candle>
  {
    if k in files then MergeKeepLast(files[k], NewFrame(incoming)) else NewFrame(incoming)
  }

  /** The files with each of `keys` given the content `write` says; the
      others are kept. */
  function Overwrite(files: map<FileKey, seq<Candle>>, keys: set<FileKey>,
                     write: FileKey -> seq<Candle>): map<FileKey, seq<Candle>>
  {
    map k | k in files.Keys + keys :: if k in keys then write(k) else files[k]
  }

  /** Writing one more file extends the overwritten set by its key. */
  lemma OverwriteOneMore(files: map<FileKey, seq<Candle>>, keys: set<FileKey>,
                         write: FileKey -> seq<Candle>, key: FileKey)
    ensures Overwrite(files, keys, write)[key := write(key)] == Overwrite(files, keys + {key}, write)
  {
  }

  /** What `store_data(s)` writes into file `k` of `files`. */
  function StoreWrite(files: map<FileKey, seq<Candle>>, s: Series): FileKey -> seq<Candle>
  {
    k => StoredContent(files, k, Incoming(s, k))
  }

  /** The files after `store_data(s)`. */
  function AfterStore(files: map<FileKey, seq<Candle>>, s: Series): map<FileKey, seq<Candle>>
  {
    Overwrite(files, Touched(s), StoreWrite(files, s))
  }

  /** A file as the store leaves it: non-empty, sorted by time with one row
      per time, well-formed rows, and an intraday file only holds candles of
      its own date. */
  predicate FileValid(k: FileKey, rows: seq<Candle>)
  {
    |rows| > 0 && StrictlyIncreasing(rows)
    && (forall c :: c in rows ==> WellFormed(c))
    && (k.IntradayFile? ==> forall c :: c in rows ==> DayOf(c.time) == k.date)
  }

  predicate FilesValid(files: map<FileKey, seq<Candle>>)
  {
    forall k :: k in files ==> FileValid(k, files[k])
  }

  /** Storing an empty series changes nothing. */
  lemma StoreEmptyUnchanged(files: map<FileKey, seq<Candle>>, s: Series)
    requires |s.candles| == 0
    ensures AfterStore(files, s) == files
  {
    assert Touched(s) == {};
    assert AfterStore(files, s).Keys == files.Keys;
  }

  /** A store touches only the files of its own symbol and timeframe, and for
      intraday data only the files of the dates its candles fall on; every
      other file is unchanged. */
  lemma StoreFrame(files: map<FileKey, seq<Candle>>, s: Series, k: FileKey)
    requires k !in Touched(s)
    ensures k in AfterStore(files, s) <==> k in files
    ensures k in files ==> AfterStore(files, s)[k] == files[k]
  {
  }

  lemma TouchedKeys(s: Series, k: FileKey)
    ensures k in Touched(s) <==>
      |s.candles| > 0
      && (if s.timeframe == Daily then k == DailyFile(s.symbol)
          else k.IntradayFile? && k.timeframe == s.timeframe.Value() && k.symbol == s.symbol
               && exists c :: c in s.candles && DayOf(c.time) == k.date)
  {
    if |s.candles| > 0 && s.timeframe != Daily && k.IntradayFile? && k.timeframe == s.timeframe.Value()
       && k.symbol == s.symbol && exists c :: c in s.candles && DayOf(c.time) == k.date {
      assert k.date in DaysOf(s.candles);
    }
  }

  /** A written file holds one row per time: the times it had before and the
      times of the new candles for it, sorted; each row is an old row or a
      new candle. */
  lemma StoreWrites(files: map<FileKey, seq<Candle>>, s: Series, k: FileKey)
    requires k in Touched(s)
    ensures k in AfterStore(files, s)
    ensures StrictlyIncreasing(AfterStore(files, s)[k])
    ensures Times(AfterStore(files, s)[k]) == (if k in files then Times(files[k]) else {}) + Times(Incoming(s, k))
    ensures forall c :: c in AfterStore(files, s)[k] ==> (k in files && c in files[k]) || c in Incoming(s, k)
  {
  }

  /** The candles a store routes to a date file are exactly those of that
      date. */
  lemma IncomingOfDate(s: Series, k: FileKey)
    requires k.IntradayFile?
    ensures forall c :: c in Incoming(s, k) <==> c in s.candles && DayOf(c.time) == k.date
  {
  }

  /** Storing a series of well-formed candles keeps every file valid. */
  lemma StoreKeepsValid(files: map<FileKey, seq<Candle>>, s: Series)
    requires FilesValid(files)
    requires forall c :: c in s.candles ==> WellFormed(c)
    ensures FilesValid(AfterStore(files, s))
  {
    var after := AfterStore(files, s);
    forall k | k in after
      ensures FileValid(k, after[k])
    {
      if k in Touched(s) {
        StoreWrites(files, s, k);
        TouchedKeys(s, k);
        var c :| c in s.candles && (s.timeframe == Daily || DayOf(c.time) == k.date);
        assert c in Incoming(s, k);
        assert c.time in Times(after[k]);
      }
    }
  }

  /** Both bounds inclusive; a missing bound does not filter. */
  predicate InRange(d: int, start: Option<int>, end: Option<int>)
  {
    (start.None? || start.value <= d) && (end.None? || d <= end.value)
  }

  /** The rows whose UTC date lies within the bounds, in their order. */
  function RowsInRange(rows: seq<Candle>, start: Option<int>, end: Option<int>): (r: seq<Candle>)
    ensures forall c :: c in r <==> c in rows && InRange(DayOf(c.time), start, end)
    ensures |r| <= |rows|
  {
    if |rows| == 0 then []
    else RowsInRange(rows[..|rows| - 1], start, end)
         + (if InRange(DayOf(rows[|rows| - 1].time), start, end) then [rows[|rows| - 1]] else [])
  }

  function Rev<T>(s: seq<T>): seq<T>
  {
    seq(|s|, i requires 0 <= i < |s| => s[|s| - 1 - i])
  }

  predicate StrictlyDecreasing(cs: seq<Candle>)
  {
    forall i, j :: 0 <= i < j < |cs| ==> cs[i].time > cs[j].time
  }

  /** `sort_values("date", ascending=asc)`. */
  function Ordered(rows: seq<Candle>, asc: bool): seq<Candle>
  {
    if asc then SortByTime(rows) else Rev(SortByTime(rows))
  }

  function Min(a: int, b: int): int
  {
    if a <= b then a else b
  }

  /** `iloc[skip : skip + take]`, clamped to the rows there are. */
  function Window(rows: seq<Candle>, skip: nat, take: nat): seq<Candle>
  {
    rows[Min(skip, |rows|)..Min(skip + take, |rows|)]
  }

  /** The rows of a file, none when it does not exist. */
  function FileRows(files: map<FileKey, seq<Candle>>, k: FileKey): seq<Candle>
  {
    if k in files then files[k] else []
  }

  /** The dates of the symbol's files for an intraday timeframe, within the
      bounds: what the loader keeps of the directory listing. */
  function SelectedDays(files: map<FileKey, seq<Candle>>, timeframe: string, symbol: string,
                        start: Option<int>, end: Option<int>): set<int>
  {
    set k | k in files && k.IntradayFile? && k.timeframe == timeframe && k.symbol == symbol
                      && InRange(k.date, start, end) :: k.date
  }

  lemma MinExists(s: set<int>)
    requires s != {}
    ensures exists m :: m in s && forall x :: x in s ==> m <= x
    decreases |s|
  {
    if forall x :: x !in s {
      assert false;
    }
    var y :| y in s;
    var rest := s - {y};
    if rest == {} {
      forall x | x in s
        ensures y <= x
      {
        assert x !in rest;
      }
    } else {
      MinExists(rest);
      var m :| m in rest && forall x :: x in rest ==> m <= x;
      var least := if y < m then y else m;
      forall x | x in s
        ensures least <= x
      {
        if x != y {
          assert x in rest;
        }
      }
      assert least in s;
    }
  }

  /** The earliest of a non-empty set of dates. */
  function Least(s: set<int>): (m: int)
    requires s != {}
    ensures m in s && forall x :: x in s ==> m <= x
  {
    MinExists(s);
    var m :| m in s && forall x :: x in s ==> m <= x;
    m
  }

  /** The elements of a set of dates in increasing order. */
  function Ascending(s: set<int>): (r: seq<int>)
    ensures forall d :: d in r <==> d in s
    ensures forall i, j :: 0 <= i < j < |r| ==> r[i] < r[j]
    decreases |s|
  {
    if s == {} then []
    else
      var m := Least(s);
      var rest := Ascending(s - {m});
      assert forall i :: 0 <= i < |rest| ==> m < rest[i] by {
        forall i | 0 <= i < |rest|
          ensures m < rest[i]
        {
          assert rest[i] in s - {m};
        }
      }
      ConsIncreasing(m, rest);
      [m] + rest
  }

  lemma ConsIncreasing(m: int, rest: seq<int>)
    requires forall i, j :: 0 <= i < j < |rest| ==> rest[i] < rest[j]
    requires forall i :: 0 <= i < |rest| ==> m < rest[i]
    ensures forall i, j :: 0 <= i < j < |[m] + rest| ==> ([m] + rest)[i] < ([m] + rest)[j]
  {
    var r := [m] + rest;
    forall i, j | 0 <= i < j < |r|
      ensures r[i] < r[j]
    {
      assert r[j] == rest[j - 1];
      if i > 0 {
        assert r[i] == rest[i - 1];
      }
    }
  }

  /** The file order of the loader: by date, newest first unless ascending. */
  function FileOrder(days: set<int>, asc: bool): seq<int>
  {
    if asc then Ascending(days) else Rev(Ascending(days))
  }

  /** The rows of the date files of `days`, file after file, as stored. */
  function RawRows(files: map<FileKey, seq<Candle>>, timeframe: string, symbol: string, days: seq<int>): seq<Candle>
  {
    if |days| == 0 then []
    else RawRows(files, timeframe, symbol, days[..|days| - 1])
         + FileRows(files, IntradayFile(timeframe, symbol, days[|days| - 1]))
  }

  /** The rows of the date files of `days`, file after file, each file sorted. */
  function SortedRows(files: map<FileKey, seq<Candle>>, timeframe: string, symbol: string,
                      days: seq<int>, asc: bool): seq<Candle>
  {
    if |days| == 0 then []
    else SortedRows(files, timeframe, symbol, days[..|days| - 1], asc)
         + Ordered(FileRows(files, IntradayFile(timeframe, symbol, days[|days| - 1])), asc)
  }

  /** The page size used when only an offset is given, or a zero limit. */
  const DefaultTake: nat := 1000

  function Skip(offset: Option<nat>): nat
  {
    if offset.Some? then offset.value else 0
  }

  function Take(limit: Option<nat>): nat
  {
    if limit.Some? && limit.value != 0 then limit.value else DefaultTake
  }

  /** The intraday rows `load_data` returns: all selected files, merged and
      sorted, when neither limit nor offset is given; otherwise the window
      [skip, skip + take) of the selected files read in order, each sorted,
      then sorted again. */
  function IntradayRows(files: map<FileKey, seq<Candle>>, timeframe: string, symbol: string,
                        start: Option<int>, end: Option<int>, asc: bool,
                        limit: Option<nat>, offset: Option<nat>): seq<Candle>
  {
    var days := FileOrder(SelectedDays(files, timeframe, symbol, start, end), asc);
    if limit.None? && offset.None? then Ordered(RawRows(files, timeframe, symbol, days), asc)
    else Ordered(Window(SortedRows(files, timeframe, symbol, days, asc), Skip(offset), Take(limit)), asc)
  }

  /** The daily rows `load_data` returns: the rows of the symbol's file whose
      date is within the bounds, sorted; a window when both limit and offset
      are given, the first `limit` rows when only a limit is (an offset alone
      is ignored). */
  function DailyRows(files: map<FileKey, seq<Candle>>, symbol: string,
                     start: Option<int>, end: Option<int>, asc: bool,
                     limit: Option<nat>, offset: Option<nat>): seq<Candle>
  {
    var sorted := Ordered(RowsInRange(FileRows(files, DailyFile(symbol)), start, end), asc);
    if offset.Some? && limit.Some? then Window(sorted, offset.value, limit.value)
    else if limit.Some? then Window(sorted, 0, limit.value)
    else sorted
  }

  /** Rows become candles again; one that fails the candle invariant makes the
      whole load fail, which the loader turns into an empty series. */
  function ReadBack(rows: seq<Candle>): seq<Candle>
  {
    if forall c :: c in rows ==> WellFormed(c) then rows else []
  }

  /** `load_data`: an unknown timeframe or an empty symbol is an error (the
      error handler itself fails on them); otherwise the rows read. */
  function LoadSpec(files: map<FileKey, seq<Candle>>, symbol: string, timeframe: string,
                    start: Option<int>, end: Option<int>, orderBy: string,
                    limit: Option<nat>, offset: Option<nat>): Result<Series, string>
  {
    match TimeframeFromValue(timeframe)
    case None => Err("'" + timeframe + "' is not a valid Timeframe")
    case Some(tf) =>
      var asc := orderBy == "asc";
      var rows := if timeframe == Daily.Value() then DailyRows(files, symbol, start, end, asc, limit, offset)
                  else IntradayRows(files, timeframe, symbol, start, end, asc, limit, offset);
      NewSeries(symbol, tf, ReadBack(rows), None, None, None)
  }

  /** A load fails only on an unknown timeframe or an empty symbol; what
      it returns is a series of that symbol and timeframe whose candles are
      all well-formed. */
  lemma LoadOutcome(files: map<FileKey, seq<Candle>>, symbol: string, timeframe: string,
                    start: Option<int>, end: Option<int>, orderBy: string,
                    limit: Option<nat>, offset: Option<nat>)
    ensures var r := LoadSpec(files, symbol, timeframe, start, end, orderBy, limit, offset);
      && (r.Ok? <==> TimeframeFromValue(timeframe).Some? && |symbol| >= 1)
      && (r.Ok? ==> r.value.symbol == symbol && r.value.timeframe.Value() == timeframe)
      && (r.Ok? ==> forall c :: c in r.value.candles ==> WellFormed(c))
  {
  }

  /** The rows of one date's file, read back in the requested order. */
  function DateRows(files: map<FileKey, seq<Candle>>, timeframe: string, symbol: string, d: int, asc: bool): seq<Candle>
  {
    ReadBack(Ordered(FileRows(files, IntradayFile(timeframe, symbol, d)), asc))
  }

  /** A load bounded by the same date at both ends reads that date's file
      alone, or nothing when there is no such file. */
  lemma OneDateLoad(files: map<FileKey, seq<Candle>>, symbol: string, tf: Timeframe, d: int, orderBy: string)
    requires tf != Daily
    ensures var r := LoadSpec(files, symbol, tf.Value(), Some(d), Some(d), orderBy, None, None);
      && (r.Ok? <==> |symbol| >= 1)
      && (r.Ok? ==> r.value.candles == DateRows(files, tf.Value(), symbol, d, orderBy == "asc"))
  {
    var tfs := tf.Value();
    assert TimeframeFromValue(tfs) == Some(tf);
    assert tfs != Daily.Value();
    var days := SelectedDays(files, tfs, symbol, Some(d), Some(d));
    var k := IntradayFile(tfs, symbol, d);
    var asc := orderBy == "asc";
    if k in files {
      assert days == {d};
      assert Least(days) == d;
      assert days - {d} == {};
      assert Ascending(days) == [d];
      assert FileOrder(days, asc) == [d];
      assert RawRows(files, tfs, symbol, [d]) == FileRows(files, k);
    } else {
      assert days == {};
      assert Ascending(days) == [];
      assert FileOrder(days, asc) == [];
      assert Ordered([], asc) == [];
    }
  }

  /** The number of rows of the date files of `days`. */
  function RowCount(files: map<FileKey, seq<Candle>>, timeframe: string, symbol: string, days: seq<int>): nat
  {
    if |days| == 0 then 0
    else RowCount(files, timeframe, symbol, days[..|days| - 1])
         + |FileRows(files, IntradayFile(timeframe, symbol, days[|days| - 1]))|
  }

  /** `get_total_count`: the daily rows within the bounds, or the rows of the
      selected intraday files. */
  function TotalCount(files: map<FileKey, seq<Candle>>, symbol: string, timeframe: string,
                      start: Option<int>, end: Option<int>): nat
  {
    if timeframe == Daily.Value() then |RowsInRange(FileRows(files, DailyFile(symbol)), start, end)|
    else RowCount(files, timeframe, symbol, Ascending(SelectedDays(files, timeframe, symbol, start, end)))
  }

  /** `get_last_update_date`: the latest time in the daily file, or in the
      symbol's latest date file; none without such a file or when it is
      empty. */
  function LastUpdateDate(files: map<FileKey, seq<Candle>>, symbol: string, timeframe: string): Option<int>
  {
    var rows :=
      if timeframe == Daily.Value() then FileRows(files, DailyFile(symbol))
      else
        var days := Ascending(SelectedDays(files, timeframe, symbol, None, None));
        if |days| == 0 then [] else FileRows(files, IntradayFile(timeframe, symbol, days[|days| - 1]));
    if |rows| == 0 then None else Some(MaxTime(rows))
  }

  /** Appending rows after a window that is not yet full adds the rows of the
      new part that fall inside it: those after what is left of the offset, up
      to the room left in the window. */
  lemma WindowExtend(a: seq<Candle>, f: seq<Candle>, skip: nat, take: nat)
    ensures |Window(a, skip, take)| < take ==>
      var toSkip := if skip > |a| then skip - |a| else 0;
      var room := take - |Window(a, skip, take)|;
      Window(a + f, skip, take) == Window(a, skip, take) + f[Min(toSkip, |f|)..Min(toSkip + room, |f|)]
  {
    if |Window(a, skip, take)| < take {
      if skip >= |a| {
        assert (a + f)[Min(skip, |a + f|)..Min(skip + take, |a + f|)]
            == f[Min(skip - |a|, |f|)..Min(skip - |a| + take, |f|)];
      } else {
        assert (a + f)[skip..Min(skip + take, |a + f|)]
            == a[skip..] + f[..Min(skip + take - |a|, |f|)];
      }
    }
  }

  /** A full window is not changed by rows after it. */
  lemma WindowOfPrefix(a: seq<Candle>, b: seq<Candle>, skip: nat, take: nat)
    requires |Window(a, skip, take)| == take
    ensures Window(a + b, skip, take) == Window(a, skip, take)
  {
    if take > 0 {
      assert skip + take <= |a|;
      assert (a + b)[skip..skip + take] == a[skip..skip + take];
    }
  }

  /** One file of the paging loop: `df` holds the file's sorted rows, `done`
      the rows of the files before it. */
  method PageStep(ghost done: seq<Candle>, df: seq<Candle>, skip: nat, take: nat,
                  toSkip: nat, pieces: seq<Candle>, loaded: nat)
    returns (toSkip': nat, pieces': seq<Candle>, loaded': nat)
    requires toSkip == (if skip > |done| then skip - |done| else 0)
    requires pieces == Window(done, skip, take)
    requires loaded == |pieces| < take
    ensures toSkip' == (if skip > |done + df| then skip - |done + df| else 0)
    ensures pieces' == Window(done + df, skip, take)
    ensures loaded' == |pieces'| <= take
  {
    WindowExtend(done, df, skip, take);
    if toSkip > 0 && toSkip >= |df| {
      toSkip' := toSkip - |df|;
      pieces' := pieces;
      loaded' := loaded;
      assert df[Min(toSkip, |df|)..] == [];
    } else {
      var part := df[toSkip..];
      toSkip' := 0;
      if |part| > take - loaded {
        part := part[..take - loaded];
      }
      pieces' := pieces + part;
      loaded' := loaded + |part|;
    }
  }

  /** The rows of one more file are the rows so far and that file's. */
  lemma SortedRowsSnoc(files: map<FileKey, seq<Candle>>, timeframe: string, symbol: string,
                       days: seq<int>, i: int, asc: bool)
    requires 0 <= i < |days|
    ensures SortedRows(files, timeframe, symbol, days[..i + 1], asc)
         == SortedRows(files, timeframe, symbol, days[..i], asc)
            + Ordered(FileRows(files, IntradayFile(timeframe, symbol, days[i])), asc)
  {
    assert days[..i + 1][..i] == days[..i];
  }

  /** The paging loop may stop once the page is full: the rows of the
      remaining files do not change it. */
  lemma PageOfAllFiles(files: map<FileKey, seq<Candle>>, timeframe: string, symbol: string,
                       days: seq<int>, i: int, asc: bool, skip: nat, take: nat)
    requires 0 <= i <= |days|
    requires i < |days| ==> |Window(SortedRows(files, timeframe, symbol, days[..i], asc), skip, take)| == take
    ensures Window(SortedRows(files, timeframe, symbol, days[..i], asc), skip, take)
         == Window(SortedRows(files, timeframe, symbol, days, asc), skip, take)
  {
    SortedRowsPrefix(files, timeframe, symbol, days, i, asc);
    var done := SortedRows(files, timeframe, symbol, days[..i], asc);
    var all := SortedRows(files, timeframe, symbol, days, asc);
    assert all == done + all[|done|..];
    if i < |days| {
      WindowOfPrefix(done, all[|done|..], skip, take);
    } else {
      assert days[..i] == days;
    }
  }

  lemma {:induction false} SortedRowsPrefix(files: map<FileKey, seq<Candle>>, timeframe: string, symbol: string,
                                            days: seq<int>, i: int, asc: bool)
    requires 0 <= i <= |days|
    ensures SortedRows(files, timeframe, symbol, days[..i], asc) <= SortedRows(files, timeframe, symbol, days, asc)
    decreases |days| - i
  {
    if i < |days| {
      SortedRowsPrefix(files, timeframe, symbol, days, i + 1, asc);
      SortedRowsSnoc(files, timeframe, symbol, days, i, asc);
      PrefixOfPrefix(SortedRows(files, timeframe, symbol, days[..i], asc),
                     Ordered(FileRows(files, IntradayFile(timeframe, symbol, days[i])), asc),
                     SortedRows(files, timeframe, symbol, days, asc));
    } else {
      assert days[..i] == days;
    }
  }

  lemma PrefixOfPrefix<T>(a: seq<T>, z: seq<T>, c: seq<T>)
    requires a + z <= c
    ensures a <= c
  {
    assert c[..|a|] == (a + z)[..|a|];
  }

  /** Rows ordered strictly by time in the requested direction. */
  predicate Monotone(cs: seq<Candle>, asc: bool)
  {
    if asc then StrictlyIncreasing(cs) else StrictlyDecreasing(cs)
  }

  lemma RevMembers<T>(s: seq<T>)
    ensures forall x :: x in Rev(s) <==> x in s
  {
    forall x | x in s
      ensures x in Rev(s)
    {
      var i :| 0 <= i < |s| && s[i] == x;
      assert Rev(s)[|s| - 1 - i] == x;
    }
  }

  lemma {:induction false} RevMultiset<T>(s: seq<T>)
    ensures multiset(Rev(s)) == multiset(s)
  {
    if |s| > 0 {
      var init := s[..|s| - 1];
      RevMultiset(init);
      assert Rev(s) == [s[|s| - 1]] + Rev(init);
      assert s == init + [s[|s| - 1]];
    }
  }

  /** Ordering rows only permutes them. */
  lemma OrderedMultiset(rows: seq<Candle>, asc: bool)
    ensures multiset(Ordered(rows, asc)) == multiset(rows)
  {
    SortByTimePermutes(rows);
    RevMultiset(SortByTime(rows));
  }

  lemma OrderedMembers(rows: seq<Candle>, asc: bool)
    ensures |Ordered(rows, asc)| == |rows|
    ensures forall c :: c in Ordered(rows, asc) <==> c in rows
  {
    RevMembers(SortByTime(rows));
  }

  lemma {:induction false} InsertAtEnd(c: Candle, cs: seq<Candle>)
    requires SortedByTime(cs)
    requires forall x :: x in cs ==> x.time <= c.time
    ensures InsertByTime(c, cs) == cs + [c]
  {
    if |cs| > 0 {
      assert cs[0] in cs;
      InsertAtEnd(c, cs[1..]);
      assert cs == [cs[0]] + cs[1..];
    }
  }

  lemma {:induction false} SortOfSorted(cs: seq<Candle>)
    requires SortedByTime(cs)
    ensures SortByTime(cs) == cs
  {
    if |cs| > 0 {
      var init := cs[..|cs| - 1];
      SortOfSorted(init);
      InsertAtEnd(cs[|cs| - 1], init);
      assert init + [cs[|cs| - 1]] == cs;
    }
  }

  lemma {:induction false} SortOfDecreasing(cs: seq<Candle>)
    requires StrictlyDecreasing(cs)
    ensures SortByTime(cs) == Rev(cs)
  {
    if |cs| > 0 {
      var init := cs[..|cs| - 1];
      var last := cs[|cs| - 1];
      SortOfDecreasing(init);
      assert cs == init + [last];
      assert Rev(cs) == [last] + Rev(init);
      if |init| > 0 {
        assert Rev(init)[0] == init[|init| - 1];
      }
    }
  }

  /** Sorting rows already in the requested order leaves them as they are. */
  lemma OrderedIdentity(rows: seq<Candle>, asc: bool)
    requires Monotone(rows, asc)
    ensures Ordered(rows, asc) == rows
  {
    if asc {
      SortOfSorted(rows);
    } else {
      SortOfDecreasing(rows);
      assert Rev(Rev(rows)) == rows;
    }
  }

  lemma MonotoneConcat(a: seq<Candle>, b: seq<Candle>, asc: bool)
    requires Monotone(a, asc) && Monotone(b, asc)
    requires forall x, y :: x in a && y in b ==> if asc then x.time < y.time else x.time > y.time
    ensures Monotone(a + b, asc)
  {
    var ab := a + b;
    forall i, j | 0 <= i < j < |ab|
      ensures if asc then ab[i].time < ab[j].time else ab[i].time > ab[j].time
    {
      if i < |a| && j >= |a| {
        assert ab[i] in a && ab[j] in b;
      } else if i >= |a| {
        assert ab[i] == b[i - |a|] && ab[j] == b[j - |a|];
      }
    }
  }

  /** The rows of the files of `days` are the rows of those files. */
  lemma {:induction false} SortedRowsMembers(files: map<FileKey, seq<Candle>>, timeframe: string, symbol: string,
                                             days: seq<int>, asc: bool)
    ensures forall c :: c in SortedRows(files, timeframe, symbol, days, asc) <==>
              exists i :: 0 <= i < |days| && c in FileRows(files, IntradayFile(timeframe, symbol, days[i]))
  {
    if |days| > 0 {
      var init := days[..|days| - 1];
      var last := FileRows(files, IntradayFile(timeframe, symbol, days[|days| - 1]));
      SortedRowsMembers(files, timeframe, symbol, init, asc);
      OrderedMembers(last, asc);
      forall c | c in SortedRows(files, timeframe, symbol, days, asc)
        ensures exists i :: 0 <= i < |days| && c in FileRows(files, IntradayFile(timeframe, symbol, days[i]))
      {
        if c in SortedRows(files, timeframe, symbol, init, asc) {
          var i :| 0 <= i < |init| && c in FileRows(files, IntradayFile(timeframe, symbol, init[i]));
          assert days[i] == init[i];
        } else {
          assert c in last;
        }
      }
      forall c, i | 0 <= i < |days| && c in FileRows(files, IntradayFile(timeframe, symbol, days[i]))
        ensures c in SortedRows(files, timeframe, symbol, days, asc)
      {
        if i < |days| - 1 {
          assert days[i] == init[i];
        }
      }
    }
  }

  lemma FileRowsValid(files: map<FileKey, seq<Candle>>, k: FileKey)
    requires FilesValid(files)
    ensures StrictlyIncreasing(FileRows(files, k))
    ensures k.IntradayFile? ==> forall c :: c in FileRows(files, k) ==> DayOf(c.time) == k.date
  {
    if k in files {
      assert FileValid(k, files[k]);
    }
  }

  lemma OrderedMonotone(rows: seq<Candle>, asc: bool)
    requires StrictlyIncreasing(rows)
    ensures Monotone(Ordered(rows, asc), asc)
  {
    SortOfSorted(rows);
  }

  /** Rows of a valid store lie on the dates of the files they come from. */
  lemma {:induction false} SortedRowsDays(files: map<FileKey, seq<Candle>>, timeframe: string, symbol: string,
                                          days: seq<int>, asc: bool)
    requires FilesValid(files)
    ensures forall c :: c in SortedRows(files, timeframe, symbol, days, asc) ==> DayOf(c.time) in days
  {
    if |days| > 0 {
      var init := days[..|days| - 1];
      var key := IntradayFile(timeframe, symbol, days[|days| - 1]);
      SortedRowsDays(files, timeframe, symbol, init, asc);
      FileRowsValid(files, key);
      OrderedMembers(FileRows(files, key), asc);
      forall c | c in SortedRows(files, timeframe, symbol, days, asc)
        ensures DayOf(c.time) in days
      {
        if c in SortedRows(files, timeframe, symbol, init, asc) {
          assert DayOf(c.time) in init;
        } else {
          assert c in FileRows(files, key);
        }
      }
    }
  }

  lemma DayOfOrder(a: int, b: int)
    requires DayOf(a) < DayOf(b)
    ensures a < b
  {
  }

  /** Files of valid stores read in date order give rows strictly ordered by
      time in the same direction. */
  lemma {:induction false} SortedRowsMonotone(files: map<FileKey, seq<Candle>>, timeframe: string, symbol: string,
                                              days: seq<int>, asc: bool)
    requires FilesValid(files)
    requires forall i, j :: 0 <= i < j < |days| ==> if asc then days[i] < days[j] else days[i] > days[j]
    ensures Monotone(SortedRows(files, timeframe, symbol, days, asc), asc)
  {
    if |days| > 0 {
      var init := days[..|days| - 1];
      var d := days[|days| - 1];
      var key := IntradayFile(timeframe, symbol, d);
      var raw := FileRows(files, key);
      var rest := SortedRows(files, timeframe, symbol, init, asc);
      SortedRowsMonotone(files, timeframe, symbol, init, asc);
      SortedRowsDays(files, timeframe, symbol, init, asc);
      FileRowsValid(files, key);
      OrderedMembers(raw, asc);
      OrderedMonotone(raw, asc);
      forall x, y | x in rest && y in Ordered(raw, asc)
        ensures if asc then x.time < y.time else x.time > y.time
      {
        var i :| 0 <= i < |init| && init[i] == DayOf(x.time);
        assert days[i] == init[i];
        assert DayOf(y.time) == d;
        if asc {
          DayOfOrder(x.time, y.time);
        } else {
          DayOfOrder(y.time, x.time);
        }
      }
      MonotoneConcat(rest, Ordered(raw, asc), asc);
    }
  }

  lemma FileOrderMeaning(days: set<int>, asc: bool)
    ensures forall d :: d in FileOrder(days, asc) <==> d in days
    ensures forall i, j :: 0 <= i < j < |FileOrder(days, asc)| ==>
              if asc then FileOrder(days, asc)[i] < FileOrder(days, asc)[j]
              else FileOrder(days, asc)[i] > FileOrder(days, asc)[j]
  {
    RevMembers(Ascending(days));
  }

  lemma WindowMonotone(rows: seq<Candle>, skip: nat, take: nat, asc: bool)
    requires Monotone(rows, asc)
    ensures Monotone(Window(rows, skip, take), asc)
  {
    var w := Window(rows, skip, take);
    var lo := Min(skip, |rows|);
    forall i, j | 0 <= i < j < |w|
      ensures if asc then w[i].time < w[j].time else w[i].time > w[j].time
    {
      assert w[i] == rows[lo + i] && w[j] == rows[lo + j];
    }
  }

  /** The rows of the selected date files are the stored rows of the symbol
      whose date is within the bounds. */
  lemma SelectedRowsMembers(files: map<FileKey, seq<Candle>>, timeframe: string, symbol: string,
                            start: Option<int>, end: Option<int>, asc: bool)
    requires FilesValid(files)
    ensures forall c ::
              (c in SortedRows(files, timeframe, symbol, FileOrder(SelectedDays(files, timeframe, symbol, start, end), asc), asc)
               <==> InRange(DayOf(c.time), start, end) && c in FileRows(files, IntradayFile(timeframe, symbol, DayOf(c.time))))
  {
    var selected := SelectedDays(files, timeframe, symbol, start, end);
    var days := FileOrder(selected, asc);
    var rows := SortedRows(files, timeframe, symbol, days, asc);
    FileOrderMeaning(selected, asc);
    SortedRowsMembers(files, timeframe, symbol, days, asc);
    SortedRowsDays(files, timeframe, symbol, days, asc);
    forall c | c in rows
      ensures InRange(DayOf(c.time), start, end) && c in FileRows(files, IntradayFile(timeframe, symbol, DayOf(c.time)))
    {
      var i :| 0 <= i < |days| && c in FileRows(files, IntradayFile(timeframe, symbol, days[i]));
      FileRowsValid(files, IntradayFile(timeframe, symbol, days[i]));
      assert days[i] in selected;
    }
    forall c: Candle | InRange(DayOf(c.time), start, end) && c in FileRows(files, IntradayFile(timeframe, symbol, DayOf(c.time)))
      ensures c in rows
    {
      var d := DayOf(c.time);
      assert IntradayFile(timeframe, symbol, d) in files;
      assert d in selected;
      var i :| 0 <= i < |days| && days[i] == d;
    }
  }

  /** A paged intraday load from files the store wrote returns exactly the
      rows at positions [offset, offset + limit) of the symbol's rows whose
      date is within the bounds, ordered by time in the requested direction
      (an offset alone takes 1000 rows). */
  lemma PagedLoadIsWindow(files: map<FileKey, seq<Candle>>, timeframe: string, symbol: string,
                          start: Option<int>, end: Option<int>, asc: bool,
                          limit: Option<nat>, offset: Option<nat>)
    requires FilesValid(files)
    requires limit.Some? || offset.Some?
    ensures var rows := SortedRows(files, timeframe, symbol, FileOrder(SelectedDays(files, timeframe, symbol, start, end), asc), asc);
      && Monotone(rows, asc)
      && (forall c :: c in rows <==>
            InRange(DayOf(c.time), start, end) && c in FileRows(files, IntradayFile(timeframe, symbol, DayOf(c.time))))
      && IntradayRows(files, timeframe, symbol, start, end, asc, limit, offset) == Window(rows, Skip(offset), Take(limit))
  {
    var selected := SelectedDays(files, timeframe, symbol, start, end);
    var days := FileOrder(selected, asc);
    var rows := SortedRows(files, timeframe, symbol, days, asc);
    FileOrderMeaning(selected, asc);
    SortedRowsMonotone(files, timeframe, symbol, days, asc);
    SelectedRowsMembers(files, timeframe, symbol, start, end, asc);
    WindowMonotone(rows, Skip(offset), Take(limit), asc);
    OrderedIdentity(Window(rows, Skip(offset), Take(limit)), asc);
  }

  lemma {:induction false} RowCountIsLength(files: map<FileKey, seq<Candle>>, timeframe: string, symbol: string, days: seq<int>)
    ensures RowCount(files, timeframe, symbol, days) == |RawRows(files, timeframe, symbol, days)|
  {
    if |days| > 0 {
      RowCountIsLength(files, timeframe, symbol, days[..|days| - 1]);
    }
  }

  lemma {:induction false} RowCountCons(files: map<FileKey, seq<Candle>>, timeframe: string, symbol: string, d: int, days: seq<int>)
    ensures RowCount(files, timeframe, symbol, [d] + days)
         == |FileRows(files, IntradayFile(timeframe, symbol, d))| + RowCount(files, timeframe, symbol, days)
  {
    if |days| > 0 {
      RowCountCons(files, timeframe, symbol, d, days[..|days| - 1]);
      assert ([d] + days)[..|days|] == [d] + days[..|days| - 1];
    }
  }

  /** Counting does not depend on the order the files are listed in. */
  lemma {:induction false} RowCountRev(files: map<FileKey, seq<Candle>>, timeframe: string, symbol: string, days: seq<int>)
    ensures RowCount(files, timeframe, symbol, Rev(days)) == RowCount(files, timeframe, symbol, days)
  {
    if |days| > 0 {
      var init := days[..|days| - 1];
      RowCountRev(files, timeframe, symbol, init);
      assert Rev(days) == [days[|days| - 1]] + Rev(init);
      RowCountCons(files, timeframe, symbol, days[|days| - 1], Rev(init));
    }
  }

  /** `get_total_count` is the number of rows an unpaged load reads, in
      either order. */
  lemma TotalCountIsFullLoad(files: map<FileKey, seq<Candle>>, symbol: string, timeframe: string,
                             start: Option<int>, end: Option<int>, asc: bool)
    ensures TotalCount(files, symbol, timeframe, start, end) ==
      if timeframe == Daily.Value() then |DailyRows(files, symbol, start, end, asc, None, None)|
      else |IntradayRows(files, timeframe, symbol, start, end, asc, None, None)|
  {
    var selected := SelectedDays(files, timeframe, symbol, start, end);
    if timeframe == Daily.Value() {
      OrderedMembers(RowsInRange(FileRows(files, DailyFile(symbol)), start, end), asc);
    } else {
      var days := FileOrder(selected, asc);
      OrderedMembers(RawRows(files, timeframe, symbol, days), asc);
      RowCountIsLength(files, timeframe, symbol, days);
      if !asc {
        RowCountRev(files, timeframe, symbol, Ascending(selected));
      }
    }
  }

  lemma {:induction false} RowsInRangeIncreasing(rows: seq<Candle>, start: Option<int>, end: Option<int>)
    requires StrictlyIncreasing(rows)
    ensures StrictlyIncreasing(RowsInRange(rows, start, end))
  {
    if |rows| > 0 {
      var init := rows[..|rows| - 1];
      var last := rows[|rows| - 1];
      assert StrictlyIncreasing(init);
      RowsInRangeIncreasing(init, start, end);
      var r := RowsInRange(init, start, end);
      forall x | x in r
        ensures x.time < last.time
      {
        var i :| 0 <= i < |init| && init[i] == x;
      }
      if InRange(DayOf(last.time), start, end) {
        IncreasingSnoc(r, last);
      } else {
        assert RowsInRange(rows, start, end) == r;
      }
    }
  }

  lemma IncreasingSnoc(r: seq<Candle>, last: Candle)
    requires StrictlyIncreasing(r)
    requires forall x :: x in r ==> x.time < last.time
    ensures StrictlyIncreasing(r + [last])
  {
    var ab := r + [last];
    forall i, j | 0 <= i < j < |ab|
      ensures ab[i].time < ab[j].time
    {
      if j == |r| {
        assert ab[i] in r;
      }
    }
  }

  /** A daily load from a file the store wrote returns rows of that file
      within the bounds, strictly ordered by time in the requested direction;
      all of them without a limit, at most `limit` with one; an offset without
      a limit is ignored. */
  lemma DailyLoadMeaning(files: map<FileKey, seq<Candle>>, symbol: string,
                         start: Option<int>, end: Option<int>, asc: bool,
                         limit: Option<nat>, offset: Option<nat>)
    requires FilesValid(files)
    ensures var rows := DailyRows(files, symbol, start, end, asc, limit, offset);
      var stored := FileRows(files, DailyFile(symbol));
      && Monotone(rows, asc)
      && (forall c :: c in rows ==> c in stored && InRange(DayOf(c.time), start, end))
      && (limit.None? ==> forall c :: c in stored && InRange(DayOf(c.time), start, end) ==> c in rows)
      && (limit.Some? ==> |rows| <= limit.value)
      && (limit.None? ==> rows == DailyRows(files, symbol, start, end, asc, None, None))
  {
    var stored := FileRows(files, DailyFile(symbol));
    var inRange := RowsInRange(stored, start, end);
    var all := Ordered(inRange, asc);
    FileRowsValid(files, DailyFile(symbol));
    RowsInRangeIncreasing(stored, start, end);
    OrderedMonotone(inRange, asc);
    OrderedMembers(inRange, asc);
    if limit.Some? {
      var skip := if offset.Some? then offset.value else 0;
      assert DailyRows(files, symbol, start, end, asc, limit, offset) == Window(all, skip, limit.value);
      WindowMonotone(all, skip, limit.value, asc);
      WindowMembers(all, skip, limit.value);
    }
  }

  /** A page holds rows of what it is cut from, at most `take` of them. */
  lemma WindowMembers(rows: seq<Candle>, skip: nat, take: nat)
    ensures |Window(rows, skip, take)| <= take
    ensures forall c :: c in Window(rows, skip, take) ==> c in rows
  {
    var w := Window(rows, skip, take);
    var lo := Min(skip, |rows|);
    forall c | c in w
      ensures c in rows
    {
      var i :| 0 <= i < |w| && w[i] == c;
      assert c == rows[lo + i];
    }
  }

  /** Whether file `k` holds rows of `symbol` at `timeframe`. */
  predicate Matches(k: FileKey, timeframe: string, symbol: string)
  {
    if timeframe == Daily.Value() then k == DailyFile(symbol)
    else k.IntradayFile? && k.timeframe == timeframe && k.symbol == symbol
  }

  /** The matching files of an intraday timeframe are the files of the
      selected dates. */
  lemma MatchingDates(files: map<FileKey, seq<Candle>>, symbol: string, timeframe: string)
    requires timeframe != Daily.Value()
    ensures forall k :: k in files && Matches(k, timeframe, symbol) ==>
              k == IntradayFile(timeframe, symbol, k.date) && k.date in SelectedDays(files, timeframe, symbol, None, None)
    ensures forall d :: d in SelectedDays(files, timeframe, symbol, None, None) ==> IntradayFile(timeframe, symbol, d) in files
  {
  }

  /** The rows of the latest date file of a valid store are later than those
      of every other file of the symbol. */
  lemma LatestFileLatest(files: map<FileKey, seq<Candle>>, symbol: string, timeframe: string)
    requires FilesValid(files) && timeframe != Daily.Value()
    requires |Ascending(SelectedDays(files, timeframe, symbol, None, None))| > 0
    ensures var days := Ascending(SelectedDays(files, timeframe, symbol, None, None));
      var latest := FileRows(files, IntradayFile(timeframe, symbol, days[|days| - 1]));
      && |latest| > 0
      && forall k, c :: k in files && Matches(k, timeframe, symbol) && c in files[k] ==> c.time <= MaxTime(latest)
  {
    var days := Ascending(SelectedDays(files, timeframe, symbol, None, None));
    var d := days[|days| - 1];
    var key := IntradayFile(timeframe, symbol, d);
    MatchingDates(files, symbol, timeframe);
    assert d in days;
    assert FileValid(key, files[key]);
    forall k, c | k in files && Matches(k, timeframe, symbol) && c in files[k]
      ensures c.time <= MaxTime(FileRows(files, key))
    {
      var i :| 0 <= i < |days| && days[i] == k.date;
      assert i == |days| - 1 || days[i] < d;
      RowNotAfterLatest(files, k, c, key);
    }
  }

  /** A row of a date file is no later than the latest row of the file of
      the same or a later date. */
  lemma RowNotAfterLatest(files: map<FileKey, seq<Candle>>, k: FileKey, c: Candle, key: FileKey)
    requires FilesValid(files)
    requires k in files && k.IntradayFile? && c in files[k]
    requires key in files && key.IntradayFile? && k.date <= key.date
    requires k.date == key.date ==> k == key
    ensures |files[key]| > 0 && c.time <= MaxTime(files[key])
  {
    FileRowsValid(files, k);
    FileRowsValid(files, key);
    var rows := files[key];
    assert FileValid(key, rows);
    var m :| 0 <= m < |rows| && rows[m].time == MaxTime(rows);
    if k.date == key.date {
      var j :| 0 <= j < |rows| && rows[j] == c;
    } else {
      assert rows[m] in FileRows(files, key);
      DayOfOrder(c.time, rows[m].time);
    }
  }

  /** What the last update means, stated once for both kinds of file. */
  predicate LastUpdateIsLatest(files: map<FileKey, seq<Candle>>, symbol: string, timeframe: string, r: Option<int>)
  {
    && (r.None? <==> forall k :: k in files ==> !Matches(k, timeframe, symbol))
    && (r.Some? ==> forall k, c :: k in files && Matches(k, timeframe, symbol) && c in files[k] ==> c.time <= r.value)
    && (r.Some? ==> exists k, c :: k in files && Matches(k, timeframe, symbol) && c in files[k] && c.time == r.value)
  }

  lemma DailyLastUpdate(files: map<FileKey, seq<Candle>>, symbol: string)
    requires FilesValid(files)
    ensures LastUpdateIsLatest(files, symbol, Daily.Value(), LastUpdateDate(files, symbol, Daily.Value()))
  {
    var r := LastUpdateDate(files, symbol, Daily.Value());
    var key := DailyFile(symbol);
    if key in files {
      assert FileValid(key, files[key]);
      var i :| 0 <= i < |files[key]| && files[key][i].time == r.value;
      assert files[key][i] in files[key];
    }
  }

  lemma NoIntradayFiles(files: map<FileKey, seq<Candle>>, symbol: string, timeframe: string)
    requires timeframe != Daily.Value()
    requires |Ascending(SelectedDays(files, timeframe, symbol, None, None))| == 0
    ensures forall k :: k in files ==> !Matches(k, timeframe, symbol)
  {
    MatchingDates(files, symbol, timeframe);
  }

  lemma LatestFileAttains(files: map<FileKey, seq<Candle>>, symbol: string, timeframe: string)
    requires FilesValid(files) && timeframe != Daily.Value()
    requires |Ascending(SelectedDays(files, timeframe, symbol, None, None))| > 0
    ensures var days := Ascending(SelectedDays(files, timeframe, symbol, None, None));
      var key := IntradayFile(timeframe, symbol, days[|days| - 1]);
      && key in files && Matches(key, timeframe, symbol) && |files[key]| > 0
      && exists c :: c in files[key] && c.time == MaxTime(files[key])
  {
    var days := Ascending(SelectedDays(files, timeframe, symbol, None, None));
    var key := IntradayFile(timeframe, symbol, days[|days| - 1]);
    MatchingDates(files, symbol, timeframe);
    assert FileValid(key, files[key]);
    var rows := files[key];
    var m :| 0 <= m < |rows| && rows[m].time == MaxTime(rows);
    assert rows[m] in rows;
  }

  lemma IntradayLastUpdate(files: map<FileKey, seq<Candle>>, symbol: string, timeframe: string)
    requires FilesValid(files) && timeframe != Daily.Value()
    ensures LastUpdateIsLatest(files, symbol, timeframe, LastUpdateDate(files, symbol, timeframe))
  {
    var days := Ascending(SelectedDays(files, timeframe, symbol, None, None));
    if |days| > 0 {
      LatestFileLatest(files, symbol, timeframe);
      LatestFileAttains(files, symbol, timeframe);
    } else {
      NoIntradayFiles(files, symbol, timeframe);
    }
  }

  /** On files the store wrote, the last update is the latest time stored for
      the symbol and timeframe, and there is none exactly when nothing is
      stored for them. */
  lemma LastUpdateMeaning(files: map<FileKey, seq<Candle>>, symbol: string, timeframe: string)
    requires FilesValid(files)
    ensures var r := LastUpdateDate(files, symbol, timeframe);
      && (r.None? <==> forall k :: k in files ==> !Matches(k, timeframe, symbol))
      && (r.Some? ==> forall k, c :: k in files && Matches(k, timeframe, symbol) && c in files[k] ==> c.time <= r.value)
      && (r.Some? ==> exists k, c :: k in files && Matches(k, timeframe, symbol) && c in files[k] && c.time == r.value)
  {
    if timeframe == Daily.Value() {
      DailyLastUpdate(files, symbol);
    } else {
      IntradayLastUpdate(files, symbol, timeframe);
    }
  }

  /** The candle files: the only state of the storage service. */
  class DataStorage {
    var files: map<FileKey, seq<Candle>>

    constructor ()
      ensures files == map[]
    {
      files := map[];
    }

    /** `store_data`: nothing for an empty series; the daily file of the
        symbol for daily data; otherwise the candles grouped by date, in order
        of first appearance, each group merged into its date's file. */
    method StoreData(s: Series)
      modifies this
      ensures files == AfterStore(old(files), s)
    {
      if |s.candles| == 0 {
        StoreEmptyUnchanged(files, s);
        return;
      }
      if s.timeframe == Daily {
        var key := DailyFile(s.symbol);
        var combined := StoredContent(files, key, s.candles);
        files := files[key := combined];
        assert files == AfterStore(old(files), s);
        return;
      }
      var byDate, dates := GroupByDate(s.candles);
      GroupsOfGrouping(s.candles, byDate, dates);
      WriteDates(s, byDate, dates);
      assert DateKeys(s.timeframe.Value(), s.symbol, dates) == Touched(s);
    }

    /** `load_data`. */
    method LoadData(symbol: string, timeframe: string, start: Option<int>, end: Option<int>,
                    orderBy: string, limit: Option<nat>, offset: Option<nat>)
      returns (r: Result<Series, string>)
      ensures r == LoadSpec(files, symbol, timeframe, start, end, orderBy, limit, offset)
    {
      var tf := TimeframeFromValue(timeframe);
      if tf.None? {
        return Err("'" + timeframe + "' is not a valid Timeframe");
      }
      var asc := orderBy == "asc";
      var rows;
      if timeframe == Daily.Value() {
        rows := DailyRows(files, symbol, start, end, asc, limit, offset);
      } else {
        rows := LoadIntradayRows(timeframe, symbol, start, end, asc, limit, offset);
      }
      r := NewSeries(symbol, tf.value, ReadBack(rows), None, None, None);
    }

    /** `_load_intraday_data_paginated`: the selected files in date order,
        then either every file or one page. */
    method LoadIntradayRows(timeframe: string, symbol: string, start: Option<int>, end: Option<int>,
                            asc: bool, limit: Option<nat>, offset: Option<nat>)
      returns (rows: seq<Candle>)
      ensures rows == IntradayRows(files, timeframe, symbol, start, end, asc, limit, offset)
    {
      var days := FileOrder(SelectedDays(files, timeframe, symbol, start, end), asc);
      if limit.None? && offset.None? {
        var all := LoadAllFiles(timeframe, symbol, days);
        rows := Ordered(all, asc);
      } else {
        var pieces := LoadPage(timeframe, symbol, days, asc, Skip(offset), Take(limit));
        rows := Ordered(pieces, asc);
      }
    }

    /** `_load_all_intraday_files`: the non-empty files' rows, file after file. */
    method LoadAllFiles(timeframe: string, symbol: string, days: seq<int>) returns (all: seq<Candle>)
      ensures all == RawRows(files, timeframe, symbol, days)
    {
      all := [];
      var i := 0;
      while i < |days|
        invariant 0 <= i <= |days|
        invariant all == RawRows(files, timeframe, symbol, days[..i])
      {
        assert days[..i + 1][..i] == days[..i];
        var df := FileRows(files, IntradayFile(timeframe, symbol, days[i]));
        if |df| > 0 {
          all := all + df;
        }
        i := i + 1;
      }
      assert days[..i] == days;
    }

    /** The paging loop: files in order, each sorted; whole files are skipped
        while the offset is not used up, then rows are taken until the page is
        full, and the remaining files are not read. */
    method LoadPage(timeframe: string, symbol: string, days: seq<int>, asc: bool, skip: nat, take: nat)
      returns (pieces: seq<Candle>)
      requires take > 0
      ensures pieces == Window(SortedRows(files, timeframe, symbol, days, asc), skip, take)
    {
      pieces := [];
      var loaded := 0;
      var toSkip := skip;
      var i := 0;
      ghost var done: seq<Candle> := [];
      while i < |days| && loaded < take
        invariant 0 <= i <= |days|
        invariant done == SortedRows(files, timeframe, symbol, days[..i], asc)
        invariant toSkip == (if skip > |done| then skip - |done| else 0)
        invariant pieces == Window(done, skip, take)
        invariant loaded == |pieces| <= take
      {
        done, toSkip, pieces, loaded := PageFile(timeframe, symbol, days, i, asc, skip, take, done, toSkip, pieces, loaded);
        i := i + 1;
      }
      PageOfAllFiles(files, timeframe, symbol, days, i, asc, skip, take);
    }

    /** One pass of the paging loop: the `i`-th file read, sorted and fed to
        the window. */
    method PageFile(timeframe: string, symbol: string, days: seq<int>, i: int, asc: bool, skip: nat, take: nat,
                    ghost done: seq<Candle>, toSkip: nat, pieces: seq<Candle>, loaded: nat)
      returns (ghost done': seq<Candle>, toSkip': nat, pieces': seq<Candle>, loaded': nat)
      requires 0 <= i < |days|
      requires done == SortedRows(files, timeframe, symbol, days[..i], asc)
      requires toSkip == (if skip > |done| then skip - |done| else 0)
      requires pieces == Window(done, skip, take)
      requires loaded == |pieces| < take
      ensures done' == SortedRows(files, timeframe, symbol, days[..i + 1], asc)
      ensures toSkip' == (if skip > |done'| then skip - |done'| else 0)
      ensures pieces' == Window(done', skip, take)
      ensures loaded' == |pieces'| <= take
    {
      var raw := FileRows(files, IntradayFile(timeframe, symbol, days[i]));
      var df := Ordered(raw, asc);
      SortedRowsSnoc(files, timeframe, symbol, days, i, asc);
      if |raw| > 0 {
        toSkip', pieces', loaded' := PageStep(done, df, skip, take, toSkip, pieces, loaded);
      } else {
        assert done + df == done;
        toSkip', pieces', loaded' := toSkip, pieces, loaded;
      }
      done' := done + df;
    }

    /** `get_total_count`: the daily rows within the bounds, or the sum of the
        selected files' sizes. */
    method GetTotalCount(symbol: string, timeframe: string, start: Option<int>, end: Option<int>)
      returns (n: nat)
      ensures n == TotalCount(files, symbol, timeframe, start, end)
    {
      if timeframe == Daily.Value() {
        n := |RowsInRange(FileRows(files, DailyFile(symbol)), start, end)|;
        return;
      }
      var days := Ascending(SelectedDays(files, timeframe, symbol, start, end));
      n := 0;
      var i := 0;
      while i < |days|
        invariant 0 <= i <= |days|
        invariant n == RowCount(files, timeframe, symbol, days[..i])
      {
        assert days[..i + 1][..i] == days[..i];
        assert RowCount(files, timeframe, symbol, days[..i + 1])
            == RowCount(files, timeframe, symbol, days[..i]) + |FileRows(files, IntradayFile(timeframe, symbol, days[i]))|;
        n := n + |FileRows(files, IntradayFile(timeframe, symbol, days[i]))|;
        i := i + 1;
      }
      assert days[..i] == days;
    }

    /** One file written: the new rows merged into the file's rows. */
    method WriteFile(key: FileKey, incoming: seq<Candle>)
      modifies this
      ensures files == old(files)[key := StoredContent(old(files), key, incoming)]
    {
      var combined := StoredContent(files, key, incoming);
      files := files[key := combined];
    }

    /** The writing loop of `store_data`: each group into its date's file. */
    method WriteDates(s: Series, byDate: map<int, seq<Candle>>, dates: seq<int>)
      requires forall a, b :: 0 <= a < b < |dates| ==> dates[a] != dates[b]
      requires byDate == Groups(s.candles, dates)
      modifies this
      ensures files == Overwrite(old(files), DateKeys(s.timeframe.Value(), s.symbol, dates), StoreWrite(old(files), s))
    {
      var tf := s.timeframe.Value();
      ghost var files0 := files;
      var j := 0;
      while j < |dates|
        invariant 0 <= j <= |dates|
        invariant files == WrittenUpTo(files0, tf, s.symbol, byDate, dates, j)
      {
        WriteFile(IntradayFile(tf, s.symbol, dates[j]), byDate[dates[j]]);
        j := j + 1;
      }
      WrittenIsOverwrite(files0, s, tf, byDate, dates, j);
      assert dates[..j] == dates;
    }
  }

  /** The grouping loop of `store_data`: the dates of the candles in order of
      first appearance, each with its candles in their order. */
  method GroupByDate(cs: seq<Candle>) returns (byDate: map<int, seq<Candle>>, dates: seq<int>)
    ensures forall d :: d in byDate <==> d in dates
    ensures dates == FirstDates(cs)
    ensures forall d :: d in byDate ==> byDate[d] == CandlesOn(cs, d)
  {
    byDate := map[];
    dates := [];
    var i := 0;
    while i < |cs|
      invariant 0 <= i <= |cs|
      invariant forall d :: d in byDate <==> d in dates
      invariant dates == FirstDates(cs[..i])
      invariant forall d :: d in byDate ==> byDate[d] == CandlesOn(cs[..i], d)
    {
      byDate, dates := GroupOne(cs, i, byDate, dates);
      i := i + 1;
    }
    assert cs[..i] == cs;
  }

  /** One candle of the grouping loop: its date is added when new, and the
      candle goes to the end of its date's group. */
  method GroupOne(cs: seq<Candle>, i: int, byDate: map<int, seq<Candle>>, dates: seq<int>)
    returns (byDate': map<int, seq<Candle>>, dates': seq<int>)
    requires 0 <= i < |cs|
    requires forall d :: d in byDate <==> d in dates
    requires dates == FirstDates(cs[..i])
    requires forall d :: d in byDate ==> byDate[d] == CandlesOn(cs[..i], d)
    ensures forall d :: d in byDate' <==> d in dates'
    ensures dates' == FirstDates(cs[..i + 1])
    ensures forall d :: d in byDate' ==> byDate'[d] == CandlesOn(cs[..i + 1], d)
  {
    var d := DayOf(cs[i].time);
    GroupStep(cs, i);
    FirstDatesStep(cs, i);
    byDate', dates' := byDate, dates;
    if d !in byDate {
      NoCandlesOn(cs[..i], d);
      byDate' := byDate'[d := []];
      dates' := dates' + [d];
    }
    byDate' := byDate'[d := byDate'[d] + [cs[i]]];
  }

  /** Each of `dates` with the candles of `cs` on it. */
  function Groups(cs: seq<Candle>, dates: seq<int>): map<int, seq<Candle>>
  {
    map d | d in dates :: CandlesOn(cs, d)
  }

  /** The files after the groups of the first `j` of `dates` have been
      written one after another. */
  function WrittenUpTo(files0: map<FileKey, seq<Candle>>, tf: string, symbol: string,
                       byDate: map<int, seq<Candle>>, dates: seq<int>, j: nat): map<FileKey, seq<Candle>>
    requires j <= |dates|
  {
    if j == 0 then files0
    else
      var prev := WrittenUpTo(files0, tf, symbol, byDate, dates, j - 1);
      var key := IntradayFile(tf, symbol, dates[j - 1]);
      prev[key := StoredContent(prev, key, if dates[j - 1] in byDate then byDate[dates[j - 1]] else [])]
  }

  /** Writing the groups one date after another gives each date file the
      content a single store of `s` would give it, and keeps the others. */
  lemma {:induction false} WrittenIsOverwrite(files0: map<FileKey, seq<Candle>>, s: Series, tf: string,
                                              byDate: map<int, seq<Candle>>, dates: seq<int>, j: nat)
    requires j <= |dates|
    requires forall a, b :: 0 <= a < b < |dates| ==> dates[a] != dates[b]
    requires byDate == Groups(s.candles, dates)
    ensures WrittenUpTo(files0, tf, s.symbol, byDate, dates, j)
         == Overwrite(files0, DateKeys(tf, s.symbol, dates[..j]), StoreWrite(files0, s))
  {
    if j == 0 {
      assert DateKeys(tf, s.symbol, dates[..0]) == {};
    } else {
      var prev := WrittenUpTo(files0, tf, s.symbol, byDate, dates, j - 1);
      WrittenIsOverwrite(files0, s, tf, byDate, dates, j - 1);
      WriteDatesStep(files0, s, tf, dates, j - 1, prev, byDate[dates[j - 1]]);
    }
  }

  /** The grouping loop's result, as one map. */
  lemma GroupsOfGrouping(cs: seq<Candle>, byDate: map<int, seq<Candle>>, dates: seq<int>)
    requires forall d :: d in byDate <==> d in dates
    requires forall d :: d in byDate ==> byDate[d] == CandlesOn(cs, d)
    ensures byDate == Groups(cs, dates)
  {
  }

  /** The date files of a list of dates. */
  function DateKeys(timeframe: string, symbol: string, dates: seq<int>): set<FileKey>
  {
    set d | d in dates :: IntradayFile(timeframe, symbol, d)
  }

  /** Adding one candle to the grouping adds its date and extends that
      date's group only. */
  lemma GroupStep(cs: seq<Candle>, i: int)
    requires 0 <= i < |cs|
    ensures DaysOf(cs[..i + 1]) == DaysOf(cs[..i]) + {DayOf(cs[i].time)}
    ensures forall d :: CandlesOn(cs[..i + 1], d) == CandlesOn(cs[..i], d) + (if DayOf(cs[i].time) == d then [cs[i]] else [])
  {
    assert cs[..i + 1] == cs[..i] + [cs[i]];
    assert cs[..i + 1][..i] == cs[..i];
  }

  /** Writing the next date file extends the overwritten set by its key; the
      file still holds what it held before the loop. */
  lemma OverwriteStep(files0: map<FileKey, seq<Candle>>, tf: string, s: Series, dates: seq<int>, j: int)
    requires 0 <= j < |dates|
    requires forall a, b :: 0 <= a < b < |dates| ==> dates[a] != dates[b]
    ensures var key := IntradayFile(tf, s.symbol, dates[j]);
      var cur := Overwrite(files0, DateKeys(tf, s.symbol, dates[..j]), StoreWrite(files0, s));
      && (key in cur <==> key in files0) && (key in files0 ==> cur[key] == files0[key])
      && DateKeys(tf, s.symbol, dates[..j + 1]) == DateKeys(tf, s.symbol, dates[..j]) + {key}
  {
    var key := IntradayFile(tf, s.symbol, dates[j]);
    assert key !in DateKeys(tf, s.symbol, dates[..j]);
    assert dates[..j + 1] == dates[..j] + [dates[j]];
  }

  /** One step of the writing loop: writing the next date's group into the
      files written so far gives the files with one more date written. */
  lemma WriteDatesStep(files0: map<FileKey, seq<Candle>>, s: Series, tf: string, dates: seq<int>, j: int,
                       cur: map<FileKey, seq<Candle>>, incoming: seq<Candle>)
    requires 0 <= j < |dates|
    requires forall a, b :: 0 <= a < b < |dates| ==> dates[a] != dates[b]
    requires incoming == CandlesOn(s.candles, dates[j])
    requires cur == Overwrite(files0, DateKeys(tf, s.symbol, dates[..j]), StoreWrite(files0, s))
    ensures cur[IntradayFile(tf, s.symbol, dates[j]) := StoredContent(cur, IntradayFile(tf, s.symbol, dates[j]), incoming)]
         == Overwrite(files0, DateKeys(tf, s.symbol, dates[..j + 1]), StoreWrite(files0, s))
  {
    var key := IntradayFile(tf, s.symbol, dates[j]);
    OverwriteStep(files0, tf, s, dates, j);
    assert incoming == Incoming(s, key);
    StoredContentAgrees(cur, files0, key, incoming);
    OverwriteOneMore(files0, DateKeys(tf, s.symbol, dates[..j]), StoreWrite(files0, s), key);
  }

  lemma StoredContentAgrees(cur: map<FileKey, seq<Candle>>, files0: map<FileKey, seq<Candle>>,
                            key: FileKey, incoming: seq<Candle>)
    requires key in cur <==> key in files0
    requires key in files0 ==> cur[key] == files0[key]
    ensures StoredContent(cur, key, incoming) == StoredContent(files0, key, incoming)
  {
  }

  lemma NoCandlesOn(cs: seq<Candle>, d: int)
    requires d !in DaysOf(cs)
    ensures CandlesOn(cs, d) == []
  {
  }
}
