/** The trading-data endpoints: a paginated read of one symbol's stored
    candles, and the sorted list of symbols stored for a timeframe.

    The store is the file map of `Storage`; parsing an ISO date is a
    parameter.  Query validation by the web framework (page >= 1,
    1 <= page_size <= 10000) answers 422 before the handler runs. */
module TradingDataApi {
  import opened Wrappers
  import opened PriceData
  import Storage
  import Text

  /** An HTTP error response. */
  datatype HttpError = HttpError(status: int, detail: string)

  // ---------------------------------------------------------------------
  // Pagination arithmetic

  /** `total_pages`: the pages of `pageSize` items needed for `totalItems`
      items, and none for no items. */
  function TotalPages(totalItems: nat, pageSize: nat): nat
    requires pageSize >= 1
  {
    if totalItems > 0 then (totalItems + pageSize - 1) / pageSize else 0
  }

  /** The rows skipped before a page. */
  function Offset(page: int, pageSize: nat): nat
    requires page >= 1
  {
    (page - 1) * pageSize
  }

  /** The pagination block of a response. */
  function Pagination(page: int, pageSize: nat, totalItems: nat): PaginationInfo
    requires pageSize >= 1
  {
    var totalPages := TotalPages(totalItems, pageSize);
    PaginationInfo(page, pageSize, totalItems, totalPages, page < totalPages, page > 1)
  }

  /** The page count is the least number of pages that holds every item:
      it is zero exactly when there are no items. */
  lemma TotalPagesMeaning(totalItems: nat, pageSize: nat)
    requires pageSize >= 1
    ensures var n := TotalPages(totalItems, pageSize);
      && n * pageSize >= totalItems
      && (n > 0 ==> (n - 1) * pageSize < totalItems)
      && (n == 0 <==> totalItems == 0)
  {
    if totalItems > 0 {
      var q := totalItems + pageSize - 1;
      var n := q / pageSize;
      var r := q % pageSize;
      assert q == n * pageSize + r && 0 <= r < pageSize;
      assert (n - 1) * pageSize == n * pageSize - pageSize;
    }
  }

  /** A page holds items exactly when it is one of the counted pages, and
      there is a next page exactly when items lie past this one; a first
      page never has a previous one. */
  lemma PageFlagsMeaning(page: int, pageSize: nat, totalItems: nat)
    requires page >= 1 && pageSize >= 1
    ensures var p := Pagination(page, pageSize, totalItems);
      && (Offset(page, pageSize) < totalItems <==> page <= p.totalPages)
      && (p.hasNext <==> page * pageSize < totalItems)
      && (p.hasPrevious <==> Offset(page, pageSize) > 0)
      && (PaginationInRange(p) <==> pageSize <= 10000)
  {
    TotalPagesMeaning(totalItems, pageSize);
    PagesCover(page, pageSize, TotalPages(totalItems, pageSize), totalItems);
  }

  /** The page arithmetic, for any page count `n` that is the least holding
      `total` items. */
  lemma PagesCover(page: int, k: int, n: int, total: int)
    requires page >= 1 && k >= 1 && n >= 0
    requires n * k >= total && (n > 0 ==> (n - 1) * k < total)
    ensures (page - 1) * k < total <==> page <= n
    ensures page < n <==> page * k < total
    ensures (page - 1) * k > 0 <==> page > 1
  {
    if page <= n {
      MulMono(page - 1, n - 1, k);
    } else {
      MulMono(n, page - 1, k);
    }
    if page < n {
      MulMono(page, n - 1, k);
    } else {
      MulMono(n, page, k);
    }
    if page > 1 {
      MulMono(1, page - 1, k);
    }
  }

  lemma MulMono(a: int, b: int, k: int)
    requires a <= b && k >= 0
    ensures a * k <= b * k
  {
    assert b * k - a * k == (b - a) * k;
  }

  // ---------------------------------------------------------------------
  // GET /trading-data/data/{symbol}

  /** The prefix of a date error once the generic handler has wrapped it:
      the inner 400 is caught and answered as a 500 whose detail renders
      the inner exception as "400: ...". */
  function InvalidDate(which: string, text: string): HttpError
  {
    HttpError(500, "Failed to retrieve data: 400: Invalid " + which + " format: " + text + ". Use YYYY-MM-DD format.")
  }

  /** A date filter: absent or empty means none, otherwise it must parse. */
  function DateFilter(parseDate: string -> Option<int>, text: Option<string>): Result<Option<int>, string>
  {
    if text.None? || text.value == "" then Ok(None)
    else match parseDate(text.value)
      case None => Err(text.value)
      case Some(d) => Ok(Some(d))
  }

  /** The timeframe asked for, "1min" when it is absent or empty. */
  function TimeframeOrDefault(timeframe: Option<string>): string
  {
    if timeframe.None? || timeframe.value == "" then OneMin.Value() else timeframe.value
  }

  /** `get_trading_data`: the symbol is upper-cased, the stored rows within
      the date filters are counted, and the requested page of the chosen
      ordering is loaded and returned with its pagination block.  Any
      failure inside the handler becomes a 500. */
  function GetTradingData(files: map<Storage.FileKey, seq<Candle>>, parseDate: string -> Option<int>,
                          symbol: string, timeframe: Option<string>, startDate: Option<string>,
                          endDate: Option<string>, orderBy: string, page: int, pageSize: int)
    : Result<Series, HttpError>
  {
    if page < 1 || pageSize < 1 || pageSize > 10000 then Err(HttpError(422, "Query parameter out of range"))
    else
      match DateFilter(parseDate, startDate)
      case Err(text) => Err(InvalidDate("start_date", text))
      case Ok(start) =>
        match DateFilter(parseDate, endDate)
        case Err(text) => Err(InvalidDate("end_date", text))
        case Ok(end) =>
          Load(files, Text.Upper(symbol), TimeframeOrDefault(timeframe), start, end, orderBy, page, pageSize)
  }

  /** The handler once the parameters are checked: count, load the page,
      and wrap it with its pagination block. */
  function Load(files: map<Storage.FileKey, seq<Candle>>, sym: string, tf: string, start: Option<int>,
                end: Option<int>, orderBy: string, page: int, pageSize: int): Result<Series, HttpError>
    requires page >= 1 && 1 <= pageSize <= 10000
  {
    var total := Storage.TotalCount(files, sym, tf, start, end);
    match Storage.LoadSpec(files, sym, tf, start, end, orderBy, Some(pageSize), Some(Offset(page, pageSize)))
    case Err(e) => Err(HttpError(500, "Failed to retrieve data: " + e))
    case Ok(series) =>
      match NewPaginationInfo(Pagination(page, pageSize, total))
      case Err(e) => Err(HttpError(500, "Failed to retrieve data: " + e))
      case Ok(info) =>
        match NewSeries(series.symbol, series.timeframe, series.candles, series.startDate, series.endDate, Some(info))
        case Err(e) => Err(HttpError(500, "Failed to retrieve data: " + e))
        case Ok(r) => Ok(r)
  }

  /** What a read answers: 422 exactly for out-of-range paging; otherwise
      a 500 naming the first date that does not parse; otherwise the load
      of the upper-cased symbol in the timeframe asked for ("1min" by
      default) within the parsed dates. */
  lemma GetTradingDataMeaning(files: map<Storage.FileKey, seq<Candle>>, parseDate: string -> Option<int>,
                              symbol: string, timeframe: Option<string>, startDate: Option<string>,
                              endDate: Option<string>, orderBy: string, page: int, pageSize: int)
    ensures var r := GetTradingData(files, parseDate, symbol, timeframe, startDate, endDate, orderBy, page, pageSize);
      var start := DateFilter(parseDate, startDate);
      var end := DateFilter(parseDate, endDate);
      && ((page < 1 || pageSize < 1 || pageSize > 10000) <==> r.Err? && r.error.status == 422)
      && (page >= 1 && 1 <= pageSize <= 10000 ==>
            && (start.Err? ==> r == Err(InvalidDate("start_date", startDate.value)))
            && (start.Ok? && end.Err? ==> r == Err(InvalidDate("end_date", endDate.value)))
            && (start.Ok? && end.Ok? ==>
                  r == Load(files, Text.Upper(symbol), TimeframeOrDefault(timeframe), start.value, end.value,
                            orderBy, page, pageSize)))
  {
    if page >= 1 && 1 <= pageSize <= 10000 {
      var start := DateFilter(parseDate, startDate);
      if start.Err? {
        assert startDate.Some? && startDate.value != "" && parseDate(startDate.value).None?;
      }
      var end := DateFilter(parseDate, endDate);
      if start.Ok? && end.Err? {
        assert endDate.Some? && endDate.value != "" && parseDate(endDate.value).None?;
      }
      if start.Ok? && end.Ok? {
        LoadMeaning(files, Text.Upper(symbol), TimeframeOrDefault(timeframe), start.value, end.value, orderBy,
                    page, pageSize);
      }
    }
  }

  /** A checked read succeeds exactly when the store can load the symbol
      and timeframe, and then answers 500 on nothing: it returns the loaded
      page of `page_size` rows from offset (page - 1) * page_size, with the
      store's row count, the page count and the two flags in its
      pagination block.  A failed load is a 500. */
  lemma LoadMeaning(files: map<Storage.FileKey, seq<Candle>>, sym: string, tf: string, start: Option<int>,
                    end: Option<int>, orderBy: string, page: int, pageSize: int)
    requires page >= 1 && 1 <= pageSize <= 10000
    ensures var load := Storage.LoadSpec(files, sym, tf, start, end, orderBy, Some(pageSize), Some((page - 1) * pageSize));
      var r := Load(files, sym, tf, start, end, orderBy, page, pageSize);
      && (r.Ok? <==> load.Ok?)
      && (r.Err? ==> r.error.status == 500)
      && (r.Ok? ==>
            && r.value.symbol == sym
            && r.value.timeframe == load.value.timeframe
            && r.value.candles == load.value.candles
            && r.value.pagination.Some?
            && var p := r.value.pagination.value;
            && p.page == page && p.pageSize == pageSize
            && p.totalItems == Storage.TotalCount(files, sym, tf, start, end)
            && p.totalPages == TotalPages(p.totalItems, pageSize)
            && (p.hasNext <==> page < p.totalPages)
            && (p.hasPrevious <==> page > 1))
  {
    Storage.LoadOutcome(files, sym, tf, start, end, orderBy, Some(pageSize), Some((page - 1) * pageSize));
  }

  /** The symbol is upper-cased before the store is asked, so two symbols
      that differ only in the case of their letters read the same data. */
  lemma ReadIgnoresCase(files: map<Storage.FileKey, seq<Candle>>, parseDate: string -> Option<int>,
                        symbol: string, timeframe: Option<string>, startDate: Option<string>,
                        endDate: Option<string>, orderBy: string, page: int, pageSize: int)
    ensures GetTradingData(files, parseDate, Text.Lower(symbol), timeframe, startDate, endDate, orderBy, page, pageSize)
         == GetTradingData(files, parseDate, symbol, timeframe, startDate, endDate, orderBy, page, pageSize)
  {
    Text.UpperOfLower(symbol);
  }

  // ---------------------------------------------------------------------
  // GET /trading-data/symbols

  /** Python's ordering of strings: by code point, a proper prefix first. */
  predicate AtMost(a: string, b: string)
  {
    if |a| == 0 then true
    else if |b| == 0 then false
    else if a[0] != b[0] then a[0] < b[0]
    else AtMost(a[1..], b[1..])
  }

  lemma {:induction false} AtMostTotal(a: string, b: string)
    ensures AtMost(a, b) || AtMost(b, a)
  {
    if |a| > 0 && |b| > 0 && a[0] == b[0] {
      AtMostTotal(a[1..], b[1..]);
    }
  }

  lemma {:induction false} AtMostAntisymmetric(a: string, b: string)
    requires AtMost(a, b) && AtMost(b, a)
    ensures a == b
  {
    if |a| > 0 && |b| > 0 {
      AtMostAntisymmetric(a[1..], b[1..]);
      assert a == [a[0]] + a[1..] && b == [b[0]] + b[1..];
    }
  }

  lemma {:induction false} AtMostTransitive(a: string, b: string, c: string)
    requires AtMost(a, b) && AtMost(b, c)
    ensures AtMost(a, c)
  {
    if |a| > 0 && |b| > 0 && |c| > 0 && a[0] == b[0] && b[0] == c[0] {
      AtMostTransitive(a[1..], b[1..], c[1..]);
    }
  }

  predicate SortedStrings(s: seq<string>)
  {
    forall i, j :: 0 <= i < j < |s| ==> AtMost(s[i], s[j])
  }

  /** `m` comes no later than any name of `s`. */
  predicate LowerBound(m: string, s: seq<string>)
  {
    forall i :: 0 <= i < |s| ==> AtMost(m, s[i])
  }

  /** `x` put into a sorted list before the first element it does not
      exceed. */
  function Insert(x: string, s: seq<string>): seq<string>
  {
    if |s| == 0 then [x]
    else if AtMost(x, s[0]) then [x] + s
    else [s[0]] + Insert(x, s[1..])
  }

  /** `sorted(names)`. */
  function Sorted(names: seq<string>): seq<string>
  {
    if |names| == 0 then [] else Insert(names[0], Sorted(names[1..]))
  }

  lemma SortedCons(m: string, t: seq<string>)
    ensures SortedStrings([m] + t) <==> LowerBound(m, t) && SortedStrings(t)
  {
    var s := [m] + t;
    assert forall i :: 0 <= i < |t| ==> s[i + 1] == t[i];
    if LowerBound(m, t) && SortedStrings(t) {
      forall i, j | 0 <= i < j < |s|
        ensures AtMost(s[i], s[j])
      {
        if i > 0 {
          assert AtMost(t[i - 1], t[j - 1]);
        }
      }
    }
    if SortedStrings(s) {
      forall i | 0 <= i < |t|
        ensures AtMost(m, t[i])
      {
        assert AtMost(s[0], s[i + 1]);
      }
    }
  }

  lemma {:induction false} InsertBound(m: string, x: string, s: seq<string>)
    requires LowerBound(m, s) && AtMost(m, x)
    ensures LowerBound(m, Insert(x, s))
  {
    if |s| > 0 && !AtMost(x, s[0]) {
      assert forall i :: 0 <= i < |s| - 1 ==> s[1..][i] == s[i + 1];
      InsertBound(m, x, s[1..]);
      SortedCons(s[0], Insert(x, s[1..]));
      assert forall i :: 0 <= i < |Insert(x, s[1..])| ==> Insert(x, s)[i + 1] == Insert(x, s[1..])[i];
    }
  }

  lemma {:induction false} InsertSorted(x: string, s: seq<string>)
    requires SortedStrings(s)
    ensures SortedStrings(Insert(x, s))
  {
    if |s| > 0 {
      assert s == [s[0]] + s[1..];
      SortedCons(s[0], s[1..]);
      if AtMost(x, s[0]) {
        forall i | 0 <= i < |s|
          ensures AtMost(x, s[i])
        {
          if i > 0 {
            assert AtMost(s[0], s[i]);
            AtMostTransitive(x, s[0], s[i]);
          }
        }
        SortedCons(x, s);
      } else {
        AtMostTotal(x, s[0]);
        InsertBound(s[0], x, s[1..]);
        InsertSorted(x, s[1..]);
        SortedCons(s[0], Insert(x, s[1..]));
      }
    }
  }

  lemma {:induction false} InsertMultiset(x: string, s: seq<string>)
    ensures multiset(Insert(x, s)) == multiset(s) + multiset{x}
  {
    if |s| > 0 && !AtMost(x, s[0]) {
      InsertMultiset(x, s[1..]);
      assert s == [s[0]] + s[1..];
    }
  }

  /** `list_stored_symbols` answers the stored names in Python's order: a
      sorted list holding each name exactly as often as the store does. */
  lemma {:induction false} SortedMeaning(names: seq<string>)
    ensures SortedStrings(Sorted(names))
    ensures multiset(Sorted(names)) == multiset(names)
  {
    if |names| > 0 {
      SortedMeaning(names[1..]);
      InsertSorted(names[0], Sorted(names[1..]));
      InsertMultiset(names[0], Sorted(names[1..]));
      assert names == [names[0]] + names[1..];
    }
  }

  /** The first name of a sorted list comes no later than any of its names. */
  lemma FirstIsLeast(s: seq<string>, x: string)
    requires SortedStrings(s) && x in multiset(s)
    ensures AtMost(s[0], x)
  {
    assert x in s;
    var i :| 0 <= i < |s| && s[i] == x;
    if i > 0 {
      assert AtMost(s[0], s[i]);
    } else {
      AtMostTotal(x, x);
    }
  }

  /** Two sorted lists with the same names are the same list. */
  lemma {:induction false} SortedUnique(a: seq<string>, b: seq<string>)
    requires SortedStrings(a) && SortedStrings(b) && multiset(a) == multiset(b)
    ensures a == b
    decreases |a|
  {
    assert |a| == |multiset(a)| == |multiset(b)| == |b|;
    if |a| > 0 {
      assert a[0] in a && b[0] in b;
      FirstIsLeast(b, a[0]);
      FirstIsLeast(a, b[0]);
      AtMostAntisymmetric(a[0], b[0]);
      SameTails(a, b);
      SortedUnique(a[1..], b[1..]);
      assert a == [a[0]] + a[1..] && b == [b[0]] + b[1..];
    }
  }

  /** Lists with the same names and the same first name agree on the
      names after it, and a sorted list stays sorted without its first. */
  lemma SameTails(a: seq<string>, b: seq<string>)
    requires |a| > 0 && |b| > 0 && a[0] == b[0] && multiset(a) == multiset(b)
    requires SortedStrings(a) && SortedStrings(b)
    ensures multiset(a[1..]) == multiset(b[1..])
    ensures SortedStrings(a[1..]) && SortedStrings(b[1..])
  {
    assert a == [a[0]] + a[1..] && b == [b[0]] + b[1..];
    assert multiset(a[1..]) == multiset(a) - multiset{a[0]};
    assert multiset(b[1..]) == multiset(b) - multiset{b[0]};
  }

  /** `list_stored_symbols`: the names the store lists for the timeframe
      ("1min" when it is absent or empty), sorted. */
  function ListStoredSymbols(listing: string -> seq<string>, timeframe: Option<string>): seq<string>
  {
    Sorted(listing(TimeframeOrDefault(timeframe)))
  }

  /** The listed names come back in Python's order, each as often as the
      store lists it. */
  lemma ListStoredSymbolsMeaning(listing: string -> seq<string>, timeframe: Option<string>)
    ensures var r := ListStoredSymbols(listing, timeframe);
      && SortedStrings(r)
      && multiset(r) == multiset(listing(TimeframeOrDefault(timeframe)))
  {
    SortedMeaning(listing(TimeframeOrDefault(timeframe)));
  }

  /** The answer does not depend on the order the store lists names in:
      two listings with the same names give the same sorted answer. */
  lemma ListingOrderIrrelevant(listing1: string -> seq<string>, listing2: string -> seq<string>,
                               timeframe: Option<string>)
    requires multiset(listing1(TimeframeOrDefault(timeframe))) == multiset(listing2(TimeframeOrDefault(timeframe)))
    ensures ListStoredSymbols(listing1, timeframe) == ListStoredSymbols(listing2, timeframe)
  {
    var tf := TimeframeOrDefault(timeframe);
    SortedMeaning(listing1(tf));
    SortedMeaning(listing2(tf));
    SortedUnique(Sorted(listing1(tf)), Sorted(listing2(tf)));
  }
}
