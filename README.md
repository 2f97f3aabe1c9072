# SimuTrader data manager: completeness and resampling core in Dafny

This project models the data-management backend of the SimuTrader trading
simulator. The backend ingests 1-minute OHLCV candles from a market-data
vendor (Polygon), checks each trading day against the NYSE calendar,
re-fetches the missing minutes, and derives the coarser timeframes
(5min to daily) with the vendor's own bucket alignment. It keeps everything
in per-date files and serves them back page by page. A nightly job strings
these steps together for many symbols and reports progress per symbol.

The model follows the source module by module:

- **Value types** (`price_data.dfy`, `orders.dfy`, `timeframes.dfy`,
  `asset_types.dfy`): the candle invariant, series bounds, orders with
  brackets and simulation requests, the timeframe table and the per-asset
  market sessions and resampling offsets.
- **Symbol classifier** (`classification.dfy`): a class whose symbol sets are
  fields updated in place by `add_custom_mapping`.
- **Trading calendar** (`dates.dfy`, `trading_calendar.dfy`,
  `calendar_examples.dfy`): civil dates as day numbers, the fallback NYSE
  holiday rules with weekend observance, half days, and expected candle
  counts of 0, 210 or 390.
- **Completeness validator** (`validation.dfy`, `minute_runs.dfy`): the
  expected-minute grid, missing minutes grouped into half-open periods with a
  partition round trip, integrity checks, and the day, range and summary
  loops.
- **Resampler** (`buckets.dfy`, `resampling.dfy`): alignment choice by asset
  type, timeframe and provider metadata; an explicit bucket function in
  place of pandas `resample`; the OHLCV fold; daily stamping.
- **Storage** (`storage.dfy`): the file system is a map from
  (timeframe, symbol, date) to candle rows. Covered: store with merge and
  de-duplication, inclusive date filters, skip/take pagination across date
  files, counts, and the last update date.
- **Gap recovery** (`gap_filling.dfy`, `url_generator.dfy`): attempts are
  capped, the in-range filter is end-inclusive, outcomes are classified, and
  the existing-wins merge keeps stored rows. Vendor URLs are built
  deterministically.
- **Bulk fetch** (`polygon_client.dfy`): the batch-size formula, the day-range
  partition into batches, the retry policy, the `FetchResult` counters and
  the re-try of failed batches.
- **Orchestration** (`resampling_workflow.dfy`, `nightly_update.dfy`,
  `progress.dfy`):
  - the ordered resampling workflow, which stops on error;
  - nightly date-range trimming, the per-symbol pipeline and its progress
    reports, and summary aggregation;
  - the progress-tracking service as a class over maps.
- **Trading-data API** (`trading_data_api.dfy`): pagination arithmetic,
  symbol normalisation, and the sorted symbol listing.
- **Shared helpers** (`wrappers.dfy`, `text.dfy`, `decimal.dfy`, `dicts.dfy`,
  `candle_seqs.dfy`): options and results, ASCII text, decimal digit strings,
  insertion-ordered dictionaries, and time-ordered candle sequences.

Conventions:

- Timestamps are integer seconds (or minutes, where the source counts
  minutes) in UTC. Dates are day numbers counted from 1970-01-01, with a
  computed weekday.
- Prices and volumes are integers in a fixed smallest unit. The source uses
  `Decimal`, so its arithmetic is exact as well.
- Python dictionaries, which keep insertion order, are association lists
  with unique keys wherever that order or a sum over the values matters.
- Collaborators the core calls but does not own are parameters:
  - the stored-candle loader;
  - the nightly service's range validator, 1-minute downloader and resampling workflow (`NightlyUpdate.Services`: `validate`, `download`, `resample`), which are not tied to `MarketValidation`, `PolygonClient`, `ResamplingWorkflow` or the storage effects;
  - vendor responses and the trade-existence probe;
  - the official exchange calendar;
  - the current date and clock;
  - date-string parsing and directory listings.

## Model

A specification function that only computes (such as `Storage.LoadSpec`, `Resampling.ResampleSpec` or `NightlyUpdate.SymbolUpdate`) has no row of its own. The lemmas and methods that state its meaning do.

| member | source | states |
|---|---|---|
| Timeframes.TimeframeMinutes | backend/src/core/timeframe_utils.py:45-65 | defined exactly on the eight known timeframe names; every duration is positive and divides a day |
| Timeframes.TimeframeMinutesTable | backend/src/core/timeframe_utils.py:55-65 | the table entry by entry: 1min→1, 5min→5, 15min→15, 30min→30, 1h→60, 2h→120, 4h→240, daily→1440 |
| Timeframes.PandasFrequency | backend/src/core/timeframe_utils.py:68-88 | defined on the same eight names; "daily" alone becomes "1D", every other name maps to itself |
| Timeframes.ValidateTimeframeConversion | backend/src/core/timeframe_utils.py:91-110 | a conversion is accepted exactly when both names are known and the target's duration is strictly longer than the source's; so the two names always differ |
| Timeframes.TimeframeMinutesInjective | backend/src/core/timeframe_utils.py:55-65 | two names with the same duration are the same name |
| Timeframes.ConversionIrreflexive | backend/src/core/timeframe_utils.py:102-108 | no timeframe converts to itself |
| Timeframes.ConversionTransitive | backend/src/core/timeframe_utils.py:102-108 | conversions compose: a→b and b→c give a→c |
| Timeframes.SupportedTimeframes | backend/src/core/timeframe_utils.py:111-127 | its keys are the known names and it agrees with `get_timeframe_minutes` on each |
| Timeframes.ResamplingRules | backend/src/core/timeframe_utils.py:130-143 | one rule for each of the five OHLCV columns; what each rule computes is stated by Resampling.ResamplingRulesAreTheFold |
| Timeframes.EnumTimeframesKnown | backend/src/models/price_data.py:15-25 | every member of the Timeframe enum is a known timeframe name |
| AssetTypes.ClockTextsRoundTrip | backend/src/models/asset_types.py:35-44 | the "HH:MM" open and close texts read back as the session's hour and minute |
| AssetTypes.ResamplingOffsetMeaning | backend/src/models/asset_types.py:45-48 | the "{h}h{mm}min" offset text reads back as the session's open in minutes after midnight |
| AssetTypes.AssetTypeConfig.ResamplingOffset | backend/src/models/asset_types.py:62-67 | an offset exists iff session alignment is on and a session is configured, and it is that session's offset text |
| AssetTypes.AssetConfig | backend/src/models/asset_types.py:147-157 | total over the enum; every entry describes its own type, and alignment implies a configured session |
| AssetTypes.GetResamplingOffset | backend/src/models/asset_types.py:160-176 | an offset exists exactly for US equities and forex |
| AssetTypes.SessionOffsetMinutes | backend/src/models/asset_types.py:160-176 | the offset in minutes exists iff the offset text does, and is what that text reads back as |
| AssetTypes.ResamplingOffsetStrings | backend/src/models/asset_types.py:71-87 | the offset texts are "13h30min" for US equities and "8h00min" for forex |
| AssetTypes.SessionOffsetsTable | backend/src/models/asset_types.py:90-144 | the offsets are 810 minutes for US equities, 480 for forex, and none for every other type |
| AssetTypes.SessionClockTexts | backend/src/models/asset_types.py:71-87 | US equity session "13:30"–"20:00", London forex session "08:00"–"17:00" |
| AssetTypes.ShouldUseSessionAlignment | backend/src/models/asset_types.py:179-190 | true exactly when the asset type has a resampling offset |
| AssetTypes.Is24_7Market | backend/src/models/asset_types.py:193-204 | true exactly for crypto and forex |
| PriceData.TimeframeValueRoundTrip | backend/src/models/price_data.py:15-25 | every timeframe is found again from its value, so the values are distinct |
| PriceData.NewCandle | backend/src/models/price_data.py:43-68 | a candle is accepted iff all prices are positive, volume is non-negative, high ≥ low and open and close lie within [low, high]; the model reports only the first check that fails, taken in that order |
| PriceData.MinTime | backend/src/models/price_data.py:105-111 | the earliest time of a non-empty candle list: a lower bound that some candle attains |
| PriceData.MaxTime | backend/src/models/price_data.py:105-111 | the latest time of a non-empty candle list: an upper bound that some candle attains |
| PriceData.NewPaginationInfo | backend/src/models/price_data.py:71-81 | accepted iff page ≥ 1, 1 ≤ page_size ≤ 10000 and both totals are non-negative; then unchanged |
| PriceData.NewSeries | backend/src/models/price_data.py:84-111 | accepted iff the symbol is non-empty; given bounds are kept, a missing bound of a non-empty series becomes the earliest/latest candle time, an empty series keeps both unset |
| PriceData.NewDataUpdateStatus | backend/src/models/price_data.py:134-149 | accepted iff records_updated is non-negative |
| Text.Upper | backend/src/services/classification/asset_classification_service.py:149 | `str.upper()` on ASCII: same length, each lower-case letter replaced by its capital |
| Text.UpperOfLower | backend/src/services/classification/asset_classification_service.py:149 | upper-casing a lower-cased text gives the upper-cased original |
| Text.StripLeft | backend/src/services/classification/asset_classification_service.py:149 | `lstrip()`: a suffix that starts with a non-space, after an all-space prefix |
| Text.StripRight | backend/src/services/classification/asset_classification_service.py:149 | `rstrip()`: a prefix that ends with a non-space, before an all-space suffix |
| Text.StripIdempotent | backend/src/services/classification/asset_classification_service.py:149 | stripping twice strips nothing more |
| Text.StripIgnoresPadding | backend/src/services/classification/asset_classification_service.py:149 | whitespace around a text does not survive `strip()` |
| Classification.NormalizeIdempotent | backend/src/services/classification/asset_classification_service.py:149 | normalising (upper-case, then strip) a normalised symbol changes nothing |
| Classification.SepIndex | backend/src/services/classification/asset_classification_service.py:242-245 | the position of the first '-' or '/', or the length when there is none |
| Classification.Split | backend/src/services/classification/asset_classification_service.py:242-245 | the first part is the text before the first separator; there is one part iff there is no separator |
| Classification.StripFirstSuffix | backend/src/services/classification/asset_classification_service.py:246-251 | either the base unchanged, or the base minus one listed suffix that it properly ends with |
| Classification.ExtractBase | backend/src/services/classification/asset_classification_service.py:240-251 | the base symbol is a prefix of the symbol |
| Classification.ForexRule | backend/src/services/classification/asset_classification_service.py:199-219 | a symbol is forex iff it is six letters, or "XXX-YYY"/"XXX/YYY", with both halves known currency codes |
| Classification.ClassifyWith | backend/src/services/classification/asset_classification_service.py:136-169 | the empty symbol is UNKNOWN; any other is classified on its normalised form |
| Classification.ClassifyNormal | backend/src/services/classification/asset_classification_service.py:151-169 | the rules never answer INTERNATIONAL_EQUITY |
| Classification.ClassifyOutcomes | backend/src/services/classification/asset_classification_service.py:151-169 | fixed priority: forex iff a forex pair; crypto iff not forex and a crypto symbol; commodity and US equity likewise, each only when every earlier rule failed |
| Classification.BlankSymbolIsUnknown | backend/src/services/classification/asset_classification_service.py:146-169 | an all-whitespace symbol classifies as UNKNOWN |
| Classification.ClassifyNormalized | backend/src/services/classification/asset_classification_service.py:149 | classifying the normalised symbol gives the same type as the symbol itself |
| Classification.ClassifyIgnoresCase | backend/src/services/classification/asset_classification_service.py:149 | the lower-cased symbol classifies like the symbol |
| Classification.ClassifyIgnoresPadding | backend/src/services/classification/asset_classification_service.py:149 | surrounding whitespace does not change the type |
| Classification.ShortLettersAreUsEquity | backend/src/services/classification/asset_classification_service.py:226-238 | one to five capital letters outside the crypto, commodity and currency sets classify as US equity |
| Classification.ShortTickerIsUsEquity | backend/src/services/classification/asset_classification_service.py:226-238 | the same for a raw symbol whose normalised form is such a ticker |
| Classification.CustomCryptoTakesEffect | backend/src/services/classification/asset_classification_service.py:282-304 | once a normalised symbol is in the crypto set, it classifies as crypto |
| Classification.CustomCommodityTakesEffect | backend/src/services/classification/asset_classification_service.py:282-304 | once a normalised symbol is in the commodity set, it classifies as commodity |
| Classification.ClassifyAll | backend/src/services/classification/asset_classification_service.py:253-263 | one entry per distinct symbol, keys exactly the input symbols, each with its own classification |
| Classification.FilterByType | backend/src/services/classification/asset_classification_service.py:265-280 | every symbol of the type is kept as often as it occurs and no other symbol is kept |
| Classification.FilterByTypeConcat | backend/src/services/classification/asset_classification_service.py:265-280 | filtering distributes over concatenation, so input order is preserved |
| Classification.SumCountsAllTypes | backend/src/services/classification/asset_classification_service.py:306-324 | the per-type counts over all asset types add up to the number of classified symbols |
| Classification.CountType | backend/src/services/classification/asset_classification_service.py:317-321 | the counting loop counts the entries of the type |
| Classification.Stats | backend/src/services/classification/asset_classification_service.py:306-324 | every reported count is positive and correct, the types reported are those that occur, in enum order, and the counts sum to the number of entries |
| Classification.AssetClassificationService.constructor | backend/src/services/classification/asset_classification_service.py:20-134 | a new classifier holds the default crypto and commodity sets |
| Classification.AssetClassificationService.ClassifySymbol | backend/src/services/classification/asset_classification_service.py:136-169 | the empty symbol is UNKNOWN; FOREX iff the normalised symbol is a forex pair |
| Classification.AssetClassificationService.ClassifySymbols | backend/src/services/classification/asset_classification_service.py:253-263 | one entry per distinct symbol, keys exactly the input symbols, each with `classify_symbol`'s answer |
| Classification.AssetClassificationService.GetSymbolsByType | backend/src/services/classification/asset_classification_service.py:265-280 | exactly the symbols of that type, each kept as often as it occurs |
| Classification.AssetClassificationService.AddCustomMapping | backend/src/services/classification/asset_classification_service.py:282-304 | crypto adds the normalised symbol to the crypto set, commodity to the commodity set; any other type changes nothing |
| Classification.AssetClassificationService.GetClassificationStats | backend/src/services/classification/asset_classification_service.py:306-324 | positive counts of the types that occur, in enum order, summing to the number of distinct symbols |
| Decimal.NatToString | backend/src/services/polygon_url_generator.py:88-105 | `str(n)`: a non-empty digit string without leading zeros whose length is the number of digits of `n` |
| Decimal.ParseNatToString | backend/src/services/polygon_url_generator.py:88-105 | reading back what `str(n)` wrote gives `n` |
| Decimal.Pad2 | backend/src/models/asset_types.py:35-48 | `f"{n:02d}"`: digits only, exactly two for n < 100 |
| Decimal.ParsePad2 | backend/src/models/asset_types.py:35-48 | reading back what `f"{n:02d}"` wrote gives `n` |
| Decimal.Pad4 | backend/src/services/storage/data_storage_service.py:57 | the zero-padded four-digit year of a date stem |
| Decimal.ParsePad4 | backend/src/services/storage/data_storage_service.py:57 | reading back a padded year gives it again |
| Dates.Weekday | backend/src/services/validation/stock_market_validation_service.py:224 | `weekday()`: a day of the week, 0 (Monday) to 6 |
| Dates.WeekdayAfter | backend/src/services/validation/stock_market_validation_service.py:290 | the weekday advances by one per day, modulo seven |
| Dates.DayOf | backend/src/services/storage/data_storage_service.py:145 | `.date()` of a UTC time: the day whose 86400 seconds contain it |
| Dates.CivilFromDaysValid | backend/src/services/validation/stock_market_validation_service.py:70-128 | every day number is a valid proleptic Gregorian date |
| Dates.DaysFromCivilFromDays | backend/src/services/validation/stock_market_validation_service.py:70-128 | day number → calendar date → day number is the identity |
| Dates.CivilFromDaysOfCivil | backend/src/services/validation/stock_market_validation_service.py:70-128 | calendar date → day number → calendar date is the identity on valid dates |
| Dates.ParseIsoDate | backend/src/services/storage/data_storage_service.py:301 | `strptime(s, "%Y-%m-%d")`: only ten-character texts parse |
| Dates.ParseIsoDateRoundTrip | backend/src/services/storage/data_storage_service.py:57 | the "YYYY-MM-DD" stem written for a date in years 1–9999 parses back to that date |
| Dicts.Get | backend/src/services/workflows/stock_market_resampling_workflow.py:151-199 | a dictionary lookup: None iff the key is absent, else the value stored under it |
| Dicts.Put | backend/src/services/workflows/stock_market_resampling_workflow.py:151-199 | `d[k] = v`: replaces in place when the key is present, appends otherwise |
| Dicts.PutMeaning | backend/src/services/workflows/stock_market_resampling_workflow.py:151-199 | after `d[k] = v` keys stay distinct, `k` maps to `v`, every other key keeps its value, and the keys are the old ones plus `k` |
| Dicts.PutSum | backend/src/services/workflows/stock_market_resampling_workflow.py:43-60 | assigning a key changes the value total by the new value minus the old one |
| Dicts.FromKeys | backend/src/services/workflows/stock_market_nightly_update_service.py:703-759 | a dictionary over exactly the given keys, each mapped to the same value |
| CandleSeqs.InsertByTime | backend/src/services/data_providers/polygon_client.py:545 | inserting into a time-sorted list keeps it sorted and adds exactly the new candle |
| CandleSeqs.SortByTime | backend/src/services/data_providers/polygon_client.py:545 | `sort(key=date)`: sorted by time, same length, same candles |
| CandleSeqs.SortByTimePermutes | backend/src/services/data_providers/polygon_client.py:545 | sorting is a permutation |
| CandleSeqs.DedupeSorted | backend/src/services/storage/data_storage_service.py:121-133 | dropping duplicate times from a sorted list gives strictly increasing times, the same set of times, and only candles of the input |
| CandleSeqs.MergeKeepLast | backend/src/services/storage/data_storage_service.py:161-174 | concat, sort and `drop_duplicates(keep="last")`: strictly increasing times covering exactly the times of both inputs |
| Buckets.BucketStart | backend/src/services/storage/data_resampling_service.py:505-540 | `resample(freq, offset=…)`: the bucket start is on the offset grid and is the last edge at or before the time |
| Buckets.BucketStartUnique | backend/src/services/storage/data_resampling_service.py:505-540 | any grid edge within one period before a time is that time's bucket start |
| Buckets.BucketStartMonotone | backend/src/services/storage/data_resampling_service.py:505-540 | later times never fall into earlier buckets |
| Buckets.WholePeriodOffset | backend/src/services/storage/data_resampling_service.py:505-540 | an offset that is a whole number of periods gives the same buckets as UTC alignment |
| Buckets.Grid | backend/src/services/storage/data_resampling_service.py:505-540 | the bucket function of an offset grid is monotone |
| Buckets.InBucketMeaning | backend/src/services/storage/data_resampling_service.py:543 | a bucket's group holds exactly the candles whose time falls in it |
| Buckets.ExtremesMeaning | backend/src/services/storage/data_resampling_service.py:543 | a group's low is the least low and its high the greatest high, both attained by a candle |
| Buckets.AggregateTimes | backend/src/services/storage/data_resampling_service.py:505-543 | output labels strictly increase and every input candle's bucket appears among them |
| Buckets.AggregateContents | backend/src/services/storage/data_resampling_service.py:505-543 | each output candle is its bucket's first open, max high, min low, last close and summed volume; empty buckets are absent |
| Buckets.AggregateWellFormed | backend/src/services/storage/data_resampling_service.py:715-728 | aggregating well-formed candles gives well-formed candles |
| Buckets.AggregateLabelsOfCandles | backend/src/services/storage/data_resampling_service.py:543 | every output bucket holds at least one input candle |
| Buckets.CombinedWellFormed | backend/src/services/storage/data_resampling_service.py:543 | the OHLCV fold of a non-empty group of well-formed candles is well-formed |
| MinuteRuns.ExpandMember | backend/src/services/validation/stock_market_validation_service.py:543-547 | the expected grid holds exactly the minutes from open inclusive to close exclusive |
| MinuteRuns.GroupRunsPartition | backend/src/services/validation/stock_market_validation_service.py:560-582 | the half-open periods, expanded back to minutes, give exactly the sorted missing minutes, and consecutive periods are separated by a gap |
| MinuteRuns.GroupRunsCover | backend/src/services/validation/stock_market_validation_service.py:560-582 | a minute is missing iff it lies in one of the periods |
| MinuteRuns.GroupConsecutive | backend/src/services/validation/stock_market_validation_service.py:560-582 | the grouping loop computes the run grouping of the missing minutes |
| TradingCalendar.Observe | backend/src/services/validation/stock_market_validation_service.py:70-88 | NYSE observance: a Saturday holiday moves to Friday, a Sunday one to Monday, a weekday stays; the result is a weekday within a day |
| TradingCalendar.ObserveMoves | backend/src/services/validation/stock_market_validation_service.py:84-87 | Saturday moves back one day, Sunday forward one day |
| TradingCalendar.NthWeekdayFrom | backend/src/services/validation/stock_market_validation_service.py:105-125 | the n-th given weekday on or after a day, as the floating holiday rules use it |
| TradingCalendar.LastWeekdayUpTo | backend/src/services/validation/stock_market_validation_service.py:111 | the last given weekday on or before a day (Memorial Day) |
| TradingCalendar.EasterMonthDay | backend/src/services/validation/stock_market_validation_service.py:109 | Western Easter falls between March 22 and April 26 |
| TradingCalendar.HolidayCases | backend/src/services/validation/stock_market_validation_service.py:100-128 | every market holiday is one of the ten rules, inside that rule's window of the civil calendar |
| TradingCalendar.NoColumbusOrVeteransHoliday | backend/src/services/validation/stock_market_validation_service.py:90-99 | Columbus Day (October) and Veterans Day (November 11) are never market holidays |
| TradingCalendar.NoJuneteenthBefore2022 | backend/src/services/validation/stock_market_validation_service.py:113-120 | no June day before 2022 is a holiday |
| TradingCalendar.ExpectedCandleCount | backend/src/services/validation/stock_market_validation_service.py:323-339 | 0 exactly on non-trading days, 210 exactly on half days, 390 exactly on other trading days |
| TradingCalendar.OfficialHalfDaysTrade | backend/src/services/validation/stock_market_validation_service.py:247-277 | on the official calendar an early close is a trading day expecting 210 candles |
| TradingCalendar.FixedHolidayCloses | backend/src/services/validation/stock_market_validation_service.py:100-128 | a fixed-date holiday closes the market on its observed day, and a weekend holiday closes the adjacent Friday or Monday |
| TradingCalendar.ObservedDayCloses | backend/src/services/validation/stock_market_validation_service.py:205-228 | the observed day of a fixed-date holiday is not a trading day |
| TradingCalendar.BlackFridayNotHoliday | backend/src/services/validation/stock_market_validation_service.py:285-298 | the computed day after Thanksgiving is a Friday and not a holiday |
| TradingCalendar.BlackFridayIsHalfDay | backend/src/services/validation/stock_market_validation_service.py:285-298 | the day after Thanksgiving is a trading half day expecting 210 candles |
| TradingCalendar.ChristmasEveHalfDay | backend/src/services/validation/stock_market_validation_service.py:300-307 | December 24 on Monday–Thursday is a trading half day |
| TradingCalendar.ChristmasEveFridayCloses | backend/src/services/validation/stock_market_validation_service.py:300-307 | December 24 on a Friday is the observed Christmas holiday: no trading, no half day |
| TradingCalendar.July3HalfDay | backend/src/services/validation/stock_market_validation_service.py:309-319 | July 3 on Monday–Thursday is a trading half day |
| TradingCalendar.July3FridayCloses | backend/src/services/validation/stock_market_validation_service.py:309-319 | July 3 on a Friday is the observed Independence Day: no trading |
| TradingCalendar.ColumbusAndVeteransDaysTrade | backend/src/services/validation/stock_market_validation_service.py:90-99 | the second Monday of October and a weekday November 11 are trading days |
| CalendarExamples.Easter2025 | backend/src/tests/services/validation/test_stock_market_validation_service.py:363-378 | Easter 2025 is April 20 |
| CalendarExamples.FullDayExample | backend/src/tests/services/validation/test_stock_market_validation_service.py:124-130 | Wednesday 2025-01-15 expects 390 candles |
| CalendarExamples.WeekendExample | backend/src/tests/services/validation/test_stock_market_validation_service.py:132-138 | Saturday 2025-01-18 expects none |
| CalendarExamples.FixedHolidayExamples | backend/src/tests/services/validation/test_stock_market_validation_service.py:112-122 | 2025-01-01 and 2025-07-04 are not trading days |
| CalendarExamples.HalfDayExample | backend/src/tests/services/validation/test_stock_market_validation_service.py:140-148 | 2025-11-28 expects 210 candles |
| CalendarExamples.GoodFridayExample | backend/src/tests/services/validation/test_stock_market_validation_service.py:363-378 | Good Friday 2025-04-18 is a market holiday |
| CalendarExamples.Juneteenth2022Example | backend/src/tests/services/validation/test_stock_market_validation_service.py:412-432 | Juneteenth 2022 (a Sunday) is observed Monday 2022-06-20 |
| CalendarExamples.Juneteenth2023Example | backend/src/tests/services/validation/test_stock_market_validation_service.py:412-432 | 2023-06-19 is a market holiday |
| CalendarExamples.Juneteenth2021Example | backend/src/tests/services/validation/test_stock_market_validation_service.py:412-432 | 2021-06-19 is not a market holiday |
| CalendarExamples.ColumbusVeteransExamples | backend/src/tests/services/validation/test_stock_market_validation_service.py:380-410 | 2025-10-13 and 2025-11-11 are not market holidays |
| MarketValidation.ScheduleOfMeaning | backend/src/services/validation/stock_market_validation_service.py:323-339 | the expected candle count of a day is positive exactly on trading days, 210 exactly on half trading days and 390 exactly on full ones |
| MarketValidation.ScheduleOfIsCalendarSchedule | backend/src/services/validation/stock_market_validation_service.py:323-339 | every count the calendar produces is 0, 210 or 390 |
| MarketValidation.SessionBoundsAgree | backend/src/services/validation/stock_market_validation_service.py:526-535 | the close used for finding gaps equals the close used for filtering, and a session lasts exactly its expected number of minutes |
| MarketValidation.MissingMinutesMeaning | backend/src/services/validation/stock_market_validation_service.py:542-559 | the sorted missing minutes are strictly increasing and are exactly the session minutes with no candle |
| MarketValidation.MissingPeriodsPartition | backend/src/services/validation/stock_market_validation_service.py:512-582 | missing periods are separated, lie inside the session, cover exactly the minutes with no candle, and with no candles are the whole session |
| MarketValidation.CollectActualMinutes | backend/src/services/validation/stock_market_validation_service.py:550-556 | the set built by the loop is the set of candle minutes |
| MarketValidation.MissingMinuteList | backend/src/services/validation/stock_market_validation_service.py:542-559 | the loop yields the missing-minute list |
| MarketValidation.FindMissingPeriods | backend/src/services/validation/stock_market_validation_service.py:512-582 | the grouping loop yields the missing periods specified above |
| MarketValidation.RegularHoursMeaning | backend/src/services/validation/stock_market_validation_service.py:584-630 | a candle is kept exactly when it is in the input and its time lies in the day's regular session |
| MarketValidation.RegularHoursAreSessionMinutes | backend/src/services/validation/stock_market_validation_service.py:605-627 | the regular-hours filter and the gap finder use the same session window |
| MarketValidation.FilterRegularMarketHours | backend/src/services/validation/stock_market_validation_service.py:584-630 | the filtering loop keeps exactly the regular-hours candles, in order |
| MarketValidation.CandleErrorsMeaning | backend/src/services/validation/stock_market_validation_service.py:484-508 | a candle yields no error exactly when its OHLC ordering holds, its prices are positive and its volume is non-negative; no warning exactly when its volume is non-zero |
| MarketValidation.IntegrityMeaning | backend/src/services/validation/stock_market_validation_service.py:469-510 | no integrity error exactly when every candle is well-formed |
| MarketValidation.IntegrityWarningsMeaning | backend/src/services/validation/stock_market_validation_service.py:469-510 | no integrity warning exactly when no candle has zero volume |
| MarketValidation.CheckCandle | backend/src/services/validation/stock_market_validation_service.py:484-508 | the per-candle checks emit the specified errors and warnings |
| MarketValidation.ValidateDataIntegrity | backend/src/services/validation/stock_market_validation_service.py:469-510 | the loop accumulates the errors and warnings of every candle in order |
| MarketValidation.DayValidationMeaning | backend/src/services/validation/stock_market_validation_service.py:341-467 | the result names the symbol and day, expects the scheduled count, is valid iff it has no error; a non-trading day is valid with the single warning; a failed load is invalid with its error; a trading day with no candle is invalid |
| MarketValidation.ValidDayIsComplete | backend/src/services/validation/stock_market_validation_service.py:341-467 | a valid trading day loaded, holds at least the expected candles, all well-formed, no missing period, and with the hours check every session minute present |
| MarketValidation.MissingPeriodErrors | backend/src/services/validation/stock_market_validation_service.py:391-394 | one "Missing data" error per missing period, in order |
| MarketValidation.ValidateLoadedDay | backend/src/services/validation/stock_market_validation_service.py:366-457 | the body after loading computes the specified day result |
| MarketValidation.FinishDay | backend/src/services/validation/stock_market_validation_service.py:396-457 | no candle: invalid with a "No data found" error appended; otherwise the count error, then the integrity errors and warnings, valid iff no error |
| MarketValidation.ValidateTradingDayData | backend/src/services/validation/stock_market_validation_service.py:341-467 | the method returns the specified day result |
| MarketValidation.TradingDayResultsInMeaning | backend/src/services/validation/stock_market_validation_service.py:632-655 | the range holds one result per trading day of the range, in increasing date order, each the day's validation |
| MarketValidation.TradingDayResultsInMembers | backend/src/services/validation/stock_market_validation_service.py:646-653 | every collected result is a trading day of the range, and dates increase |
| MarketValidation.TradingDayResultsInCover | backend/src/services/validation/stock_market_validation_service.py:646-653 | every trading day of the range is collected |
| MarketValidation.RangeValidationMeaning | backend/src/services/validation/stock_market_validation_service.py:632-655 | the range validation visits exactly the trading days between the bounds, in order, each validated as a single day |
| MarketValidation.ValidateSymbolDataRange | backend/src/services/validation/stock_market_validation_service.py:632-655 | the inclusive-end loop returns the range validation |
| MarketValidation.PercentageMeaning | backend/src/services/validation/stock_market_validation_service.py:747-754 | a day's completeness reaches 100 exactly when it has at least the expected candles, and is never negative |
| MarketValidation.MinMaxRealMeaning | backend/src/services/validation/stock_market_validation_service.py:757-765 | the worst and best completeness are members of the list bounding all of it |
| MarketValidation.SummaryCounts | backend/src/services/validation/stock_market_validation_service.py:933-1010 | full and half days add up to the trading days, valid and gap counts are bounded, and an all-valid complete range has no gaps and no missing candle |
| MarketValidation.RangeSummary | backend/src/services/validation/stock_market_validation_service.py:695-789 | over a validated range, full and half days make up all results, invalid days are the rest, and all valid means no gaps |
| MarketValidation.RangeOfTradingDays | backend/src/services/validation/stock_market_validation_service.py:632-655 | a validated range holds only full or half trading days |
| MarketValidation.RangeAllValidComplete | backend/src/services/validation/stock_market_validation_service.py:695-789 | when every day of a range is valid, every day is complete |
| MarketValidation.ValidResultIsComplete | backend/src/services/validation/stock_market_validation_service.py:341-467 | a valid trading-day result has at least the expected candles and no missing period |
| MarketValidation.AllValidWhenCounted | backend/src/services/validation/stock_market_validation_service.py:717 | counting every result as valid means each result is valid |
| MarketValidation.DailyCompletenessAt | backend/src/services/validation/stock_market_validation_service.py:747-754 | each daily completeness is the day's actual over expected candles times 100, or 100 when nothing is expected |
| MarketValidation.SumsCompare | backend/src/services/validation/stock_market_validation_service.py:721-743 | days with at least the expected candles add up to at least the expected total and count no gaps |
| MarketValidation.CompleteDaysScoreFull | backend/src/services/validation/stock_market_validation_service.py:695-789 | complete days give no missing candle, no gap day, a completeness of at least 100 and a worst day of at least 100 |
| MarketValidation.WorstAndBestDays | backend/src/services/validation/stock_market_validation_service.py:757-765 | every day's completeness lies between the worst and the best |
| MarketValidation.NewValidatorDay | backend/src/services/validation/stock_market_validation_service.py:173-203 | a validator built from the calendar expects the calendar's count, treats closed days as valid, and gives one Polygon URL per missing period |
| MarketValidation.ValidateMultipleSymbols | backend/src/services/validation/stock_market_validation_service.py:657-693 | one result per requested symbol, each that symbol's day validation |
| MarketValidation.GetDataCompletenessSummary | backend/src/services/validation/stock_market_validation_service.py:695-789 | one summary per requested symbol, each computed from its range validation |
| MarketValidation.SymbolsNeedingUpdateMeaning | backend/src/services/validation/stock_market_validation_service.py:808-823 | a symbol needs an update exactly when it was requested and its day is invalid or has no candle; on a closed day every symbol is listed |
| MarketValidation.SymbolsNeedingUpdateMembers | backend/src/services/validation/stock_market_validation_service.py:808-823 | membership in the list is exactly the update condition |
| MarketValidation.SymbolsNeedingUpdateClosedDay | backend/src/services/validation/stock_market_validation_service.py:808-823 | on a non-trading day the list is the input list |
| MarketValidation.PreviousTradingDayUnique | backend/src/services/validation/stock_market_validation_service.py:802-806 | the default target day is determined uniquely |
| MarketValidation.PreviousTradingDay | backend/src/services/validation/stock_market_validation_service.py:802-806 | the backward search returns the latest trading day before today |
| MarketValidation.FindSymbolsNeedingUpdate | backend/src/services/validation/stock_market_validation_service.py:791-823 | with a target day the list is that day's; without one it is the previous trading day's |
| Storage.GetFilePathMeaning | backend/src/services/storage/data_storage_service.py:48-58 | daily data maps to the symbol's single file; intraday data needs a date (its absence is the error) and maps to a file whose YYYY-MM-DD stem reads back as that date |
| Storage.CandlesOn | backend/src/services/storage/data_storage_service.py:150-156 | the candles grouped under a date are exactly the input candles of that date |
| Storage.FirstDates | backend/src/services/storage/data_storage_service.py:150-156 | the grouping's dates are distinct and are exactly the dates of the input candles |
| Storage.StoreEmptyUnchanged | backend/src/services/storage/data_storage_service.py:105-109 | storing a series without candles leaves every file as it was |
| Storage.StoreFrame | backend/src/services/storage/data_storage_service.py:103-189 | a store changes no file other than the ones the series touches |
| Storage.TouchedKeys | backend/src/services/storage/data_storage_service.py:111-183 | a daily series touches the symbol's daily file; an intraday series touches one file per date it has candles on |
| Storage.StoreWrites | backend/src/services/storage/data_storage_service.py:121-133 | a touched file ends up strictly time-ordered, holding the union of the old and new timestamps, and nothing but old or new candles |
| Storage.IncomingOfDate | backend/src/services/storage/data_storage_service.py:158-165 | the candles written to a date's file are exactly the series' candles of that date |
| Storage.StoreKeepsValid | backend/src/services/storage/data_storage_service.py:103-189 | storing well-formed candles keeps every file well-formed and time-ordered |
| Storage.RowsInRange | backend/src/services/storage/data_storage_service.py:217-225 | the date filter keeps exactly the rows whose date lies within the optional bounds |
| Storage.LoadOutcome | backend/src/services/storage/data_storage_service.py:191-272 | a load fails only for an unknown timeframe or an empty symbol; otherwise it names the requested symbol and timeframe and returns well-formed candles |
| Storage.OneDateLoad | backend/src/services/storage/data_storage_service.py:274-401 | loading one intraday date without paging returns that date's file in the requested order |
| Storage.SortedRowsMembers | backend/src/services/storage/data_storage_service.py:378-401 | the concatenated files hold exactly the rows of the listed dates' files |
| Storage.FileRowsValid | backend/src/services/storage/data_storage_service.py:103-189 | a stored file is time-ordered and holds only candles of its own date |
| Storage.OrderedMonotone | backend/src/services/storage/data_storage_service.py:229-231 | sorting a file's rows by the requested order yields that order |
| Storage.SortedRowsDays | backend/src/services/storage/data_storage_service.py:274-376 | every loaded row belongs to one of the selected dates |
| Storage.SortedRowsMonotone | backend/src/services/storage/data_storage_service.py:322-376 | concatenating date-ordered files, each sorted, yields rows in the requested order |
| Storage.FileOrderMeaning | backend/src/services/storage/data_storage_service.py:287-306 | the selected file dates, newest first for descending and oldest first for ascending |
| Storage.WindowMonotone | backend/src/services/storage/data_storage_service.py:329-376 | a page of ordered rows is ordered |
| Storage.SelectedRowsMembers | backend/src/services/storage/data_storage_service.py:287-306 | the rows of the selected files are exactly the stored rows whose date lies within the bounds |
| Storage.PagedLoadIsWindow | backend/src/services/storage/data_storage_service.py:311-376 | the early-stopping paged load returns exactly the offset/limit window of the full ordered result, limit defaulting to 1000 |
| Storage.RowCountIsLength | backend/src/services/storage/data_storage_service.py:439-459 | the summed per-file counts equal the number of rows the files hold |
| Storage.TotalCountIsFullLoad | backend/src/services/storage/data_storage_service.py:403-464 | the total count is the length of the unpaged load over the same range |
| Storage.RowsInRangeIncreasing | backend/src/services/storage/data_storage_service.py:217-225 | filtering ordered rows keeps them ordered |
| Storage.DailyLoadMeaning | backend/src/services/storage/data_storage_service.py:205-245 | a daily load returns ordered rows from the daily file within the bounds; without a limit it returns all of them and ignores the offset; with one it returns at most that many |
| Storage.MatchingDates | backend/src/services/storage/data_storage_service.py:483-497 | the intraday files of a symbol and timeframe are exactly the files of its stored dates |
| Storage.LatestFileLatest | backend/src/services/storage/data_storage_service.py:492-503 | the file with the latest date stem holds the latest candle of all the symbol's files |
| Storage.LatestFileAttains | backend/src/services/storage/data_storage_service.py:492-503 | the latest file is non-empty and its maximum is one of its candles |
| Storage.DailyLastUpdate | backend/src/services/storage/data_storage_service.py:470-481 | for daily data the last update is the latest candle of the daily file, or none |
| Storage.IntradayLastUpdate | backend/src/services/storage/data_storage_service.py:483-503 | for intraday data the last update is the latest candle over all date files, or none |
| Storage.LastUpdateMeaning | backend/src/services/storage/data_storage_service.py:466-514 | there is no last update exactly when no file matches; otherwise it is a stored candle time bounding every stored candle |
| Storage.DataStorage.constructor | backend/src/services/storage/data_storage_service.py:37-42 | a new store holds no file |
| Storage.DataStorage.StoreData | backend/src/services/storage/data_storage_service.py:103-189 | the files after a store are the specified merge of the old files with the series |
| Storage.DataStorage.LoadData | backend/src/services/storage/data_storage_service.py:191-272 | the load returns the specified result for the current files |
| Storage.DataStorage.LoadIntradayRows | backend/src/services/storage/data_storage_service.py:274-376 | the intraday dispatch returns the specified rows |
| Storage.DataStorage.LoadAllFiles | backend/src/services/storage/data_storage_service.py:378-401 | the loop concatenates the listed dates' files |
| Storage.DataStorage.LoadPage | backend/src/services/storage/data_storage_service.py:311-376 | the skipping, early-stopping loop returns the window of the ordered rows |
| Storage.DataStorage.PageFile | backend/src/services/storage/data_storage_service.py:322-369 | one iteration extends the loaded prefix by one file and keeps the skip count and the page in step with it |
| Storage.DataStorage.GetTotalCount | backend/src/services/storage/data_storage_service.py:403-464 | the count returned is the specified total |
| Storage.DataStorage.WriteFile | backend/src/services/storage/data_storage_service.py:121-133 | writing one file merges the incoming candles into it and changes no other file |
| Storage.DataStorage.WriteDates | backend/src/services/storage/data_storage_service.py:158-183 | writing every date's group overwrites exactly those dates' files with their merges |
| Storage.GroupByDate | backend/src/services/storage/data_storage_service.py:150-156 | the grouping loop builds, for each date in first-seen order, the candles of that date |
| Resampling.SessionOffsetsOnUtcGrid | backend/src/services/storage/data_resampling_service.py:499-514 | the session offsets used for 5, 15 and 30 minute bars put every bucket on the same boundaries as UTC alignment |
| Resampling.AlignmentIsUtcExceptUsEquityDays | backend/src/services/storage/data_resampling_service.py:499-539 | every target bucket is UTC-aligned except US-equity daily bars |
| Resampling.UsEquityDaysStartAtClose | backend/src/services/storage/data_resampling_service.py:515-531 | US-equity daily buckets start at 20:00 UTC of the previous day; other assets' start at midnight |
| Resampling.SessionOpenStartsBucket | backend/src/services/storage/data_resampling_service.py:499-509 | an asset's session open starts a bucket of every session-aligned target |
| Resampling.ProviderOffsetMeaning | backend/src/services/storage/data_resampling_service.py:586-621 | without UTC alignment the provider path uses the session-aware offsets; with it every bucket is UTC-aligned except asset-specific US-equity days, which start at the close |
| Resampling.UsEquitySessionBucket | backend/src/services/storage/data_resampling_service.py:518-526 | a US-equity regular-session minute falls in the daily bucket that starts at 20:00 UTC of the previous day |
| Resampling.StampAsWrittenMisdatesSessions | backend/src/services/storage/data_resampling_service.py:686-699 | with the stamping as written, that session's daily bar is dated the previous day at 20:00 UTC |
| Resampling.StampAsWrittenExample | backend/src/services/storage/data_resampling_service.py:686-699 | the session minute 14:30 UTC on 2024-01-02 yields a daily bar stamped 2024-01-01 20:00 UTC |
| Resampling.StampDatesSessions | backend/src/services/storage/data_resampling_service.py:686-699 | with the intended stamp, the daily bar of a day's session (any minute of the day for other assets) is stamped 20:00 UTC of that day |
| Resampling.StampIncreasing | backend/src/services/storage/data_resampling_service.py:681-707 | distinct bucket starts on the grid keep their order once stamped |
| Resampling.FoldIsColumnReductions | backend/src/services/storage/data_resampling_service.py:487-547 | the bucket fold's high, low and volume are the max, min and sum of the group's columns |
| Resampling.ResamplingRulesAreTheFold | backend/src/core/timeframe_utils.py:130-143 | the aggregation table has exactly the five OHLCV columns, and each rule (first, max, min, last, sum) applied to its column gives that field of the bucket's folded candle |
| Resampling.EmitMeaning | backend/src/services/storage/data_resampling_service.py:671-730 | conversion keeps exactly the well-formed rows, relabelled, in order; with no malformed row it keeps them all; daily bars carry the corrected 20:00 UTC stamp of the Findings, not the program's |
| Resampling.DataframeToCandles | backend/src/services/storage/data_resampling_service.py:671-730 | the conversion loop skips invalid rows and stamps the others; daily bars carry the corrected 20:00 UTC stamp of the Findings, not the program's |
| Resampling.ResampleFrame | backend/src/services/storage/data_resampling_service.py:509-547 | the frame resampling returns the specified bars; daily bars carry the corrected 20:00 UTC stamp of the Findings, not the program's |
| Resampling.ResampleRowsAreStampedFold | backend/src/services/storage/data_resampling_service.py:509-547 | resampled bars are the bucket aggregates of the time-sorted source, stamped, one per non-empty bucket; daily bars carry the corrected 20:00 UTC stamp of the Findings, not the program's |
| Resampling.FoldOnGrid | backend/src/services/storage/data_resampling_service.py:509-547 | every aggregated bucket starts on the offset grid |
| Resampling.ResampleRowsMeaning | backend/src/services/storage/data_resampling_service.py:461-553 | resampling yields no bar exactly when the source is empty, and its bars are well-formed and strictly increasing in time |
| Resampling.ResampleRowsContents | backend/src/services/storage/data_resampling_service.py:509-547 | each bar is open of the bucket's first candle, close of its last, high and low its extremes and volume its sum; daily bars carry the corrected 20:00 UTC stamp of the Findings, not the program's |
| Resampling.ResampleRowsCover | backend/src/services/storage/data_resampling_service.py:509-547 | every source candle is represented by the bar stamped for its bucket; daily bars carry the corrected 20:00 UTC stamp of the Findings, not the program's |
| Resampling.TimeframeEnum | backend/src/services/storage/data_resampling_service.py:641-669 | the timeframe lookup succeeds exactly for the eight known timeframes and returns the one named |
| Resampling.ResampleLoaded | backend/src/services/storage/data_resampling_service.py:164-208 | the provider-aligned method body computes the specified result from the load; daily bars carry the corrected 20:00 UTC stamp of the Findings, not the program's |
| Resampling.ResampleNonEmpty | backend/src/services/storage/data_resampling_service.py:180-202 | a non-empty source is resampled with the provider's alignment; daily bars carry the corrected 20:00 UTC stamp of the Findings, not the program's |
| Resampling.ResampleOutcome | backend/src/services/storage/data_resampling_service.py:56-135 | resampling succeeds exactly for a valid conversion and a non-empty symbol, naming the symbol and the target timeframe |
| Resampling.ResampleErrors | backend/src/services/storage/data_resampling_service.py:80-135 | an invalid conversion fails with its own message, and every failure carries the symbol, source and target |
| Resampling.ResampleSpecRows | backend/src/services/storage/data_resampling_service.py:90-130 | the bars are the resampled source candles of the requested range with the asset's alignment; daily bars carry the corrected 20:00 UTC stamp of the Findings, not the program's |
| Resampling.ResampleSeriesMeaning | backend/src/services/storage/data_resampling_service.py:56-135 | a successful series has no bar exactly when no source candle is stored, and its bars are well-formed and ordered |
| Resampling.ResampleSeriesContents | backend/src/services/storage/data_resampling_service.py:105-130 | a successful series' bars aggregate the sorted source candles bucket by bucket; daily bars carry the corrected 20:00 UTC stamp of the Findings, not the program's |
| Resampling.ResampleSeriesCover | backend/src/services/storage/data_resampling_service.py:105-130 | every stored source candle in range is represented in the result; daily bars carry the corrected 20:00 UTC stamp of the Findings, not the program's |
| Resampling.ProviderOutcome | backend/src/services/storage/data_resampling_service.py:137-208 | the provider path succeeds exactly for known timeframes and a non-empty symbol, without the longer-period check |
| Resampling.ProviderErrors | backend/src/services/storage/data_resampling_service.py:204-208 | every provider-path failure carries the symbol, source and target |
| Resampling.ProviderFallsBack | backend/src/services/storage/data_resampling_service.py:611-625 | without UTC alignment, a valid conversion gives the same result as the plain path |
| Resampling.ProviderSeriesMeaning | backend/src/services/storage/data_resampling_service.py:137-208 | a successful provider-aligned series is empty exactly when the source is, and is well-formed and ordered |
| Resampling.ResampleAndStoreMeaning | backend/src/services/storage/data_resampling_service.py:732-782 | resample-and-store keeps the files valid, succeeds exactly when resampling does, counts zero exactly for an empty source, and writes nothing on failure or zero |
| Resampling.BulkStepMeaning | backend/src/services/storage/data_resampling_service.py:803-820 | one bulk step records the symbol, keeps the keys distinct and the files valid |
| Resampling.BulkStepInvalid | backend/src/services/storage/data_resampling_service.py:814-820 | a failed step records 0 for the symbol and writes nothing |
| Resampling.BulkMeaning | backend/src/services/storage/data_resampling_service.py:784-822 | bulk results have exactly the requested symbols as keys, once each, and the files stay valid |
| Resampling.BulkInvalidConversion | backend/src/services/storage/data_resampling_service.py:784-822 | with an invalid conversion every symbol counts 0 and the files are unchanged |
| Resampling.DataResamplingService.constructor | backend/src/services/storage/data_resampling_service.py:51-54 | a new service has empty storage and the default classifier |
| Resampling.DataResamplingService.ResampleData | backend/src/services/storage/data_resampling_service.py:56-135 | the method returns the specified resampling with the symbol's classified asset type; daily bars carry the corrected 20:00 UTC stamp of the Findings, not the program's |
| Resampling.DataResamplingService.ResampleDataWithProviderAlignment | backend/src/services/storage/data_resampling_service.py:137-208 | the method returns the specified provider-aligned resampling; daily bars carry the corrected 20:00 UTC stamp of the Findings, not the program's |
| Resampling.DataResamplingService.ResampleAndStore | backend/src/services/storage/data_resampling_service.py:732-782 | count and new files are the specified resample-and-store; daily bars carry the corrected 20:00 UTC stamp of the Findings, not the program's |
| Resampling.DataResamplingService.BulkResample | backend/src/services/storage/data_resampling_service.py:784-822 | results and new files are the specified sequential fold over the symbols; daily bars carry the corrected 20:00 UTC stamp of the Findings, not the program's |
| ResamplingWorkflow.StandardOrderByMinutes | backend/src/services/workflows/stock_market_resampling_workflow.py:81-90 | the standard order lists the targets from shortest to longest period |
| ResamplingWorkflow.InOrderMembers | backend/src/services/workflows/stock_market_resampling_workflow.py:104-118 | the ordered targets are exactly the standard timeframes that were asked for |
| ResamplingWorkflow.InOrderSorted | backend/src/services/workflows/stock_market_resampling_workflow.py:104-118 | filtering an ordered list keeps it ordered |
| ResamplingWorkflow.TargetTimeframesMeaning | backend/src/services/workflows/stock_market_resampling_workflow.py:92-118 | target timeframes come out shortest first, without repeats, exactly the requested standard ones, never "1min" |
| ResamplingWorkflow.ResamplingWorkflowResult.SuccessfulTimeframes | backend/src/services/workflows/stock_market_resampling_workflow.py:48-56 | a timeframe is listed exactly when it was a target and created a positive count |
| ResamplingWorkflow.ResamplingWorkflowResult.FailedTimeframes | backend/src/services/workflows/stock_market_resampling_workflow.py:58-60 | a timeframe is listed exactly when it was a target and recorded an error |
| ResamplingWorkflow.ResampleStepApply | backend/src/services/workflows/stock_market_resampling_workflow.py:160-166 | each workflow step is the resample-and-store of one target |
| ResamplingWorkflow.StoppedRunStays | backend/src/services/workflows/stock_market_resampling_workflow.py:181-199 | once the workflow breaks on an error, later targets change nothing |
| ResamplingWorkflow.WorkflowKeys | backend/src/services/workflows/stock_market_resampling_workflow.py:150-200 | results and errors are filed under the targets, and without stop-on-error every target is filed |
| ResamplingWorkflow.WorkflowStops | backend/src/services/workflows/stock_market_resampling_workflow.py:181-199 | with stop-on-error the run stops exactly when an error was recorded, at a definite target |
| ResamplingWorkflow.WorkflowReport | backend/src/services/workflows/stock_market_resampling_workflow.py:201-214 | the workflow succeeds exactly when no error was recorded and reports the targets, results and errors of the run |
| ResamplingWorkflow.MultiStoppedStays | backend/src/services/workflows/stock_market_resampling_workflow.py:262-284 | once the multi-symbol loop breaks, later symbols change nothing |
| ResamplingWorkflow.MultiRunKeys | backend/src/services/workflows/stock_market_resampling_workflow.py:216-300 | results are filed once per processed symbol, each for the shared targets |
| ResamplingWorkflow.FileResult | backend/src/services/workflows/stock_market_resampling_workflow.py:250-260 | filing a symbol's result keeps the keys distinct and adds exactly that symbol |
| ResamplingWorkflow.MultiRunStops | backend/src/services/workflows/stock_market_resampling_workflow.py:262-266 | with stop-on-symbol-error the loop stops exactly when some symbol failed |
| ResamplingWorkflow.CountSuccessful | backend/src/services/workflows/stock_market_resampling_workflow.py:287-290 | successful symbols never outnumber the results |
| ResamplingWorkflow.AddCountsSum | backend/src/services/workflows/stock_market_resampling_workflow.py:332-338 | merging per-timeframe counts adds their totals |
| ResamplingWorkflow.TimeframeTotalsSum | backend/src/services/workflows/stock_market_resampling_workflow.py:328-338 | the timeframe summary has distinct keys and sums to the total candles created |
| ResamplingWorkflow.AddCountsAt | backend/src/services/workflows/stock_market_resampling_workflow.py:334-338 | adding one result's counts raises each timeframe's entry by exactly the count that result files under it |
| ResamplingWorkflow.AddCountsKeys | backend/src/services/workflows/stock_market_resampling_workflow.py:334-338 | after adding one result's counts, the timeframes present are those present before and those the result names |
| ResamplingWorkflow.TimeframeTotalsAt | backend/src/services/workflows/stock_market_resampling_workflow.py:333-338 | each timeframe's entry of the timeframe summary is the sum of that timeframe's counts over all results, and the summary names exactly the timeframes some result names |
| ResamplingWorkflow.SummaryMeaning | backend/src/services/workflows/stock_market_resampling_workflow.py:302-355 | the summary counts every symbol, successes and failures add up, each timeframe's entry is the sum of that timeframe's counts over all results (with exactly the timeframes the results name), the timeframe summary sums to the total, and empty results give the all-zero summary |
| ResamplingWorkflow.DailyFallback | backend/src/services/workflows/stock_market_resampling_workflow.py:398-401 | the failure fallback maps every symbol to 0 |
| ResamplingWorkflow.StockMarketResamplingWorkflow.constructor | backend/src/services/workflows/stock_market_resampling_workflow.py:75-90 | a new workflow has the configured targets and the standard order |
| ResamplingWorkflow.StockMarketResamplingWorkflow.GetTargetTimeframes | backend/src/services/workflows/stock_market_resampling_workflow.py:92-118 | the custom list, or the configured one, filtered in standard order |
| ResamplingWorkflow.StockMarketResamplingWorkflow.ResampleSymbolCompleteWorkflow | backend/src/services/workflows/stock_market_resampling_workflow.py:120-214 | the result and new files are the specified workflow run over the targets, with the symbol's asset type; daily bars carry the corrected 20:00 UTC stamp of the Findings, not the program's |
| ResamplingWorkflow.StockMarketResamplingWorkflow.ResampleMultipleSymbols | backend/src/services/workflows/stock_market_resampling_workflow.py:216-300 | results are filed once per processed symbol, only requested symbols, and all of them unless stopped by a failure |
| ResamplingWorkflow.StockMarketResamplingWorkflow.SymbolWorkflow | backend/src/services/workflows/stock_market_resampling_workflow.py:250-260 | a symbol's result names it and its targets and succeeds exactly when it has no error |
| ResamplingWorkflow.StockMarketResamplingWorkflow.ResampleTarget | backend/src/services/workflows/stock_market_resampling_workflow.py:160-166 | one target's count and new files are its resample-and-store; daily bars carry the corrected 20:00 UTC stamp of the Findings, not the program's |
| ResamplingWorkflow.StockMarketResamplingWorkflow.GetWorkflowSummary | backend/src/services/workflows/stock_market_resampling_workflow.py:302-355 | the summary computed by the loops is the specified one |
| ResamplingWorkflow.StockMarketResamplingWorkflow.ResampleDailyBackground | backend/src/services/workflows/stock_market_resampling_workflow.py:357-401 | background daily resampling is the bulk 1min-to-daily resampling; daily bars carry the corrected 20:00 UTC stamp of the Findings, not the program's |
| ResamplingWorkflow.AddAllCounts | backend/src/services/workflows/stock_market_resampling_workflow.py:332-338 | the loop adds each timeframe's count into the summary |
| ResamplingWorkflow.AddAllErrors | backend/src/services/workflows/stock_market_resampling_workflow.py:340-346 | the loop appends each "symbol: error" line under its timeframe |
| GapFilling.FetchRows | backend/src/services/gap_filling_service.py:168-258 | the aggregates reply is used directly, or, on the trades path, only when the trades probe found trades; a failed probe is the error and no trades mean no rows |
| GapFilling.ToCandlesMeaning | backend/src/services/gap_filling_service.py:260-300 | conversion succeeds exactly when every complete row gives a valid candle, and then yields exactly those candles, all well-formed |
| GapFilling.InPeriod | backend/src/services/gap_filling_service.py:302-334 | the filter keeps exactly the candles from the start to the end inclusive |
| GapFilling.CheckTradingActivity | backend/src/services/gap_filling_service.py:76-116 | activity is reported exactly when the probe succeeded with trades; a failed probe gives the "Error checking trades" message |
| GapFilling.GapReportMeaning | backend/src/services/gap_filling_service.py:141-471 | a gap report is attempted, carries the period and the aggregates URL, succeeds exactly when candles were recovered (then with their count and no trades URL); an empty recovery is a vendor failure whose message depends on trading activity; an error carries its message with unknown activity |
| GapFilling.Absent | backend/src/services/gap_filling_service.py:392-396 | the candles added are exactly the recovered ones whose time is not already stored |
| GapFilling.MergeRecoveredMeaning | backend/src/services/gap_filling_service.py:387-399 | the merged day is time-sorted, keeps every stored candle, adds only absent new times, and covers both sets of times |
| GapFilling.DateLoadValid | backend/src/services/gap_filling_service.py:379-385 | loading one day of stored minutes succeeds and returns that day's file |
| GapFilling.MergedOnDate | backend/src/services/gap_filling_service.py:369-399 | merging one day's candles stays on that day |
| GapFilling.MergedSeries | backend/src/services/gap_filling_service.py:377-408 | the merged day forms a valid series whose store is the day's merge, with the union of times |
| GapFilling.DateMergeTimes | backend/src/services/gap_filling_service.py:377-408 | after a day's merge its file holds the stored and the recovered times |
| GapFilling.DateMergeFrame | backend/src/services/gap_filling_service.py:377-408 | a day's merge leaves every other file unchanged |
| GapFilling.DateMergeKeepsValid | backend/src/services/gap_filling_service.py:377-408 | a day's merge keeps the files valid |
| GapFilling.StoreDatesKeepsValid | backend/src/services/gap_filling_service.py:376-413 | storing day after day keeps the files valid |
| GapFilling.DateMergeGrows | backend/src/services/gap_filling_service.py:377-408 | a day's merge loses no stored time |
| GapFilling.StoreDatesMeaning | backend/src/services/gap_filling_service.py:376-413 | storing the listed days loses no stored time and files every recovered candle of those days |
| GapFilling.StoreRecoveredMeaning | backend/src/services/gap_filling_service.py:362-413 | storing recovered candles keeps the files valid, loses nothing, and makes every recovered time stored in its day's file |
| GapFilling.Attempted | backend/src/services/gap_filling_service.py:59-63 | the periods attempted are the prefix given by Python's slice with the attempt limit, negative limits counting from the end |
| GapFilling.CountPermutation | backend/src/services/gap_filling_service.py:505-512 | the window count does not depend on the order of the candles |
| GapFilling.CountLoadedDay | backend/src/services/gap_filling_service.py:496-512 | counting over a day's load counts that day's stored candles in the window |
| GapFilling.CountDaysNext | backend/src/services/gap_filling_service.py:492-517 | the day-by-day count adds one day's count at each step |
| GapFilling.GapFillingService.constructor | backend/src/services/gap_filling_service.py:35-40 | the service uses the given storage and settings |
| GapFilling.GapFillingService.FillGapsForPeriods | backend/src/services/gap_filling_service.py:42-74 | one report per attempted period, in order, each the single-gap report, and the files are the sequential fills |
| GapFilling.GapFillingService.FillSingleGap | backend/src/services/gap_filling_service.py:141-471 | the report and new files are the specified single-gap fill |
| GapFilling.GapFillingService.StoreRecoveredCandles | backend/src/services/gap_filling_service.py:362-413 | the files after storing are the specified per-day merges |
| GapFilling.GapFillingService.MergeDate | backend/src/services/gap_filling_service.py:377-408 | the files after one day's merge are the specified merge |
| GapFilling.GapFillingService.CountDay | backend/src/services/gap_filling_service.py:496-512 | the count for one day is the specified day count |
| GapFilling.GapFillingService.CountRecoveredCandles | backend/src/services/gap_filling_service.py:473-523 | the count is the number of stored candles in the window, over its dates |
| GapFilling.GapFillingService.CountFrom | backend/src/services/gap_filling_service.py:492-517 | the loop over dates adds the day counts |
| GapFilling.ConvertRows | backend/src/services/gap_filling_service.py:260-300 | the conversion loop yields the specified candles or the first validation error |
| GapFilling.FilterPeriod | backend/src/services/gap_filling_service.py:302-334 | the filter loop keeps the candles in the period |
| GapFilling.AddAbsent | backend/src/services/gap_filling_service.py:392-396 | the loop appends the recovered candles whose time is new |
| GapFilling.CountWindow | backend/src/services/gap_filling_service.py:505-512 | the loop counts the candles in the window |
| PolygonUrls.AggregatesQueryMeaning | backend/src/services/polygon_url_generator.py:74-110 | the aggregates query names the symbol and key, and its inclusive millisecond bounds (the end less one minute) admit exactly the minute bars of the period |
| PolygonUrls.TradesQueryMeaning | backend/src/services/polygon_url_generator.py:128-170 | the trades query's inclusive nanosecond bounds admit exactly the instants of the period, and the limit is capped at 50000 |
| PolygonUrls.QueryForPeriodMeaning | backend/src/services/polygon_url_generator.py:44-72 | the trades endpoint is chosen exactly when the settings ask for it, with the 50000 default limit |
| PolygonUrls.UrlPerPeriod | backend/src/services/polygon_url_generator.py:23-42 | the loop yields one URL per period, in order |
| PolygonUrls.UrlsForMissingPeriods | backend/src/services/polygon_url_generator.py:23-42 | one URL per missing period, each the period's URL under the settings |
| PolygonUrls.TradesUrlsForMissingPeriods | backend/src/services/polygon_url_generator.py:172-190 | one trades URL per missing period, in order |
| PolygonClient.PolygonTimeframe | backend/src/services/data_providers/polygon_client.py:251-276 | exactly the nine listed timeframes map to a multiplier and timespan; any other fails with "Unsupported timeframe" |
| PolygonClient.PolygonTimeframeAgrees | backend/src/services/data_providers/polygon_client.py:251-276 | every known timeframe's multiplier times its timespan is that timeframe's length in minutes |
| PolygonClient.CandlesPerDay | backend/src/services/data_providers/polygon_client.py:288-301 | every timeframe is estimated at least one candle per day, 390 when unknown |
| PolygonClient.BatchSize | backend/src/services/data_providers/polygon_client.py:278-319 | a batch is at least one day and at most its cap, either the cap or the 45000-candle quotient |
| PolygonClient.BatchSizeMeaning | backend/src/services/data_providers/polygon_client.py:303-319 | a batch never exceeds 45000 estimated candles, and is the largest such unless capped at 60, 90 or 365 days |
| PolygonClient.BatchSizeTable | backend/src/services/data_providers/polygon_client.py:278-319 | batch sizes of 60 days for 1min, 90 for 5 and 15 minutes, 365 for 30min, 1h and daily, and 115 for an unknown timeframe |
| PolygonClient.BatchesIndex | backend/src/services/data_providers/polygon_client.py:502-532 | the batch list has the planned count, each batch at its index |
| PolygonClient.CeilBounds | backend/src/services/data_providers/polygon_client.py:496 | the number of batches is the ceiling of range days over batch size |
| PolygonClient.PlanStep | backend/src/services/data_providers/polygon_client.py:502-532 | batch b starts b batch lengths after the start, ends at the earlier of its last day and the end date, and the next begins the day after |
| PolygonClient.PlanLast | backend/src/services/data_providers/polygon_client.py:502-532 | the last batch ends on the end date |
| PolygonClient.PlanNonEmpty | backend/src/services/data_providers/polygon_client.py:502-532 | no batch starts after the end date |
| PolygonClient.PlanMeaning | backend/src/services/data_providers/polygon_client.py:467-536 | the plan starts on the start date and ends on the end date, each batch non-empty and at most the batch size, consecutive batches adjacent, and large ranges split into the ceiling count |
| PolygonClient.PlanPartition | backend/src/services/data_providers/polygon_client.py:467-536 | every day of the range lies in exactly one batch |
| PolygonClient.RetryMeaning | backend/src/services/data_providers/polygon_client.py:342-362 | retries follow only retryable errors, with delays of 1, 2, 4, … seconds, up to the retry limit, and the outcome is the first success, non-retryable error or final attempt |
| PolygonClient.AuthenticationNotRetried | backend/src/services/data_providers/polygon_client.py:344-350 | an authentication error ends the batch at once without a retry |
| PolygonClient.FetchBatchWithRetry | backend/src/services/data_providers/polygon_client.py:321-362 | the retry loop returns the specified outcome and delays |
| PolygonClient.SplitMembers | backend/src/services/data_providers/polygon_client.py:133-135 | failed batches are exactly the batches that did not succeed, successful ones exactly the others |
| PolygonClient.SplitCounts | backend/src/services/data_providers/polygon_client.py:124-135 | successful and failed batches add up to all batches |
| PolygonClient.FetchResult.constructor | backend/src/services/data_providers/polygon_client.py:115-122 | a new result has its symbol, timeframe and candles and no batch |
| PolygonClient.FetchResult.AddBatch | backend/src/services/data_providers/polygon_client.py:124-131 | adding a batch appends it and bumps the total and exactly one of the success and failure counters |
| PolygonClient.FetchResultMeaning | backend/src/services/data_providers/polygon_client.py:124-145 | total batches equal successful plus failed; there are failures exactly when some batch failed; missing ranges are exactly the failed batches' ranges, one each |
| PolygonClient.Records | backend/src/services/data_providers/polygon_client.py:502-532 | one batch record per planned range |
| PolygonClient.RecordsMeaning | backend/src/services/data_providers/polygon_client.py:502-532 | records keep the planned ranges in order, each successful exactly when its fetch succeeded |
| PolygonClient.Track | backend/src/services/data_providers/polygon_client.py:485-493 | tracking one outcome appends its record and keeps the invariant |
| PolygonClient.FetchHistoricalDataWithTracking | backend/src/services/data_providers/polygon_client.py:435-554 | batches are the records of the planned ranges (the range defaulting to yesterday through today) and the candles are all fetched candles sorted by date |
| PolygonClient.FetchPlanned | backend/src/services/data_providers/polygon_client.py:478-532 | the batch loop records every planned range and gathers the successful candles in order |
| PolygonClient.FetchBatch | backend/src/services/data_providers/polygon_client.py:513-530 | one iteration records one batch and appends its candles if it succeeded |
| PolygonClient.KeepSuccessful | backend/src/services/data_providers/polygon_client.py:616-619 | the successful batches are copied over in order |
| PolygonClient.RetryEach | backend/src/services/data_providers/polygon_client.py:621-667 | each failed range is retried once, recorded, and its candles appended |
| PolygonClient.RetryFailedBatches | backend/src/services/data_providers/polygon_client.py:592-678 | with no failure the input comes back unchanged; otherwise a new result keeps the successful batches, then one retry record per failed range, with all candles sorted by date |
| PolygonClient.RetryCounts | backend/src/services/data_providers/polygon_client.py:592-678 | a retry keeps the number of batches and every success, and never adds failures |
| PolygonClient.NoneFailed | backend/src/services/data_providers/polygon_client.py:133-135 | the successful batches contain no failure |
| PolygonClient.TradesLimit | backend/src/services/data_providers/polygon_client.py:747 | the trades limit is the requested one capped at 50000 |
| PolygonClient.FetchTrades | backend/src/services/data_providers/polygon_client.py:706-783 | a failed request becomes "Failed to fetch trades data"; otherwise one formatted trade per returned trade, in order |
| NightlyProgress.QueuedAllMeaning | backend/src/services/progress/nightly_update_progress_service.py:26-35 | a new table has one entry per requested symbol, once each, every one pending at 0% and queued |
| NightlyProgress.AfterUpdateMeaning | backend/src/services/progress/nightly_update_progress_service.py:37-60 | an update changes only the named symbol of a known request, setting status, percentage and step, keeping the other symbols and requests; an unknown request or symbol changes nothing |
| NightlyProgress.ReplayMeaning | backend/src/services/progress/nightly_update_progress_service.py:37-60 | after a run of updates a symbol keeps its first download time, takes its last finish time and last non-empty error, and shows the last status and step |
| NightlyProgress.CountFinished | backend/src/services/progress/nightly_update_progress_service.py:73-75 | completed symbols never outnumber the symbols |
| NightlyProgress.StepTextMeaning | backend/src/services/progress/nightly_update_progress_service.py:95-103 | the step reads "All symbols completed" exactly when every symbol is completed or failed |
| NightlyProgress.CountsBounded | backend/src/services/progress/nightly_update_progress_service.py:73-92 | completed plus in-progress symbols never exceed the total |
| NightlyProgress.InFlightMembers | backend/src/services/progress/nightly_update_progress_service.py:88-92 | a symbol is in progress exactly when its status is neither pending, completed nor failed |
| NightlyProgress.QueuedIdle | backend/src/services/progress/nightly_update_progress_service.py:26-35 | a freshly queued table has nothing completed and nothing in progress |
| NightlyProgress.QueuedAllValid | backend/src/services/progress/nightly_update_progress_service.py:26-35 | a freshly queued table is well-formed |
| NightlyProgress.UpdatedValid | backend/src/services/progress/nightly_update_progress_service.py:47-60 | updating a tracked symbol keeps the table well-formed |
| NightlyProgress.ProgressService.constructor | backend/src/services/progress/nightly_update_progress_service.py:20-24 | a new service tracks no request |
| NightlyProgress.ProgressService.InitializeProgressTracking | backend/src/services/progress/nightly_update_progress_service.py:26-35 | the request's table is replaced by the queued table and nothing else changes |
| NightlyProgress.ProgressService.UpdateSymbolProgress | backend/src/services/progress/nightly_update_progress_service.py:37-60 | the tables become the specified update and active updates stay |
| NightlyProgress.ProgressService.StoreActiveUpdate | backend/src/services/progress/nightly_update_progress_service.py:132-136 | the request's active update is set and nothing else changes |
| NightlyProgress.ProgressService.RemoveActiveUpdate | backend/src/services/progress/nightly_update_progress_service.py:142-145 | the request's active update is removed, if present, and nothing else changes |
| NightlyProgress.ProgressService.GetAllActiveUpdates | backend/src/services/progress/nightly_update_progress_service.py:147-149 | a copy of the active updates |
| NightlyProgress.ProgressService.CleanupProgressTracking | backend/src/services/progress/nightly_update_progress_service.py:151-156 | the request's table is removed and nothing else changes |
| NightlyProgress.OverallProgressMeaning | backend/src/services/progress/nightly_update_progress_service.py:62-122 | an unknown request reports zero symbols and "Unknown"; otherwise the totals count the table, the in-progress list is exactly the in-flight symbols, the current symbol is the first of them, and the step reads completed exactly when all are |
| NightlyProgress.InitialProgress | backend/src/services/progress/nightly_update_progress_service.py:26-35 | right after initialisation nothing is complete or in progress, and the step is "Starting processing" unless no symbol was requested |
| NightlyUpdate.SuccessfulStatusesMeaning | backend/src/services/workflows/stock_market_nightly_update_service.py:68-73 | the statuses counted are exactly the successful ones, and all of them when every status succeeded |
| NightlyUpdate.SuccessfulRecordsMeaning | backend/src/services/workflows/stock_market_nightly_update_service.py:68-73 | a symbol's updated candles are the records of its successful statuses only |
| NightlyUpdate.GetDefaultSymbols | backend/src/services/workflows/stock_market_nightly_update_service.py:105-115 | the default symbols are the large caps in their order followed by the mid caps, and nothing else |
| NightlyUpdate.SkipForwardMeaning | backend/src/services/workflows/stock_market_nightly_update_service.py:157-161 | moving the start forward stops on the first trading day of the range, or one past the end when there is none, skipping only non-trading days |
| NightlyUpdate.SkipBackwardMeaning | backend/src/services/workflows/stock_market_nightly_update_service.py:162-166 | moving the end backward stops on the last trading day at or after the start, or one before the start when there is none, skipping only non-trading days |
| NightlyUpdate.TrimMeaning | backend/src/services/workflows/stock_market_nightly_update_service.py:157-166 | the trimmed range lies inside the original, starts and ends on trading days, keeps every trading day of the original, and is empty only when the original held no trading day |
| NightlyUpdate.DefaultRangeMeaning | backend/src/services/workflows/stock_market_nightly_update_service.py:134-155 | without a custom start the range starts on the day of the last update, or thirty days ago when there is none; without a custom end it ends yesterday |
| NightlyUpdate.GetUpdateDateRange | backend/src/services/workflows/stock_market_nightly_update_service.py:117-168 | the computed range is the custom or default start and end, trimmed to trading days |
| NightlyUpdate.SymbolUpdateMeaning | backend/src/services/workflows/stock_market_nightly_update_service.py:170-290 | an empty range succeeds with "No updates needed" and no download; otherwise the download's statuses are kept, success means the download succeeded, a failure carries a message starting "1-minute data update failed: " and no resampling, and resampling happens only when enabled and records were written |
| NightlyUpdate.ReportsMeaning | backend/src/services/workflows/stock_market_nightly_update_service.py:404-557 | with a callback the symbol is reported validating first, downloading third only when the range is non-empty, resampling only before the end, with strictly rising percentages ending at 100 in completed exactly when the update succeeded, else failed; without a callback nothing is reported |
| NightlyUpdate.Events | backend/src/services/workflows/stock_market_nightly_update_service.py:627-641 | every report becomes one progress update carrying the same status, percentage, step and error |
| NightlyUpdate.FirstDownloadAt | backend/src/services/progress/nightly_update_progress_service.py:57-58 | the start time recorded is that of the first downloading report |
| NightlyUpdate.NoDownload | backend/src/services/progress/nightly_update_progress_service.py:57-58 | a symbol never reported downloading has no start time |
| NightlyUpdate.ReplayPercentage | backend/src/services/progress/nightly_update_progress_service.py:51-54 | after a run of updates the percentage shown is that of the last one |
| NightlyUpdate.LastFinishOfLast | backend/src/services/progress/nightly_update_progress_service.py:59-60 | a run ending in completed or failed records that report's time as the completion time |
| NightlyUpdate.ReportedProgress | backend/src/services/workflows/stock_market_nightly_update_service.py:404-557 | after its reports a queued symbol shows 100% in completed or failed, failed exactly when the update failed, with a completion time, and a start time exactly when something was downloaded |
| NightlyUpdate.ReportedEvents | backend/src/services/workflows/stock_market_nightly_update_service.py:404-557 | any report sequence of that shape leaves the tracked symbol finished at 100%, failed exactly when the result failed, started exactly when the range was non-empty |
| NightlyUpdate.ResultsMeaning | backend/src/services/workflows/stock_market_nightly_update_service.py:559-574 | the results hold one entry per requested symbol, each being that symbol's own update result |
| NightlyUpdate.CollectResults | backend/src/services/workflows/stock_market_nightly_update_service.py:564-572 | collecting the per-symbol results builds exactly that table |
| NightlyUpdate.UpdateMultipleSymbols | backend/src/services/workflows/stock_market_nightly_update_service.py:292-359 | the results are those of updating every requested symbol, or the default symbols when none are given, with validation and resampling on and no progress reports |
| NightlyUpdate.ReportedMeaning | backend/src/services/progress/nightly_update_progress_service.py:37-60 | reporting one symbol's updates changes only that symbol of that request, keeps the table valid and its keys, and leaves the symbol as the replay of its updates |
| NightlyUpdate.ReportedAllMeaning | backend/src/services/workflows/stock_market_nightly_update_service.py:559-561 | reporting every symbol's run changes only the symbols of that request that were run, each to the replay of its own reports |
| NightlyUpdate.ReportRun | backend/src/services/workflows/stock_market_nightly_update_service.py:627-641 | passing a symbol's reports to the progress service updates its tracking accordingly and touches no active update |
| NightlyUpdate.RunAll | backend/src/services/workflows/stock_market_nightly_update_service.py:559-574 | running all symbols yields their results table and the tracking of all their reports |
| NightlyUpdate.UpdateMultipleSymbolsWithProgress | backend/src/services/workflows/stock_market_nightly_update_service.py:361-594 | results are those of every requested or default symbol, and the tracking records their reports only when a request id is given |
| NightlyUpdate.SilentRuns | backend/src/services/workflows/stock_market_nightly_update_service.py:414 | runs made without a request id leave the progress tracking unchanged |
| NightlyUpdate.CountSuccessful | backend/src/services/workflows/stock_market_nightly_update_service.py:703-704 | the successful updates never outnumber the symbols |
| NightlyUpdate.EarliestLatestMeaning | backend/src/services/workflows/stock_market_nightly_update_service.py:716-721 | the earliest start and latest end are absent exactly when there are no results, and are otherwise attained by some symbol and bound every symbol's range |
| NightlyUpdate.ResamplingTotalsSum | backend/src/services/workflows/stock_market_nightly_update_service.py:706-714 | the per-timeframe resampling summary has each timeframe once and adds up to the total resampled candles |
| NightlyUpdate.CountWithInvalidDaysBound | backend/src/services/workflows/stock_market_nightly_update_service.py:724-728 | symbols with validation errors never outnumber the symbols |
| NightlyUpdate.ResamplingTotalsAt | backend/src/services/workflows/stock_market_nightly_update_service.py:708-714 | each timeframe's entry of the resampling summary is the sum of that timeframe's counts over all symbols, and the summary names exactly the timeframes some symbol's resampling names |
| NightlyUpdate.SummaryMeaning | backend/src/services/workflows/stock_market_nightly_update_service.py:702-746 | the summary counts every symbol as successful or failed, bounds all ranges by the earliest and latest dates, holds under each timeframe the sum of that timeframe's resampled counts over all symbols (with exactly the timeframes they name), and its resampling summary adds up to the resampled total |
| NightlyUpdate.ResamplingSummary | backend/src/services/workflows/stock_market_nightly_update_service.py:708-714 | accumulating the per-timeframe counts builds the resampling totals |
| NightlyUpdate.ExecuteNightlyUpdate | backend/src/services/workflows/stock_market_nightly_update_service.py:596-766 | the background run updates and reports every requested or default symbol, returns their summary and processed symbols stamped with the run's start and end times, is overall successful exactly when nothing failed, and removes the request from the active updates |
| NightlyUpdate.BuildResponse | backend/src/services/workflows/stock_market_nightly_update_service.py:734-760 | the response carries the request id, requested symbols, times, the summary of the results, their symbols, the concurrency used, and overall success exactly when no update failed |
| Orders.FieldErrors | backend/src/models/orders.py:25-52 | an order has no field error exactly when every price given is positive and a limit order has an entry price |
| Orders.BracketError | backend/src/models/orders.py:60-85 | the cross-field check passes exactly when the stop and target sit on the correct sides of the entry price for the order's side; it can fail only when an entry price is given |
| Orders.NewOrder | backend/src/models/orders.py:14-85 | an order is accepted exactly when it is valid, unchanged; a rejected order always carries at least one error |
| Orders.LimitNeedsEntryPrice | backend/src/models/orders.py:42-43 | a limit order without an entry price is rejected for that reason |
| Orders.BuyStopAtOrAboveEntry | backend/src/models/orders.py:62-66 | a buy with a stop at or above its entry is rejected with just the buy stop-loss error |
| Orders.SellStopAtOrBelowEntry | backend/src/models/orders.py:74-78 | a sell with a stop at or below its entry is rejected with just the sell stop-loss error |
| Orders.MarketWithoutEntryUnbracketed | backend/src/models/orders.py:61 | a market order without an entry price is accepted whenever its stop and target are positive, wherever they lie |
| Orders.SidesExclusive | backend/src/models/orders.py:60-85 | no bracket with an entry price and a stop or target is valid for both a buy and a sell |
| Orders.FirstOutsideWindow | backend/src/models/orders.py:138-143 | the first order found outside the window is the earliest one whose entry time is before the start or after the end; none is found exactly when all lie inside |
| Orders.NewSimulationRequest | backend/src/models/orders.py:88-145 | a request is accepted exactly when its symbol is 1 to 20 alphanumeric characters, the end is after the start, and there is at least one order, all inside the window; the accepted request carries the upper-cased symbol and satisfies the request invariant; a rejection carries an error |
| Orders.UpperKeepsAlnum | backend/src/models/orders.py:114-116 | upper-casing an alphanumeric symbol keeps it alphanumeric and leaves no lower-case letter |
| Orders.RequestIgnoresSymbolCase | backend/src/models/orders.py:110-116 | a symbol's lower-case spelling is accepted exactly when the symbol is and produces the same request |
| Orders.WindowEndsInclusive | backend/src/models/orders.py:139 | an order placed exactly at the start or the end of the window is inside it |
| TradingDataApi.TotalPagesMeaning | backend/src/api/trading_data.py:90-92 | the page count is the least number of pages of the given size that holds every item, and zero exactly when there are no items |
| TradingDataApi.PageFlagsMeaning | backend/src/api/trading_data.py:93-114 | a page's offset falls inside the data exactly when the page is within the page count; there is a next page exactly when items remain beyond it and a previous page exactly when its offset is positive; the pagination block is valid exactly when the page size is at most 10000 |
| TradingDataApi.PagesCover | backend/src/api/trading_data.py:90-114 | for any page count that covers the items tightly, the offset, next and previous conditions agree with the page number |
| TradingDataApi.GetTradingDataMeaning | backend/src/api/trading_data.py:29-130 | a page below 1 or a page size outside 1..10000 is refused with 422; otherwise an unparsable start date, then end date, is answered 500 naming it, and else the page is loaded for the upper-cased symbol and the timeframe, by default 1min |
| TradingDataApi.LoadMeaning | backend/src/api/trading_data.py:80-124 | a load succeeds exactly when the storage read does, else 500; on success the response carries the stored candles of the page at offset (page-1)*size, the total count of the filtered data, the page count for it, and next and previous flags by page position |
| TradingDataApi.ReadIgnoresCase | backend/src/api/trading_data.py:82 | requesting a symbol in lower case returns the same response as in its own case |
| TradingDataApi.AtMostTotal | backend/src/api/trading_data.py:149 | any two symbol names are comparable |
| TradingDataApi.AtMostAntisymmetric | backend/src/api/trading_data.py:149 | two names each at most the other are equal |
| TradingDataApi.AtMostTransitive | backend/src/api/trading_data.py:149 | the name order is transitive |
| TradingDataApi.SortedCons | backend/src/api/trading_data.py:149 | a name followed by a sorted list is sorted exactly when the name is at most every entry |
| TradingDataApi.InsertBound | backend/src/api/trading_data.py:149 | inserting a name no smaller than a bound keeps the bound |
| TradingDataApi.InsertSorted | backend/src/api/trading_data.py:149 | inserting a name into a sorted list keeps it sorted |
| TradingDataApi.InsertMultiset | backend/src/api/trading_data.py:149 | inserting adds exactly that name |
| TradingDataApi.SortedMeaning | backend/src/api/trading_data.py:149 | sorting yields a sorted permutation of the names |
| TradingDataApi.FirstIsLeast | backend/src/api/trading_data.py:149 | the first name of a sorted list is at most every name in it |
| TradingDataApi.SortedUnique | backend/src/api/trading_data.py:149 | two sorted lists with the same names are the same list |
| TradingDataApi.SameTails | backend/src/api/trading_data.py:149 | two sorted lists with the same names and first name agree in the rest |
| TradingDataApi.ListStoredSymbolsMeaning | backend/src/api/trading_data.py:133-149 | the listing returned is sorted and holds exactly the stored symbols of the timeframe, by default 1min |
| TradingDataApi.ListingOrderIrrelevant | backend/src/api/trading_data.py:148-149 | the returned listing does not depend on the order in which storage lists the symbols |

## Left out

- ResamplingWorkflow.StockMarketResamplingWorkflow.ResampleMultipleSymbols: its ensures states only how the results are filed. Results are keyed by requested symbols and hold each symbol once; every symbol is processed unless the run stops on a failed symbol. The exact per-symbol outcome is stated by `MultiRunSpec` and its lemmas instead. Unfolding the per-timeframe store chain inside the method is too costly for the verifier.
- The calendar tracks only the rule start years that matter after 1986: MLK Day from 1986 and Juneteenth from 2022. The other start years of pandas' rule set are not modelled.
- The official exchange calendar (`pandas_market_calendars`) is an oracle that gives each day's close hour. The fall-through to the fallback rules when that library raises is not modelled.
- Easter is computed inside the model with the western algorithm that `dateutil` uses; pandas' holiday engine itself is not modelled.
- Completeness percentages are exact rationals (`real`). Their rounding to two decimals, the average daily completeness, and the float thresholds over them are not modelled, because the source computes them in floating point.
- Progress averages, percentage-complete figures and the time-remaining estimate of the progress service are floating-point and clock arithmetic; they are left out.
- Durations (`update_duration_seconds`) and `datetime.now()` are parameters; wall-clock time is not modelled.
- The `isoformat` text of timestamps in gap-fill results and batch records is not modelled; times stay integers. Sub-second precision is dropped: every time is whole seconds.
- The `float` to `Decimal` conversion of vendor prices is not modelled: vendor prices arrive as integers in the smallest unit.
- Concurrency is not modelled. `asyncio.gather` and the semaphore that bounds concurrent symbols become a sequential loop over the symbols in request order. `max_concurrent` only appears in the response.
- The model stamps every progress report of every symbol with one clock value, the run's end time. So all start and completion times of a nightly run coincide.
- The progress callback is passed only by `execute_nightly_update`. The model reports progress exactly when a request id is given, and otherwise runs silently.
- The completed-updates store of the nightly API and the in-place aliasing of the progress dictionary returned by `get_symbol_progress` are not modelled.
- The conversion of nightly results into API models (`SymbolUpdateResult`, `ValidationResultModel`, the per-symbol validation summary) is left out. Only the aggregate summary is modelled.
- Exception paths around the orchestration are not modelled. This covers the `except` branches of `update_symbol_data`, the per-symbol progress pipeline, `execute_nightly_update` (marking the active update failed), `resample_daily_background`, `find_symbols_needing_update` and the multi-symbol validation. Every collaborator returns a value or an explicit error instead of raising.
- PriceData.CandleErrorMessage: the error texts are the model's own. pydantic reports a failed `PriceCandle` as `str(ValidationError)`, which lists every failing field in its own wording ("1 validation error for PriceCandle", "Input should be greater than 0", "Value error, ..."). That text is what reaches `GapFillResult.error_message` (backend/src/services/gap_filling_service.py:458-470).
- PriceData.NewCandle: reports only the first check that fails, while pydantic collects every field error of the candle.
- PriceData.NewPaginationInfo: reports only the first constraint that fails, in a text of the model's own, while pydantic lists every failing field.
- PriceData.NewSeries: the rejection text is the model's own, not pydantic's validation report.
- PriceData.NewDataUpdateStatus: the rejection text is the model's own, not pydantic's validation report.
- Orders.OrderErrorMessage: the error texts are the model's own, not pydantic's `str(ValidationError)`. A non-positive stop loss or take profit is rejected with a per-field text, where the program says "Price levels must be positive" for both.
- Orders.RequestErrorMessage: the texts are the model's own; the program's out-of-window message also names the order's entry time and the window, which the model leaves out.
- Orders.NewSimulationRequest: takes its orders as `Order` values and does not validate them again. In the program, `list[Order]` holds only orders that `Order`'s own validators (`Orders.NewOrder`) accepted.
- ResamplingWorkflow.DailyFallback: is the `except` branch of the background daily resample (backend/src/services/workflows/stock_market_resampling_workflow.py:398-401). The model's bulk resample never raises, so `ResampleDailyBackground` never takes that branch.
- The storage writer never fails in the model: Parquet read and write errors are not modelled. `get_total_count` therefore never takes its exception path, which would answer 0.
- Storing concatenates the stored and the incoming rows, sorts them by time and keeps the last row of each timestamp (backend/src/services/storage/data_storage_service.py:81, 129-131, 169-173). The sorted frame holds duplicate timestamps exactly when a store overlaps stored data. pandas' default sort is not stable, so the program does not fix which of two rows with the same timestamp survives. The model's sort is stable, so on a duplicate timestamp it always keeps the incoming candle (`CandleSeqs.MergeKeepLast`, `Storage.StoreWrites`).
- Vendor HTTP requests, JSON parsing, `_make_request`, `_make_trades_request` and `_fetch_batch` are not modelled. Vendor responses are parameters, and the trade-existence probe is a parameter as well.
- Rate limiting on the event-loop clock is left out.
- The `attempted_at` time of a batch record is left out, as are the vendor's millisecond trade timestamps, which the probe converts.
- The else branch of `_fill_single_gap` at backend/src/services/gap_filling_service.py:431-456 is not modelled. It cannot be reached, because an empty recovery already returns at line 338.
- A failure to build the vendor URL for a gap is not modelled; URL building is total in the model.
- The daily-only resampling family of the resampling service is not modelled: `resample_to_daily`, `_resample_to_daily_df`, `resample_and_store_daily`, `bulk_resample_to_daily`, `update_daily_from_recent_data` and `get_resampling_candidates` (backend/src/services/storage/data_resampling_service.py:210-460). It lies outside the core's entry points. `_resample_dataframe` and the provider-aligned path cover daily bars.
- `fetch_historical_data`, `fetch_latest_data` and `get_resampling_metadata` of the Polygon client are not modelled: they wrap the tracked fetch modelled here. The provider metadata reaches the resampler as a parameter.
- The non-Polygon vendor clients, the provider factory and the abstract provider interface are not part of this model.
- `analyze_completeness_with_gap_filling` is not modelled: it is an async loop over the validator and gap filler, which are both modelled.
- `Text.Upper` and `Text.Lower` change ASCII letters only. Python's `str.upper`, `str.lower` and `str.isalnum` also act on other Unicode letters.
- Date parsing (`datetime.fromisoformat`) is a parameter of the trading-data endpoint. The 422 answer for a query parameter out of range is modelled as the framework's check, without its message body.
- The directory listing behind `list_stored_symbols` is a parameter. Its order is immaterial because the endpoint sorts it.
- `has_progress_tracking`, `get_active_update` and `get_symbol_progress` are plain map lookups and carry no contract of their own.
- Logging, settings loading and the application wiring are not part of this model.
- The resampling pipeline uses the corrected daily stamp of the Findings (`Resampling.Stamp`: 20:00 UTC on the session's own date). The program as written (backend/src/services/storage/data_resampling_service.py:686-701) dates a US-equity daily bar on the previous day. That behaviour is modelled only by `Resampling.StampAsWritten` and the two lemmas that exhibit it. The members below therefore do not promise the program's daily timestamps for US equities. Their promises for every other asset and timeframe are the program's.
- Resampling.EmitMeaning: relabels daily bars with the corrected stamp `Resampling.Stamp`, so a US-equity daily bar is dated one day later than the program dates it.
- Resampling.DataframeToCandles: stamps daily bars with the corrected `Resampling.Stamp`, so a US-equity daily bar is dated one day later than the program dates it.
- Resampling.ResampleFrame: specifies bars whose daily stamp is the corrected one, so a US-equity daily bar is dated one day later than the program dates it.
- Resampling.ResampleRowsAreStampedFold: states the fold stamped with the corrected `Resampling.Stamp`, so a US-equity daily bar is dated one day later than the program dates it.
- Resampling.ResampleRowsContents: states bar times under the corrected daily stamp, so a US-equity daily bar is dated one day later than the program dates it.
- Resampling.ResampleRowsCover: states coverage under the corrected daily stamp, so a US-equity daily bar is dated one day later than the program dates it.
- Resampling.ResampleLoaded: computes the provider-aligned result with the corrected daily stamp, so a US-equity daily bar is dated one day later than the program dates it.
- Resampling.ResampleNonEmpty: resamples with the corrected daily stamp, so a US-equity daily bar is dated one day later than the program dates it.
- Resampling.ResampleSpecRows: ties the bars to the resampled rows under the corrected daily stamp, so a US-equity daily bar is dated one day later than the program dates it.
- Resampling.ResampleSeriesContents: ties the series to the buckets under the corrected daily stamp, so a US-equity daily bar is dated one day later than the program dates it.
- Resampling.ResampleSeriesCover: states coverage under the corrected daily stamp, so a US-equity daily bar is dated one day later than the program dates it.
- Resampling.DataResamplingService.ResampleData: returns bars whose daily stamp is the corrected one, so a US-equity daily bar is dated one day later than the program dates it.
- Resampling.DataResamplingService.ResampleDataWithProviderAlignment: returns bars whose daily stamp is the corrected one, so a US-equity daily bar is dated one day later than the program dates it.
- Resampling.DataResamplingService.ResampleAndStore: files daily bars under the corrected date, so a US-equity daily bar is dated one day later than the program dates it.
- Resampling.DataResamplingService.BulkResample: writes daily bars with the corrected stamp, so a US-equity daily bar is dated one day later than the program dates it.
- ResamplingWorkflow.StockMarketResamplingWorkflow.ResampleSymbolCompleteWorkflow: stores daily bars with the corrected stamp, so a US-equity daily bar is dated one day later than the program dates it.
- ResamplingWorkflow.StockMarketResamplingWorkflow.ResampleTarget: stores daily bars with the corrected stamp, so a US-equity daily bar is dated one day later than the program dates it.
- ResamplingWorkflow.StockMarketResamplingWorkflow.ResampleDailyBackground: stores daily bars with the corrected stamp, so a US-equity daily bar is dated one day later than the program dates it.

## Findings

| source | as written | input that shows it | evidently intended | confidence | as-written member | corrected member |
|---|---|---|---|---|---|---|
| backend/src/services/storage/data_resampling_service.py:686-699 with :518-526 | US-equity daily bars are bucketed with offset 20h, so a session's bucket starts at 20:00 UTC the day before. The stamp keeps that bucket-start date at 20:00 UTC. | the session minute 14:30 UTC on 2024-01-02 yields a daily bar stamped 2024-01-01 20:00 UTC | the bar is stamped 20:00 UTC on the session's own date, the market close the comments describe | not executed | Resampling.StampAsWrittenMisdatesSessions, Resampling.StampAsWrittenExample | Resampling.StampDatesSessions |
