/** The US stock-market trading calendar: which days trade, which close
    early, and how many one-minute candles a day is expected to hold.

    Two calendars are possible.  The official exchange schedule is an
    outside library and is taken as an oracle giving each day's closing
    hour (UTC), or nothing on a closed day.  The fallback calendar is the
    rule set written out here: weekends, ten holiday rules with the
    exchange's weekend observance, and three early-close rules. */
module TradingCalendar {
  import opened Dates
  import opened Wrappers

  /** `date(y, m, dd)` as a day number. */
  function DateOf(y: int, m: int, dd: int): int
    requires 1 <= m <= 12
  {
    DaysFromCivil(Civil(y, m, dd))
  }

  /** The exchange's observance: a Saturday holiday is observed the Friday
      before, a Sunday holiday the Monday after. */
  function Observe(d: int): (o: int)
    ensures d - 1 <= o <= d + 1
    ensures Weekday(o) < 5
    ensures Weekday(d) < 5 ==> o == d
  {
    if Weekday(d) == Saturday then d - 1
    else if Weekday(d) == Sunday then d + 1
    else d
  }

  /** The `n`-th day with weekday `wd` on or after `s`
      (`DateOffset(weekday=XX(n))`). */
  function NthWeekdayFrom(s: int, wd: int, n: int): (r: int)
    requires 0 <= wd < 7 && n >= 1
    ensures Weekday(r) == wd
    ensures s + 7 * (n - 1) <= r <= s + 7 * (n - 1) + 6
  {
    s + (wd - Weekday(s)) % 7 + 7 * (n - 1)
  }

  /** The last day with weekday `wd` on or before `s` (`XX(-1)`). */
  function LastWeekdayUpTo(s: int, wd: int): (r: int)
    requires 0 <= wd < 7
    ensures Weekday(r) == wd
    ensures s - 6 <= r <= s
  {
    s - (Weekday(s) - wd) % 7
  }

  /** Western Easter Sunday of year `y` as (month, day), by the algorithm the
      holiday engine uses. */
  function EasterMonthDay(y: int): (md: (int, int))
    ensures md.0 == 3 ==> 22 <= md.1 <= 31
    ensures md.0 == 4 ==> 1 <= md.1 <= 26
    ensures md.0 == 3 || md.0 == 4
  {
    var g := y % 19;
    var c := y / 100;
    var h := (c - c / 4 - (8 * c + 13) / 25 + 19 * g + 15) % 30;
    var i := h - (h / 28) * (1 - (h / 28) * (29 / (h + 1)) * ((21 - g) / 11));
    assert 0 <= i <= 29 by {
      if h >= 28 {
        assert h / 28 == 1;
        assert 0 <= (21 - g) / 11 <= 1;
        assert 0 <= 29 / (h + 1) <= 1;
      } else {
        assert h / 28 == 0;
      }
    }
    var j := (y + y / 4 + i + 2 - c + c / 4) % 7;
    var p := i - j;
    EasterOffsetRange(p);
    (3 + (p + 26) / 30, 1 + (p + 27 + (p + 6) / 40) % 31)
  }

  /** Easter falls between March 22 and April 25/26 for every offset the
      algorithm can produce. */
  lemma EasterOffsetRange(p: int)
    requires -6 <= p <= 29
    ensures p < 4 ==> (p + 26) / 30 == 0 && 22 <= 1 + (p + 27 + (p + 6) / 40) % 31 <= 31
    ensures p >= 4 ==> (p + 26) / 30 == 1 && 1 <= 1 + (p + 27 + (p + 6) / 40) % 31 <= 26
  {
    assert (p + 6) / 40 == 0;
    if p < 4 {
      assert (p + 27) % 31 == p + 27;
    } else {
      assert (p + 27) % 31 == p - 4;
    }
  }

  function EasterSunday(y: int): int
  {
    var md := EasterMonthDay(y);
    DateOf(y, md.0, md.1)
  }

  /** Floating holidays of year `y`. */
  function MlkDate(y: int): int { NthWeekdayFrom(DateOf(y, 1, 1), Monday, 3) }
  function PresidentsDate(y: int): int { NthWeekdayFrom(DateOf(y, 2, 1), Monday, 3) }
  function GoodFridayDate(y: int): int { EasterSunday(y) - 2 }
  function MemorialDate(y: int): int { LastWeekdayUpTo(DateOf(y, 5, 31), Monday) }
  function LaborDate(y: int): int { NthWeekdayFrom(DateOf(y, 9, 1), Monday, 1) }
  function ThanksgivingDate(y: int): int { NthWeekdayFrom(DateOf(y, 11, 1), Thursday, 4) }

  /** A fixed-date holiday (m, dd), observed, falls on `d`: the rule is
      evaluated for the years around `d`, so a Saturday New Year's Day is
      observed on the last day of the previous year. */
  predicate ObservedOn(d: int, m: int, dd: int)
    requires 1 <= m <= 12
  {
    var y := CivilFromDays(d).year;
    Observe(DateOf(y - 1, m, dd)) == d || Observe(DateOf(y, m, dd)) == d || Observe(DateOf(y + 1, m, dd)) == d
  }

  /** The rules of the fallback calendar.  Columbus Day and Veterans Day are
      deliberately absent: the market trades on them. */
  datatype HolidayRule =
    | NewYearsDay | MlkDay | PresidentsDay | GoodFriday | MemorialDay
    | Juneteenth | IndependenceDay | LaborDay | Thanksgiving | Christmas

  /** Rule `r` puts a holiday on day `d`.  Martin Luther King Jr. Day counts
      from 1986 and Juneteenth from 2022. */
  predicate Matches(r: HolidayRule, d: int)
  {
    var y := CivilFromDays(d).year;
    match r
    case NewYearsDay => ObservedOn(d, 1, 1)
    case MlkDay => d >= DateOf(1986, 1, 1) && d == MlkDate(y)
    case PresidentsDay => d == PresidentsDate(y)
    case GoodFriday => d == GoodFridayDate(y)
    case MemorialDay => d == MemorialDate(y)
    case Juneteenth => d >= DateOf(2022, 1, 1) && ObservedOn(d, 6, 19)
    case IndependenceDay => ObservedOn(d, 7, 4)
    case LaborDay => d == LaborDate(y)
    case Thanksgiving => d == ThanksgivingDate(y)
    case Christmas => ObservedOn(d, 12, 25)
  }

  /** `_is_market_holiday` on the fallback calendar. */
  predicate IsMarketHoliday(d: int)
  {
    exists r: HolidayRule :: Matches(r, d)
  }

  /** Where in the year each rule can put its holiday. */
  predicate RuleWindow(r: HolidayRule, c: Civil)
  {
    match r
    case NewYearsDay => (c.month == 12 && c.day == 31) || (c.month == 1 && c.day <= 2)
    case MlkDay => c.month == 1 && 15 <= c.day <= 21
    case PresidentsDay => c.month == 2 && 15 <= c.day <= 21
    case GoodFriday => (c.month == 3 && 20 <= c.day) || (c.month == 4 && c.day <= 24)
    case MemorialDay => c.month == 5 && 25 <= c.day
    case Juneteenth => c.month == 6 && 18 <= c.day <= 20
    case IndependenceDay => c.month == 7 && 3 <= c.day <= 5
    case LaborDay => c.month == 9 && c.day <= 7
    case Thanksgiving => c.month == 11 && 22 <= c.day <= 28
    case Christmas => c.month == 12 && 24 <= c.day <= 26
  }

  /** The civil date of a valid (y, m, dd). */
  lemma CivilOfDate(d: int, y: int, m: int, dd: int)
    requires ValidCivil(Civil(y, m, dd)) && d == DateOf(y, m, dd)
    ensures CivilFromDays(d) == Civil(y, m, dd)
  {
    CivilFromDaysOfCivil(Civil(y, m, dd));
  }

  /** The day before January 1 is December 31 of the previous year. */
  lemma DayBeforeNewYear(y: int)
    ensures DateOf(y, 1, 1) - 1 == DateOf(y - 1, 12, 31)
  {
  }

  /** An observed fixed holiday lies within a day of its calendar date, in
      the same year for the three rules away from the year's end. */
  lemma ObservedCivil(d: int, y: int, m: int, dd: int)
    requires (m, dd) in {(1, 1), (6, 19), (7, 4), (12, 25)}
    requires d == Observe(DateOf(y, m, dd))
    ensures var c := CivilFromDays(d);
      if m == 1 then (c == Civil(y - 1, 12, 31) || c == Civil(y, 1, 1) || c == Civil(y, 1, 2))
      else c.year == y && c.month == m && dd - 1 <= c.day <= dd + 1
  {
    var k := d - DateOf(y, m, dd);
    DaysFromCivilShift(y, m, dd, k);
    if m == 1 && k == -1 {
      DayBeforeNewYear(y);
      CivilOfDate(d, y - 1, 12, 31);
    } else {
      CivilOfDate(d, y, m, dd + k);
    }
  }

  lemma FixedRuleWindow(d: int, m: int, dd: int)
    requires (m, dd) in {(1, 1), (6, 19), (7, 4), (12, 25)}
    requires ObservedOn(d, m, dd)
    ensures var c := CivilFromDays(d);
      if m == 1 then (c.month == 12 && c.day == 31) || (c.month == 1 && c.day <= 2)
      else c.month == m && dd - 1 <= c.day <= dd + 1 && Observe(DateOf(c.year, m, dd)) == d
  {
    var y := CivilFromDays(d).year;
    var from :| from in {y - 1, y, y + 1} && Observe(DateOf(from, m, dd)) == d;
    ObservedWindow(d, from, m, dd);
  }

  /** The window of a fixed holiday observed from year `y`'s date. */
  lemma ObservedWindow(d: int, y: int, m: int, dd: int)
    requires (m, dd) in {(1, 1), (6, 19), (7, 4), (12, 25)}
    requires d == Observe(DateOf(y, m, dd))
    ensures var c := CivilFromDays(d);
      if m == 1 then (c.month == 12 && c.day == 31) || (c.month == 1 && c.day <= 2)
      else c.month == m && dd - 1 <= c.day <= dd + 1 && Observe(DateOf(c.year, m, dd)) == d
  {
    ObservedCivil(d, y, m, dd);
  }

  /** Good Friday falls between March 20 and April 24. */
  lemma GoodFridayCivil(y: int)
    ensures RuleWindow(GoodFriday, CivilFromDays(GoodFridayDate(y)))
  {
    var md := EasterMonthDay(y);
    DaysFromCivilShift(y, md.0, md.1, -2);
    if md.0 == 4 && md.1 <= 2 {
      assert DateOf(y, 4, md.1 - 2) == DateOf(y, 3, md.1 + 29);
      CivilOfDate(GoodFridayDate(y), y, 3, md.1 + 29);
    } else {
      CivilOfDate(GoodFridayDate(y), y, md.0, md.1 - 2);
    }
  }

  lemma NthWeekdayCivil(y: int, m: int, first: int, last: int, r: int)
    requires 1 <= m <= 12 && 1 <= first <= last <= DaysInMonth(y, m)
    requires DateOf(y, m, first) <= r <= DateOf(y, m, last)
    ensures var c := CivilFromDays(r); c.year == y && c.month == m && first <= c.day <= last
  {
    var k := r - DateOf(y, m, first);
    DaysFromCivilShift(y, m, first, last - first);
    ShiftedCivil(y, m, first, k, r);
  }

  /** `k` days after day `first` of a month, still inside the month. */
  lemma ShiftedCivil(y: int, m: int, first: int, k: int, r: int)
    requires 1 <= m <= 12 && 1 <= first && 0 <= k && first + k <= DaysInMonth(y, m)
    requires r == DateOf(y, m, first) + k
    ensures CivilFromDays(r) == Civil(y, m, first + k)
  {
    DaysFromCivilShift(y, m, first, k);
    CivilOfDate(r, y, m, first + k);
  }

  lemma MlkWindow(y: int)
    ensures RuleWindow(MlkDay, CivilFromDays(MlkDate(y)))
  {
    DaysFromCivilShift(y, 1, 1, 14);
    NthWeekdayCivil(y, 1, 15, 21, MlkDate(y));
  }

  lemma PresidentsWindow(y: int)
    ensures RuleWindow(PresidentsDay, CivilFromDays(PresidentsDate(y)))
  {
    DaysFromCivilShift(y, 2, 1, 14);
    NthWeekdayCivil(y, 2, 15, 21, PresidentsDate(y));
  }

  lemma MemorialWindow(y: int)
    ensures RuleWindow(MemorialDay, CivilFromDays(MemorialDate(y)))
  {
    DaysFromCivilShift(y, 5, 25, 6);
    NthWeekdayCivil(y, 5, 25, 31, MemorialDate(y));
  }

  lemma LaborWindow(y: int)
    ensures RuleWindow(LaborDay, CivilFromDays(LaborDate(y)))
  {
    DaysFromCivilShift(y, 9, 1, 6);
    NthWeekdayCivil(y, 9, 1, 7, LaborDate(y));
  }

  lemma ThanksgivingWindow(y: int)
    ensures RuleWindow(Thanksgiving, CivilFromDays(ThanksgivingDate(y)))
  {
    DaysFromCivilShift(y, 11, 1, 21);
    DaysFromCivilShift(y, 11, 22, 6);
    NthWeekdayCivil(y, 11, 22, 28, ThanksgivingDate(y));
  }

  /** Every rule puts its holiday inside its window. */
  lemma RuleDateInWindow(r: HolidayRule, d: int)
    requires Matches(r, d)
    ensures RuleWindow(r, CivilFromDays(d))
  {
    var y := CivilFromDays(d).year;
    match r
    case NewYearsDay => FixedRuleWindow(d, 1, 1);
    case Juneteenth => FixedRuleWindow(d, 6, 19);
    case IndependenceDay => FixedRuleWindow(d, 7, 4);
    case Christmas => FixedRuleWindow(d, 12, 25);
    case MlkDay => MlkWindow(y);
    case PresidentsDay => PresidentsWindow(y);
    case GoodFriday => GoodFridayCivil(y);
    case MemorialDay => MemorialWindow(y);
    case LaborDay => LaborWindow(y);
    case Thanksgiving => ThanksgivingWindow(y);
  }

  /** Observance moves a holiday back only from a Saturday, onto a Friday. */
  lemma ObserveBack(x: int)
    ensures Observe(x) == x - 1 <==> Weekday(x) == Saturday
    ensures Weekday(x) == Saturday <==> Weekday(x - 1) == Friday
  {
    WeekdayAfter(x - 1, 1);
  }

  /** What a holiday on `d` can be, by its civil date: inside one rule's
      window, and for the rules that the early-close rules meet, the
      weekday or the observed date that puts it there. */
  lemma HolidayCases(d: int)
    requires IsMarketHoliday(d)
    ensures var c := CivilFromDays(d);
      RuleWindow(NewYearsDay, c) || RuleWindow(MlkDay, c) || RuleWindow(PresidentsDay, c)
      || RuleWindow(GoodFriday, c) || RuleWindow(MemorialDay, c) || (RuleWindow(Juneteenth, c) && d >= DateOf(2022, 1, 1))
      || (RuleWindow(IndependenceDay, c) && Observe(DateOf(c.year, 7, 4)) == d)
      || RuleWindow(LaborDay, c)
      || (RuleWindow(Thanksgiving, c) && Weekday(d) == Thursday)
      || (RuleWindow(Christmas, c) && Observe(DateOf(c.year, 12, 25)) == d)
  {
    var r :| Matches(r, d);
    RuleDateInWindow(r, d);
    match r
    case IndependenceDay => FixedRuleWindow(d, 7, 4);
    case Christmas => FixedRuleWindow(d, 12, 25);
    case _ =>
  }

  /** A holiday never falls in October, nor on November 11: Columbus Day and
      Veterans Day are trading days whenever they are weekdays. */
  lemma NoColumbusOrVeteransHoliday(d: int)
    requires CivilFromDays(d).month == 10 || (CivilFromDays(d).day == 11 && CivilFromDays(d).month == 11)
    ensures !IsMarketHoliday(d)
  {
    if IsMarketHoliday(d) {
      var r :| Matches(r, d);
      RuleDateInWindow(r, d);
    }
  }

  /** Juneteenth before 2022 is an ordinary day. */
  lemma NoJuneteenthBefore2022(d: int)
    requires CivilFromDays(d).month == 6 && d < DateOf(2022, 1, 1)
    ensures !IsMarketHoliday(d)
  {
    if IsMarketHoliday(d) {
      var r :| Matches(r, d);
      RuleDateInWindow(r, d);
    }
  }

  /** Which calendar decides: the official exchange schedule (an oracle
      giving the UTC closing hour of each trading day) or the fallback rules. */
  datatype MarketCalendar = Fallback | Official(closeHour: int -> Option<int>)

  const NormalCloseHourUtc: int := 20
  const ExpectedCandlesPerDay: nat := 390
  const ExpectedCandlesHalfDay: nat := 210

  /** `is_trading_day`. */
  predicate IsTradingDay(cal: MarketCalendar, d: int)
  {
    match cal
    case Official(closeHour) => closeHour(d).Some?
    case Fallback => Weekday(d) < Saturday && !IsMarketHoliday(d)
  }

  /** The day after Thanksgiving as the half-day rule computes it: the first
      Thursday of November, three weeks on, plus one day. */
  function BlackFriday(y: int): int
  {
    var first := DateOf(y, 11, 1);
    first + (Thursday - Weekday(first)) % 7 + 21 + 1
  }

  /** The fallback early-close rules: the day after Thanksgiving; December
      24 on a weekday that is not a holiday; July 3 when it and July 4 are
      weekdays and July 3 is not a holiday. */
  predicate FallbackHalfDay(d: int)
  {
    var c := CivilFromDays(d);
    (c.month == 11 && d == BlackFriday(c.year) && Weekday(d) < Saturday)
    || (d == DateOf(c.year, 12, 24) && Weekday(d) < Saturday && !IsMarketHoliday(d))
    || (d == DateOf(c.year, 7, 3) && Weekday(d) < Saturday && Weekday(DateOf(c.year, 7, 4)) < Saturday
        && !IsMarketHoliday(d))
  }

  /** `is_half_trading_day`: on the official calendar, a session that closes
      before 20:00 UTC; otherwise the fallback rules. */
  predicate IsHalfTradingDay(cal: MarketCalendar, d: int)
  {
    match cal
    case Official(closeHour) => closeHour(d).Some? && closeHour(d).value < NormalCloseHourUtc
    case Fallback => FallbackHalfDay(d)
  }

  /** `get_expected_candle_count`. */
  function ExpectedCandleCount(cal: MarketCalendar, d: int): (n: nat)
    ensures n == 0 <==> !IsTradingDay(cal, d)
    ensures n == ExpectedCandlesHalfDay <==> IsTradingDay(cal, d) && IsHalfTradingDay(cal, d)
    ensures n == ExpectedCandlesPerDay <==> IsTradingDay(cal, d) && !IsHalfTradingDay(cal, d)
  {
    if !IsTradingDay(cal, d) then 0
    else if IsHalfTradingDay(cal, d) then ExpectedCandlesHalfDay
    else ExpectedCandlesPerDay
  }

  /** On the official calendar a half day is a trading day; on the fallback
      calendar a trading day's count is decided by the early-close rules alone. */
  lemma OfficialHalfDaysTrade(closeHour: int -> Option<int>, d: int)
    requires IsHalfTradingDay(Official(closeHour), d)
    ensures ExpectedCandleCount(Official(closeHour), d) == ExpectedCandlesHalfDay
  {
  }

  /** A fixed-date holiday closes the market on its observed day: the day
      itself on a weekday, the Friday before when it is a Saturday, the
      Monday after when it is a Sunday.  Juneteenth only from 2022. */
  lemma FixedHolidayCloses(y: int, m: int, dd: int)
    requires (m, dd) in {(1, 1), (6, 19), (7, 4), (12, 25)}
    requires (m, dd) == (6, 19) ==> Observe(DateOf(y, m, dd)) >= DateOf(2022, 1, 1)
    ensures !IsTradingDay(Fallback, Observe(DateOf(y, m, dd)))
    ensures Weekday(DateOf(y, m, dd)) == Saturday ==> !IsTradingDay(Fallback, DateOf(y, m, dd) - 1)
    ensures Weekday(DateOf(y, m, dd)) == Sunday ==> !IsTradingDay(Fallback, DateOf(y, m, dd) + 1)
  {
    var x := DateOf(y, m, dd);
    ObservedDayCloses(y, m, dd, Observe(x));
    ObserveMoves(x, Observe(x));
  }

  lemma ObservedDayCloses(y: int, m: int, dd: int, d: int)
    requires (m, dd) in {(1, 1), (6, 19), (7, 4), (12, 25)}
    requires d == Observe(DateOf(y, m, dd))
    requires (m, dd) == (6, 19) ==> d >= DateOf(2022, 1, 1)
    ensures !IsTradingDay(Fallback, d)
  {
    ObservedCivil(d, y, m, dd);
    assert ObservedOn(d, m, dd);
    var r := if m == 1 then NewYearsDay else if m == 6 then Juneteenth else if m == 7 then IndependenceDay else Christmas;
    assert Matches(r, d);
  }

  /** A Saturday is observed the day before, a Sunday the day after. */
  lemma ObserveMoves(x: int, o: int)
    requires o == Observe(x)
    ensures Weekday(x) == Saturday ==> o == x - 1
    ensures Weekday(x) == Sunday ==> o == x + 1
  {
  }

  lemma BlackFridayCivil(y: int)
    ensures CivilFromDays(BlackFriday(y)).year == y && CivilFromDays(BlackFriday(y)).month == 11
  {
    DaysFromCivilShift(y, 11, 1, 22);
    DaysFromCivilShift(y, 11, 23, 6);
    NthWeekdayCivil(y, 11, 23, 29, BlackFriday(y));
  }

  lemma BlackFridayNotHoliday(y: int)
    ensures BlackFriday(y) == ThanksgivingDate(y) + 1 && Weekday(BlackFriday(y)) == Friday
    ensures !IsMarketHoliday(BlackFriday(y))
  {
    var d := BlackFriday(y);
    BlackFridayDate(y);
    BlackFridayCivil(y);
    if IsMarketHoliday(d) {
      HolidayCases(d);
    }
  }

  /** Black Friday is the day after Thanksgiving, a Friday. */
  lemma BlackFridayDate(y: int)
    ensures BlackFriday(y) == ThanksgivingDate(y) + 1 && Weekday(BlackFriday(y)) == Friday
  {
    assert BlackFriday(y) == ThanksgivingDate(y) + 1;
    WeekdayAfter(ThanksgivingDate(y), 1);
  }

  /** The day after Thanksgiving is a trading day that closes early, with
      210 expected candles. */
  lemma BlackFridayIsHalfDay(y: int)
    ensures BlackFriday(y) == ThanksgivingDate(y) + 1 && Weekday(BlackFriday(y)) == Friday
    ensures IsTradingDay(Fallback, BlackFriday(y)) && IsHalfTradingDay(Fallback, BlackFriday(y))
    ensures ExpectedCandleCount(Fallback, BlackFriday(y)) == ExpectedCandlesHalfDay
  {
    BlackFridayNotHoliday(y);
    BlackFridayCivil(y);
  }

  lemma ChristmasEveNotHoliday(y: int)
    requires Weekday(DateOf(y, 12, 24)) < Friday
    ensures CivilFromDays(DateOf(y, 12, 24)) == Civil(y, 12, 24)
    ensures !IsMarketHoliday(DateOf(y, 12, 24))
  {
    var d := DateOf(y, 12, 24);
    CivilOfDate(d, y, 12, 24);
    DaysFromCivilShift(y, 12, 24, 1);
    ObserveBack(d + 1);
    if IsMarketHoliday(d) {
      HolidayCases(d);
    }
  }

  /** December 24, Monday to Thursday, is an early close. */
  lemma ChristmasEveHalfDay(y: int)
    requires Weekday(DateOf(y, 12, 24)) < Friday
    ensures IsTradingDay(Fallback, DateOf(y, 12, 24)) && IsHalfTradingDay(Fallback, DateOf(y, 12, 24))
    ensures ExpectedCandleCount(Fallback, DateOf(y, 12, 24)) == ExpectedCandlesHalfDay
  {
    ChristmasEveNotHoliday(y);
    var d := DateOf(y, 12, 24);
    assert d == DateOf(CivilFromDays(d).year, 12, 24);
  }

  /** A Friday December 24 is the observed Christmas: closed, not a half day. */
  lemma ChristmasEveFridayCloses(y: int)
    requires Weekday(DateOf(y, 12, 24)) == Friday
    ensures !IsTradingDay(Fallback, DateOf(y, 12, 24)) && !IsHalfTradingDay(Fallback, DateOf(y, 12, 24))
    ensures ExpectedCandleCount(Fallback, DateOf(y, 12, 24)) == 0
  {
    var d := DateOf(y, 12, 24);
    DaysFromCivilShift(y, 12, 24, 1);
    ObserveBack(d + 1);
    assert Observe(DateOf(y, 12, 25)) == d;
    FixedHolidayCloses(y, 12, 25);
    assert IsMarketHoliday(d);
    CivilOfDate(d, y, 12, 24);
  }

  lemma July3NotHoliday(y: int)
    requires Weekday(DateOf(y, 7, 3)) < Friday
    ensures CivilFromDays(DateOf(y, 7, 3)) == Civil(y, 7, 3)
    ensures Weekday(DateOf(y, 7, 4)) < Saturday
    ensures !IsMarketHoliday(DateOf(y, 7, 3))
  {
    var d := DateOf(y, 7, 3);
    July3Civil(y);
    ObserveBack(d + 1);
    if IsMarketHoliday(d) {
      HolidayCases(d);
    }
  }

  /** July 3 is the day before July 4 in the same year, and on Monday to
      Thursday the fourth is a weekday too. */
  lemma July3Civil(y: int)
    requires Weekday(DateOf(y, 7, 3)) < Friday
    ensures CivilFromDays(DateOf(y, 7, 3)) == Civil(y, 7, 3)
    ensures DateOf(y, 7, 4) == DateOf(y, 7, 3) + 1
    ensures Weekday(DateOf(y, 7, 4)) < Saturday
  {
    var d := DateOf(y, 7, 3);
    CivilOfDate(d, y, 7, 3);
    DaysFromCivilShift(y, 7, 3, 1);
    WeekdayBeforeFriday(d, DateOf(y, 7, 4));
  }

  /** The day after Monday to Thursday is a weekday. */
  lemma WeekdayBeforeFriday(d: int, next: int)
    requires Weekday(d) < Friday && next == d + 1
    ensures Weekday(next) < Saturday
  {
    WeekdayAfter(d, 1);
  }

  /** July 3, Monday to Thursday, is an early close. */
  lemma July3HalfDay(y: int)
    requires Weekday(DateOf(y, 7, 3)) < Friday
    ensures IsTradingDay(Fallback, DateOf(y, 7, 3)) && IsHalfTradingDay(Fallback, DateOf(y, 7, 3))
    ensures ExpectedCandleCount(Fallback, DateOf(y, 7, 3)) == ExpectedCandlesHalfDay
  {
    July3NotHoliday(y);
    var d := DateOf(y, 7, 3);
    assert d == DateOf(CivilFromDays(d).year, 7, 3);
  }

  /** A Friday July 3 is the observed Independence Day: closed. */
  lemma July3FridayCloses(y: int)
    requires Weekday(DateOf(y, 7, 3)) == Friday
    ensures !IsTradingDay(Fallback, DateOf(y, 7, 3)) && ExpectedCandleCount(Fallback, DateOf(y, 7, 3)) == 0
  {
    var d := DateOf(y, 7, 3);
    DaysFromCivilShift(y, 7, 3, 1);
    ObserveBack(d + 1);
    assert Observe(DateOf(y, 7, 4)) == d;
    FixedHolidayCloses(y, 7, 4);
    assert IsMarketHoliday(d);
  }

  /** Columbus Day and Veterans Day trade when they fall on weekdays. */
  lemma ColumbusAndVeteransDaysTrade(y: int)
    ensures IsTradingDay(Fallback, NthWeekdayFrom(DateOf(y, 10, 1), Monday, 2))
    ensures Weekday(DateOf(y, 11, 11)) < Saturday ==> IsTradingDay(Fallback, DateOf(y, 11, 11))
  {
    var columbus := NthWeekdayFrom(DateOf(y, 10, 1), Monday, 2);
    DaysFromCivilShift(y, 10, 1, 7);
    DaysFromCivilShift(y, 10, 8, 6);
    NthWeekdayCivil(y, 10, 8, 14, columbus);
    NoColumbusOrVeteransHoliday(columbus);
    CivilOfDate(DateOf(y, 11, 11), y, 11, 11);
    NoColumbusOrVeteransHoliday(DateOf(y, 11, 11));
  }
}
