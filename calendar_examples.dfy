/** Dated instances of the fallback calendar's rules, in 2021 to 2025. */
module CalendarExamples {
  import opened Dates
  import opened TradingCalendar

  /** Day numbers (days since 1970-01-01) of the dates used below. */
  lemma Day2025_01_01() ensures DateOf(2025, 1, 1) == 20089 {}
  lemma Day2025_01_15() ensures DateOf(2025, 1, 15) == 20103 {}
  lemma Day2025_01_18() ensures DateOf(2025, 1, 18) == 20106 {}
  lemma Day2025_04_18() ensures DateOf(2025, 4, 18) == 20196 {}
  lemma Day2025_04_20() ensures DateOf(2025, 4, 20) == 20198 {}
  lemma Day2025_11_01() ensures DateOf(2025, 11, 1) == 20393 {}
  lemma Day2025_11_28() ensures DateOf(2025, 11, 28) == 20420 {}
  lemma Day2021_06_19() ensures DateOf(2021, 6, 19) == 18797 {}
  lemma Day2022_01_01() ensures DateOf(2022, 1, 1) == 18993 {}
  lemma Day2022_06_19() ensures DateOf(2022, 6, 19) == 19162 {}
  lemma Day2023_06_19() ensures DateOf(2023, 6, 19) == 19527 {}

  lemma Easter2025()
    ensures EasterMonthDay(2025) == (4, 20)
  {
    assert 2025 % 19 == 11 && 2025 / 100 == 20;
    assert (20 - 20 / 4 - (8 * 20 + 13) / 25 + 19 * 11 + 15) % 30 == 23;
    assert (2025 + 2025 / 4 + 23 + 2 - 20 + 20 / 4) % 7 == 0;
  }

  lemma Mlk2025()
    ensures MlkDate(2025) == 20108
  {
    Day2025_01_01();
  }

  /** A plain Wednesday in January 2025 is a full day. */
  lemma FullDayExample(d: int)
    requires d == DateOf(2025, 1, 15)
    ensures ExpectedCandleCount(Fallback, d) == ExpectedCandlesPerDay
  {
    Day2025_01_15();
    Mlk2025();
    CivilOfDate(d, 2025, 1, 15);
    if IsMarketHoliday(d) {
      var r :| Matches(r, d);
      RuleDateInWindow(r, d);
    }
  }

  /** The Saturday after is closed. */
  lemma WeekendExample(d: int)
    requires d == DateOf(2025, 1, 18)
    ensures ExpectedCandleCount(Fallback, d) == 0
  {
    Day2025_01_18();
    assert Weekday(d) == Saturday;
  }

  /** New Year's Day and Independence Day 2025 are closed. */
  lemma FixedHolidayExamples()
    ensures !IsTradingDay(Fallback, DateOf(2025, 1, 1)) && !IsTradingDay(Fallback, DateOf(2025, 7, 4))
  {
    FixedHolidayCloses(2025, 1, 1);
    FixedHolidayCloses(2025, 7, 4);
  }

  /** November 28, 2025 closes early. */
  lemma HalfDayExample(d: int)
    requires d == DateOf(2025, 11, 28)
    ensures ExpectedCandleCount(Fallback, d) == ExpectedCandlesHalfDay
  {
    Day2025_11_01();
    Day2025_11_28();
    assert Weekday(20393) == Saturday;
    assert BlackFriday(2025) == d;
    BlackFridayIsHalfDay(2025);
  }

  /** Good Friday 2025 is April 18. */
  lemma GoodFridayExample(d: int)
    requires d == DateOf(2025, 4, 18)
    ensures IsMarketHoliday(d)
  {
    Day2025_04_18();
    Day2025_04_20();
    Easter2025();
    CivilOfDate(d, 2025, 4, 18);
    assert Matches(GoodFriday, d);
  }

  /** Juneteenth 2022 fell on a Sunday and was observed on Monday June 20. */
  lemma Juneteenth2022Example(d: int)
    requires d == DateOf(2022, 6, 20)
    ensures IsMarketHoliday(d)
  {
    Day2022_01_01();
    Day2022_06_19();
    DaysFromCivilShift(2022, 6, 19, 1);
    assert Weekday(19162) == Sunday;
    FixedHolidayCloses(2022, 6, 19);
  }

  /** Juneteenth 2023 was a Monday, closed on the day. */
  lemma Juneteenth2023Example(d: int)
    requires d == DateOf(2023, 6, 19)
    ensures IsMarketHoliday(d)
  {
    Day2022_01_01();
    Day2023_06_19();
    assert Weekday(19527) == Monday;
    FixedHolidayCloses(2023, 6, 19);
  }

  /** Before 2022 June 19 was no holiday; in 2021 it is also a Saturday. */
  lemma Juneteenth2021Example(d: int)
    requires d == DateOf(2021, 6, 19)
    ensures !IsMarketHoliday(d)
  {
    Day2021_06_19();
    CivilOfDate(d, 2021, 6, 19);
    NoJuneteenthBefore2022(d);
  }

  /** Columbus Day and Veterans Day 2025 are not holidays. */
  lemma ColumbusVeteransExamples()
    ensures !IsMarketHoliday(DateOf(2025, 10, 13)) && !IsMarketHoliday(DateOf(2025, 11, 11))
  {
    CivilOfDate(DateOf(2025, 10, 13), 2025, 10, 13);
    NoColumbusOrVeteransHoliday(DateOf(2025, 10, 13));
    CivilOfDate(DateOf(2025, 11, 11), 2025, 11, 11);
    NoColumbusOrVeteransHoliday(DateOf(2025, 11, 11));
  }
}
