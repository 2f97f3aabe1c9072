/** Calendar arithmetic on day numbers.

    A date is the number of days since 1970-01-01 (proleptic Gregorian,
    the calendar of Python's `datetime.date`); a UTC timestamp is a number
    of seconds since 1970-01-01T00:00:00Z.  Day numbers make `+ timedelta(days=k)`
    plain addition; the civil (year, month, day) view is computed from them. */
module Dates {
  import opened Decimal
  import opened Wrappers

  const SecondsPerMinute: int := 60
  const SecondsPerHour: int := 3600
  const SecondsPerDay: int := 86400

  /** Days from 0000-03-01 to 1970-01-01: the civil computation counts years
      from March so that the leap day is the last day of its year. */
  const EpochShift: int := 719468
  const DaysPer400Years: int := 146097

  /** Python's `date.min` (0001-01-01) and `date.max` (9999-12-31). */
  const MinDay: int := -719162
  const MaxDay: int := 2932896

  const Monday: int := 0
  const Thursday: int := 3
  const Friday: int := 4
  const Saturday: int := 5
  const Sunday: int := 6

  datatype Civil = Civil(year: int, month: int, day: int)

  /** `date.weekday()`: Monday is 0 and Sunday is 6 (1970-01-01 was a Thursday). */
  function Weekday(d: int): (w: int)
    ensures 0 <= w < 7
  {
    (d + 3) % 7
  }

  /** Moving `k` days moves the weekday by `k` modulo 7. */
  lemma WeekdayAfter(d: int, k: int)
    ensures Weekday(d + k) == (Weekday(d) + k) % 7
  {
  }

  /** The date (UTC) of a timestamp: `datetime.date()` of an aware UTC datetime. */
  function DayOf(t: int): (d: int)
    ensures d * SecondsPerDay <= t < (d + 1) * SecondsPerDay
  {
    t / SecondsPerDay
  }

  /** Midnight UTC at the start of day `d`. */
  function StartOfDay(d: int): int
  {
    d * SecondsPerDay
  }

  predicate IsLeapYear(y: int)
  {
    y % 4 == 0 && (y % 100 != 0 || y % 400 == 0)
  }

  function DaysInMonth(y: int, m: int): (n: int)
    requires 1 <= m <= 12
    ensures 28 <= n <= 31
  {
    if m == 2 then (if IsLeapYear(y) then 29 else 28)
    else if m == 4 || m == 6 || m == 9 || m == 11 then 30
    else 31
  }

  predicate ValidCivil(c: Civil)
  {
    1 <= c.month <= 12 && 1 <= c.day <= DaysInMonth(c.year, c.month)
  }

  /** First day of each month of a year that starts on March 1
      (index 0 is March, index 11 is February). */
  function MarchMonthStart(mp: int): (s: int)
    requires 0 <= mp < 12
    ensures 0 <= s <= 337
  {
    [0, 31, 61, 92, 122, 153, 184, 214, 245, 275, 306, 337][mp]
  }

  function MarchMonthOf(doy: int): (mp: int)
    requires 0 <= doy <= 365
    ensures 0 <= mp < 12
    ensures MarchMonthStart(mp) <= doy
    ensures mp < 11 ==> doy < MarchMonthStart(mp + 1)
  {
    if doy < 31 then 0 else if doy < 61 then 1 else if doy < 92 then 2
    else if doy < 122 then 3 else if doy < 153 then 4 else if doy < 184 then 5
    else if doy < 214 then 6 else if doy < 245 then 7 else if doy < 275 then 8
    else if doy < 306 then 9 else if doy < 337 then 10 else 11
  }

  /** The position of a day inside the 400-year Gregorian cycle: century,
      four-year group inside the century, year inside the group, and day
      inside that March-based year. */
  datatype CycleParts = CycleParts(era: int, cen: int, quad: int, yq: int, doy: int)

  function Decompose(z: int): (p: CycleParts)
    ensures 0 <= p.cen <= 3 && 0 <= p.quad <= 24 && 0 <= p.yq <= 3 && 0 <= p.doy <= 365
    ensures z + EpochShift == p.era * DaysPer400Years + p.cen * 36524 + p.quad * 1461 + p.yq * 365 + p.doy
    ensures p.doy == 365 ==> p.yq == 3 && (p.quad < 24 || p.cen == 3)
  {
    var s := z + EpochShift;
    var era := s / DaysPer400Years;
    var doe := s % DaysPer400Years;
    var cen := if doe == 146096 then 3 else doe / 36524;
    var doc := doe - cen * 36524;
    var quad := doc / 1461;
    var doq := doc - quad * 1461;
    var yq := if doq == 1460 then 3 else doq / 365;
    CycleParts(era, cen, quad, yq, doq - yq * 365)
  }

  /** The civil date of a day number. */
  function CivilFromDays(z: int): (c: Civil)
    ensures 1 <= c.month <= 12 && 1 <= c.day <= 31
  {
    var p := Decompose(z);
    var mp := MarchMonthOf(p.doy);
    var month := if mp < 10 then mp + 3 else mp - 9;
    var yoe := p.cen * 100 + p.quad * 4 + p.yq;
    Civil(p.era * 400 + yoe + (if month <= 2 then 1 else 0), month, p.doy - MarchMonthStart(mp) + 1)
  }

  /** The day number of a civil date: `date(y, m, d)` seen as a day number. */
  function DaysFromCivil(c: Civil): int
    requires 1 <= c.month <= 12
  {
    var y := if c.month <= 2 then c.year - 1 else c.year;
    var era := y / 400;
    var yoe := y % 400;
    var mp := if c.month > 2 then c.month - 3 else c.month + 9;
    var doy := MarchMonthStart(mp) + c.day - 1;
    era * DaysPer400Years + yoe * 365 + yoe / 4 - yoe / 100 + doy - EpochShift
  }

  /** Every day number names a valid civil date... */
  lemma CivilFromDaysValid(z: int)
    ensures ValidCivil(CivilFromDays(z))
  {
    var p := Decompose(z);
    var mp := MarchMonthOf(p.doy);
    if mp < 11 {
      MarchMonthLength(mp, CivilFromDays(z).year);
    } else if p.doy == 365 {
      LeapDayEndsYear(p.era, p.cen, p.quad, p.yq);
    }
  }

  /** Every March-based month but the last (February) is as long as the
      gap to the next month's start. */
  lemma MarchMonthLength(mp: int, y: int)
    requires 0 <= mp < 11
    ensures MarchMonthStart(mp + 1) - MarchMonthStart(mp) == DaysInMonth(y, if mp < 10 then mp + 3 else mp - 9)
  {
  }

  /** The January-based year in which a March-based year with a leap day
      ends is a leap year. */
  lemma LeapDayEndsYear(era: int, cen: int, quad: int, yq: int)
    requires 0 <= cen <= 3 && 0 <= quad <= 24 && yq == 3 && (quad < 24 || cen == 3)
    ensures IsLeapYear(era * 400 + cen * 100 + quad * 4 + yq + 1)
  {
    var next := cen * 100 + quad * 4 + yq + 1;
    assert next == (cen * 25 + quad + 1) * 4;
    ModShift(next, era * 100, 4);
    ModShift(next, era * 4, 100);
    ModShift(next, era, 400);
    assert era * 100 * 4 == era * 400 && era * 4 * 100 == era * 400;
    if quad < 24 {
      DivModUnique(next, 4, cen * 25 + quad + 1, 0);
      DivModUnique(next, 100, cen, quad * 4 + 4);
    } else {
      assert next == 400;
    }
  }

  /** ...and converting it back gives the same day number. */
  lemma DaysFromCivilFromDays(z: int)
    ensures DaysFromCivil(CivilFromDays(z)) == z
  {
    var p := Decompose(z);
    var c := CivilFromDays(z);
    var yoe := p.cen * 100 + p.quad * 4 + p.yq;
    var y := if c.month <= 2 then c.year - 1 else c.year;
    assert y == p.era * 400 + yoe;
    assert 0 <= yoe < 400;
    assert y / 400 == p.era && y % 400 == yoe;
    assert yoe / 4 == p.cen * 25 + p.quad;
    assert yoe / 100 == p.cen;
  }

  lemma MulAtLeast(k: int, q: int)
    requires k >= 1 && q > 0
    ensures k * q >= q
    decreases k
  {
    if k > 1 {
      MulAtLeast(k - 1, q);
      assert k * q == (k - 1) * q + q;
    }
  }

  lemma DivModUnique(s: int, q: int, a: int, r: int)
    requires q > 0 && 0 <= r < q && s == a * q + r
    ensures s / q == a && s % q == r
  {
    var a' := s / q;
    var r' := s % q;
    assert s == a' * q + r';
    if a' < a {
      assert a * q == a' * q + (a - a') * q;
      MulAtLeast(a - a', q);
    } else if a' > a {
      assert a' * q == a * q + (a' - a) * q;
      MulAtLeast(a' - a, q);
    }
  }

  /** The cycle decomposition is unique: parts in range name exactly the
      day they add up to. */
  lemma DecomposeOf(z: int, era: int, cen: int, quad: int, yq: int, doy: int)
    requires 0 <= cen <= 3 && 0 <= quad <= 24 && 0 <= yq <= 3 && 0 <= doy <= 365
    requires doy == 365 ==> yq == 3 && (quad < 24 || cen == 3)
    requires z + EpochShift == era * DaysPer400Years + cen * 36524 + quad * 1461 + yq * 365 + doy
    ensures Decompose(z) == CycleParts(era, cen, quad, yq, doy)
  {
    var inner := quad * 1461 + yq * 365 + doy;
    var rest := cen * 36524 + inner;
    assert inner <= 36524;
    assert inner == 36524 ==> quad == 24 && yq == 3 && doy == 365;
    DivModUnique(z + EpochShift, DaysPer400Years, era, rest);
    if rest != 146096 {
      DivModUnique(rest, 36524, cen, inner);
      DivModUnique(inner, 1461, quad, yq * 365 + doy);
      if yq * 365 + doy != 1460 {
        DivModUnique(yq * 365 + doy, 365, yq, doy);
      }
    }
  }

  lemma MarchMonthOfUnique(doy: int, mp: int)
    requires 0 <= mp < 12 && MarchMonthStart(mp) <= doy <= 365
    requires mp < 11 ==> doy < MarchMonthStart(mp + 1)
    ensures MarchMonthOf(doy) == mp
  {
  }

  /** The year-of-era split into century, four-year group and year in group. */
  lemma YearOfEraParts(yoe: int)
    requires 0 <= yoe < 400
    ensures yoe == (yoe / 100) * 100 + ((yoe % 100) / 4) * 4 + yoe % 4
    ensures yoe * 365 + yoe / 4 - yoe / 100 == (yoe / 100) * 36524 + ((yoe % 100) / 4) * 1461 + (yoe % 4) * 365
  {
  }

  /** Day 365 of a March-based year is the leap day, which only a year that
      ends a four-year group (and, at a century, the whole era) has. */
  lemma LeapDayParts(year: int, era: int, yoe: int)
    requires 0 <= yoe < 400 && year == era * 400 + yoe + 1 && IsLeapYear(year)
    ensures yoe % 4 == 3 && ((yoe % 100) / 4 < 24 || yoe / 100 == 3)
  {
    ModShift(yoe + 1, era * 100, 4);
    ModShift(yoe + 1, era * 4, 100);
    ModShift(yoe + 1, era, 400);
    assert (yoe + 1) % 4 == 0;
    if (yoe % 100) / 4 == 24 {
      assert yoe % 100 == 99;
      assert (yoe + 1) % 100 == 0;
      assert (yoe + 1) % 400 == 0;
    }
  }

  lemma ModShift(x: int, m: int, k: int)
    requires k > 0
    ensures (m * k + x) % k == x % k
  {
    assert x == (x / k) * k + x % k;
    assert m * k + x == (m + x / k) * k + x % k;
    DivModUnique(m * k + x, k, m + x / k, x % k);
  }

  /** A valid civil date survives the trip to a day number and back, so
      `DaysFromCivil` is one-to-one on valid dates. */
  lemma CivilFromDaysOfCivil(c: Civil)
    requires ValidCivil(c)
    ensures CivilFromDays(DaysFromCivil(c)) == c
  {
    var y := if c.month <= 2 then c.year - 1 else c.year;
    var era := y / 400;
    var yoe := y % 400;
    var mp := if c.month > 2 then c.month - 3 else c.month + 9;
    var doy := MarchMonthStart(mp) + c.day - 1;
    YearOfEraParts(yoe);
    DaysFromCivilParts(c, y, mp, doy);
    assert doy <= 365;
    if doy == 365 {
      assert mp == 11 && c.day == 29;
      LeapDayParts(c.year, era, yoe);
    }
    DecomposeOf(DaysFromCivil(c), era, yoe / 100, (yoe % 100) / 4, yoe % 4, doy);
    MarchMonthOfUnique(doy, mp);
  }

  /** The day number of a date, split the way `Decompose` splits it. */
  lemma DaysFromCivilParts(c: Civil, y: int, mp: int, doy: int)
    requires 1 <= c.month <= 12
    requires y == (if c.month <= 2 then c.year - 1 else c.year)
    requires mp == (if c.month > 2 then c.month - 3 else c.month + 9)
    requires doy == MarchMonthStart(mp) + c.day - 1
    ensures DaysFromCivil(c) + EpochShift
            == (y / 400) * DaysPer400Years + ((y % 400) / 100) * 36524 + (((y % 400) % 100) / 4) * 1461
               + ((y % 400) % 4) * 365 + doy
  {
    YearOfEraParts(y % 400);
  }

  /** Moving a date by `k` days within the same month adds `k` to its day
      number; the month may even be overstepped, the arithmetic is linear. */
  lemma DaysFromCivilShift(y: int, m: int, d: int, k: int)
    requires 1 <= m <= 12
    ensures DaysFromCivil(Civil(y, m, d + k)) == DaysFromCivil(Civil(y, m, d)) + k
  {
  }

  /** Text of a date as `strftime("%Y-%m-%d")` writes it, e.g. "2024-07-03". */
  function IsoDate(d: int): (s: string)
  {
    var c := CivilFromDays(d);
    (if c.year >= 0 then Pad4(c.year) else "-" + Pad4(-c.year)) + "-" + Pad2(c.month) + "-" + Pad2(c.day)
  }

  /** `datetime.strptime(s, "%Y-%m-%d")` for the zero-padded form: None for
      anything else, including a day that the month does not have. */
  function ParseIsoDate(s: string): (r: Option<int>)
    ensures r.Some? ==> |s| == 10
  {
    if |s| != 10 || s[4] != '-' || s[7] != '-' then None
    else
      match (ParseNat(s[..4]), ParseNat(s[5..7]), ParseNat(s[8..]))
      case (Some(y), Some(m), Some(dd)) =>
        if 1 <= y && 1 <= m <= 12 && 1 <= dd <= DaysInMonth(y, m) then Some(DaysFromCivil(Civil(y, m, dd)))
        else None
      case _ => None
  }

  lemma CivilYearInRange(d: int)
    requires MinDay <= d <= MaxDay
    ensures 1 <= CivilFromDays(d).year <= 9999
  {
    var p := Decompose(d);
    var c := CivilFromDays(d);
    var yoe := p.cen * 100 + p.quad * 4 + p.yq;
    var rest := p.cen * 36524 + p.quad * 1461 + p.yq * 365 + p.doy;
    assert 0 <= rest <= 146096;
    assert 0 <= p.era <= 24;
    if p.era == 0 && yoe == 0 {
      assert p.doy >= 306;
    }
    if p.era == 24 && yoe == 399 {
      assert p.doy < 306;
    }
  }

  /** The file-name date of any Python date reads back as the same date. */
  lemma ParseIsoDateRoundTrip(d: int)
    requires MinDay <= d <= MaxDay
    ensures ParseIsoDate(IsoDate(d)) == Some(d)
  {
    var c := CivilFromDays(d);
    CivilYearInRange(d);
    CivilFromDaysValid(d);
    DaysFromCivilFromDays(d);
    var s := IsoDate(d);
    assert s == Pad4(c.year) + "-" + Pad2(c.month) + "-" + Pad2(c.day);
    assert s[..4] == Pad4(c.year);
    assert s[5..7] == Pad2(c.month);
    assert s[8..] == Pad2(c.day);
    ParsePad4(c.year);
    ParsePad2(c.month);
    ParsePad2(c.day);
  }
}
