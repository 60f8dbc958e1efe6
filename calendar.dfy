/**
 * Calendar dates as chrono's `NaiveDate` holds them: a day of the proleptic
 * Gregorian calendar, here numbered by days since 1970-01-01, within the
 * range chrono can represent.
 */
module Calendar {
  import opened Decimal

  /** -262143-01-01, chrono's `NaiveDate::MIN`, as days since 1970-01-01. */
  const MinDay: int := -96465292
  /** 262142-12-31, chrono's `NaiveDate::MAX`, as days since 1970-01-01. */
  const MaxDay: int := 95026236

  type Date = d: int | MinDay <= d <= MaxDay witness 0

  datatype Civil = Civil(year: int, month: nat, day: nat)

  /** The Gregorian rule: every fourth year, except centuries not divisible by 400. */
  predicate IsLeapYear(year: int) {
    year % 4 == 0 && (year % 100 != 0 || year % 400 == 0)
  }

  /** The length of a month of the proleptic Gregorian calendar. */
  function DaysInMonth(year: int, month: int): int
    requires 1 <= month <= 12
  {
    if month == 2 then (if IsLeapYear(year) then 29 else 28)
    else if month == 4 || month == 6 || month == 9 || month == 11 then 30
    else 31
  }

  /** Adding whole 400-year cycles keeps a year's leap status. */
  lemma {:induction false} LeapShift(era: int, k: int)
    ensures IsLeapYear(400 * era + k) == IsLeapYear(k)
  {
    ShiftMod4(era, k);
    ShiftMod100(era, k);
    ShiftMod400(era, k);
  }

  lemma {:induction false} ShiftMod4(era: int, k: int)
    ensures (400 * era + k) % 4 == k % 4
  {
    assert 400 * era + k == 4 * (100 * era + k / 4) + k % 4;
  }

  lemma {:induction false} ShiftMod100(era: int, k: int)
    ensures (400 * era + k) % 100 == k % 100
  {
    assert 400 * era + k == 100 * (4 * era + k / 100) + k % 100;
  }

  lemma {:induction false} ShiftMod400(era: int, k: int)
    ensures (400 * era + k) % 400 == k % 400
  {
    assert 400 * era + k == 400 * (era + k / 400) + k % 400;
  }

  /** Days in each 400-year cycle of the Gregorian calendar. */
  const DaysPerEra: int := 146097
  /** Days from 0000-03-01, where the day numbering below starts, to 1970-01-01. */
  const EpochShift: int := 719468

  /** The number of days a year of era `yearOfEra` (counted from March) starts after the era does. */
  function YearStart(yearOfEra: int): int {
    365 * yearOfEra + yearOfEra / 4 - yearOfEra / 100
  }

  /** The length of year `yearOfEra` of an era, a year that runs from March to the end of February. */
  function EraYearLength(yearOfEra: int): int
    requires 0 <= yearOfEra < 400
  {
    (if yearOfEra == 399 then DaysPerEra else YearStart(yearOfEra + 1)) - YearStart(yearOfEra)
  }

  /** A year of an era has 366 days exactly when the February it ends with is a leap February. */
  lemma {:induction false} EraYearLengthIsLeap(yearOfEra: int)
    requires 0 <= yearOfEra < 400
    ensures EraYearLength(yearOfEra) == if IsLeapYear(yearOfEra + 1) then 366 else 365
  {
  }

  /** Where a year starts within its era, from its century, four-year cycle and year within that cycle. */
  lemma {:induction false} YearStartOfSplit(century: int, quad: int, yearOfQuad: int)
    requires 0 <= century <= 3 && 0 <= quad <= 24 && 0 <= yearOfQuad <= 3
    ensures YearStart(100 * century + 4 * quad + yearOfQuad) == 36524 * century + 1461 * quad + 365 * yearOfQuad
  {
    var y := 100 * century + 4 * quad + yearOfQuad;
    assert y / 4 == 25 * century + quad;
    assert y / 100 == century;
  }

  /** The last year of a four-year cycle is the long one, except at the end of the first three centuries. */
  lemma {:induction false} SplitYearLength(century: int, quad: int, yearOfQuad: int)
    requires 0 <= century <= 3 && 0 <= quad <= 24 && 0 <= yearOfQuad <= 3
    ensures EraYearLength(100 * century + 4 * quad + yearOfQuad) ==
      if yearOfQuad == 3 && (quad < 24 || century == 3) then 366 else 365
  {
    YearStartOfSplit(century, quad, yearOfQuad);
    if yearOfQuad < 3 {
      YearStartOfSplit(century, quad, yearOfQuad + 1);
    } else if quad < 24 {
      YearStartOfSplit(century, quad + 1, 0);
    } else if century < 3 {
      YearStartOfSplit(century + 1, 0, 0);
    }
  }

  /** The year of a day within a 400-year era, by whole centuries, four-year cycles and years. */
  function SplitEra(dayOfEra: int): (r: (int, int))
    requires 0 <= dayOfEra < DaysPerEra
    ensures 0 <= r.0 < 400 && 0 <= r.1 < EraYearLength(r.0)
    ensures dayOfEra == YearStart(r.0) + r.1
  {
    var century := if dayOfEra / 36524 < 3 then dayOfEra / 36524 else 3;
    var dayOfCentury := dayOfEra - 36524 * century;
    var quad := dayOfCentury / 1461;
    var dayOfQuad := dayOfCentury % 1461;
    var yearOfQuad := if dayOfQuad / 365 < 3 then dayOfQuad / 365 else 3;
    var yearOfEra := 100 * century + 4 * quad + yearOfQuad;
    assert century < 3 ==> dayOfCentury < 36524;
    assert quad <= 24;
    YearStartOfSplit(century, quad, yearOfQuad);
    SplitYearLength(century, quad, yearOfQuad);
    (yearOfEra, dayOfQuad - 365 * yearOfQuad)
  }

  /** The day a month starts within a year counted from March (0 = March, 11 = February). */
  function MonthStart(shiftedMonth: int): int {
    (153 * shiftedMonth + 2) / 5
  }

  /** The month (counted from March) and day of month of a day within such a year. */
  function SplitYear(dayOfYear: int): (r: (int, int))
    requires 0 <= dayOfYear <= 365
    ensures 0 <= r.0 < 12 && 1 <= r.1 <= 31
    ensures dayOfYear == MonthStart(r.0) + r.1 - 1
    ensures r.0 < 11 ==> dayOfYear < MonthStart(r.0 + 1)
  {
    var shiftedMonth := (5 * dayOfYear + 2) / 153;
    (shiftedMonth, dayOfYear - MonthStart(shiftedMonth) + 1)
  }

  /** The civil month of a month counted from March. */
  function CivilMonth(shiftedMonth: int): int {
    if shiftedMonth < 10 then shiftedMonth + 3 else shiftedMonth - 9
  }

  /**
   * A day of a year of an era falls within its month: 28 or 29 days in the
   * February that ends the year, by the leap rule, and 30 or 31 otherwise.
   */
  lemma {:induction false} SplitYearFitsMonth(yearOfEra: int, dayOfYear: int)
    requires 0 <= yearOfEra < 400 && 0 <= dayOfYear < EraYearLength(yearOfEra)
    ensures var month := CivilMonth(SplitYear(dayOfYear).0);
      1 <= month <= 12 &&
      SplitYear(dayOfYear).1 <= DaysInMonth(yearOfEra + (if month <= 2 then 1 else 0), month)
  {
    EraYearLengthIsLeap(yearOfEra);
  }

  /** Year, month and day of the `z`-th day after 1970-01-01 (days before it when negative). */
  function CivilFromDays(z: int): (c: Civil)
    ensures 1 <= c.month <= 12 && 1 <= c.day <= DaysInMonth(c.year, c.month)
  {
    var era := (z + EpochShift) / DaysPerEra;
    var (yearOfEra, dayOfYear) := SplitEra((z + EpochShift) % DaysPerEra);
    var (shiftedMonth, day) := SplitYear(dayOfYear);
    var month := CivilMonth(shiftedMonth);
    var yearInEra := yearOfEra + (if month <= 2 then 1 else 0);
    SplitYearFitsMonth(yearOfEra, dayOfYear);
    LeapShift(era, yearInEra);
    assert 400 * era + yearInEra == 400 * era + yearOfEra + (if month <= 2 then 1 else 0);
    Civil(400 * era + yearInEra, month, day)
  }

  /** The inverse of `CivilFromDays`: the day number of a calendar date. */
  function DaysFromCivil(c: Civil): int
    requires 1 <= c.month <= 12
  {
    var year := c.year - (if c.month <= 2 then 1 else 0);
    var shiftedMonth := if c.month > 2 then c.month - 3 else c.month + 9;
    DaysPerEra * (year / 400) + YearStart(year % 400) + MonthStart(shiftedMonth) + c.day - 1 - EpochShift
  }

  /** Each day number is recovered from its calendar date, so distinct days have distinct dates. */
  lemma {:induction false} CivilRoundTrip(z: int)
    ensures DaysFromCivil(CivilFromDays(z)) == z
  {
    var era := (z + EpochShift) / DaysPerEra;
    var (yearOfEra, dayOfYear) := SplitEra((z + EpochShift) % DaysPerEra);
    var (shiftedMonth, day) := SplitYear(dayOfYear);
    var c := CivilFromDays(z);
    var year := 400 * era + yearOfEra;
    assert c.year - (if c.month <= 2 then 1 else 0) == year;
    assert year / 400 == era && year % 400 == yearOfEra;
    assert (if c.month > 2 then c.month - 3 else c.month + 9) == shiftedMonth;
  }

  /** The range ends are the first day of year -262143 and the last day of year 262142. */
  lemma {:induction false} DateRangeEnds()
    ensures CivilFromDays(MinDay) == Civil(-262143, 1, 1)
    ensures CivilFromDays(MaxDay) == Civil(262142, 12, 31)
  {
    assert (MinDay + EpochShift) / DaysPerEra == -656 && (MinDay + EpochShift) % DaysPerEra == 93808;
    assert SplitEra(93808) == (256, 306);
    assert SplitYear(306) == (10, 1);
    assert (MaxDay + EpochShift) / DaysPerEra == 655 && (MaxDay + EpochShift) % DaysPerEra == 52169;
    assert SplitEra(52169) == (142, 305);
    assert SplitYear(305) == (9, 31);
  }

  /** The year as chrono writes it: four digits within 0..=9999, otherwise signed (`{:+05}`). */
  function YearText(year: int): (s: string)
    ensures |s| >= 4
    ensures IsDigit(s[0]) || s[0] == '+' || s[0] == '-'
    ensures 0 <= year <= 9999 <==> AllDigits(s)
    ensures 0 <= year <= 9999 ==> |s| == 4 && ParseDigits(s) == year
    ensures !(0 <= year <= 9999) ==>
      && s[0] == (if year < 0 then '-' else '+')
      && AllDigits(s[1..]) && |s[1..]| >= 4
      && ParseDigits(s[1..]) == (if year < 0 then -year else year)
  {
    ParseZeroPad(if year < 0 then -year else year, 4);
    if 0 <= year <= 9999 then
      assert Pow10(4) == 10000;
      NatToStringFits(year, 4);
      ZeroPad(year, 4)
    else if year < 0 then "-" + ZeroPad(-year, 4)
    else "+" + ZeroPad(year, 4)
  }

  /** Where the parts of `year-month-day` sit in the joined text. */
  lemma {:induction false} JoinDate(year: string, month: string, day: string)
    requires |year| >= 4 && |month| == 2 && |day| == 2
    ensures var s := year + "-" + month + "-" + day;
      && |s| == |year| + 6 && s[..|s| - 6] == year && s[0] == year[0]
      && s[|s| - 6] == '-' && s[|s| - 3] == '-'
      && s[|s| - 5..|s| - 3] == month && s[|s| - 2..] == day
  {
    var s := year + "-" + month + "-" + day;
    assert s[..|s| - 6] == year;
    assert s[|s| - 5..|s| - 3] == month;
    assert s[|s| - 2..] == day;
  }

  /** The ISO 8601 text `YYYY-MM-DD` that chrono's `Display` gives a `NaiveDate`. */
  function DateText(d: Date): (s: string)
    ensures |s| >= 10
    ensures IsDigit(s[0]) || s[0] == '+' || s[0] == '-'
    ensures s[..|s| - 6] == YearText(CivilFromDays(d).year)
    ensures s[|s| - 6] == '-' && s[|s| - 3] == '-'
    ensures AllDigits(s[|s| - 5..|s| - 3]) && ParseDigits(s[|s| - 5..|s| - 3]) == CivilFromDays(d).month
    ensures AllDigits(s[|s| - 2..]) && ParseDigits(s[|s| - 2..]) == CivilFromDays(d).day
  {
    var c := CivilFromDays(d);
    var year := YearText(c.year);
    var month := TwoDigits(c.month);
    var day := TwoDigits(c.day);
    JoinDate(year, month, day);
    year + "-" + month + "-" + day
  }
}
