/**
 Day counts and dates (rust/src/native_login.rs:332-362, rust/src/settings.rs:168-196
 and rust/src/git/mod.rs:721-743): the eras-of-400-years arithmetic, against the
 proleptic Gregorian calendar of section 21.4.1 of ECMA-262.
 */
module Calendar {
  datatype Date = Date(year: int, month: int, day: int)

  // ---------------------------------------------------------------- as the source computes it

  const DAYS_PER_ERA := 146097

  /** Days from 0000-03-01, where the eras start, to 1970-01-01. */
  const EPOCH_SHIFT := 719468

  /** The year within its era, from the day within the era. */
  function YearOfEra(dayOfEra: int): int {
    (dayOfEra - dayOfEra / 1460 + dayOfEra / 36524 - dayOfEra / 146096) / 365
  }

  function DayOfYear(dayOfEra: int): int {
    var y := YearOfEra(dayOfEra);
    dayOfEra - (365 * y + y / 4 - y / 100)
  }

  function MonthIndex(dayOfYear: int): int { (5 * dayOfYear + 2) / 153 }

  /** The date of a day of an era. Years run from March here, until the last step. */
  function FromEra(era: int, dayOfEra: int): Date {
    var dayOfYear := DayOfYear(dayOfEra);
    var index := MonthIndex(dayOfYear);
    var month := index + if index < 10 then 3 else -9;
    var day := dayOfYear - (153 * index + 2) / 5 + 1;
    Date(YearOfEra(dayOfEra) + era * 400 + (if month <= 2 then 1 else 0), month, day)
  }

  /** The date of a day counted from 1970-01-01. */
  function FromDays(days: int): Date {
    var shifted := days + EPOCH_SHIFT;
    var era := shifted / DAYS_PER_ERA;
    FromEra(era, shifted - era * DAYS_PER_ERA)
  }

  // ---------------------------------------------------------------- the calendar

  predicate Leap(year: int) { year % 4 == 0 && (year % 100 != 0 || year % 400 == 0) }

  function LeapDay(year: int): int { if Leap(year) then 1 else 0 }

  function DaysInMonth(year: int, month: int): int {
    if month == 2 then 28 + LeapDay(year) else if month in {4, 6, 9, 11} then 30 else 31
  }

  /** Days of the year before a month. */
  function DaysBefore(year: int, month: int): int
    requires 1 <= month <= 13
    decreases month
  {
    if month == 1 then 0 else DaysBefore(year, month - 1) + DaysInMonth(year, month - 1)
  }

  /** DayFromYear: the day of January 1. */
  function JanuaryFirst(year: int): int {
    365 * (year - 1970) + (year - 1969) / 4 - (year - 1901) / 100 + (year - 1601) / 400
  }

  predicate Valid(d: Date) { 1 <= d.month <= 12 && 1 <= d.day <= DaysInMonth(d.year, d.month) }

  function ToDays(d: Date): int
    requires Valid(d)
  {
    JanuaryFirst(d.year) + DaysBefore(d.year, d.month) + d.day - 1
  }

  // ---------------------------------------------------------------- arithmetic

  /** March 1 of a year of an era, counted within the era. */
  function MarchFirst(y: int): int { 365 * y + y / 4 - y / 100 }

  /** Every day of an era lies in a century, a cycle of four years, a year and a day. */
  lemma SplitEra(dayOfEra: int) returns (c: int, q: int, s: int, r: int)
    requires 0 <= dayOfEra < DAYS_PER_ERA
    ensures dayOfEra == 36524 * c + 1461 * q + 365 * s + r
    ensures 0 <= c < 4 && 0 <= q < 25 && 0 <= s < 4 && 0 <= r <= 365
    ensures r == 365 ==> s == 3 && (q < 24 || c == 3)
  {
    c := if dayOfEra / 36524 < 4 then dayOfEra / 36524 else 3;
    var day := dayOfEra - 36524 * c;
    q := day / 1461;
    day := day - 1461 * q;
    s := if day / 365 < 4 then day / 365 else 3;
    r := day - 365 * s;
  }

  lemma YearOfSplit(c: int, q: int, s: int, r: int)
    requires 0 <= c < 4 && 0 <= q < 25 && 0 <= s < 4 && 0 <= r <= 365
    requires r == 365 ==> s == 3 && (q < 24 || c == 3)
    ensures YearOfEra(36524 * c + 1461 * q + 365 * s + r) == 100 * c + 4 * q + s
  {
    var dayOfEra := 36524 * c + 1461 * q + 365 * s + r;
    var rest := 24 * c + q + 365 * s + r;
    var carry := if rest >= 1460 then 1 else 0;
    assert dayOfEra == 1460 * (25 * c + q) + rest;
    assert dayOfEra / 1460 == 25 * c + q + carry;
    assert dayOfEra / 36524 - dayOfEra / 146096 == c by {
      assert dayOfEra < 36524 * (c + 1) || dayOfEra == 146096;
    }
    assert 0 <= r - carry < 365;
  }

  lemma MarchOfSplit(c: int, q: int, s: int)
    requires 0 <= c < 4 && 0 <= q < 25 && 0 <= s < 4
    ensures MarchFirst(100 * c + 4 * q + s) == 36524 * c + 1461 * q + 365 * s
    ensures s == 3 && (q < 24 || c == 3) ==> Leap(100 * c + 4 * q + s + 1)
  {
    assert (100 * c + 4 * q + s) / 4 == 25 * c + q;
    assert (100 * c + 4 * q + s) / 100 == c;
  }

  /** The year within the era is the one whose March 1 the day follows, by less than a year. */
  lemma YearIsRight(dayOfEra: int)
    requires 0 <= dayOfEra < DAYS_PER_ERA
    ensures 0 <= YearOfEra(dayOfEra) < 400 && 0 <= DayOfYear(dayOfEra) <= 365
    ensures DayOfYear(dayOfEra) == 365 ==> Leap(YearOfEra(dayOfEra) + 1)
    ensures dayOfEra == MarchFirst(YearOfEra(dayOfEra)) + DayOfYear(dayOfEra)
  {
    var c, q, s, r := SplitEra(dayOfEra);
    YearOfSplit(c, q, s, r);
    MarchOfSplit(c, q, s);
  }

  /** Days before a month, in a year that runs from March. */
  function DaysBeforeIndex(index: int): int { (153 * index + 2) / 5 }

  lemma MonthIsRight(dayOfYear: int, year: int)
    requires 0 <= dayOfYear <= 365 && (dayOfYear == 365 ==> Leap(year + 1))
    ensures var index := MonthIndex(dayOfYear);
            var month := index + if index < 10 then 3 else -9;
            var date := Date(if month <= 2 then year + 1 else year, month, dayOfYear - DaysBeforeIndex(index) + 1);
            && Valid(date)
            && DaysBefore(date.year, month) + date.day - 1
               == dayOfYear + if month <= 2 then -306 else 59 + LeapDay(year)
  {
    var index := MonthIndex(dayOfYear);
    assert 0 <= index < 12;
    var y := if index < 10 then year else year + 1;
    assert DaysBefore(y, 1) == 0 && DaysBefore(y, 2) == 31 && DaysBefore(y, 3) == 59 + LeapDay(y);
    assert DaysBefore(y, 4) == 90 + LeapDay(y) && DaysBefore(y, 5) == 120 + LeapDay(y);
    assert DaysBefore(y, 6) == 151 + LeapDay(y) && DaysBefore(y, 7) == 181 + LeapDay(y);
    assert DaysBefore(y, 8) == 212 + LeapDay(y) && DaysBefore(y, 9) == 243 + LeapDay(y);
    assert DaysBefore(y, 10) == 273 + LeapDay(y) && DaysBefore(y, 11) == 304 + LeapDay(y);
    assert DaysBefore(y, 12) == 334 + LeapDay(y);
  }

  lemma FourthYears(year: int)
    ensures (year - 1968) / 4 == (year - 1969) / 4 + if year % 4 == 0 then 1 else 0
  {
  }

  lemma HundredthYears(year: int)
    ensures (year - 1900) / 100 == (year - 1901) / 100 + if year % 100 == 0 then 1 else 0
    ensures year % 100 == 0 ==> year % 4 == 0
  {
  }

  lemma FourHundredthYears(year: int)
    ensures (year - 1600) / 400 == (year - 1601) / 400 + if year % 400 == 0 then 1 else 0
    ensures year % 400 == 0 ==> year % 100 == 0
  {
  }

  /** A year ends where the next one starts. */
  lemma YearsFollow(year: int)
    ensures JanuaryFirst(year + 1) == JanuaryFirst(year) + 365 + LeapDay(year)
  {
    FourthYears(year);
    HundredthYears(year);
    FourHundredthYears(year);
  }

  lemma MarchOfEra(era: int, y: int)
    requires 0 <= y < 400
    ensures var year := y + era * 400;
            JanuaryFirst(year) + 59 + LeapDay(year) == MarchFirst(y) + era * DAYS_PER_ERA - EPOCH_SHIFT
  {
    var year := y + era * 400;
    YearsFollow(year);
    assert (year - 1968) / 4 == y / 4 + 100 * era - 492;
    assert (year - 1900) / 100 == y / 100 + 4 * era - 19;
    assert (year - 1600) / 400 == era - 4;
  }

  lemma By4(n: int, t: int)
    ensures (n + 4 * t) % 4 == n % 4
  {
  }

  lemma By100(n: int, t: int)
    ensures (n + 100 * t) % 100 == n % 100
  {
  }

  lemma By400(n: int, t: int)
    ensures (n + 400 * t) % 400 == n % 400
  {
  }

  lemma LeapYearsRepeat(year: int, era: int)
    ensures Leap(year + era * 400) <==> Leap(year)
  {
    By4(year, 100 * era);
    By100(year, 4 * era);
    By400(year, era);
  }

  lemma FromEraIsRight(era: int, dayOfEra: int)
    requires 0 <= dayOfEra < DAYS_PER_ERA
    ensures Valid(FromEra(era, dayOfEra))
    ensures ToDays(FromEra(era, dayOfEra)) == era * DAYS_PER_ERA + dayOfEra - EPOCH_SHIFT
  {
    hide YearOfEra, DayOfYear, JanuaryFirst, MarchFirst, Leap, MonthIndex, DaysBefore, DaysInMonth;
    var y, dayOfYear := YearOfEra(dayOfEra), DayOfYear(dayOfEra);
    var year := y + era * 400;
    YearIsRight(dayOfEra);
    LeapYearsRepeat(y + 1, era);
    MonthIsRight(dayOfYear, year);
    MarchOfEra(era, y);
    YearsFollow(year);
    var index := MonthIndex(dayOfYear);
    var month := index + if index < 10 then 3 else -9;
    assert FromEra(era, dayOfEra)
        == Date(if month <= 2 then year + 1 else year, month, dayOfYear - DaysBeforeIndex(index) + 1);
  }

  /** The date of a day is a valid one, and it is the date of that day. */
  lemma FromDaysIsRight(days: int)
    ensures Valid(FromDays(days)) && ToDays(FromDays(days)) == days
  {
    var shifted := days + EPOCH_SHIFT;
    var era := shifted / DAYS_PER_ERA;
    FromEraIsRight(era, shifted - era * DAYS_PER_ERA);
  }

  // ---------------------------------------------------------------- order

  predicate Earlier(a: Date, b: Date) {
    a.year < b.year || (a.year == b.year && (a.month < b.month || (a.month == b.month && a.day < b.day)))
  }

  lemma {:induction false} MonthsFollow(year: int, a: int, b: int)
    requires 1 <= a < b <= 13
    ensures DaysBefore(year, a) + DaysInMonth(year, a) <= DaysBefore(year, b)
    decreases b - a
  {
    if b > a + 1 {
      MonthsFollow(year, a, b - 1);
    }
  }

  lemma YearIsCovered(d: Date)
    requires Valid(d)
    ensures JanuaryFirst(d.year) <= ToDays(d) < JanuaryFirst(d.year + 1)
  {
    YearsFollow(d.year);
    var y := d.year;
    if d.month > 1 {
      MonthsFollow(y, 1, d.month);
    }
    MonthsFollow(y, d.month, 13);
    assert DaysBefore(y, 4) == 90 + LeapDay(y) && DaysBefore(y, 7) == 181 + LeapDay(y);
    assert DaysBefore(y, 10) == 273 + LeapDay(y) && DaysBefore(y, 13) == 365 + LeapDay(y);
  }

  lemma {:induction false} YearsAreOrdered(a: int, b: int)
    requires a <= b
    ensures JanuaryFirst(a) <= JanuaryFirst(b)
    decreases b - a
  {
    if a < b {
      YearsAreOrdered(a, b - 1);
      YearsFollow(b - 1);
    }
  }

  /** Dates are in the order of their days. */
  lemma DatesAreOrdered(a: Date, b: Date)
    requires Valid(a) && Valid(b) && Earlier(a, b)
    ensures ToDays(a) < ToDays(b)
  {
    if a.year < b.year {
      YearIsCovered(a);
      YearIsCovered(b);
      YearsAreOrdered(a.year + 1, b.year);
    } else if a.month < b.month {
      MonthsFollow(a.year, a.month, b.month);
    }
  }

  /** Every valid date is the one its day is shown as. */
  lemma DatesAreUnique(d: Date)
    requires Valid(d)
    ensures FromDays(ToDays(d)) == d
  {
    var shown := FromDays(ToDays(d));
    FromDaysIsRight(ToDays(d));
    if Earlier(shown, d) {
      DatesAreOrdered(shown, d);
    } else if Earlier(d, shown) {
      DatesAreOrdered(d, shown);
    }
  }
}
