/**
 The three timestamp writers (rust/src/native_login.rs:332-362,
 rust/src/settings.rs:168-196 and rust/src/git/mod.rs:721-743): the text they
 write, the time it stands for, and the order of both.
 */
module Timestamps {
  import opened Calendar
  import opened Numbers
  import opened Options

  const MILLIS_PER_DAY := 86_400_000

  datatype Instant = Instant(date: Date, hour: int, minute: int, second: int, milli: int)

  predicate ValidInstant(i: Instant) {
    Valid(i.date) && 0 <= i.hour < 24 && 0 <= i.minute < 60 && 0 <= i.second < 60 && 0 <= i.milli < 1000
  }

  function ToMillis(i: Instant): int
    requires Valid(i.date)
  {
    MILLIS_PER_DAY * ToDays(i.date) + 3_600_000 * i.hour + 60_000 * i.minute + 1000 * i.second + i.milli
  }

  /** The instant of a count of milliseconds; the divisions are Euclidean, as in the source. */
  function FromMillis(millis: int): Instant {
    var time := millis % MILLIS_PER_DAY;
    Instant(FromDays(millis / MILLIS_PER_DAY), time / 3_600_000, time / 60_000 % 60, time / 1000 % 60, time % 1000)
  }

  // ---------------------------------------------------------------- text

  /** Decimal digits, with zeros in front up to a width. */
  function Pad(n: nat, width: nat): string {
    if n < 10 && width <= 1 then [Digit(n)]
    else Pad(n / 10, if width > 0 then width - 1 else 0) + [Digit(n % 10)]
  }

  datatype Field = Field(value: nat, width: nat, separator: char)

  function FieldsText(fields: seq<Field>): string {
    if fields == [] then ""
    else Pad(fields[0].value, fields[0].width) + [fields[0].separator] + FieldsText(fields[1..])
  }

  function YearText(year: int): string {
    if 0 <= year <= 9999 then Pad(year, 4)
    else if year < 0 then "-" + Pad(-year, 6) else "+" + Pad(year, 6)
  }

  function AfterYear(i: Instant): seq<Field>
    requires ValidInstant(i)
  {
    [Field(i.date.month, 2, '-'), Field(i.date.day, 2, 'T'), Field(i.hour, 2, ':'), Field(i.minute, 2, ':'),
     Field(i.second, 2, '.'), Field(i.milli, 3, 'Z')]
  }

  function Text(i: Instant): string
    requires ValidInstant(i)
  {
    YearText(i.date.year) + "-" + FieldsText(AfterYear(i))
  }

  // ---------------------------------------------------------------- the three writers

  function Truncate(r: real): int { if r >= 0.0 then r.Floor else -((-r).Floor) }

  /** Whole milliseconds, toward zero on both sides of the epoch. */
  function WholeMillis(nanos: int): int { if nanos >= 0 then nanos / 1_000_000 else -((-nanos) / 1_000_000) }

  const MAX_TIME := 8_640_000_000_000_000

  /** `iso_date`; None is a number that is not finite. */
  function IsoDate(millis: Option<real>): Result<string, string> {
    if millis.None? || millis.value > MAX_TIME as real || millis.value < -(MAX_TIME as real)
    then Err("Invalid time value")
    else
      FromMillisIsRight(Truncate(millis.value));
      Ok(Text(FromMillis(Truncate(millis.value))))
  }

  /** `iso_timestamp`, from a signed count of nanoseconds. */
  function IsoTimestamp(nanos: int): string {
    FromMillisIsRight(WholeMillis(nanos));
    Text(FromMillis(WholeMillis(nanos)))
  }

  /** The text of `observed_at`, which does not sign late years. */
  function UnsignedText(i: Instant): string
    requires ValidInstant(i) && i.date.year >= 0
  {
    Pad(i.date.year, 4) + "-" + FieldsText(AfterYear(i))
  }

  /** `observed_at`, which has its own division of the day. */
  function ObservedAt(seconds: nat, subsecMillis: nat): string
    requires subsecMillis < 1000
  {
    FromDaysIsRight(seconds / 86400);
    LateYear(seconds / 86400);
    UnsignedText(Instant(FromDays(seconds / 86400), seconds / 3600 % 24, seconds / 60 % 60, seconds % 60, subsecMillis))
  }

  // ---------------------------------------------------------------- round trip

  /** A timestamp is a valid proleptic Gregorian instant, and it maps back to the count it was made from. */
  lemma FromMillisIsRight(millis: int)
    ensures ValidInstant(FromMillis(millis)) && ToMillis(FromMillis(millis)) == millis
  {
    FromDaysIsRight(millis / MILLIS_PER_DAY);
    TimeOfDay(millis % MILLIS_PER_DAY);
  }

  lemma TimeOfDay(time: int)
    requires 0 <= time < MILLIS_PER_DAY
    ensures 0 <= time / 3_600_000 < 24
    ensures 3_600_000 * (time / 3_600_000) + 60_000 * (time / 60_000 % 60) + 1000 * (time / 1000 % 60) + time % 1000 == time
  {
    var minutes, seconds := time / 60_000, time / 1000;
    assert minutes / 60 == time / 3_600_000;
    assert seconds / 60 == minutes;
  }

  lemma LateYear(days: int)
    requires days >= 0
    ensures FromDays(days).year >= 1970
  {
    FromDaysIsRight(days);
    var date := FromDays(days);
    if date.year < 1970 {
      YearIsCovered(date);
      YearsAreOrdered(date.year + 1, 1970);
    }
  }

  /** In the time range of ECMA-262 the year has at most six digits. */
  lemma YearsHaveSixDigits(millis: int)
    requires -MAX_TIME <= millis <= MAX_TIME
    ensures -271821 <= FromMillis(millis).date.year <= 275760
  {
    var days := millis / MILLIS_PER_DAY;
    var date := FromDays(days);
    FromDaysIsRight(days);
    YearIsCovered(date);
    if date.year > 275760 {
      YearsAreOrdered(275761, date.year);
    } else if date.year < -271821 {
      YearsAreOrdered(date.year + 1, -271821);
    }
  }

  predicate InI64(n: int) { -0x8000_0000_0000_0000 <= n < 0x8000_0000_0000_0000 }

  /** Nothing overflows 64 bits on the way. */
  lemma IntermediatesFit(millis: int)
    requires -MAX_TIME <= millis <= MAX_TIME
    ensures var shifted := millis / MILLIS_PER_DAY + EPOCH_SHIFT;
            var era := shifted / DAYS_PER_ERA;
            var dayOfEra := shifted - era * DAYS_PER_ERA;
            && InI64(shifted) && InI64(era * DAYS_PER_ERA) && InI64(dayOfEra)
            && InI64(YearOfEra(dayOfEra) + era * 400 + 1) && InI64(365 * YearOfEra(dayOfEra))
            && InI64(5 * DayOfYear(dayOfEra) + 2) && InI64(153 * MonthIndex(DayOfYear(dayOfEra)) + 2)
  {
    var shifted := millis / MILLIS_PER_DAY + EPOCH_SHIFT;
    var era := shifted / DAYS_PER_ERA;
    YearIsRight(shifted - era * DAYS_PER_ERA);
  }

  // ---------------------------------------------------------------- the copies agree

  lemma SecondOfDay(days: nat, second: nat)
    requires second < 86400
    ensures var seconds := 86400 * days + second;
            seconds / 3600 % 24 == second / 3600 && seconds / 60 % 60 == second / 60 % 60 && seconds % 60 == second % 60
  {
    var seconds := 86400 * days + second;
    assert seconds / 3600 == 24 * days + second / 3600;
    assert seconds / 60 == 60 * (24 * days) + second / 60;
  }

  lemma MilliOfDay(days: nat, second: nat, milli: nat)
    requires second < 86400 && milli < 1000
    ensures var millis := MILLIS_PER_DAY * days + (1000 * second + milli);
            millis / MILLIS_PER_DAY == days && millis % MILLIS_PER_DAY == 1000 * second + milli
  {
  }

  lemma MilliOfSecond(second: nat, milli: nat)
    requires milli < 1000
    ensures var time := 1000 * second + milli;
            time / 3_600_000 == second / 3600 && time / 60_000 == second / 60 && time / 1000 == second
            && time % 1000 == milli
  {
    var time := 1000 * second + milli;
    assert time / 1000 == second;
    assert time / 60_000 == second / 60;
    assert time / 3_600_000 == second / 3600;
  }

  lemma SameInstant(seconds: nat, subsecMillis: nat)
    requires subsecMillis < 1000
    ensures FromMillis(seconds * 1000 + subsecMillis)
         == Instant(FromDays(seconds / 86400), seconds / 3600 % 24, seconds / 60 % 60, seconds % 60, subsecMillis)
  {
    hide FromDays;
    var days, second := seconds / 86400, seconds % 86400;
    SecondOfDay(days, second);
    MilliOfDay(days, second, subsecMillis);
    MilliOfSecond(second, subsecMillis);
    assert seconds * 1000 + subsecMillis == MILLIS_PER_DAY * days + (1000 * second + subsecMillis);
  }

  /** The text of a year starts with a digit exactly when it is not signed. */
  lemma {:induction false} PadStartsWithDigit(n: nat, width: nat)
    ensures Pad(n, width) != "" && '0' <= Pad(n, width)[0] <= '9'
  {
    if n >= 10 || width > 1 {
      PadStartsWithDigit(n / 10, if width > 0 then width - 1 else 0);
    }
  }

  /** `iso_date` and `iso_timestamp` write the same text for the same millisecond. */
  lemma DateAndTimestampAgree(nanos: int)
    requires -MAX_TIME <= WholeMillis(nanos) <= MAX_TIME
    ensures IsoDate(Some(WholeMillis(nanos) as real)) == Ok(IsoTimestamp(nanos))
  {
    var millis := WholeMillis(nanos);
    assert Truncate(millis as real) == millis;
  }

  lemma TextsAgree(i: Instant)
    requires ValidInstant(i) && i.date.year >= 0
    ensures UnsignedText(i) == Text(i) <==> i.date.year <= 9999
  {
    if i.date.year > 9999 {
      PadStartsWithDigit(i.date.year, 4);
      assert Text(i)[0] == '+' && UnsignedText(i)[0] == Pad(i.date.year, 4)[0];
    }
  }

  lemma TimestampOfMillis(millis: nat, nanos: nat)
    requires nanos < 1_000_000
    ensures ValidInstant(FromMillis(millis))
    ensures IsoTimestamp(millis * 1_000_000 + nanos) == Text(FromMillis(millis))
  {
    FromMillisIsRight(millis);
    assert WholeMillis(millis * 1_000_000 + nanos) == millis;
  }

  lemma ObservedAtOfMillis(seconds: nat, subsecMillis: nat)
    requires subsecMillis < 1000
    ensures var i := FromMillis(seconds * 1000 + subsecMillis);
            ValidInstant(i) && i.date.year >= 0 && ObservedAt(seconds, subsecMillis) == UnsignedText(i)
  {
    hide FromMillis, FromDays, UnsignedText;
    SameInstant(seconds, subsecMillis);
    FromMillisIsRight(seconds * 1000 + subsecMillis);
    LateYear(seconds / 86400);
  }

  /** `observed_at` agrees with the others exactly up to the year 9999. */
  lemma ObservedAtAgreesExactly(seconds: nat, subsecMillis: nat, nanos: nat)
    requires subsecMillis < 1000 && nanos < 1_000_000
    ensures var millis := seconds * 1000 + subsecMillis;
            ObservedAt(seconds, subsecMillis) == IsoTimestamp(millis * 1_000_000 + nanos)
            <==> FromMillis(millis).date.year <= 9999
  {
    var millis := seconds * 1000 + subsecMillis;
    hide FromMillis, WholeMillis, ObservedAt, IsoTimestamp, Text, UnsignedText;
    ObservedAtOfMillis(seconds, subsecMillis);
    TimestampOfMillis(millis, nanos);
    TextsAgree(FromMillis(millis));
  }

  // ---------------------------------------------------------------- order

  /** The order of strings by their first different character. */
  predicate Less(a: string, b: string) {
    if b == "" then false
    else if a == "" then true
    else a[0] < b[0] || (a[0] == b[0] && Less(a[1..], b[1..]))
  }

  lemma {:induction false} LessIsAsymmetric(a: string, b: string)
    requires Less(a, b)
    ensures !Less(b, a)
  {
    if a != "" && a[0] == b[0] {
      LessIsAsymmetric(a[1..], b[1..]);
    }
  }

  lemma {:induction false} CommonPrefix(prefix: string, a: string, b: string)
    ensures Less(prefix + a, prefix + b) <==> Less(a, b)
  {
    if prefix == "" {
      assert prefix + a == a && prefix + b == b;
    } else {
      CommonPrefix(prefix[1..], a, b);
      assert (prefix + a)[1..] == prefix[1..] + a && (prefix + b)[1..] == prefix[1..] + b;
    }
  }

  function Power10(w: nat): (p: nat)
    ensures p >= 1
  {
    if w == 0 then 1 else 10 * Power10(w - 1)
  }

  /** Numbers of one width are in the order of their digits, whatever follows. */
  lemma {:induction false} PadIsOrdered(a: nat, b: nat, width: nat, x: string, y: string)
    requires a < b < Power10(width)
    ensures Less(Pad(a, width) + x, Pad(b, width) + y)
    decreases width
  {
    if width <= 1 {
      assert Power10(1) == 10;
      assert ([Digit(a)] + x)[0] == Digit(a) && ([Digit(b)] + y)[0] == Digit(b);
    } else {
      var high := Pad(a / 10, width - 1);
      var s, t := [Digit(a % 10)] + x, [Digit(b % 10)] + y;
      assert Pad(a, width) + x == high + s;
      assert Pad(b, width) + y == Pad(b / 10, width - 1) + t;
      if a / 10 == b / 10 {
        assert s[0] < t[0];
        CommonPrefix(high, s, t);
      } else {
        PadIsOrdered(a / 10, b / 10, width - 1, s, t);
      }
    }
  }

  /** Lists of fields of the same widths and separators, the first with a smaller first different value. */
  predicate FieldsLess(a: seq<Field>, b: seq<Field>)
    requires |a| == |b|
  {
    a != [] && a[0].width == b[0].width && a[0].separator == b[0].separator && b[0].value < Power10(b[0].width)
    && (a[0].value < b[0].value || (a[0].value == b[0].value && FieldsLess(a[1..], b[1..])))
  }

  lemma {:induction false} FieldsAreOrdered(a: seq<Field>, b: seq<Field>)
    requires |a| == |b| && FieldsLess(a, b)
    ensures Less(FieldsText(a), FieldsText(b))
  {
    var p, q := Pad(a[0].value, a[0].width), Pad(b[0].value, b[0].width);
    var x, y := [a[0].separator] + FieldsText(a[1..]), [b[0].separator] + FieldsText(b[1..]);
    assert FieldsText(a) == p + x && FieldsText(b) == q + y;
    if a[0].value < b[0].value {
      PadIsOrdered(a[0].value, b[0].value, a[0].width, x, y);
    } else {
      FieldsAreOrdered(a[1..], b[1..]);
      CommonPrefix([a[0].separator], FieldsText(a[1..]), FieldsText(b[1..]));
      CommonPrefix(p, x, y);
    }
  }

  function AllFields(i: Instant): seq<Field>
    requires ValidInstant(i) && i.date.year >= 0
  {
    [Field(i.date.year, 4, '-')] + AfterYear(i)
  }

  lemma TextOfFields(i: Instant)
    requires ValidInstant(i) && 0 <= i.date.year <= 9999
    ensures Text(i) == FieldsText(AllFields(i))
  {
    assert AllFields(i)[1..] == AfterYear(i);
  }

  predicate EarlierInDay(a: Instant, b: Instant) {
    a.hour < b.hour || (a.hour == b.hour && (a.minute < b.minute || (a.minute == b.minute
      && (a.second < b.second || (a.second == b.second && a.milli < b.milli)))))
  }

  lemma MillisOrder(a: Instant, b: Instant)
    requires ValidInstant(a) && ValidInstant(b) && ToMillis(a) < ToMillis(b)
    ensures Earlier(a.date, b.date) || (a.date == b.date && EarlierInDay(a, b))
  {
    if Earlier(b.date, a.date) {
      DatesAreOrdered(b.date, a.date);
    }
  }

  lemma DateFieldsLess(a: Instant, b: Instant)
    requires ValidInstant(a) && ValidInstant(b)
    requires 0 <= a.date.year <= 9999 && 0 <= b.date.year <= 9999
    requires Earlier(a.date, b.date) || (a.date == b.date && EarlierInDay(a, b))
    ensures FieldsLess(AllFields(a), AllFields(b))
  {
    assert Power10(2) == 100 && Power10(3) == 1000 && Power10(4) == 10000;
    var f, g := AllFields(a), AllFields(b);
    var date := a.date == b.date;
    assert date && a.hour == b.hour && a.minute == b.minute && a.second == b.second ==> FieldsLess(f[6..], g[6..]);
    assert date && a.hour == b.hour && a.minute == b.minute ==> FieldsLess(f[5..], g[5..]);
    assert date && a.hour == b.hour ==> FieldsLess(f[4..], g[4..]);
    assert date ==> FieldsLess(f[3..], g[3..]);
    assert a.date.year == b.date.year && a.date.month == b.date.month ==> FieldsLess(f[2..], g[2..]);
    assert a.date.year == b.date.year ==> FieldsLess(f[1..], g[1..]);
  }

  predicate FourDigitYear(i: Instant) { ValidInstant(i) && 0 <= i.date.year <= 9999 }

  lemma EarlierTextIsLess(i: Instant, j: Instant)
    requires FourDigitYear(i) && FourDigitYear(j) && ToMillis(i) < ToMillis(j)
    ensures Less(Text(i), Text(j))
  {
    MillisOrder(i, j);
    DateFieldsLess(i, j);
    TextOfFields(i);
    TextOfFields(j);
    FieldsAreOrdered(AllFields(i), AllFields(j));
  }

  /** From year 0 to year 9999, the order of the texts is the order of the times. */
  lemma TextOrderIsTimeOrder(i: Instant, j: Instant)
    requires FourDigitYear(i) && FourDigitYear(j)
    ensures Less(Text(i), Text(j)) <==> ToMillis(i) < ToMillis(j)
  {
    hide Text, ToMillis;
    if ToMillis(i) < ToMillis(j) {
      EarlierTextIsLess(i, j);
    } else if ToMillis(j) < ToMillis(i) {
      EarlierTextIsLess(j, i);
      LessIsAsymmetric(Text(j), Text(i));
    } else if Less(Text(i), Text(j)) {
      SameMillis(i, j);
      LessIsAsymmetric(Text(i), Text(j));
    }
  }

  /** A count of milliseconds belongs to one instant only. */
  lemma SameMillis(i: Instant, j: Instant)
    requires ValidInstant(i) && ValidInstant(j) && ToMillis(i) == ToMillis(j)
    ensures i == j
  {
    if Earlier(i.date, j.date) {
      DatesAreOrdered(i.date, j.date);
    } else if Earlier(j.date, i.date) {
      DatesAreOrdered(j.date, i.date);
    }
  }

  /** Writing an instant's time undoes reading its count. */
  lemma InstantsAreUnique(i: Instant)
    requires ValidInstant(i)
    ensures FromMillis(ToMillis(i)) == i
  {
    hide FromMillis, ToMillis;
    FromMillisIsRight(ToMillis(i));
    SameMillis(FromMillis(ToMillis(i)), i);
  }
}
