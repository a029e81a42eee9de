/**
 Reading the written timestamps back: every one has the form of ISO 8601, with a
 signed six-digit year outside 0 to 9999, and its digits are those of its instant.
 */
module TimestampReading {
  import opened Calendar
  import opened Numbers
  import opened Options
  import opened Timestamps

  /** The number the digits of a part of a text stand for. */
  function NumberAt(text: string, from: nat, to: nat): Option<nat> {
    if from <= to <= |text| && Digits(text[from..to]) then Some(Value(text[from..to])) else None
  }

  /** The separators of "-MM-DDThh:mm:ss.sssZ". */
  predicate Separated(text: string) {
    && |text| == 20
    && text[0] == '-' && text[3] == '-' && text[6] == 'T' && text[9] == ':' && text[12] == ':' && text[15] == '.'
    && text[19] == 'Z'
  }

  /** The instant that the text after the year tells, for the year. */
  function ReadRest(year: int, text: string): Option<Instant> {
    if !Separated(text) then None
    else
      match (NumberAt(text, 1, 3), NumberAt(text, 4, 6), NumberAt(text, 7, 9), NumberAt(text, 10, 12),
             NumberAt(text, 13, 15), NumberAt(text, 16, 19))
      case (Some(month), Some(day), Some(hour), Some(minute), Some(second), Some(milli)) =>
        Some(Instant(Date(year, month, day), hour, minute, second, milli))
      case _ => None
  }

  /** Four digits, or a sign and six. */
  function Read(text: string): Option<Instant> {
    if |text| == 24 && NumberAt(text, 0, 4).Some? then ReadRest(NumberAt(text, 0, 4).value, text[4..])
    else if |text| == 27 && text[0] in {'+', '-'} && NumberAt(text, 1, 7).Some? then
      var year: int := NumberAt(text, 1, 7).value;
      ReadRest(if text[0] == '-' then -year else year, text[7..])
    else None
  }

  /** A padded number has its width, and stands for itself. */
  lemma {:induction false} PadReads(n: nat, width: nat)
    requires width >= 1 && n < Power10(width)
    ensures |Pad(n, width)| == width && Digits(Pad(n, width)) && Value(Pad(n, width)) == n
  {
    var text := Pad(n, width);
    if width == 1 {
      assert Power10(1) == 10;
      assert text[..0] == "";
    } else {
      PadReads(n / 10, width - 1);
      assert text[..|text| - 1] == Pad(n / 10, width - 1);
    }
  }

  function RestText(i: Instant): string
    requires ValidInstant(i)
  {
    "-" + FieldsText(AfterYear(i))
  }

  lemma RestIsJoined(i: Instant)
    requires ValidInstant(i)
    ensures RestText(i)
         == "-" + Pad(i.date.month, 2) + "-" + Pad(i.date.day, 2) + "T" + Pad(i.hour, 2) + ":" + Pad(i.minute, 2)
            + ":" + Pad(i.second, 2) + "." + Pad(i.milli, 3) + "Z"
  {
    var f := AfterYear(i);
    assert FieldsText(f[5..]) == Pad(i.milli, 3) + "Z" by { assert f[5..][1..] == []; }
    assert FieldsText(f[4..]) == Pad(i.second, 2) + "." + FieldsText(f[5..]) by { assert f[4..][1..] == f[5..]; }
    assert FieldsText(f[3..]) == Pad(i.minute, 2) + ":" + FieldsText(f[4..]) by { assert f[3..][1..] == f[4..]; }
    assert FieldsText(f[2..]) == Pad(i.hour, 2) + ":" + FieldsText(f[3..]) by { assert f[2..][1..] == f[3..]; }
    assert FieldsText(f[1..]) == Pad(i.date.day, 2) + "T" + FieldsText(f[2..]) by { assert f[1..][1..] == f[2..]; }
    assert f == f[0..];
  }

  lemma PartsOf(mo: string, d: string, h: string, mi: string, s: string, ms: string)
    requires |mo| == |d| == |h| == |mi| == |s| == 2 && |ms| == 3
    ensures var text := "-" + mo + "-" + d + "T" + h + ":" + mi + ":" + s + "." + ms + "Z";
      && Separated(text)
      && text[1..3] == mo && text[4..6] == d && text[7..9] == h && text[10..12] == mi && text[13..15] == s
      && text[16..19] == ms
  {
  }

  lemma RestReads(i: Instant)
    requires ValidInstant(i)
    ensures |RestText(i)| == 20 && ReadRest(i.date.year, RestText(i)) == Some(i)
  {
    RestIsJoined(i);
    assert Power10(2) == 100 && Power10(3) == 1000;
    PadReads(i.date.month, 2);
    PadReads(i.date.day, 2);
    PadReads(i.hour, 2);
    PadReads(i.minute, 2);
    PadReads(i.second, 2);
    PadReads(i.milli, 3);
    hide Pad, Power10, Value, Digits, RestText, Separated;
    PartsOf(Pad(i.date.month, 2), Pad(i.date.day, 2), Pad(i.hour, 2), Pad(i.minute, 2), Pad(i.second, 2), Pad(i.milli, 3));
    assert |RestText(i)| == 20;
  }

  lemma ShortYearReads(digits: string, rest: string)
    requires |digits| == 4 && Digits(digits) && |rest| == 20
    ensures Read(digits + rest) == ReadRest(Value(digits), rest)
  {
    hide ReadRest;
    var text := digits + rest;
    assert text[0..4] == digits && text[4..] == rest;
  }

  lemma LongYearReads(sign: char, digits: string, rest: string)
    requires sign in {'+', '-'} && |digits| == 6 && Digits(digits) && |rest| == 20
    ensures Read([sign] + digits + rest) == ReadRest(if sign == '-' then -(Value(digits) as int) else Value(digits), rest)
  {
    hide ReadRest;
    var text := [sign] + digits + rest;
    assert text[1..7] == digits && text[7..] == rest && |text| == 27 && text[0] == sign;
  }

  lemma YearReads(year: int, rest: string)
    requires -999_999 <= year <= 999_999 && |rest| == 20
    ensures Read(YearText(year) + rest) == ReadRest(year, rest)
  {
    assert Power10(4) == 10_000 && Power10(6) == 1_000_000;
    hide Power10, Pad, Read, ReadRest, Value, Digits;
    if 0 <= year <= 9999 {
      PadReads(year, 4);
      ShortYearReads(Pad(year, 4), rest);
    } else {
      var size: nat := if year < 0 then -year else year;
      PadReads(size, 6);
      LongYearReads(if year < 0 then '-' else '+', Pad(size, 6), rest);
    }
  }

  /** The text of an instant up to year 999999 reads back as that instant. */
  lemma TextReadsBack(i: Instant)
    requires ValidInstant(i) && -999_999 <= i.date.year <= 999_999
    ensures Read(Text(i)) == Some(i)
  {
    RestReads(i);
    YearReads(i.date.year, RestText(i));
    hide Read, ReadRest, Pad, YearText, FieldsText;
    assert Text(i) == YearText(i.date.year) + RestText(i);
  }

  /** What `iso_date` writes reads back as the instant of the whole milliseconds it was given. */
  lemma IsoDateReadsBack(millis: real)
    requires -(MAX_TIME as real) <= millis <= MAX_TIME as real
    ensures IsoDate(Some(millis)).Ok?
    ensures var i := Read(IsoDate(Some(millis)).value);
      i.Some? && ValidInstant(i.value) && ToMillis(i.value) == Truncate(millis)
  {
    var whole := Truncate(millis);
    FromMillisIsRight(whole);
    YearsHaveSixDigits(whole);
    TextReadsBack(FromMillis(whole));
  }

  /** The same of `iso_timestamp`, in its range. */
  lemma IsoTimestampReadsBack(nanos: int)
    requires -MAX_TIME <= WholeMillis(nanos) <= MAX_TIME
    ensures var i := Read(IsoTimestamp(nanos));
      i.Some? && ValidInstant(i.value) && ToMillis(i.value) == WholeMillis(nanos)
  {
    FromMillisIsRight(WholeMillis(nanos));
    YearsHaveSixDigits(WholeMillis(nanos));
    TextReadsBack(FromMillis(WholeMillis(nanos)));
  }

  /** Cutting off the fraction of a millisecond moves a time toward the epoch, by less than a millisecond. */
  lemma WholeMillisTruncates(nanos: int, millis: real)
    ensures var whole := WholeMillis(nanos);
      if nanos >= 0 then 1_000_000 * whole <= nanos < 1_000_000 * (whole + 1)
      else 1_000_000 * (whole - 1) < nanos <= 1_000_000 * whole
    ensures var whole := Truncate(millis);
      if millis >= 0.0 then whole as real <= millis < whole as real + 1.0
      else whole as real - 1.0 < millis <= whole as real
  {
  }
}
