/**
 Paging over the audit log (src/operations/audit-log.ts:109-143, 303-310,
 362-394). Every query scans the file as it is then, with whatever part of the
 last line has been written, and its cursor counts matching events.
 */
module AuditPaging {
  import Arguments
  import ArgumentsTheorems
  import opened Numbers
  import opened Options

  datatype AuditEvent = AuditEvent(
    id: string, time: Option<int>, source: string, event: string, operation: Option<string>, outcome: Option<string>)

  /**
   How a text is read: `JSON.parse` and `isAuditEvent` on a line, and the
   characters that end a line. Nothing is assumed of either. Where two characters
   end one line, the empty line between them is skipped like any blank one.
   */
  datatype Reader = Reader(parse: string -> Option<AuditEvent>, isEnd: char -> bool)

  /** `Number`, where it gives a finite number. */
  type NumberReader = string -> Option<real>

  /** The filters of a query; a time outside the range, or none, does not match a time filter. */
  datatype Filter = Filter(
    since: Option<int>, until: Option<int>, source: Option<string>, event: Option<string>,
    operation: Option<string>, outcome: Option<string>)

  predicate Matches(f: Filter, e: AuditEvent) {
    && (f.since.Some? ==> e.time.Some? && e.time.value >= f.since.value)
    && (f.until.Some? ==> e.time.Some? && e.time.value <= f.until.value)
    && (f.source.Some? ==> e.source == f.source.value)
    && (f.event.Some? ==> e.event == f.event.value)
    && (f.operation.Some? ==> e.operation == f.operation)
    && (f.outcome.Some? ==> e.outcome == f.outcome)
  }

  // ---------------------------------------------------------------- the file

  predicate Blank(line: string) { forall i :: 0 <= i < |line| ==> Arguments.Whitespace(line[i]) }

  /** What a line contributes to a scan. */
  function Seen(reader: Reader, line: string): seq<AuditEvent> {
    if Blank(line) || reader.parse(line).None? then [] else [reader.parse(line).value]
  }

  function EventsOf(reader: Reader, lines: seq<string>): seq<AuditEvent> {
    if lines == [] then [] else EventsOf(reader, lines[..|lines| - 1]) + Seen(reader, lines[|lines| - 1])
  }

  function InvalidOf(reader: Reader, lines: seq<string>): nat {
    if lines == [] then 0
    else
      var last := lines[|lines| - 1];
      InvalidOf(reader, lines[..|lines| - 1]) + if !Blank(last) && reader.parse(last).None? then 1 else 0
  }

  /** The finished lines of a text and what follows the last line end. */
  function Pieces(reader: Reader, text: string): (seq<string>, string) {
    if text == "" then ([], "")
    else
      var (lines, tail) := Pieces(reader, text[..|text| - 1]);
      var last := text[|text| - 1];
      if reader.isEnd(last) then (lines + [tail], "") else (lines, tail + [last])
  }

  /** The lines a scan visits. */
  function LinesOf(reader: Reader, text: string): seq<string> {
    var (lines, tail) := Pieces(reader, text);
    if tail == "" then lines else lines + [tail]
  }

  function Filtered(f: Filter, events: seq<AuditEvent>): seq<AuditEvent> {
    if events == [] then []
    else
      var last := events[|events| - 1];
      Filtered(f, events[..|events| - 1]) + if Matches(f, last) then [last] else []
  }

  /** The matching events of the file as it is. */
  function View(reader: Reader, f: Filter, text: string): seq<AuditEvent> {
    Filtered(f, EventsOf(reader, LinesOf(reader, text)))
  }

  // ---------------------------------------------------------------- a query

  const MAX_SAFE_INTEGER: nat := 9_007_199_254_740_991

  datatype Page = Page(items: seq<AuditEvent>, nextCursor: Option<string>, hasMore: bool, total: nat, invalidLines: nat)

  /** `parseCursor`: no cursor or an empty one is the start, any other text must be a safe integer of at least zero. */
  function ParseCursor(number: NumberReader, cursor: Option<string>): Result<nat, string> {
    if cursor.None? || cursor.value == "" then Ok(0)
    else
      var value := number(cursor.value);
      if value.Some? && value.value.Floor as real == value.value && 0.0 <= value.value <= MAX_SAFE_INTEGER as real
      then
        var offset: nat := value.value.Floor;
        Ok(offset)
      else Err("cursor must be a non-negative integer string.")
  }

  /** The items of a page: up to `limit` of them, from the offset on. */
  function Slice(all: seq<AuditEvent>, offset: nat, limit: nat): seq<AuditEvent> {
    all[Min(offset, |all|)..Min(offset + limit, |all|)]
  }

  /** The offset to go on from, if there is more. */
  function NextOffset(all: seq<AuditEvent>, offset: nat, limit: nat): Option<nat> {
    var next := offset + |Slice(all, offset, limit)|;
    if next < |all| then Some(next) else None
  }

  /** One scan: the items of the page, and what is counted beside them. */
  method Scan(reader: Reader, lines: seq<string>, f: Filter, offset: nat, limit: nat)
    returns (items: seq<AuditEvent>, total: nat, invalid: nat)
    ensures total == |Filtered(f, EventsOf(reader, lines))|
    ensures items == Slice(Filtered(f, EventsOf(reader, lines)), offset, limit)
    ensures invalid == InvalidOf(reader, lines)
  {
    items, total, invalid := [], 0, 0;
    ghost var seen: seq<AuditEvent> := [];
    var k := 0;
    while k < |lines|
      invariant k <= |lines|
      invariant seen == Filtered(f, EventsOf(reader, lines[..k]))
      invariant total == |seen| && items == Slice(seen, offset, limit)
      invariant invalid == InvalidOf(reader, lines[..k])
    {
      var line := lines[k];
      LineScanned(reader, f, lines, k);
      k := k + 1;
      if Blank(line) {
        continue;
      }
      var parsed := reader.parse(line);
      if parsed.None? {
        invalid := invalid + 1;
        continue;
      }
      var e := parsed.value;
      if (f.since.Some? && (e.time.None? || e.time.value < f.since.value))
         || (f.until.Some? && (e.time.None? || e.time.value > f.until.value)) {
        continue;
      }
      if (f.source.Some? && e.source != f.source.value) || (f.event.Some? && e.event != f.event.value)
         || (f.operation.Some? && e.operation != f.operation) || (f.outcome.Some? && e.outcome != f.outcome) {
        continue;
      }
      SliceSnoc(seen, e, offset, limit);
      seen := seen + [e];
      if total >= offset && |items| < limit {
        items := items + [e];
      }
      total := total + 1;
    }
    assert lines[..k] == lines;
  }

  method Query(reader: Reader, number: NumberReader, file: string, f: Filter, cursor: Option<string>, limit: nat)
    returns (result: Result<Page, string>)
    ensures result.Err? <==> ParseCursor(number, cursor).Err?
    ensures result.Ok? ==>
              var all, offset, page := View(reader, f, file), ParseCursor(number, cursor).value, result.value;
              && page.items == Slice(all, offset, limit) && page.total == |all|
              && page.invalidLines == InvalidOf(reader, LinesOf(reader, file))
              && page.hasMore == page.nextCursor.Some? == NextOffset(all, offset, limit).Some?
              && (page.hasMore ==> page.nextCursor == Some(Decimal(NextOffset(all, offset, limit).value)))
  {
    var start := ParseCursor(number, cursor);
    if start.Err? {
      return Err(start.error);
    }
    var items, total, invalid := Scan(reader, LinesOf(reader, file), f, start.value, limit);
    var nextOffset := start.value + |items|;
    result := Ok(Page(
      items, if nextOffset < total then Some(Decimal(nextOffset)) else None, nextOffset < total, total, invalid));
  }

  lemma {:induction false} FilteredMembers(f: Filter, events: seq<AuditEvent>, e: AuditEvent)
    ensures e in Filtered(f, events) <==> e in events && Matches(f, e)
  {
    if events != [] {
      var n := |events| - 1;
      FilteredMembers(f, events[..n], e);
      assert events == events[..n] + [events[n]];
    }
  }

  /**
   What a query looks through: exactly the events of the file that are in the time
   range, have a time if there is a range, and carry every value asked for.
   */
  lemma QueryLooksThrough(reader: Reader, f: Filter, file: string, e: AuditEvent)
    ensures e in View(reader, f, file) <==>
      && e in EventsOf(reader, LinesOf(reader, file))
      && !(f.since.Some? && (e.time.None? || e.time.value < f.since.value))
      && !(f.until.Some? && (e.time.None? || e.time.value > f.until.value))
      && f.source in {None, Some(e.source)} && f.event in {None, Some(e.event)}
      && f.operation in {None, e.operation} && f.outcome in {None, e.outcome}
  {
    FilteredMembers(f, EventsOf(reader, LinesOf(reader, file)), e);
  }

  function Matched(reader: Reader, f: Filter, line: string): seq<AuditEvent> {
    if !Blank(line) && reader.parse(line).Some? && Matches(f, reader.parse(line).value) then [reader.parse(line).value] else []
  }

  lemma LineScanned(reader: Reader, f: Filter, lines: seq<string>, k: nat)
    requires k < |lines|
    ensures Filtered(f, EventsOf(reader, lines[..k + 1]))
         == Filtered(f, EventsOf(reader, lines[..k])) + Matched(reader, f, lines[k])
    ensures InvalidOf(reader, lines[..k + 1])
         == InvalidOf(reader, lines[..k]) + if !Blank(lines[k]) && reader.parse(lines[k]).None? then 1 else 0
  {
    assert lines[..k + 1][..k] == lines[..k];
    FilteredAppend(f, EventsOf(reader, lines[..k]), Seen(reader, lines[k]));
    var line := lines[k];
    if !Blank(line) && reader.parse(line).Some? {
      assert [reader.parse(line).value][..0] == [];
    }
  }

  lemma SliceSnoc(all: seq<AuditEvent>, e: AuditEvent, offset: nat, limit: nat)
    ensures Slice(all + [e], offset, limit)
         == Slice(all, offset, limit) + if |all| >= offset && |Slice(all, offset, limit)| < limit then [e] else []
  {
  }

  lemma {:induction false} FilteredAppend(f: Filter, a: seq<AuditEvent>, b: seq<AuditEvent>)
    ensures Filtered(f, a + b) == Filtered(f, a) + Filtered(f, b)
  {
    if b == [] {
      assert a + b == a;
    } else {
      var n := |b| - 1;
      assert (a + b)[..|a + b| - 1] == a + b[..n];
      FilteredAppend(f, a, b[..n]);
    }
  }

  /** The cursor a query hands out is read back as its offset, when decimal text is read as its number. */
  lemma CursorRoundTrip(number: NumberReader, offset: nat)
    requires offset <= MAX_SAFE_INTEGER && number(Decimal(offset)) == Some(offset as real)
    ensures ParseCursor(number, Some(Decimal(offset))) == Ok(offset)
  {
    DecimalValue(offset);
  }

  /** No cursor, or an empty one, is the start; any other must read as an integer from 0 to 2^53 - 1, and is that offset. */
  lemma CursorIsRead(number: NumberReader, cursor: string, offset: nat)
    ensures ParseCursor(number, None) == ParseCursor(number, Some("")) == Ok(0)
    ensures cursor != "" ==>
      (ParseCursor(number, Some(cursor)) == Ok(offset)
       <==> number(cursor) == Some(offset as real) && offset <= 9_007_199_254_740_991)
  {
  }

  /** A line is passed over exactly if trimming leaves nothing of it. */
  lemma BlankIsTrimmedAway(line: string)
    ensures Blank(line) <==> Arguments.Trim(line) == ""
  {
    var i, j := ArgumentsTheorems.TrimTakesOnlyWhitespace(line);
    assert i < j ==> Arguments.Trim(line)[0] == line[i];
  }

  function Blanks(lines: seq<string>): nat {
    if lines == [] then 0
    else Blanks(lines[..|lines| - 1]) + if Arguments.Trim(lines[|lines| - 1]) == "" then 1 else 0
  }

  /** Every line is accounted for: blank, an event, or counted as invalid. */
  lemma {:induction false} LinesAreAccountedFor(reader: Reader, lines: seq<string>)
    ensures |lines| == Blanks(lines) + |EventsOf(reader, lines)| + InvalidOf(reader, lines)
  {
    if lines != [] {
      LinesAreAccountedFor(reader, lines[..|lines| - 1]);
      BlankIsTrimmedAway(lines[|lines| - 1]);
    }
  }

  // ---------------------------------------------------------------- snapshots of a growing log

  /** The file after some lines were appended. */
  function Text(lines: seq<string>): string {
    if lines == [] then "" else Text(lines[..|lines| - 1]) + lines[|lines| - 1] + "\n"
  }

  predicate OneLine(reader: Reader, line: string) { forall i :: 0 <= i < |line| ==> !reader.isEnd(line[i]) }

  lemma {:induction false} PiecesOfTail(reader: Reader, lines: seq<string>, tail: string)
    requires reader.isEnd('\n') && (forall l <- lines :: OneLine(reader, l)) && OneLine(reader, tail)
    ensures Pieces(reader, Text(lines) + tail) == (lines, tail)
    decreases |lines|, |tail|
  {
    var text := Text(lines) + tail;
    if tail != "" {
      var n := |tail| - 1;
      assert text[..|text| - 1] == Text(lines) + tail[..n];
      PiecesOfTail(reader, lines, tail[..n]);
      assert tail[..n] + [tail[n]] == tail;
    } else if lines != [] {
      var n := |lines| - 1;
      assert text[..|text| - 1] == Text(lines[..n]) + lines[n];
      PiecesOfTail(reader, lines[..n], lines[n]);
      assert lines[..n] + [lines[n]] == lines;
    }
  }

  /** A snapshot sees the events of the finished lines, and of what there is of the next one. */
  lemma SnapshotEvents(reader: Reader, lines: seq<string>, part: string)
    requires reader.isEnd('\n') && (forall l <- lines :: OneLine(reader, l)) && OneLine(reader, part)
    ensures EventsOf(reader, LinesOf(reader, Text(lines) + part)) == EventsOf(reader, lines) + Seen(reader, part)
  {
    PiecesOfTail(reader, lines, part);
    assert (lines + [part])[..|lines|] == lines;
  }

  /** The finished lines before a position, and the place in the next line. */
  function Position(lines: seq<string>, n: nat): (p: (nat, nat))
    requires n <= |Text(lines)|
    ensures p.0 <= |lines| && (p.0 == |lines| ==> p.1 == 0) && (p.0 < |lines| ==> p.1 <= |lines[p.0]|)
    ensures Text(lines)[..n] == Text(lines[..p.0]) + if p.0 < |lines| then lines[p.0][..p.1] else ""
  {
    if n == |Text(lines)| then
      assert lines[..|lines|] == lines;
      (|lines|, 0)
    else
      var most := lines[..|lines| - 1];
      if n < |Text(most)| then
        var p := Position(most, n);
        assert lines[..p.0] == most[..p.0];
        p
      else (|lines| - 1, n - |Text(most)|)
  }

  /**
   A line that can be seen half written: from some point on every longer part of
   it is the same event, or no part of it is one.
   */
  ghost predicate Steady(reader: Reader, line: string) {
    forall i, j :: 0 <= i <= j <= |line| ==> Seen(reader, line[..i]) <= Seen(reader, line[..j])
  }

  function SnapshotView(reader: Reader, lines: seq<string>, n: nat): seq<AuditEvent>
    requires n <= |Text(lines)|
  {
    EventsOf(reader, LinesOf(reader, Text(lines)[..n]))
  }

  lemma SnapshotAt(reader: Reader, lines: seq<string>, n: nat)
    requires reader.isEnd('\n') && n <= |Text(lines)| && forall l <- lines :: OneLine(reader, l)
    ensures var (k, i) := Position(lines, n);
            SnapshotView(reader, lines, n)
            == EventsOf(reader, lines[..k]) + if k < |lines| then Seen(reader, lines[k][..i]) else []
  {
    var (k, i) := Position(lines, n);
    if k < |lines| {
      assert OneLine(reader, lines[k]) by { assert lines[k] in lines; }
      SnapshotEvents(reader, lines[..k], lines[k][..i]);
    } else {
      SnapshotEvents(reader, lines[..k], "");
    }
  }

  lemma EventsOfNext(reader: Reader, lines: seq<string>, k: nat)
    requires k < |lines|
    ensures EventsOf(reader, lines[..k + 1]) == EventsOf(reader, lines[..k]) + Seen(reader, lines[k])
  {
    assert lines[..k + 1][..k] == lines[..k];
  }

  lemma {:induction false} EventsGrow(reader: Reader, lines: seq<string>, k: nat, m: nat)
    requires k <= m <= |lines|
    ensures EventsOf(reader, lines[..k]) <= EventsOf(reader, lines[..m])
    decreases m - k
  {
    if k < m {
      EventsGrow(reader, lines, k, m - 1);
      EventsOfNext(reader, lines, m - 1);
    }
  }

  lemma {:induction false} PositionsAreOrdered(lines: seq<string>, a: nat, b: nat)
    requires a <= b <= |Text(lines)|
    ensures var p, q := Position(lines, a), Position(lines, b);
            p.0 < q.0 || (p.0 == q.0 && p.1 <= q.1)
  {
    if b < |Text(lines)| {
      var most := lines[..|lines| - 1];
      if b < |Text(most)| {
        PositionsAreOrdered(most, a, b);
      }
    }
  }

  /** Later snapshots only add events at the end, when every line is steady. */
  lemma SnapshotsGrow(reader: Reader, lines: seq<string>, a: nat, b: nat)
    requires reader.isEnd('\n') && a <= b <= |Text(lines)| && forall l <- lines :: OneLine(reader, l) && Steady(reader, l)
    ensures SnapshotView(reader, lines, a) <= SnapshotView(reader, lines, b)
  {
    hide Position, SnapshotView, Seen, EventsOf, Text;
    SnapshotAt(reader, lines, a);
    SnapshotAt(reader, lines, b);
    PositionsAreOrdered(lines, a, b);
    var p, q := Position(lines, a), Position(lines, b);
    var before := EventsOf(reader, lines[..p.0]);
    if p.0 < |lines| {
      var line := lines[p.0];
      assert line in lines && line[..|line|] == line;
      var end := if p.0 < q.0 then |line| else q.1;
      PrefixAfter(before, Seen(reader, line[..p.1]), Seen(reader, line[..end]));
      if p.0 < q.0 {
        EventsOfNext(reader, lines, p.0);
        EventsGrow(reader, lines, p.0 + 1, q.0);
      }
    }
  }

  lemma PrefixAfter(before: seq<AuditEvent>, a: seq<AuditEvent>, b: seq<AuditEvent>)
    requires a <= b
    ensures before + a <= before + b
  {
  }

  /** An event whose line end was never written, with the next append glued to it, is not. */
  lemma GluedLineIsUnsteady(reader: Reader, torn: string, next: string)
    requires !Blank(torn) && reader.parse(torn).Some? && reader.parse(torn + next).None?
    ensures !Steady(reader, torn + next)
  {
    var line := torn + next;
    assert line[..|torn|] == torn && line[..|line|] == line;
    assert Seen(reader, line[..|torn|]) != [] && Seen(reader, line[..|line|]) == [];
  }

  /** Where a line is not steady, two snapshots exist whose events do not grow. */
  lemma UnsteadyLineBreaksGrowth(reader: Reader, lines: seq<string>, line: string) returns (a: nat, b: nat)
    requires reader.isEnd('\n') && (forall l <- lines :: OneLine(reader, l)) && OneLine(reader, line) && !Steady(reader, line)
    ensures a <= b <= |Text(lines + [line])|
    ensures !(SnapshotView(reader, lines + [line], a) <= SnapshotView(reader, lines + [line], b))
  {
    var i, j :| 0 <= i <= j <= |line| && !(Seen(reader, line[..i]) <= Seen(reader, line[..j]));
    var all := lines + [line];
    assert all[..|lines|] == lines;
    a, b := |Text(lines)| + i, |Text(lines)| + j;
    assert Text(all) == Text(lines) + line + "\n";
    assert Text(all)[..a] == Text(lines) + line[..i] && Text(all)[..b] == Text(lines) + line[..j];
    SnapshotEvents(reader, lines, line[..i]);
    SnapshotEvents(reader, lines, line[..j]);
    var e := EventsOf(reader, lines);
    assert SnapshotView(reader, all, a)[|e|..] == Seen(reader, line[..i]);
    assert SnapshotView(reader, all, b)[|e|..] == Seen(reader, line[..j]);
  }

  // ---------------------------------------------------------------- following the cursor

  /** Pages read one after the other: their items, the offset to go on from, and the events as last seen. */
  datatype Walk = Walk(items: seq<AuditEvent>, next: Option<nat>, seen: seq<AuditEvent>)

  /** Follows nextCursor from an offset over successive views, until it is null or the views end. */
  function Follow(views: seq<seq<AuditEvent>>, offset: nat, limit: nat): Walk
    requires views != []
    decreases |views|
  {
    var items, next := Slice(views[0], offset, limit), NextOffset(views[0], offset, limit);
    if next.None? || |views| == 1 then Walk(items, next, views[0])
    else
      var rest := Follow(views[1..], next.value, limit);
      Walk(items + rest.items, rest.next, rest.seen)
  }

  /** Later views hold what earlier ones held, but for the last event: its line may not have been finished. */
  predicate GrowingButLast(views: seq<seq<AuditEvent>>) {
    forall i, j :: 0 <= i < j < |views| && views[i] != [] ==> views[i][..|views[i]| - 1] <= views[j]
  }

  /** A page ends where the next one starts, or at the end. */
  lemma PageEnds(all: seq<AuditEvent>, offset: nat, limit: nat)
    requires offset <= |all|
    ensures var end := offset + |Slice(all, offset, limit)|;
            && end <= |all| && Slice(all, offset, limit) == all[offset..end]
            && NextOffset(all, offset, limit) == if end < |all| then Some(end) else None
  {
  }

  lemma JoinParts(first: seq<AuditEvent>, seen: seq<AuditEvent>, from: nat, to: nat, rest: seq<AuditEvent>)
    requires from <= to < |first| && first[..|first| - 1] <= seen && to <= |seen| && rest <= seen[to..]
    ensures first[from..to] + rest <= seen[from..]
    ensures rest == seen[to..] ==> first[from..to] + rest == seen[from..]
  {
    assert first[from..to] == first[..|first| - 1][from..to] == seen[from..to];
    assert seen[from..] == seen[from..to] + seen[to..];
  }

  /**
   The pages are consecutive parts of what is there at the end: no gap and no
   repeat, and everything once nextCursor is null. A page that hands out a cursor
   does not hold the last event of its view, the only one that can still change.
   */
  lemma {:induction false} PagesConcatenate(views: seq<seq<AuditEvent>>, offset: nat, limit: nat)
    requires views != [] && GrowingButLast(views) && offset <= |views[0]|
    ensures var walk := Follow(views, offset, limit);
            && walk.seen in views && offset <= |walk.seen|
            && walk.items <= walk.seen[offset..]
            && (walk.next.None? ==> walk.items == walk.seen[offset..])
            && (walk.next.Some? ==> walk.next.value == offset + |walk.items|)
    decreases |views|
  {
    hide Slice, NextOffset, GrowingButLast;
    var items, next := Slice(views[0], offset, limit), NextOffset(views[0], offset, limit);
    PageEnds(views[0], offset, limit);
    if next.Some? && |views| > 1 {
      LaterViews(views, views[1]);
      PagesConcatenate(views[1..], next.value, limit);
      var rest := Follow(views[1..], next.value, limit);
      LaterViews(views, rest.seen);
      JoinParts(views[0], rest.seen, offset, next.value, rest.items);
    }
  }

  lemma LaterViews(views: seq<seq<AuditEvent>>, seen: seq<AuditEvent>)
    requires |views| > 1 && GrowingButLast(views) && views[0] != [] && seen in views[1..]
    ensures GrowingButLast(views[1..]) && seen in views && views[0][..|views[0]| - 1] <= seen
  {
    var j :| 0 <= j < |views[1..]| && views[1..][j] == seen;
    assert views[j + 1] == seen;
  }

  lemma {:induction false} FilteredGrows(f: Filter, a: seq<AuditEvent>, b: seq<AuditEvent>)
    requires a <= b
    ensures Filtered(f, a) <= Filtered(f, b)
  {
    assert b == a + b[|a|..];
    FilteredAppend(f, a, b[|a|..]);
  }

  // ---------------------------------------------------------------- any growing file

  /** What a query finds: a front of the log, and what part of a character behind it decodes to. */
  datatype Snapshot = Snapshot(length: nat, garbled: string)

  function FileAt(log: string, s: Snapshot): string
    requires s.length <= |log|
  {
    log[..s.length] + s.garbled
  }

  lemma {:induction false} PiecesOfRest(reader: Reader, text: string, rest: string)
    requires OneLine(reader, rest)
    ensures Pieces(reader, text + rest) == (Pieces(reader, text).0, Pieces(reader, text).1 + rest)
  {
    if rest == "" {
      assert text + rest == text && Pieces(reader, text).1 + rest == Pieces(reader, text).1;
    } else {
      var n := |rest| - 1;
      assert (text + rest)[..|text + rest| - 1] == text + rest[..n];
      PiecesOfRest(reader, text, rest[..n]);
      assert (text + rest)[|text + rest| - 1] == rest[n];
      assert Pieces(reader, text).1 + rest[..n] + [rest[n]] == Pieces(reader, text).1 + rest;
    }
  }

  /** Finished lines stay as they are. */
  lemma {:induction false} FinishedLinesStay(reader: Reader, log: string, a: nat, b: nat)
    requires a <= b <= |log|
    ensures Pieces(reader, log[..a]).0 <= Pieces(reader, log[..b]).0
    decreases b - a
  {
    if a < b {
      FinishedLinesStay(reader, log, a, b - 1);
      assert log[..b][..b - 1] == log[..b - 1];
    }
  }

  /** The matching events of the finished lines. */
  function Finished(reader: Reader, f: Filter, text: string): seq<AuditEvent> {
    Filtered(f, EventsOf(reader, Pieces(reader, text).0))
  }

  /** A query sees the events of the finished lines, and at most one more. */
  lemma ViewIsFinishedAndOne(reader: Reader, f: Filter, text: string, garbled: string)
    requires OneLine(reader, garbled)
    ensures var view, finished := View(reader, f, text + garbled), Finished(reader, f, text);
            finished <= view && |view| <= |finished| + 1
  {
    PiecesOfRest(reader, text, garbled);
    var (lines, tail) := Pieces(reader, text + garbled);
    assert (lines + [tail])[..|lines|] == lines;
    var more := if tail == "" then [] else Seen(reader, tail);
    assert EventsOf(reader, LinesOf(reader, text + garbled)) == EventsOf(reader, lines) + more;
    FilteredAppend(f, EventsOf(reader, lines), more);
  }

  lemma FinishedGrows(reader: Reader, f: Filter, log: string, a: nat, b: nat)
    requires a <= b <= |log|
    ensures Finished(reader, f, log[..a]) <= Finished(reader, f, log[..b])
  {
    FinishedLinesStay(reader, log, a, b);
    var lines, k := Pieces(reader, log[..b]).0, |Pieces(reader, log[..a]).0|;
    assert lines[..k] == Pieces(reader, log[..a]).0 && lines[..|lines|] == lines;
    EventsGrow(reader, lines, k, |lines|);
    FilteredGrows(f, EventsOf(reader, lines[..k]), EventsOf(reader, lines));
  }

  /** The views of queries that found the log like this. */
  function Views(reader: Reader, f: Filter, log: string, snapshots: seq<Snapshot>): seq<seq<AuditEvent>>
    requires forall s <- snapshots :: s.length <= |log|
  {
    seq(|snapshots|, i requires 0 <= i < |snapshots| => View(reader, f, FileAt(log, snapshots[i])))
  }

  /**
   Following nextCursor from the start over a file that grows in between, whatever
   is appended and wherever a query cuts it, torn lines included: the pages
   together are the front of the matching events of the last file read, without
   gap or repeat, and all of them once nextCursor is null.
   */
  lemma PagingReadsTheLog(reader: Reader, f: Filter, log: string, snapshots: seq<Snapshot>, limit: nat)
    requires snapshots != [] && forall s <- snapshots :: s.length <= |log| && OneLine(reader, s.garbled)
    requires forall i, j :: 0 <= i <= j < |snapshots| ==> snapshots[i].length <= snapshots[j].length
    ensures var walk := Follow(Views(reader, f, log, snapshots), 0, limit);
            && walk.seen in Views(reader, f, log, snapshots)
            && walk.items <= walk.seen
            && (walk.next.None? ==> walk.items == walk.seen)
            && (walk.next.Some? ==> walk.next.value == |walk.items|)
  {
    var views := Views(reader, f, log, snapshots);
    ViewsGrow(reader, f, log, snapshots);
    hide GrowingButLast, View;
    PagesConcatenate(views, 0, limit);
    var walk := Follow(views, 0, limit);
    assert walk.seen[0..] == walk.seen;
  }

  lemma ViewsGrow(reader: Reader, f: Filter, log: string, snapshots: seq<Snapshot>)
    requires forall s <- snapshots :: s.length <= |log| && OneLine(reader, s.garbled)
    requires forall i, j :: 0 <= i <= j < |snapshots| ==> snapshots[i].length <= snapshots[j].length
    ensures GrowingButLast(Views(reader, f, log, snapshots))
  {
    var views := Views(reader, f, log, snapshots);
    forall i, j | 0 <= i < j < |views| && views[i] != [] ensures views[i][..|views[i]| - 1] <= views[j] {
      var s, t := snapshots[i], snapshots[j];
      assert s in snapshots && t in snapshots;
      ViewIsFinishedAndOne(reader, f, log[..s.length], s.garbled);
      ViewIsFinishedAndOne(reader, f, log[..t.length], t.garbled);
      FinishedGrows(reader, f, log, s.length, t.length);
    }
  }
}
