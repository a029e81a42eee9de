/**
 What the status reader recovers: the records of any byte stream, the same
 lists whatever the limit, and the entries Git printed.
 */
module StatusTheorems {
  import opened Numbers
  import opened Options
  import opened Porcelain
  import opened StatusStream

  // ---------------------------------------------------------------- streams and records

  predicate NulFree(bytes: seq<Byte>) { 0 !in bytes }

  /** Records as Git writes them with `-z`: a NUL byte ends each one. */
  function Frame(records: seq<seq<Byte>>): seq<Byte> {
    if records == [] then [] else records[0] + [0] + Frame(records[1..])
  }

  lemma {:induction false} FrameSnoc(records: seq<seq<Byte>>, last: seq<Byte>)
    ensures Frame(records + [last]) == Frame(records) + last + [0]
  {
    if records == [] {
      assert [last][1..] == [];
    } else {
      assert (records + [last])[1..] == records[1..] + [last];
      FrameSnoc(records[1..], last);
    }
  }

  /** The finished records of a stream, and the bytes after its last NUL. */
  function Cut(bytes: seq<Byte>): (parts: (seq<seq<Byte>>, seq<Byte>))
    ensures bytes == Frame(parts.0) + parts.1
    ensures NulFree(parts.1) && forall r <- parts.0 :: NulFree(r)
  {
    if bytes == [] then ([], [])
    else
      var n := |bytes| - 1;
      var (records, tail) := Cut(bytes[..n]);
      assert bytes == bytes[..n] + [bytes[n]];
      if bytes[n] == 0 then
        FrameSnoc(records, tail);
        (records + [tail], [])
      else (records, tail + [bytes[n]])
  }

  lemma {:induction false} FeedNulFree(decode: Decoder, s: Status, part: seq<Byte>, rest: seq<Byte>, limit: nat)
    requires NulFree(part)
    ensures Feed(decode, s, part + rest, limit) == Feed(decode, s.(pending := s.pending + part), rest, limit)
    decreases |part|
  {
    if part == [] {
      assert part + rest == rest && s.pending + part == s.pending;
    } else {
      var next := s.(pending := s.pending + [part[0]]);
      assert (part + rest)[0] == part[0] && (part + rest)[1..] == part[1..] + rest;
      FeedNulFree(decode, next, part[1..], rest, limit);
      assert next.pending + part[1..] == s.pending + part;
    }
  }

  // ---------------------------------------------------------------- reading without a limit

  /** Every item of every category. */
  datatype Listing = Listing(
    branch: Branch,
    staged: seq<Change>,
    unstaged: seq<Change>,
    untracked: seq<string>,
    conflicts: seq<Conflict>,
    pendingRename: Option<Change>)
  {
    function AddChange(change: Change): Listing {
      this.(staged := staged + if change.index != '.' then [change] else [],
            unstaged := unstaged + if change.worktree != '.' then [change] else [])
    }

    function Apply(event: Event): Listing {
      match event
      case Changed(change) => AddChange(change)
      case Renamed(change) => this.(pendingRename := Some(change))
      case Conflicted(conflict) => this.(conflicts := conflicts + [conflict])
      case Untracked(path) => this.(untracked := untracked + [path])
      case _ => this.(branch := WithHeader(branch, event))
    }

    function Record(record: string): Result<Listing, string> {
      match pendingRename
      case Some(change) => Ok(this.(pendingRename := None).AddChange(change.(originalPath := Some(record))))
      case None =>
        match ParseRecord(record)
        case Ok(event) => Ok(Apply(event))
        case Err(excerpt) => Err(excerpt)
    }

    /** The same categories, each kept up to the limit. */
    function Bounded(limit: nat): Report {
      Report(branch, Limited(staged, limit), Limited(unstaged, limit), Limited(untracked, limit),
             Limited(conflicts, limit), pendingRename)
    }

    predicate NoChange() { staged == [] && unstaged == [] && untracked == [] && conflicts == [] }
  }

  const EMPTY_LISTING := Listing(NO_BRANCH, [], [], [], [], None)

  function ListRecords(decode: Decoder, listing: Listing, records: seq<seq<Byte>>): Result<Listing, string>
    decreases |records|
  {
    if records == [] then Ok(listing)
    else match listing.Record(decode(records[0]))
      case Err(excerpt) => Err(excerpt)
      case Ok(next) => ListRecords(decode, next, records[1..])
  }

  function Take<T>(all: seq<T>, limit: nat): seq<T> { if |all| <= limit then all else all[..limit] }

  function Limited<T>(all: seq<T>, limit: nat): Category<T> {
    Category(|all|, Take(all, limit), |all| > limit)
  }

  lemma AddIsLimited<T>(all: seq<T>, item: T, limit: nat)
    ensures Limited(all, limit).Add(item, limit) == Limited(all + [item], limit)
  {
    assert |all| >= limit ==> (all + [item])[..limit] == all[..limit];
  }

  lemma AddChangeIsBounded(listing: Listing, change: Change, limit: nat)
    ensures listing.Bounded(limit).AddChange(change, limit) == listing.AddChange(change).Bounded(limit)
  {
    AddIsLimited(listing.staged, change, limit);
    AddIsLimited(listing.unstaged, change, limit);
    assert listing.staged + [] == listing.staged && listing.unstaged + [] == listing.unstaged;
  }

  lemma ApplyIsBounded(listing: Listing, event: Event, limit: nat)
    ensures listing.Bounded(limit).Apply(event, limit) == listing.Apply(event).Bounded(limit)
  {
    match event
    case Changed(change) => AddChangeIsBounded(listing, change, limit);
    case Conflicted(conflict) => AddIsLimited(listing.conflicts, conflict, limit);
    case Untracked(path) => AddIsLimited(listing.untracked, path, limit);
    case _ =>
  }

  lemma RecordIsBounded(listing: Listing, record: string, limit: nat)
    ensures match listing.Record(record)
            case Ok(next) => listing.Bounded(limit).Record(record, limit) == Ok(next.Bounded(limit))
            case Err(excerpt) => listing.Bounded(limit).Record(record, limit) == Err(excerpt)
  {
    match listing.pendingRename
    case Some(change) =>
      AddChangeIsBounded(listing.(pendingRename := None), change.(originalPath := Some(record)), limit);
    case None =>
      match ParseRecord(record)
      case Ok(event) => ApplyIsBounded(listing, event, limit);
      case Err(_) =>
  }

  /** Outcome of a bounded reading, as the unbounded reading of the records foretells it. */
  predicate Foretold(outcome: Outcome, listed: Result<Listing, string>, tail: seq<Byte>, limit: nat) {
    match listed
    case Ok(listing) => outcome == Outcome(Status(tail, listing.Bounded(limit)), None)
    case Err(excerpt) => outcome.failure == Some(excerpt)
  }

  lemma {:induction false} FramedReading(
      decode: Decoder, listing: Listing, records: seq<seq<Byte>>, tail: seq<Byte>, limit: nat)
    requires NulFree(tail) && forall r <- records :: NulFree(r)
    ensures Foretold(Feed(decode, Status([], listing.Bounded(limit)), Frame(records) + tail, limit),
                     ListRecords(decode, listing, records), tail, limit)
    decreases |records|
  {
    var start := Status([], listing.Bounded(limit));
    if records == [] {
      assert Frame(records) + tail == tail == tail + [];
      FeedNulFree(decode, start, tail, [], limit);
      assert [] + tail == tail;
    } else {
      var first := records[0];
      var rest := Frame(records[1..]) + tail;
      assert Frame(records) + tail == first + ([0] + rest);
      FeedNulFree(decode, start, first, [0] + rest, limit);
      assert [] + first == first && ([0] + rest)[1..] == rest;
      RecordIsBounded(listing, decode(first), limit);
      if listing.Record(decode(first)).Ok? {
        FramedReading(decode, listing.Record(decode(first)).value, records[1..], tail, limit);
      }
    }
  }

  /**
   Reading any stream with any limit is the unlimited reading of its records,
   cut down at the end: each category holds the first items and the full count.
   What is pending is what follows the last NUL.
   */
  lemma BoundedReadingRefinesListing(decode: Decoder, bytes: seq<Byte>, limit: nat)
    ensures var (records, tail) := Cut(bytes);
            Foretold(Feed(decode, EMPTY, bytes, limit), ListRecords(decode, EMPTY_LISTING, records), tail, limit)
  {
    var (records, tail) := Cut(bytes);
    assert EMPTY == Status([], EMPTY_LISTING.Bounded(limit));
    FramedReading(decode, EMPTY_LISTING, records, tail, limit);
  }

  function Excess<T>(all: seq<T>, limit: nat): nat { if |all| > limit then |all| - limit else 0 }

  /** The result for a listing: totals, omissions and cleanness from the full lists. */
  function Summary(listing: Listing, limit: nat): StatusResult {
    var l := listing;
    StatusResult(
      l.branch, Limited(l.staged, limit), Limited(l.unstaged, limit), Limited(l.untracked, limit),
      Limited(l.conflicts, limit), l.NoChange(),
      |l.staged| > limit || |l.unstaged| > limit || |l.untracked| > limit || |l.conflicts| > limit,
      Excess(l.staged, limit), Excess(l.unstaged, limit), Excess(l.untracked, limit), Excess(l.conflicts, limit))
  }

  function Inspected(listed: Result<Listing, string>, tail: seq<Byte>, limit: nat): Result<StatusResult, string> {
    match listed
    case Err(excerpt) => Err(excerpt)
    case Ok(listing) =>
      if tail != [] || listing.pendingRename.Some? then Err(INCOMPLETE) else Ok(Summary(listing, limit))
  }

  lemma FinishForetold(outcome: Outcome, listed: Result<Listing, string>, tail: seq<Byte>, limit: nat)
    requires Foretold(outcome, listed, tail, limit)
    ensures Finish(outcome) == Inspected(listed, tail, limit)
  {
  }

  lemma FramedInspection(decode: Decoder, records: seq<seq<Byte>>, tail: seq<Byte>, limit: nat)
    requires NulFree(tail) && forall r <- records :: NulFree(r)
    ensures Finish(Feed(decode, EMPTY, Frame(records) + tail, limit))
         == Inspected(ListRecords(decode, EMPTY_LISTING, records), tail, limit)
  {
    assert EMPTY == Status([], EMPTY_LISTING.Bounded(limit));
    FramedReading(decode, EMPTY_LISTING, records, tail, limit);
    FinishForetold(Feed(decode, EMPTY, Frame(records) + tail, limit),
                   ListRecords(decode, EMPTY_LISTING, records), tail, limit);
  }

  /** The whole call: an error record, an incomplete end, or the summary of everything that was listed. */
  lemma InspectionSummarizes(decode: Decoder, bytes: seq<Byte>, limit: nat)
    ensures var (records, tail) := Cut(bytes);
            Finish(Feed(decode, EMPTY, bytes, limit))
            == Inspected(ListRecords(decode, EMPTY_LISTING, records), tail, limit)
  {
    var (records, tail) := Cut(bytes);
    FramedInspection(decode, records, tail, limit);
  }

  // ---------------------------------------------------------------- round trip

  function Pick<T>(entries: seq<Entry>, item: Entry -> Option<T>): seq<T> {
    if entries == [] then []
    else
      var last := item(entries[|entries| - 1]);
      Pick(entries[..|entries| - 1], item) + (if last.Some? then [last.value] else [])
  }

  function Latest<T>(entries: seq<Entry>, item: Entry -> Option<T>): Option<T> {
    if entries == [] then None
    else
      var last := item(entries[|entries| - 1]);
      if last.Some? then last else Latest(entries[..|entries| - 1], item)
  }

  function ChangeOf(e: Entry): Option<Change> {
    match e
    case OrdinaryEntry(x, y, submodule, _, path) => Some(Change(path, None, Ordinary, x, y, None, submodule))
    case RenameEntry(x, y, submodule, _, score, path, originalPath) =>
      Some(Change(path, Some(originalPath), RenameOrCopy, x, y, Some(score), submodule))
    case _ => None
  }

  function StagedOf(e: Entry): Option<Change> {
    if ChangeOf(e).Some? && ChangeOf(e).value.index != '.' then ChangeOf(e) else None
  }

  function UnstagedOf(e: Entry): Option<Change> {
    if ChangeOf(e).Some? && ChangeOf(e).value.worktree != '.' then ChangeOf(e) else None
  }

  function UntrackedOf(e: Entry): Option<string> { if e.UntrackedEntry? then Some(e.path) else None }

  function ConflictOf(e: Entry): Option<Conflict> {
    if e.UnmergedEntry? then Some(Conflict(e.path, e.x, e.y, e.submodule)) else None
  }

  function CommitOf(e: Entry): Option<Option<string>> { if e.CommitHeader? then Some(e.commit) else None }

  function HeadOf(e: Entry): Option<Option<string>> { if e.HeadHeader? then Some(e.branch) else None }

  function UpstreamOf(e: Entry): Option<string> { if e.UpstreamHeader? then Some(e.upstream) else None }

  function CountsOf(e: Entry): Option<(nat, nat)> {
    if e.AheadBehindHeader? then Some((e.ahead, e.behind)) else None
  }

  function BranchOf(entries: seq<Entry>): Branch {
    var head, commit := Latest(entries, HeadOf), Latest(entries, CommitOf);
    var counts := Latest(entries, CountsOf);
    Branch(
      head.Or(None), head == Some(None), commit == Some(None), commit.Or(None), Latest(entries, UpstreamOf),
      if counts.Some? then InU64(counts.value.0) else None,
      if counts.Some? then InU64(counts.value.1) else None)
  }

  /** What a list of entries amounts to, without reading any text. */
  function Tally(entries: seq<Entry>): Listing {
    Listing(BranchOf(entries), Pick(entries, StagedOf), Pick(entries, UnstagedOf),
            Pick(entries, UntrackedOf), Pick(entries, ConflictOf), None)
  }

  /** Bytes of the records of these entries: any NUL-free encodings that decode to the printed text. */
  predicate Encodes(decode: Decoder, parts: seq<seq<Byte>>, texts: seq<string>) {
    |parts| == |texts| && forall i :: 0 <= i < |texts| ==> NulFree(parts[i]) && decode(parts[i]) == texts[i]
  }

  function AllRecords(entries: seq<Entry>): seq<string> {
    if entries == [] then [] else Records(entries[0]) + AllRecords(entries[1..])
  }

  /** A listing after all records of one more entry. */
  function WithEntry(listing: Listing, e: Entry): Listing {
    if e.RenameEntry? then listing.AddChange(ChangeOf(e).value) else listing.Apply(Meaning(e))
  }

  lemma TallyEntry(before: seq<Entry>, e: Entry)
    requires WellFormed(e)
    ensures Tally(before + [e]) == WithEntry(Tally(before), e)
  {
    assert (before + [e])[..|before|] == before;
    assert (before + [e])[|before|] == e;
  }

  lemma ListRecord(decode: Decoder, listing: Listing, part: seq<Byte>, rest: seq<seq<Byte>>)
    requires listing.Record(decode(part)).Ok?
    ensures ListRecords(decode, listing, [part] + rest)
         == ListRecords(decode, listing.Record(decode(part)).value, rest)
  {
    assert ([part] + rest)[1..] == rest;
  }

  lemma ListEntry(decode: Decoder, listing: Listing, e: Entry, parts: seq<seq<Byte>>, rest: seq<seq<Byte>>)
    requires WellFormed(e) && Encodes(decode, parts, Records(e)) && listing.pendingRename == None
    ensures ListRecords(decode, listing, parts + rest) == ListRecords(decode, WithEntry(listing, e), rest)
  {
    hide Print, ParseRecord, WellFormed, ListRecords;
    ParsePrinted(e);
    if e.RenameEntry? {
      assert parts + rest == [parts[0]] + ([parts[1]] + rest);
      ListRecord(decode, listing, parts[0], [parts[1]] + rest);
      ListRecord(decode, listing.Apply(Meaning(e)), parts[1], rest);
    } else {
      assert parts + rest == [parts[0]] + rest;
      ListRecord(decode, listing, parts[0], rest);
    }
  }

  function WithEntries(listing: Listing, entries: seq<Entry>): Listing
    decreases |entries|
  {
    if entries == [] then listing else WithEntries(WithEntry(listing, entries[0]), entries[1..])
  }

  lemma {:induction false} TallyEntries(before: seq<Entry>, entries: seq<Entry>)
    requires forall e <- entries :: WellFormed(e)
    ensures WithEntries(Tally(before), entries) == Tally(before + entries)
    decreases |entries|
  {
    if entries == [] {
      assert before + entries == before;
    } else {
      TallyEntry(before, entries[0]);
      TallyEntries(before + [entries[0]], entries[1..]);
      assert before + [entries[0]] + entries[1..] == before + entries;
    }
  }

  lemma {:induction false} ListPrinted(
      decode: Decoder, listing: Listing, entries: seq<Entry>, parts: seq<seq<Byte>>)
    requires forall e <- entries :: WellFormed(e)
    requires Encodes(decode, parts, AllRecords(entries)) && listing.pendingRename == None
    ensures ListRecords(decode, listing, parts) == Ok(WithEntries(listing, entries))
    decreases |entries|
  {
    if entries != [] {
      var e, rest := entries[0], entries[1..];
      var n := |Records(e)|;
      SplitEncoding(decode, parts, Records(e), AllRecords(rest));
      ListEntry(decode, listing, e, parts[..n], parts[n..]);
      assert parts[..n] + parts[n..] == parts;
      ListPrinted(decode, WithEntry(listing, e), rest, parts[n..]);
    }
  }

  lemma SplitEncoding(decode: Decoder, parts: seq<seq<Byte>>, first: seq<string>, rest: seq<string>)
    requires Encodes(decode, parts, first + rest)
    ensures Encodes(decode, parts[..|first|], first) && Encodes(decode, parts[|first|..], rest)
  {
    forall i | 0 <= i < |first|
      ensures NulFree(parts[..|first|][i]) && decode(parts[..|first|][i]) == first[i]
    {
      assert (first + rest)[i] == first[i];
    }
    forall i | 0 <= i < |rest|
      ensures NulFree(parts[|first|..][i]) && decode(parts[|first|..][i]) == rest[i]
    {
      assert parts[|first|..][i] == parts[|first| + i] && (first + rest)[|first| + i] == rest[i];
    }
  }

  /**
   Printing entries in `-z` form and reading them back, with any limit, gives
   the summary of exactly those entries. An original path may be any NUL-free
   text, even one that looks like a record.
   */
  lemma PorcelainRoundTrip(decode: Decoder, entries: seq<Entry>, parts: seq<seq<Byte>>, limit: nat)
    requires forall e <- entries :: WellFormed(e)
    requires Encodes(decode, parts, AllRecords(entries))
    ensures Finish(Feed(decode, EMPTY, Frame(parts), limit)) == Ok(Summary(Tally(entries), limit))
  {
    ListPrinted(decode, EMPTY_LISTING, entries, parts);
    assert Tally([]) == EMPTY_LISTING;
    TallyEntries([], entries);
    assert [] + entries == entries && Frame(parts) + [] == Frame(parts);
    FramedInspection(decode, parts, [], limit);
  }

  /** The two header values the format cannot express, and only those, are not read back. */
  lemma HeadersAreReadBackExactly(name: Option<string>, commit: Option<string>)
    ensures WithHeader(NO_BRANCH, Meaning(HeadHeader(name))).name == name <==> WellFormed(HeadHeader(name))
    ensures WithHeader(NO_BRANCH, Meaning(CommitHeader(commit))).headCommit == commit
            <==> WellFormed(CommitHeader(commit))
  {
  }
}
