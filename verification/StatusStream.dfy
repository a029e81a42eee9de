/**
 The streaming status reader (rust/src/git/inspection.rs): records are cut at
 NUL bytes from chunks of any size, and the entries of each category are kept
 up to a limit.
 */
module StatusStream {
  import opened Numbers
  import opened Options
  import opened Porcelain

  /** `String::from_utf8_lossy`, of which nothing is assumed. */
  type Decoder = seq<Byte> -> string

  /** GitCategory: the first `limit` items and the number of all items. */
  datatype Category<T> = Category(count: nat, items: seq<T>, truncated: bool) {
    function Add(item: T, limit: nat): Category<T> {
      var kept := if |items| < limit then items + [item] else items;
      Category(count + 1, kept, |kept| < count + 1)
    }
  }

  datatype Report = Report(
    branch: Branch,
    staged: Category<Change>,
    unstaged: Category<Change>,
    untracked: Category<string>,
    conflicts: Category<Conflict>,
    pendingRename: Option<Change>)
  {
    function AddChange(change: Change, limit: nat): Report {
      this.(staged := if change.index != '.' then staged.Add(change, limit) else staged,
            unstaged := if change.worktree != '.' then unstaged.Add(change, limit) else unstaged)
    }

    function Apply(event: Event, limit: nat): Report {
      match event
      case Changed(change) => AddChange(change, limit)
      case Renamed(change) => this.(pendingRename := Some(change))
      case Conflicted(conflict) => this.(conflicts := conflicts.Add(conflict, limit))
      case Untracked(path) => this.(untracked := untracked.Add(path, limit))
      case Nothing => this
      case Commit(_) => this.(branch := WithHeader(branch, event))
      case Head(_) => this.(branch := WithHeader(branch, event))
      case Upstream(_) => this.(branch := WithHeader(branch, event))
      case AheadBehind(_, _) => this.(branch := WithHeader(branch, event))
    }

    /** The next record, which is an original path while a rename waits for one. */
    function Record(record: string, limit: nat): Result<Report, string> {
      match pendingRename
      case Some(change) =>
        Ok(this.(pendingRename := None).AddChange(change.(originalPath := Some(record)), limit))
      case None =>
        match ParseRecord(record)
        case Ok(event) => Ok(Apply(event, limit))
        case Err(excerpt) => Err(excerpt)
    }
  }

  function WithHeader(branch: Branch, event: Event): Branch {
    match event
    case Commit(oid) =>
      var unborn := oid == "(initial)";
      branch.(unborn := unborn, headCommit := if unborn then None else Some(oid))
    case Head(name) =>
      var detached := name == "(detached)";
      branch.(detached := detached, name := if detached then None else Some(name))
    case Upstream(upstream) => branch.(upstream := Some(upstream))
    case AheadBehind(ahead, behind) => branch.(ahead := ahead, behind := behind)
    case _ => branch
  }

  function EmptyCategory<T>(): Category<T> { Category(0, [], false) }

  const EMPTY_REPORT :=
    Report(NO_BRANCH, EmptyCategory(), EmptyCategory(), EmptyCategory(), EmptyCategory(), None)

  /** The accumulator between two chunks. */
  datatype Status = Status(pending: seq<Byte>, report: Report)

  const EMPTY := Status([], EMPTY_REPORT)

  /** The accumulator after some bytes, or at the record that stopped it. */
  datatype Outcome = Outcome(status: Status, failure: Option<string>)

  function Step(decode: Decoder, s: Status, b: Byte, limit: nat): Outcome {
    if b != 0 then Outcome(s.(pending := s.pending + [b]), None)
    else match s.report.Record(decode(s.pending), limit)
      case Ok(report) => Outcome(Status([], report), None)
      case Err(excerpt) => Outcome(s, Some(excerpt))
  }

  /** The byte-at-a-time reading that every way of cutting the stream must agree with. */
  function Feed(decode: Decoder, s: Status, bytes: seq<Byte>, limit: nat): Outcome
    decreases |bytes|
  {
    if bytes == [] then Outcome(s, None)
    else
      var next := Step(decode, s, bytes[0], limit);
      if next.failure.Some? then next else Feed(decode, next.status, bytes[1..], limit)
  }

  // ---------------------------------------------------------------- the accumulator

  class StatusAccumulator {
    const decode: Decoder
    var pendingRecord: seq<Byte>
    var branch: Branch
    var staged: Category<Change>
    var unstaged: Category<Change>
    var untracked: Category<string>
    var conflicts: Category<Conflict>
    var pendingRename: Option<Change>

    function View(): Status
      reads this
    {
      Status(pendingRecord, Report(branch, staged, unstaged, untracked, conflicts, pendingRename))
    }

    constructor (decode: Decoder)
      ensures View() == EMPTY && this.decode == decode
    {
      this.decode := decode;
      pendingRecord, branch, pendingRename := [], NO_BRANCH, None;
      staged, unstaged := EmptyCategory(), EmptyCategory();
      untracked, conflicts := EmptyCategory(), EmptyCategory();
    }

    method AddChange(change: Change, limit: nat)
      modifies this
      ensures View() == old(View()).(report := old(View()).report.AddChange(change, limit))
    {
      if change.index != '.' {
        staged := staged.Add(change, limit);
      }
      if change.worktree != '.' {
        unstaged := unstaged.Add(change, limit);
      }
    }

    /** One record with fields. */
    method RecordEntry(record: string, limit: nat) returns (failure: Option<string>)
      modifies this
      ensures match ParseEntry(record)
              case Ok(event) =>
                failure == None && View() == old(View()).(report := old(View()).report.Apply(event, limit))
              case Err(excerpt) => failure == Some(excerpt) && View() == old(View())
    {
      var count := FieldCount(record);
      if count == 0 {
        return Some(Excerpt(record));
      }
      var fields := SplitN(record, count + 1);
      if |fields| != count + 1 || fields[1] == "" || fields[2] == "" || (count == 9 && fields[8] == "") {
        return Some(Excerpt(record));
      }
      var index, worktree := CharAt(fields[1], 0), CharAt(fields[1], 1);
      if count == 10 {
        conflicts := conflicts.Add(Conflict(fields[count], index, worktree, fields[2]), limit);
      } else {
        var change := Change(
          fields[count], None, if count == 9 then RenameOrCopy else Ordinary, index, worktree,
          if count == 9 then Some(fields[8]) else None, fields[2]);
        if count == 9 {
          pendingRename := Some(change);
        } else {
          AddChange(change, limit);
        }
      }
      failure := None;
    }

    method Record(record: string, limit: nat) returns (failure: Option<string>)
      modifies this
      ensures match old(View()).report.Record(record, limit)
              case Ok(report) => failure == None && View() == old(View()).(report := report)
              case Err(excerpt) => failure == Some(excerpt) && View() == old(View())
    {
      failure := None;
      if pendingRename.Some? {
        var change := pendingRename.value.(originalPath := Some(record));
        pendingRename := None;
        AddChange(change, limit);
      } else if "# branch.oid " <= record {
        var oid := record[13..];
        branch := branch.(unborn := oid == "(initial)");
        branch := branch.(headCommit := if branch.unborn then None else Some(oid));
      } else if "# branch.head " <= record {
        var head := record[14..];
        branch := branch.(detached := head == "(detached)");
        branch := branch.(name := if branch.detached then None else Some(head));
      } else if "# branch.upstream " <= record {
        branch := branch.(upstream := Some(record[18..]));
      } else if "# branch.ab " <= record {
        var counts := ParseAheadBehind(record[12..]);
        if counts.AheadBehind? {
          branch := branch.(ahead := counts.ahead, behind := counts.behind);
        }
      } else if "? " <= record {
        untracked := untracked.Add(record[2..], limit);
      } else if "! " <= record || record == "" {
      } else {
        failure := RecordEntry(record, limit);
      }
    }

    /**
     Reads one chunk. Bytes are copied to the pending record only at a NUL and
     at the end of the chunk.
     */
    method Read(chunk: seq<Byte>, limit: nat) returns (failure: Option<string>)
      modifies this
      ensures Outcome(View(), failure) == Feed(decode, old(View()), chunk, limit)
    {
      var start, index := 0, 0;
      assert chunk[0..] == chunk && pendingRecord + chunk[0..0] == pendingRecord;
      while index < |chunk|
        invariant 0 <= start <= index <= |chunk|
        invariant Feed(decode, old(View()), chunk, limit)
               == Feed(decode, View().(pending := pendingRecord + chunk[start..index]), chunk[index..], limit)
      {
        ghost var virtual := View().(pending := pendingRecord + chunk[start..index]);
        assert chunk[index..][0] == chunk[index] && chunk[index..][1..] == chunk[index + 1..];
        if chunk[index] == 0 {
          pendingRecord := pendingRecord + chunk[start..index];
          assert View() == virtual;
          failure := Record(decode(pendingRecord), limit);
          if failure.Some? {
            return;
          }
          pendingRecord := [];
          start := index + 1;
          assert pendingRecord + chunk[start..index + 1] == [];
        } else {
          assert chunk[start..index] + [chunk[index]] == chunk[start..index + 1];
          assert pendingRecord + chunk[start..index] + [chunk[index]] == pendingRecord + chunk[start..index + 1];
        }
        index := index + 1;
      }
      pendingRecord := pendingRecord + chunk[start..];
      assert chunk[start..] == chunk[start..index] && chunk[index..] == [];
      failure := None;
    }
  }

  // ---------------------------------------------------------------- one git status call

  datatype StatusResult = StatusResult(
    branch: Branch,
    staged: Category<Change>,
    unstaged: Category<Change>,
    untracked: Category<string>,
    conflicts: Category<Conflict>,
    clean: bool,
    truncated: bool,
    omittedStaged: int,
    omittedUnstaged: int,
    omittedUntracked: int,
    omittedConflicts: int)

  const INCOMPLETE := "Git status returned an incomplete porcelain record."

  /** The end of status_inner: an unfinished record or rename is an error. */
  function Finish(outcome: Outcome): Result<StatusResult, string> {
    var report := outcome.status.report;
    if outcome.failure.Some? then Err(outcome.failure.value)
    else if outcome.status.pending != [] || report.pendingRename.Some? then Err(INCOMPLETE)
    else Ok(StatusResult(
      report.branch, report.staged, report.unstaged, report.untracked, report.conflicts,
      report.staged.count + report.unstaged.count + report.untracked.count + report.conflicts.count == 0,
      report.staged.truncated || report.unstaged.truncated
      || report.untracked.truncated || report.conflicts.truncated,
      report.staged.count - |report.staged.items|,
      report.unstaged.count - |report.unstaged.items|,
      report.untracked.count - |report.untracked.items|,
      report.conflicts.count - |report.conflicts.items|))
  }

  function Concat(chunks: seq<seq<Byte>>): seq<Byte> {
    if chunks == [] then [] else chunks[0] + Concat(chunks[1..])
  }

  lemma {:induction false} FeedAppend(decode: Decoder, s: Status, a: seq<Byte>, b: seq<Byte>, limit: nat)
    ensures var first := Feed(decode, s, a, limit);
            Feed(decode, s, a + b, limit)
            == if first.failure.Some? then first else Feed(decode, first.status, b, limit)
    decreases |a|
  {
    if a == [] {
      assert a + b == b;
    } else {
      assert (a + b)[0] == a[0] && (a + b)[1..] == a[1..] + b;
      var next := Step(decode, s, a[0], limit);
      if next.failure.None? {
        FeedAppend(decode, next.status, a[1..], b, limit);
      }
    }
  }

  /**
   Runs the accumulator over the chunks Git's output arrives in, and stops at
   the first error. The result depends on the bytes, and not on the chunks.
   */
  method Inspect(decode: Decoder, chunks: seq<seq<Byte>>, limit: nat) returns (result: Result<StatusResult, string>)
    ensures result == Finish(Feed(decode, EMPTY, Concat(chunks), limit))
  {
    var status := new StatusAccumulator(decode);
    var k := 0;
    assert chunks[0..] == chunks;
    while k < |chunks|
      invariant k <= |chunks| && status.decode == decode && fresh(status)
      invariant Feed(decode, EMPTY, Concat(chunks), limit)
             == Feed(decode, status.View(), Concat(chunks[k..]), limit)
    {
      assert chunks[k..][0] == chunks[k] && chunks[k..][1..] == chunks[k + 1..];
      FeedAppend(decode, status.View(), chunks[k], Concat(chunks[k + 1..]), limit);
      var failure := status.Read(chunks[k], limit);
      if failure.Some? {
        return Err(failure.value);
      }
      k := k + 1;
    }
    result := Finish(Outcome(status.View(), None));
  }

  /** Any two ways of cutting the same stream give the same state or stop with the same error. */
  lemma {:induction false} ChunkingInvariance(decode: Decoder, s: Status, chunks: seq<seq<Byte>>, limit: nat)
    ensures FeedChunks(decode, s, chunks, limit) == Feed(decode, s, Concat(chunks), limit)
    decreases |chunks|
  {
    if chunks != [] {
      FeedAppend(decode, s, chunks[0], Concat(chunks[1..]), limit);
      var first := Feed(decode, s, chunks[0], limit);
      ChunkingInvariance(decode, first.status, chunks[1..], limit);
    }
  }

  /** Successive calls of `read`, up to the first that fails. */
  function FeedChunks(decode: Decoder, s: Status, chunks: seq<seq<Byte>>, limit: nat): Outcome
    decreases |chunks|
  {
    if chunks == [] then Outcome(s, None)
    else
      var first := Feed(decode, s, chunks[0], limit);
      if first.failure.Some? then first else FeedChunks(decode, first.status, chunks[1..], limit)
  }
}
