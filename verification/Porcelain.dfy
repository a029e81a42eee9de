/**
 Git porcelain v2 records (rust/src/git/inspection.rs): how one NUL-terminated
 record is read, and how Git prints the entries those records stand for.
 */
module Porcelain {
  import opened Numbers
  import opened Options

  datatype Kind = Ordinary | RenameOrCopy

  datatype Change = Change(
    path: string,
    originalPath: Option<string>,
    kind: Kind,
    index: char,
    worktree: char,
    score: Option<string>,
    submodule: string)

  datatype Conflict = Conflict(path: string, index: char, worktree: char, submodule: string)

  datatype Branch = Branch(
    name: Option<string>,
    detached: bool,
    unborn: bool,
    headCommit: Option<string>,
    upstream: Option<string>,
    ahead: Option<nat>,
    behind: Option<nat>)

  const NO_BRANCH := Branch(None, false, false, None, None, None, None)

  /** What one record says. `Nothing` is an ignored path, an empty record or a malformed `branch.ab`. */
  datatype Event =
    | Commit(oid: string)
    | Head(name: string)
    | Upstream(upstream: string)
    | AheadBehind(ahead: Option<nat>, behind: Option<nat>)
    | Untracked(path: string)
    | Nothing
    | Changed(change: Change)
    | Renamed(change: Change)
    | Conflicted(conflict: Conflict)

  // ---------------------------------------------------------------- strings

  /** `strip_prefix` */
  function Strip(text: string, prefix: string): Option<string> {
    if prefix <= text then Some(text[|prefix|..]) else None
  }

  function IndexOf(text: string, c: char): (i: nat)
    ensures i <= |text| && forall k :: 0 <= k < i ==> text[k] != c
    ensures i < |text| ==> text[i] == c
  {
    if text == [] || text[0] == c then 0 else 1 + IndexOf(text[1..], c)
  }

  /** `splitn(n, ' ')`: at most n pieces, and the last one keeps its spaces. */
  function SplitN(text: string, n: nat): seq<string>
    requires n > 0
  {
    var i := IndexOf(text, ' ');
    if n == 1 || i == |text| then [text] else [text[..i]] + SplitN(text[i + 1..], n - 1)
  }

  function Join(fields: seq<string>): string
    requires fields != []
  {
    if |fields| == 1 then fields[0] else fields[0] + " " + Join(fields[1..])
  }

  /** `split_once(" -")` */
  function SplitOnce(text: string): Option<(string, string)> {
    if |text| < 2 then None
    else if text[0] == ' ' && text[1] == '-' then Some(("", text[2..]))
    else match SplitOnce(text[1..])
      case None => None
      case Some(parts) => Some(([text[0]] + parts.0, parts.1))
  }

  const U64_LIMIT: nat := 0x1_0000_0000_0000_0000

  /** `parse::<u64>().ok()` */
  function InU64(n: nat): Option<nat> { if n < U64_LIMIT then Some(n) else None }

  // ---------------------------------------------------------------- one record

  function ParseAheadBehind(ab: string): Event {
    match Strip(ab, "+")
    case None => Nothing
    case Some(counts) =>
      match SplitOnce(counts)
      case None => Nothing
      case Some(parts) =>
        if parts.0 != "" && parts.1 != "" && Digits(parts.0) && Digits(parts.1)
        then AheadBehind(InU64(Value(parts.0)), InU64(Value(parts.1)))
        else Nothing
  }

  /** The number of fields before the path, for the record kinds that have fields. */
  function FieldCount(record: string): nat {
    if "1 " <= record then 8 else if "2 " <= record then 9 else if "u " <= record then 10 else 0
  }

  /** The text of the error about an unrecognized record: its first 120 characters. */
  function Excerpt(record: string): string { record[..if |record| < 120 then |record| else 120] }

  function CharAt(field: string, i: nat): char { if i < |field| then field[i] else '.' }

  function ParseFields(count: nat, fields: seq<string>): Event
    requires count >= 8 && |fields| == count + 1
  {
    var index, worktree := CharAt(fields[1], 0), CharAt(fields[1], 1);
    if count == 10 then Conflicted(Conflict(fields[count], index, worktree, fields[2]))
    else if count == 9 then
      Renamed(Change(fields[count], None, RenameOrCopy, index, worktree, Some(fields[8]), fields[2]))
    else Changed(Change(fields[count], None, Ordinary, index, worktree, None, fields[2]))
  }

  function ParseEntry(record: string): Result<Event, string> {
    var count := FieldCount(record);
    if count == 0 then Err(Excerpt(record))
    else
      var fields := SplitN(record, count + 1);
      if |fields| != count + 1 || fields[1] == "" || fields[2] == "" || (count == 9 && fields[8] == "")
      then Err(Excerpt(record))
      else Ok(ParseFields(count, fields))
  }

  /** A record read on its own, when no rename waits for its original path. */
  function ParseRecord(record: string): Result<Event, string> {
    if "# branch.oid " <= record then Ok(Commit(record[13..]))
    else if "# branch.head " <= record then Ok(Head(record[14..]))
    else if "# branch.upstream " <= record then Ok(Upstream(record[18..]))
    else if "# branch.ab " <= record then Ok(ParseAheadBehind(record[12..]))
    else if "? " <= record then Ok(Untracked(record[2..]))
    else if "! " <= record || record == "" then Ok(Nothing)
    else ParseEntry(record)
  }

  // ---------------------------------------------------------------- what Git prints

  /** An entry of `git status --porcelain=v2 --branch`. `metadata` holds the modes and object names. */
  datatype Entry =
    | CommitHeader(commit: Option<string>)
    | HeadHeader(branch: Option<string>)
    | UpstreamHeader(upstream: string)
    | AheadBehindHeader(ahead: nat, behind: nat)
    | OrdinaryEntry(x: char, y: char, submodule: string, metadata: seq<string>, path: string)
    | RenameEntry(x: char, y: char, submodule: string, metadata: seq<string>, score: string,
                  path: string, originalPath: string)
    | UnmergedEntry(x: char, y: char, submodule: string, metadata: seq<string>, path: string)
    | UntrackedEntry(path: string)
    | IgnoredEntry(path: string)

  predicate WellFormed(e: Entry) {
    match e
    case CommitHeader(commit) => commit != Some("(initial)")
    case HeadHeader(branch) => branch != Some("(detached)")
    case UpstreamHeader(_) => true
    case AheadBehindHeader(_, _) => true
    case OrdinaryEntry(x, y, submodule, metadata, _) =>
      |metadata| == 5 && Spaceless([[x, y], submodule] + metadata) && submodule != ""
    case RenameEntry(x, y, submodule, metadata, score, _, _) =>
      |metadata| == 5 && Spaceless([[x, y], submodule] + metadata + [score]) && submodule != "" && score != ""
    case UnmergedEntry(x, y, submodule, metadata, _) =>
      |metadata| == 7 && Spaceless([[x, y], submodule] + metadata) && submodule != ""
    case UntrackedEntry(_) => true
    case IgnoredEntry(_) => true
  }

  predicate Spaceless(fields: seq<string>) { forall f <- fields :: ' ' !in f }

  /** The main record of an entry. */
  function Print(e: Entry): string {
    match e
    case CommitHeader(commit) => "# branch.oid " + commit.Or("(initial)")
    case HeadHeader(branch) => "# branch.head " + branch.Or("(detached)")
    case UpstreamHeader(upstream) => "# branch.upstream " + upstream
    case AheadBehindHeader(ahead, behind) =>
      "# branch.ab " + ("+" + (Decimal(ahead) + " -" + Decimal(behind)))
    case OrdinaryEntry(x, y, submodule, metadata, path) => Join(["1", [x, y], submodule] + metadata + [path])
    case RenameEntry(x, y, submodule, metadata, score, path, _) =>
      Join(["2", [x, y], submodule] + metadata + [score, path])
    case UnmergedEntry(x, y, submodule, metadata, path) => Join(["u", [x, y], submodule] + metadata + [path])
    case UntrackedEntry(path) => "? " + path
    case IgnoredEntry(path) => "! " + path
  }

  /** All records of an entry: a rename is followed by its original path, as it is. */
  function Records(e: Entry): seq<string> {
    if e.RenameEntry? then [Print(e), e.originalPath] else [Print(e)]
  }

  /** What reading the main record must yield. */
  function Meaning(e: Entry): Event {
    match e
    case CommitHeader(commit) => Commit(commit.Or("(initial)"))
    case HeadHeader(branch) => Head(branch.Or("(detached)"))
    case UpstreamHeader(upstream) => Upstream(upstream)
    case AheadBehindHeader(ahead, behind) => AheadBehind(InU64(ahead), InU64(behind))
    case OrdinaryEntry(x, y, submodule, _, path) => Changed(Change(path, None, Ordinary, x, y, None, submodule))
    case RenameEntry(x, y, submodule, _, score, path, _) =>
      Renamed(Change(path, None, RenameOrCopy, x, y, Some(score), submodule))
    case UnmergedEntry(x, y, submodule, _, path) => Conflicted(Conflict(path, x, y, submodule))
    case UntrackedEntry(path) => Untracked(path)
    case IgnoredEntry(_) => Nothing
  }

  // ---------------------------------------------------------------- lemmas

  lemma {:induction false} IndexOfSpace(field: string, rest: string)
    requires ' ' !in field
    ensures IndexOf(field + " " + rest, ' ') == |field|
  {
    var text := field + " " + rest;
    assert text[|field|] == ' ';
    assert forall k :: 0 <= k < |field| ==> text[k] == field[k];
  }

  lemma SplitFirst(first: string, rest: string, n: nat)
    requires ' ' !in first && n > 1
    ensures SplitN(first + " " + rest, n) == [first] + SplitN(rest, n - 1)
  {
    var text := first + " " + rest;
    IndexOfSpace(first, rest);
    assert text[..|first|] == first && text[|first| + 1..] == rest;
  }

  lemma JoinFirst(fields: seq<string>)
    requires |fields| > 1
    ensures Join(fields) == fields[0] + " " + Join(fields[1..])
  {
  }

  lemma SpacelessParts(fields: seq<string>)
    requires |fields| > 1 && Spaceless(fields[..|fields| - 1])
    ensures ' ' !in fields[0] && Spaceless(fields[1..][..|fields| - 2])
  {
    var front := fields[..|fields| - 1];
    assert front[0] == fields[0];
    assert fields[1..][..|fields| - 2] == front[1..];
  }

  /** Splitting undoes joining when only the last field may hold spaces. */
  lemma {:induction false} SplitJoin(fields: seq<string>)
    requires fields != [] && Spaceless(fields[..|fields| - 1])
    ensures SplitN(Join(fields), |fields|) == fields
  {
    if |fields| == 1 {
    } else {
      hide SplitN, Join, Spaceless;
      var first, rest := fields[0], fields[1..];
      SpacelessParts(fields);
      SplitJoin(rest);
      JoinFirst(fields);
      SplitFirst(first, Join(rest), |fields|);
      assert [first] + rest == fields;
    }
  }

  lemma {:induction false} SplitOnceSpaceless(a: string, b: string)
    requires ' ' !in a
    ensures SplitOnce(a + " -" + b) == Some((a, b))
  {
    var text := a + " -" + b;
    if a == "" {
      assert text[2..] == b;
    } else {
      SplitOnceSpaceless(a[1..], b);
      assert text[1..] == a[1..] + " -" + b;
      assert [a[0]] + a[1..] == a;
    }
  }

  lemma ParsePrintedAheadBehind(ahead: nat, behind: nat)
    ensures var read := ParseAheadBehind("+" + (Decimal(ahead) + " -" + Decimal(behind)));
      && read == AheadBehind(InU64(ahead), InU64(behind))
      && read.ahead == (if ahead <= 18_446_744_073_709_551_615 then Some(ahead) else None)
      && read.behind == (if behind <= 18_446_744_073_709_551_615 then Some(behind) else None)
  {
    DecimalValue(ahead);
    DecimalValue(behind);
    var counts := Decimal(ahead) + " -" + Decimal(behind);
    assert ("+" + counts)[1..] == counts;
    SplitOnceSpaceless(Decimal(ahead), Decimal(behind));
  }

  /** A prefix is taken off exactly the texts that start with it, the prefix alone included. */
  lemma StripExactly(text: string, prefix: string, rest: string)
    ensures Strip(text, prefix) == Some(rest) <==> text == prefix + rest
  {
  }

  /** The three kinds of records with fields are told from the others by their first character. */
  lemma FieldRecord(text: string, count: nat)
    requires 8 <= count <= 10 && [["1", "2", "u"][count - 8][0], ' '] <= text
    ensures FieldCount(text) == count && ParseRecord(text) == ParseEntry(text)
  {
    assert text[0] == ["1", "2", "u"][count - 8][0];
    assert "# branch.oid "[0] == '#' && "# branch.head "[0] == '#' && "# branch.upstream "[0] == '#';
    assert "# branch.ab "[0] == '#' && "? "[0] == '?' && "! "[0] == '!';
  }

  lemma JoinedFields(fields: seq<string>, count: nat)
    requires 8 <= count <= 10 && |fields| == count + 1 && fields[0] == ["1", "2", "u"][count - 8]
    ensures [["1", "2", "u"][count - 8][0], ' '] <= Join(fields)
  {
    var text, rest := Join(fields), Join(fields[1..]);
    assert text == fields[0] + " " + rest;
    assert text[0] == fields[0][0] && text[1] == ' ';
  }

  lemma ParsePrintedFields(fields: seq<string>, count: nat)
    requires 8 <= count <= 10 && |fields| == count + 1 && fields[0] == ["1", "2", "u"][count - 8]
    requires Spaceless(fields[..count]) && fields[1] != "" && fields[2] != ""
    requires count == 9 ==> fields[8] != ""
    ensures ParseRecord(Join(fields)) == Ok(ParseFields(count, fields))
  {
    SplitJoin(fields);
    JoinedFields(fields, count);
    var text := Join(fields);
    FieldRecord(text, count);
    calc {
      ParseRecord(text);
      ParseEntry(text);
      { assert SplitN(text, count + 1) == fields; }
      Ok(ParseFields(count, fields));
    }
  }

  lemma ParsePrintedHeader(e: Entry)
    requires e.CommitHeader? || e.HeadHeader? || e.UpstreamHeader? || e.AheadBehindHeader?
    ensures ParseRecord(Print(e)) == Ok(Meaning(e))
  {
    var text := Print(e);
    match e
    case CommitHeader(commit) =>
      assert text[13..] == commit.Or("(initial)");
    case HeadHeader(branch) =>
      assert text[9] == 'h' && "# branch.oid "[9] == 'o';
      assert text[14..] == branch.Or("(detached)");
    case UpstreamHeader(upstream) =>
      assert text[9] == 'u' && "# branch.oid "[9] == 'o' && "# branch.head "[9] == 'h';
      assert text[18..] == upstream;
    case AheadBehindHeader(ahead, behind) =>
      assert text[9] == 'a' && "# branch.oid "[9] == 'o' && "# branch.head "[9] == 'h' && "# branch.upstream "[9] == 'u';
      assert text[12..] == "+" + (Decimal(ahead) + " -" + Decimal(behind));
      ParsePrintedAheadBehind(ahead, behind);
  }

  lemma ParsePrintedPath(e: Entry)
    requires e.UntrackedEntry? || e.IgnoredEntry?
    ensures ParseRecord(Print(e)) == Ok(Meaning(e))
  {
    var text := Print(e);
    assert "# branch.oid "[0] == '#' && "# branch.head "[0] == '#' && "# branch.upstream "[0] == '#'
        && "# branch.ab "[0] == '#' && "? "[0] == '?';
    assert text[2..] == e.path;
  }

  /** Reading the record Git prints for an entry gives back what the entry says. */
  lemma ParsePrinted(e: Entry)
    requires WellFormed(e)
    ensures ParseRecord(Print(e)) == Ok(Meaning(e))
  {
    match e
    case OrdinaryEntry(x, y, submodule, metadata, path) =>
      var fields := ["1", [x, y], submodule] + metadata + [path];
      assert fields[..8] == ["1"] + ([[x, y], submodule] + metadata);
      ParsePrintedFields(fields, 8);
    case RenameEntry(x, y, submodule, metadata, score, path, _) =>
      var fields := ["2", [x, y], submodule] + metadata + [score, path];
      assert fields[..9] == ["2"] + ([[x, y], submodule] + metadata + [score]);
      ParsePrintedFields(fields, 9);
    case UnmergedEntry(x, y, submodule, metadata, path) =>
      var fields := ["u", [x, y], submodule] + metadata + [path];
      assert fields[..10] == ["u"] + ([[x, y], submodule] + metadata);
      ParsePrintedFields(fields, 10);
    case UntrackedEntry(_) => ParsePrintedPath(e);
    case IgnoredEntry(_) => ParsePrintedPath(e);
    case CommitHeader(_) => ParsePrintedHeader(e);
    case HeadHeader(_) => ParsePrintedHeader(e);
    case UpstreamHeader(_) => ParsePrintedHeader(e);
    case AheadBehindHeader(_, _) => ParsePrintedHeader(e);
  }
}
