/**
 What the reader of status records refuses (rust/src/git/inspection.rs:735-812):
 exactly the records that are of none of the known forms.
 */
module PorcelainRefusals {
  import opened Numbers
  import opened Options
  import opened Porcelain

  /** The pieces of a text: the last one may hold spaces. */
  predicate Pieces(text: string, n: nat, fields: seq<string>) {
    1 <= |fields| <= n && Join(fields) == text && Spaceless(fields[..|fields| - 1])
  }

  lemma WholePiece(text: string, n: nat)
    requires n > 0
    ensures Pieces(text, n, [text])
  {
  }

  lemma SplitStep(text: string, n: nat) returns (i: nat)
    requires n > 0
    ensures i == |text| ==> SplitN(text, n) == [text]
    ensures i < |text| ==> n > 1 && text[i] == ' ' && ' ' !in text[..i] && SplitN(text, n) == [text[..i]] + SplitN(text[i + 1..], n - 1)
    ensures i <= |text|
  {
    i := if n == 1 then |text| else IndexOf(text, ' ');
  }

  /** Joining undoes splitting, and only the last piece may hold spaces. */
  lemma {:induction false} JoinSplit(text: string, n: nat)
    requires n > 0
    ensures Pieces(text, n, SplitN(text, n))
    decreases n
  {
    hide SplitN, IndexOf, Join, Spaceless, Pieces;
    var i := SplitStep(text, n);
    if i == |text| {
      WholePiece(text, n);
    } else {
      JoinSplit(text[i + 1..], n - 1);
      CutAt(text, i);
      AddPiece(text, text[..i], text[i + 1..], n - 1, SplitN(text[i + 1..], n - 1));
    }
  }

  lemma AddPiece(text: string, first: string, rest: string, n: nat, fields: seq<string>)
    requires ' ' !in first && text == first + " " + rest && Pieces(rest, n, fields)
    ensures Pieces(text, n + 1, [first] + fields)
  {
    hide Join, Spaceless;
    JoinsOn(first, fields, [first] + fields);
  }

  lemma CutAt(text: string, i: nat)
    requires i < |text| && text[i] == ' '
    ensures text == text[..i] + " " + text[i + 1..]
  {
  }

  lemma JoinsOn(first: string, rest: seq<string>, fields: seq<string>)
    requires ' ' !in first && rest != [] && fields == [first] + rest && Spaceless(rest[..|rest| - 1])
    ensures Join(fields) == first + " " + Join(rest) && Spaceless(fields[..|fields| - 1])
  {
    assert fields[1..] == rest;
    FirstIsSpaceless(first, rest, fields);
  }

  lemma FirstIsSpaceless(first: string, rest: seq<string>, fields: seq<string>)
    requires ' ' !in first && rest != [] && fields == [first] + rest && Spaceless(rest[..|rest| - 1])
    ensures Spaceless(fields[..|fields| - 1])
  {
    var front := fields[..|fields| - 1];
    forall f <- front ensures ' ' !in f {
      var k :| 0 <= k < |front| && front[k] == f;
      assert k > 0 ==> f == rest[..|rest| - 1][k - 1];
    }
  }

  /** A record with fields: its letter, spaceless fields before the path, and those that must not be empty. */
  predicate Fielded(record: string, count: nat, fields: seq<string>) {
    && 8 <= count <= 10 && |fields| == count + 1 && record == Join(fields)
    && fields[0] == ["1", "2", "u"][count - 8] && Spaceless(fields[..count])
    && fields[1] != "" && fields[2] != "" && (count == 9 ==> fields[8] != "")
  }

  /** A record that needs no fields: a header, an untracked or an ignored path, or nothing. */
  predicate Simple(record: string) {
    || "# branch.oid " <= record || "# branch.head " <= record || "# branch.upstream " <= record
    || "# branch.ab " <= record || "? " <= record || "! " <= record || record == ""
  }

  /** What a record with fields says: its path, its two letters with dots for missing ones, its submodule state, a score. */
  lemma FieldsAreRead(record: string, count: nat, fields: seq<string>)
    requires Fielded(record, count, fields)
    ensures ParseRecord(record).Ok?
    ensures var x, y := fields[1][0], if |fields[1]| > 1 then fields[1][1] else '.';
      ParseRecord(record).value ==
        if count == 10 then Conflicted(Conflict(fields[10], x, y, fields[2]))
        else if count == 9 then Renamed(Change(fields[9], None, RenameOrCopy, x, y, Some(fields[8]), fields[2]))
        else Changed(Change(fields[8], None, Ordinary, x, y, None, fields[2]))
  {
    ParsePrintedFields(fields, count);
  }

  /** A record that is read by its fields has them. */
  lemma EntryIsFielded(record: string) returns (count: nat, fields: seq<string>)
    requires ParseEntry(record).Ok?
    ensures Fielded(record, count, fields)
  {
    count := FieldCount(record);
    fields := SplitN(record, count + 1);
    JoinSplit(record, count + 1);
    FirstField(record, fields, count);
  }

  lemma FirstField(record: string, fields: seq<string>, count: nat)
    requires |fields| > 1 && record == Join(fields) && Spaceless(fields[..|fields| - 1])
    requires count == FieldCount(record) && count > 0
    ensures fields[0] == ["1", "2", "u"][count - 8]
  {
    var first, rest := fields[0], Join(fields[1..]);
    assert ' ' !in first by { assert fields[..|fields| - 1][0] == first; }
    JoinFirst(fields);
    hide Join, Spaceless;
    LetterBeforeSpace(record, first, rest, count);
  }

  lemma LetterBeforeSpace(record: string, first: string, rest: string, count: nat)
    requires record == first + " " + rest && ' ' !in first
    requires count == FieldCount(record) && count > 0
    ensures first == ["1", "2", "u"][count - 8]
  {
    assert record[1] == ' ' && record[0] == ["1", "2", "u"][count - 8][0];
    assert record[|first|] == ' ' && forall k :: 0 <= k < |first| ==> record[k] == first[k];
  }

  lemma FieldedIsNotSimple(record: string, count: nat, fields: seq<string>)
    requires Fielded(record, count, fields)
    ensures !Simple(record) && ParseEntry(record).Ok?
  {
    JoinedFields(fields, count);
    FieldRecord(record, count);
    ParsePrintedFields(fields, count);
    assert record[0] == ["1", "2", "u"][count - 8][0];
    assert "# branch.oid "[0] == '#' && "# branch.head "[0] == '#' && "# branch.upstream "[0] == '#'
        && "# branch.ab "[0] == '#' && "? "[0] == '?' && "! "[0] == '!';
  }

  /** A record is refused exactly if it is neither simple nor a record with fields; the error quotes its first 120 characters. */
  lemma RefusedExactly(record: string)
    ensures ParseRecord(record).Err? <==>
      !Simple(record) && forall count, fields :: !Fielded(record, count, fields)
    ensures ParseRecord(record).Err? ==>
      && ParseRecord(record).error <= record
      && |ParseRecord(record).error| == (if |record| < 120 then |record| else 120)
  {
    if !Simple(record) {
      assert ParseRecord(record) == ParseEntry(record);
      if ParseEntry(record).Ok? {
        var count, fields := EntryIsFielded(record);
      } else {
        forall count, fields ensures !Fielded(record, count, fields) {
          if Fielded(record, count, fields) {
            FieldedIsNotSimple(record, count, fields);
          }
        }
      }
    }
  }

  // ----- Counts -----

  lemma {:induction false} SplitOnceJoins(text: string)
    ensures SplitOnce(text).Some? ==> text == SplitOnce(text).value.0 + " -" + SplitOnce(text).value.1
  {
    if |text| >= 2 && !(text[0] == ' ' && text[1] == '-') {
      SplitOnceJoins(text[1..]);
      assert text == [text[0]] + text[1..];
    } else if |text| >= 2 {
      assert text == "" + " -" + text[2..];
    }
  }

  predicate Numeral(text: string) { text != "" && Digits(text) }

  function AtMostU64(n: nat): Option<nat> { if n <= 18_446_744_073_709_551_615 then Some(n) else None }

  /** Counts are read exactly from "+<digits> -<digits>", each if it fits 64 bits; any other text is passed over. */
  lemma CountsAreReadExactly(ab: string)
    ensures ParseAheadBehind(ab) == Nothing <==> forall a, b :: Numeral(a) && Numeral(b) ==> ab != "+" + (a + " -" + b)
    ensures forall a, b :: Numeral(a) && Numeral(b) && ab == "+" + (a + " -" + b) ==>
      ParseAheadBehind(ab) == AheadBehind(AtMostU64(Value(a)), AtMostU64(Value(b)))
  {
    forall a, b | Numeral(a) && Numeral(b) && ab == "+" + (a + " -" + b)
      ensures ParseAheadBehind(ab) == AheadBehind(AtMostU64(Value(a)), AtMostU64(Value(b)))
    {
      assert ab[1..] == a + " -" + b;
      assert ' ' !in a;
      SplitOnceSpaceless(a, b);
    }
    if ParseAheadBehind(ab) != Nothing {
      SplitOnceJoins(ab[1..]);
      var parts := SplitOnce(ab[1..]).value;
      assert Numeral(parts.0) && Numeral(parts.1) && ab == "+" + (parts.0 + " -" + parts.1);
    }
  }
}
