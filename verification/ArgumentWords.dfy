/**
 What the words of the argument parser mean (rust/src/mcp/arguments.rs): types,
 lengths, white space, safe integers, paths, and which texts are trimmed.
 */
module ArgumentWords {
  import opened Numbers
  import opened Options
  import opened Arguments

  /** The type names that fit a value. */
  function TypesOf(v: Json): set<TypeName> {
    match v
    case Null => {NullType}
    case Bool(_) => {BooleanType}
    case Num(_) => {NumberType, IntegerType}
    case Str(_) => {StringType}
    case Arr(_) => {ArrayType}
    case Obj(_) => {ObjectType}
  }

  lemma TypesFit(t: TypeName, v: Json)
    ensures HasType(t, v) <==> t in TypesOf(v)
  {
  }

  /** WhiteSpace and LineTerminator of ECMA-262. */
  const ECMA_WHITE_SPACE := {
    0x09, 0x0a, 0x0b, 0x0c, 0x0d, 0x20, 0xa0, 0x1680, 0x2000, 0x2001, 0x2002, 0x2003, 0x2004, 0x2005, 0x2006, 0x2007,
    0x2008, 0x2009, 0x200a, 0x2028, 0x2029, 0x202f, 0x205f, 0x3000, 0xfeff
  }

  lemma WhitespaceIsEcmas(c: char)
    ensures Whitespace(c) <==> c as int in ECMA_WHITE_SPACE
  {
  }

  /** Texts are trimmed for the gateway's own tools only, and only under the listed paths. */
  lemma TextsAreTrimmedExactly(text: string, path: string, use: Use)
    ensures Kept(Utf8(text), path, use) == Utf8(if use == GatewayInput && path in TRIMMED_PATHS then Trim(text) else text)
    ensures TRIMMED_PATHS == {
      "since", "until", "event", "operation", "outcome", "projectId", "threadId", "providerInstanceId",
      "baseRevision", "headRevision", "query", "sessionStatus", "title", "branch", "worktreePath",
      "idempotencyKey", "taskRef", "reason", "name", "mimeType", "requestId"
    }
  {
  }

  /** The safe integers of ECMA-262: whole, and from -(2^53 - 1) to 2^53 - 1. */
  lemma SafeIntegersExactly(n: real)
    ensures SafeInteger(n) <==> exists i: int :: Whole(n, i) && -9_007_199_254_740_991 <= i <= 9_007_199_254_740_991
  {
    if SafeInteger(n) {
      assert Whole(n, n.Floor);
    }
  }

  predicate Whole(n: real, i: int) { n == i as real }

  /** A path is the keys and indices that lead to a value, joined by dots. */
  lemma PathsAreJoined(path: string, key: string, i: nat)
    ensures FieldPath("", key) == key
    ensures path != "" ==> FieldPath(path, key) == path + "." + key
    ensures Digits(ItemPath(path, i)[|path| + 1..]) && Value(ItemPath(path, i)[|path| + 1..]) == i
    ensures ItemPath(path, i)[..|path| + 1] == path + "."
  {
    DecimalValue(i);
    assert ItemPath(path, i)[|path| + 1..] == Decimal(i);
  }

  // ----- Lengths -----

  predicate HighSurrogate(unit: nat) { 0xd800 <= unit <= 0xdbff }

  predicate LowSurrogate(unit: nat) { 0xdc00 <= unit <= 0xdfff }

  /** One code point as UTF-16 units. */
  function Units(point: nat): seq<nat> {
    if point < 0x10000 then [point] else [0xd800 + (point - 0x10000) / 0x400, 0xdc00 + (point - 0x10000) % 0x400]
  }

  function Encoded(points: seq<nat>): seq<nat> {
    if points == [] then [] else Units(points[0]) + Encoded(points[1..])
  }

  /** Code points, surrogates among them, but no two that would be read as one. */
  predicate CodePointSequence(points: seq<nat>) {
    && (forall i :: 0 <= i < |points| ==> points[i] <= 0x10ffff)
    && (forall i :: 0 < i < |points| ==> !(HighSurrogate(points[i - 1]) && LowSurrogate(points[i])))
  }

  /** The length of a text in UTF-16 units, unpaired surrogates included, is its number of code points. */
  lemma {:induction false} LengthCountsCodePoints(points: seq<nat>)
    requires CodePointSequence(points)
    ensures Length(Utf16(Encoded(points))) == |points|
  {
    if points != [] {
      var rest := points[1..];
      LengthCountsCodePoints(rest);
      FirstUnit(points[0], rest);
    }
  }

  lemma FirstUnit(point: nat, rest: seq<nat>)
    requires CodePointSequence([point] + rest)
    ensures CodePoints(Units(point) + Encoded(rest)) == 1 + CodePoints(Encoded(rest))
  {
    var points, units := [point] + rest, Units(point) + Encoded(rest);
    assert points[0] == point;
    if point < 0x10000 {
      assert units[0] == point && units[1..] == Encoded(rest);
      if HighSurrogate(point) && rest != [] {
        assert points[1] == rest[0] && !LowSurrogate(rest[0]);
        assert Encoded(rest) == Units(rest[0]) + Encoded(rest[1..]);
        assert units[1] == Units(rest[0])[0] && !LowSurrogate(units[1]);
      }
    } else {
      assert units[2..] == Encoded(rest) && HighSurrogate(units[0]) && LowSurrogate(units[1]);
    }
  }
}
