/**
 Schema-directed parsing of tool arguments (rust/src/mcp/arguments.rs): a value
 is checked against a JSON schema and rewritten on the way, with defaults filled
 in, undeclared keys stripped, some strings trimmed and integers respelled.
 */
module Arguments {
  import Numbers
  import opened Options

  /** SchemaUse */
  datatype Use = GatewayInput | NativeInput | GatewayOutput

  /** A number keeps its spelling: 1 and 1.0 differ. A spelling beyond the finite doubles has no value. */
  datatype Number = Integer(n: int) | Spelled(spelling: string, finite: Option<real>) {
    function Value(): Option<real> { if Integer? then Some(n as real) else finite }
  }

  /** UTF-8 text, or UTF-16 units that hold an unpaired surrogate. */
  datatype Text = Utf8(chars: string) | Utf16(units: seq<nat>)

  datatype Json =
    | Null
    | Bool(b: bool)
    | Num(number: Number)
    | Str(text: Text)
    | Arr(items: seq<Json>)
    | Obj(fields: map<string, Json>)

  datatype TypeName = ObjectType | ArrayType | StringType | NumberType | IntegerType | BooleanType | NullType | OtherType

  datatype Additional = Unstated | Forbidden | Allowed

  datatype Property = Property(key: string, schema: Schema)

  /** `anyOf`, or else `oneOf`. */
  datatype Variants = NoVariants | Variants(options: seq<Schema>)

  /** The keywords the parser reads. A pattern is a compiled regular expression. */
  datatype Schema = Schema(
    default: Option<Json>,
    enumeration: Option<seq<Json>>,
    variants: Variants,
    constant: Option<Json>,
    types: seq<TypeName>,
    properties: seq<Property>,
    required: set<string>,
    additional: Additional,
    items: Option<Schema>,
    limits: Limits,
    pattern: Option<Text -> bool>)

  datatype Limits = Limits(
    minLength: Option<real>,
    maxLength: Option<real>,
    minimum: Option<real>,
    maximum: Option<real>,
    minItems: Option<real>,
    maxItems: Option<real>,
    exclusiveMinimum: Option<real>,
    exclusiveMaximum: Option<real>)

  datatype Issue = Issue(path: string, problem: Problem)

  datatype Problem =
    | NotAnOption | NoVariant | NotTheConstant | Missing | WrongType | UnknownKey(key: string)
    | TooSmall(bound: real) | TooBig(bound: real) | NoMatch | NotAnInteger | NotFinite

  /** The value and the issues found; their order and repetition are not modelled. */
  datatype Parsed = Parsed(value: Option<Json>, issues: set<Issue>) {
    predicate Clean() { issues == {} }
  }

  // ---------------------------------------------------------------- pieces

  /** js_whitespace */
  predicate Whitespace(c: char) {
    var n := c as int;
    || 0x09 <= n <= 0x0d || n in {0x20, 0xa0, 0x1680} || 0x2000 <= n <= 0x200a
    || n in {0x2028, 0x2029, 0x202f, 0x205f, 0x3000, 0xfeff}
  }

  predicate Trimmed(text: string) {
    text == "" || (!Whitespace(text[0]) && !Whitespace(text[|text| - 1]))
  }

  /** `trim_matches(js_whitespace)` */
  function Trim(text: string): (r: string)
    ensures Trimmed(r) && (Trimmed(text) ==> r == text)
  {
    if text == "" then text
    else if Whitespace(text[0]) then Trim(text[1..])
    else if Whitespace(text[|text| - 1]) then Trim(text[..|text| - 1])
    else text
  }

  const TRIMMED_PATHS := {
    "since", "until", "event", "operation", "outcome", "projectId", "threadId", "providerInstanceId",
    "baseRevision", "headRevision", "query", "sessionStatus", "title", "branch", "worktreePath",
    "idempotencyKey", "taskRef", "reason", "name", "mimeType", "requestId"
  }

  predicate Trims(path: string, use: Use) { use == GatewayInput && path in TRIMMED_PATHS }

  function CodePoints(units: seq<nat>): nat {
    if units == [] then 0
    else if |units| > 1 && 0xd800 <= units[0] < 0xdc00 && 0xdc00 <= units[1] < 0xe000 then 1 + CodePoints(units[2..])
    else 1 + CodePoints(units[1..])
  }

  function Length(text: Text): nat { if text.Utf8? then |text.chars| else CodePoints(text.units) }

  predicate HasType(t: TypeName, v: Json) {
    match t
    case ObjectType => v.Obj?
    case ArrayType => v.Arr?
    case StringType => v.Str?
    case NumberType => v.Num?
    case IntegerType => v.Num?
    case BooleanType => v.Bool?
    case NullType => v.Null?
    case OtherType => false
  }

  predicate TypeMatches(schema: Schema, v: Json) {
    schema.types == [] || exists t <- schema.types :: HasType(t, v)
  }

  const MAX_SAFE := 9_007_199_254_740_991.0

  predicate SafeInteger(n: real) { n.Floor as real == n && -MAX_SAFE <= n <= MAX_SAFE }

  function FieldPath(path: string, key: string): string { if path == "" then key else path + "." + key }

  function ItemPath(path: string, i: nat): string { path + "." + Numbers.Decimal(i) }

  function Get(members: map<string, Json>, key: string): Option<Json> {
    if key in members then Some(members[key]) else None
  }

  predicate Strips(schema: Schema, use: Use) { use == GatewayInput && !schema.additional.Allowed? }

  predicate Declares(schema: Schema, key: string) {
    exists k :: 0 <= k < |schema.properties| && schema.properties[k].key == key
  }

  function When(condition: bool, path: string, problem: Problem): set<Issue> {
    if condition then {Issue(path, problem)} else {}
  }

  /** One of the four checks of `bounds`. */
  function Below(bound: Option<real>, n: real, exclusive: bool, path: string): set<Issue> {
    if bound.Some? then When(n < bound.value || (exclusive && n == bound.value), path, TooSmall(bound.value))
    else {}
  }

  function Above(bound: Option<real>, n: real, exclusive: bool, path: string): set<Issue> {
    if bound.Some? then When(n > bound.value || (exclusive && n == bound.value), path, TooBig(bound.value))
    else {}
  }

  /** The first k checks of `bounds`: the exclusive limits apply to lengths and item counts as well. */
  function BoundsUpTo(k: nat, limits: Limits, n: real, low: Option<real>, high: Option<real>, path: string)
    : set<Issue>
    requires k <= 4
  {
    match k
    case 0 => {}
    case 1 => Below(low, n, false, path)
    case 2 => BoundsUpTo(1, limits, n, low, high, path) + Below(limits.exclusiveMinimum, n, true, path)
    case 3 => BoundsUpTo(2, limits, n, low, high, path) + Above(high, n, false, path)
    case 4 => BoundsUpTo(3, limits, n, low, high, path) + Above(limits.exclusiveMaximum, n, true, path)
  }

  function Bounds(limits: Limits, n: real, low: Option<real>, high: Option<real>, path: string): set<Issue> {
    BoundsUpTo(4, limits, n, low, high, path)
  }

  function Kept(text: Text, path: string, use: Use): Text {
    if text.Utf8? && Trims(path, use) then Utf8(Trim(text.chars)) else text
  }

  function ParseText(schema: Schema, text: Text, path: string, use: Use): Parsed {
    var kept := Kept(text, path, use);
    Parsed(Some(Str(kept)),
           Bounds(schema.limits, Length(kept) as real, schema.limits.minLength, schema.limits.maxLength, path)
           + When(schema.pattern.Some? && !schema.pattern.value(kept), path, NoMatch))
  }

  function ParseNumber(schema: Schema, number: Number, path: string, use: Use): Parsed {
    var value := number.Value();
    if value.None? then
      Parsed(Some(Num(number)), When(NumberType in schema.types || IntegerType in schema.types, path, NotFinite))
    else if IntegerType in schema.types && !SafeInteger(value.value) then
      Parsed(Some(Num(number)), {Issue(path, NotAnInteger)})
    else
      var kept := if use == GatewayInput && IntegerType in schema.types then Integer(value.value.Floor) else number;
      Parsed(Some(Num(kept)), Bounds(schema.limits, value.value, schema.limits.minimum, schema.limits.maximum, path))
  }

  /** Keys a native tool does not declare, when its schema forbids others. */
  function UnknownKeys(schema: Schema, members: map<string, Json>, path: string, use: Use): set<Issue> {
    if use == NativeInput && schema.additional.Forbidden?
    then (set key | key in members && !Declares(schema, key) :: Issue(path, UnknownKey(key)))
    else {}
  }

  // ---------------------------------------------------------------- the parser as a function

  function Parse(schema: Schema, given: Option<Json>, path: string, use: Use): Parsed
    decreases schema, 2, 0
  {
    if given.None? && use == NativeInput && schema.default.Some? then Parsed(schema.default, {})
    else
      var input := if given.Some? then given else schema.default;
      if schema.enumeration.Some? then
        Parsed(input, When(input.None? || input.value !in schema.enumeration.value, path, NotAnOption))
      else if schema.variants.Variants? then FirstVariant(schema, 0, input, path, use)
      else if schema.constant.Some? && input != schema.constant then Parsed(input, {Issue(path, NotTheConstant)})
      else if input.None? then Parsed(None, When(schema.types != [], path, Missing))
      else if !TypeMatches(schema, input.value) then Parsed(input, {Issue(path, WrongType)})
      else ParseTyped(schema, input.value, path, use)
  }

  /** The first variant without an issue, from variant k on. */
  function FirstVariant(schema: Schema, k: nat, input: Option<Json>, path: string, use: Use): Parsed
    requires schema.variants.Variants? && k <= |schema.variants.options|
    decreases schema, 1, |schema.variants.options| - k
  {
    if k == |schema.variants.options| then Parsed(input, {Issue(path, NoVariant)})
    else
      var first := Parse(schema.variants.options[k], input, path, use);
      if first.Clean() then first else FirstVariant(schema, k + 1, input, path, use)
  }

  function ParseTyped(schema: Schema, value: Json, path: string, use: Use): Parsed
    decreases schema, 1, 0
  {
    match value
    case Obj(members) =>
      var (fields, issues) := FieldsUpTo(schema, |schema.properties|, members, path, use);
      Parsed(Some(Obj(fields)), UnknownKeys(schema, members, path, use) + issues)
    case Arr(items) =>
      var (parsed, issues) := ItemsUpTo(schema, |items|, items, path, use);
      Parsed(Some(Arr(parsed)),
             Bounds(schema.limits, |items| as real, schema.limits.minItems, schema.limits.maxItems, path) + issues)
    case Str(text) => ParseText(schema, text, path, use)
    case Num(number) => ParseNumber(schema, number, path, use)
    case Null => Parsed(Some(value), {})
    case Bool(_) => Parsed(Some(value), {})
  }

  /** One declared property; an absent one is passed over unless it is required or has a default. */
  function ParseField(schema: Schema, k: nat, members: map<string, Json>, path: string, use: Use): Parsed
    requires k < |schema.properties|
    decreases schema, 0, 0
  {
    var property := schema.properties[k];
    var field := Get(members, property.key);
    if field.None? && property.key !in schema.required && property.schema.default.None? then Parsed(None, {})
    else Parse(property.schema, field, FieldPath(path, property.key), use)
  }

  /** The object after its first n properties, and their issues. */
  function FieldsUpTo(schema: Schema, n: nat, members: map<string, Json>, path: string, use: Use)
    : (map<string, Json>, set<Issue>)
    requires n <= |schema.properties|
    decreases schema, 0, n + 1
  {
    if n == 0 then (if Strips(schema, use) then map[] else members, {})
    else
      var (fields, issues) := FieldsUpTo(schema, n - 1, members, path, use);
      var field := ParseField(schema, n - 1, members, path, use);
      (if field.value.Some? then fields[schema.properties[n - 1].key := field.value.value] else fields,
       issues + field.issues)
  }

  /** The items with the first n parsed, and their issues. */
  function ItemsUpTo(schema: Schema, n: nat, items: seq<Json>, path: string, use: Use)
    : (r: (seq<Json>, set<Issue>))
    requires n <= |items|
    ensures |r.0| == |items|
    decreases schema, 0, n
  {
    if n == 0 || schema.items.None? then (items, {})
    else
      var (parsed, issues) := ItemsUpTo(schema, n - 1, items, path, use);
      var item := Parse(schema.items.value, Some(items[n - 1]), ItemPath(path, n - 1), use);
      (if item.value.Some? then parsed[n - 1 := item.value.value] else parsed, issues + item.issues)
  }

  // ---------------------------------------------------------------- the parser as it runs

  method CheckBounds(limits: Limits, n: real, low: Option<real>, high: Option<real>, path: string,
                     errors: set<Issue>)
    returns (found: set<Issue>)
    ensures found == errors + Bounds(limits, n, low, high, path)
  {
    found := errors;
    var checks := [(low, true, false), (limits.exclusiveMinimum, true, true),
                   (high, false, false), (limits.exclusiveMaximum, false, true)];
    var k := 0;
    while k < |checks|
      invariant k <= 4
      invariant found == errors + BoundsUpTo(k, limits, n, low, high, path)
    {
      var (bound, small, exclusive) := checks[k];
      if bound.Some? {
        if small && (n < bound.value || (exclusive && n == bound.value)) {
          found := found + {Issue(path, TooSmall(bound.value))};
        }
        if !small && (n > bound.value || (exclusive && n == bound.value)) {
          found := found + {Issue(path, TooBig(bound.value))};
        }
      }
      k := k + 1;
    }
  }

  method ParseString(schema: Schema, text: Text, path: string, use: Use, errors: set<Issue>)
    returns (value: Option<Json>, found: set<Issue>)
    ensures value == ParseText(schema, text, path, use).value
    ensures found == errors + ParseText(schema, text, path, use).issues
  {
    var kept := text;
    if text.Utf8? && Trims(path, use) {
      kept := Utf8(Trim(text.chars));
    }
    found := CheckBounds(schema.limits, Length(kept) as real, schema.limits.minLength, schema.limits.maxLength,
                         path, errors);
    if schema.pattern.Some? && !schema.pattern.value(kept) {
      found := found + {Issue(path, NoMatch)};
    }
    value := Some(Str(kept));
  }

  method ParseNumeral(schema: Schema, number: Number, path: string, use: Use, errors: set<Issue>)
    returns (value: Option<Json>, found: set<Issue>)
    ensures value == ParseNumber(schema, number, path, use).value
    ensures found == errors + ParseNumber(schema, number, path, use).issues
  {
    var kept := number;
    found := errors;
    var n := number.Value();
    if n.Some? {
      if IntegerType in schema.types && !SafeInteger(n.value) {
        found := found + {Issue(path, NotAnInteger)};
      } else {
        found := CheckBounds(schema.limits, n.value, schema.limits.minimum, schema.limits.maximum, path, found);
        if use == GatewayInput && IntegerType in schema.types {
          kept := Integer(n.value.Floor);
        }
      }
    } else if NumberType in schema.types || IntegerType in schema.types {
      found := found + {Issue(path, NotFinite)};
    }
    value := Some(Num(kept));
  }

  method ParseValue(schema: Schema, given: Option<Json>, path: string, use: Use, errors: set<Issue>)
    returns (value: Option<Json>, found: set<Issue>)
    ensures value == Parse(schema, given, path, use).value
    ensures found == errors + Parse(schema, given, path, use).issues
    decreases schema, 2
  {
    found := errors;
    if given.None? && use == NativeInput && schema.default.Some? {
      return schema.default, found;
    }
    var input := if given.Some? then given else schema.default;
    if schema.enumeration.Some? {
      if input.None? || input.value !in schema.enumeration.value {
        found := found + {Issue(path, NotAnOption)};
      }
      return input, found;
    }
    if schema.variants.Variants? {
      var k := 0;
      while k < |schema.variants.options|
        invariant k <= |schema.variants.options|
        invariant FirstVariant(schema, 0, input, path, use) == FirstVariant(schema, k, input, path, use)
      {
        var chosen, issues := ParseValue(schema.variants.options[k], input, path, use, {});
        if issues == {} {
          return chosen, found;
        }
        k := k + 1;
      }
      return input, found + {Issue(path, NoVariant)};
    }
    if schema.constant.Some? && input != schema.constant {
      return input, found + {Issue(path, NotTheConstant)};
    }
    if input.None? {
      if schema.types != [] {
        found := found + {Issue(path, Missing)};
      }
      return None, found;
    }
    if !TypeMatches(schema, input.value) {
      return input, found + {Issue(path, WrongType)};
    }
    match input.value
    case Obj(members) =>
      var fields;
      fields, found := ParseObject(schema, members, path, use, found);
      value := Some(Obj(fields));
    case Arr(items) =>
      var parsed;
      parsed, found := ParseArray(schema, items, path, use, found);
      value := Some(Arr(parsed));
    case Str(text) =>
      value, found := ParseString(schema, text, path, use, found);
    case Num(number) =>
      value, found := ParseNumeral(schema, number, path, use, found);
    case Null => value := input;
    case Bool(_) => value := input;
  }

  method RejectUnknownKeys(schema: Schema, members: map<string, Json>, path: string, use: Use, errors: set<Issue>)
    returns (found: set<Issue>)
    ensures found == errors + UnknownKeys(schema, members, path, use)
  {
    found := errors;
    if use == NativeInput && schema.additional.Forbidden? {
      var unread := members.Keys;
      ghost var rejected: set<Issue> := {};
      while unread != {}
        invariant unread <= members.Keys
        invariant rejected == set key | key in members.Keys - unread && !Declares(schema, key) :: Issue(path, UnknownKey(key))
        invariant found == errors + rejected
        decreases |unread|
      {
        var key :| key in unread;
        if !Declares(schema, key) {
          found := found + {Issue(path, UnknownKey(key))};
          assert Issue(path, UnknownKey(key)) !in rejected;
          rejected := rejected + {Issue(path, UnknownKey(key))};
        }
        unread := unread - {key};
      }
    }
  }

  method ParseObject(schema: Schema, members: map<string, Json>, path: string, use: Use, errors: set<Issue>)
    returns (fields: map<string, Json>, found: set<Issue>)
    ensures var parsed := FieldsUpTo(schema, |schema.properties|, members, path, use);
            fields == parsed.0 && found == errors + (UnknownKeys(schema, members, path, use) + parsed.1)
    decreases schema, 1
  {
    fields := if Strips(schema, use) then map[] else members;
    found := RejectUnknownKeys(schema, members, path, use, errors);
    ghost var before := found;
    var k := 0;
    while k < |schema.properties|
      invariant k <= |schema.properties|
      invariant fields == FieldsUpTo(schema, k, members, path, use).0
      invariant found == before + FieldsUpTo(schema, k, members, path, use).1
    {
      var property := schema.properties[k];
      var field := Get(members, property.key);
      if field.Some? || property.key in schema.required || property.schema.default.Some? {
        var value;
        value, found := ParseValue(property.schema, field, FieldPath(path, property.key), use, found);
        if value.Some? {
          fields := fields[property.key := value.value];
        }
      }
      k := k + 1;
    }
  }

  method ParseArray(schema: Schema, items: seq<Json>, path: string, use: Use, errors: set<Issue>)
    returns (parsed: seq<Json>, found: set<Issue>)
    ensures var spec := ItemsUpTo(schema, |items|, items, path, use);
            && parsed == spec.0
            && found == errors + (Bounds(schema.limits, |items| as real, schema.limits.minItems,
                                         schema.limits.maxItems, path) + spec.1)
    decreases schema, 1
  {
    parsed := items;
    found := CheckBounds(schema.limits, |items| as real, schema.limits.minItems, schema.limits.maxItems, path, errors);
    if schema.items.Some? {
      ghost var before := found;
      var i := 0;
      while i < |parsed|
        invariant i <= |parsed| == |items|
        invariant parsed == ItemsUpTo(schema, i, items, path, use).0
        invariant found == before + ItemsUpTo(schema, i, items, path, use).1
        invariant forall j :: i <= j < |items| ==> parsed[j] == items[j]
      {
        var value;
        value, found := ParseValue(schema.items.value, Some(parsed[i]), ItemPath(path, i), use, found);
        if value.Some? {
          parsed := parsed[i := value.value];
        }
        i := i + 1;
      }
    }
  }
}
