/**
 What accepted arguments are: values that conform to their schema at every
 depth, and that the parser accepts again as they are.
 */
module ArgumentsTheorems {
  import opened Options
  import opened Arguments

  // ---------------------------------------------------------------- schemas

  /** The keys of a JSON object are distinct, at every depth. */
  predicate Distinct(schema: Schema) {
    && (forall i, j :: 0 <= i < j < |schema.properties| ==> schema.properties[i].key != schema.properties[j].key)
    && (forall i :: 0 <= i < |schema.properties| ==> Distinct(schema.properties[i].schema))
    && (schema.variants.Variants? ==>
          forall i :: 0 <= i < |schema.variants.options| ==> Distinct(schema.variants.options[i]))
    && (schema.items.Some? ==> Distinct(schema.items.value))
  }

  /** No `anyOf` or `oneOf` at any depth. */
  predicate Plain(schema: Schema) {
    && schema.variants.NoVariants?
    && (forall i :: 0 <= i < |schema.properties| ==> Plain(schema.properties[i].schema))
    && (schema.items.Some? ==> Plain(schema.items.value))
  }

  /** A missing value stays missing under this schema. */
  predicate LeavesAbsent(schema: Schema) {
    schema.default.None?
    && (schema.enumeration.None? && schema.variants.Variants? ==>
          forall k :: 0 <= k < |schema.variants.options| ==> LeavesAbsent(schema.variants.options[k]))
  }

  /** A value the parser has nothing to rewrite in: trimmed, stripped, filled in and spelled out already. */
  predicate Canonical(schema: Schema, v: Json, path: string, use: Use)
    decreases schema
  {
    if schema.enumeration.Some? then true
    else if schema.variants.Variants? then
      forall k :: 0 <= k < |schema.variants.options| ==> Canonical(schema.variants.options[k], v, path, use)
    else match v
      case Obj(members) =>
        && (Strips(schema, use) ==> forall key <- members :: Declares(schema, key))
        && forall k :: 0 <= k < |schema.properties| ==>
             CanonicalField(schema.properties[k], schema.properties[k].key in schema.required, members, path, use)
      case Arr(items) =>
        schema.items.Some? ==>
          forall i :: 0 <= i < |items| ==> Canonical(schema.items.value, items[i], ItemPath(path, i), use)
      case Str(text) => text.Utf8? && Trims(path, use) ==> Trimmed(text.chars)
      case Num(number) => number.Integer? || !(use == GatewayInput && IntegerType in schema.types)
      case Null => true
      case Bool(_) => true
  }

  predicate CanonicalField(property: Property, required: bool, members: map<string, Json>, path: string, use: Use)
    decreases property
  {
    if property.key in members
    then Canonical(property.schema, members[property.key], FieldPath(path, property.key), use)
    else property.schema.default.None? && (required ==> LeavesAbsent(property.schema))
  }

  /** Every constant of the schema is a value the parser leaves as it is. */
  ghost predicate Settled(schema: Schema, path: string, use: Use)
    decreases schema
  {
    && (schema.enumeration.None? && schema.variants.NoVariants? && schema.constant.Some? ==>
          Canonical(schema, schema.constant.value, path, use))
    && (forall k :: 0 <= k < |schema.properties| ==>
          Settled(schema.properties[k].schema, FieldPath(path, schema.properties[k].key), use))
    && (schema.variants.Variants? ==>
          forall k :: 0 <= k < |schema.variants.options| ==> Settled(schema.variants.options[k], path, use))
    && (schema.items.Some? ==> forall i: nat :: Settled(schema.items.value, ItemPath(path, i), use))
  }

  // ---------------------------------------------------------------- conformance

  predicate InLimits(limits: Limits, n: real, low: Option<real>, high: Option<real>) {
    && (low.Some? ==> n >= low.value)
    && (high.Some? ==> n <= high.value)
    && (limits.exclusiveMinimum.Some? ==> n > limits.exclusiveMinimum.value)
    && (limits.exclusiveMaximum.Some? ==> n < limits.exclusiveMaximum.value)
  }

  /** The schema accepts that there is no value. */
  predicate AcceptsAbsent(schema: Schema) {
    && schema.default.None?
    && schema.enumeration.None?
    && (schema.variants.Variants? ==>
          exists k :: 0 <= k < |schema.variants.options| && AcceptsAbsent(schema.variants.options[k]))
    && (schema.variants.NoVariants? ==> schema.constant.None? && schema.types == [])
  }

  /** A native tool's schema refuses keys it does not declare. */
  predicate Closed(schema: Schema, use: Use) { use == NativeInput && schema.additional.Forbidden? }

  /** What a schema asks of a value, at every depth. */
  predicate Conforms(schema: Schema, v: Json, path: string, use: Use)
    decreases schema
  {
    if schema.enumeration.Some? then v in schema.enumeration.value
    else if schema.variants.Variants? then
      exists k :: 0 <= k < |schema.variants.options| && Conforms(schema.variants.options[k], v, path, use)
    else
      && (schema.constant.Some? ==> v == schema.constant.value)
      && TypeMatches(schema, v)
      && match v
         case Obj(members) =>
           && (Strips(schema, use) || Closed(schema, use) ==> forall key <- members :: Declares(schema, key))
           && forall k :: 0 <= k < |schema.properties| ==>
                FieldConforms(schema.properties[k], schema.properties[k].key in schema.required, members, path, use)
         case Arr(items) =>
           && InLimits(schema.limits, |items| as real, schema.limits.minItems, schema.limits.maxItems)
           && (schema.items.Some? ==>
                 forall i :: 0 <= i < |items| ==> Conforms(schema.items.value, items[i], ItemPath(path, i), use))
         case Str(text) => TextConforms(schema, text, path, use)
         case Num(number) => NumberConforms(schema, number)
         case Null => true
         case Bool(_) => true
  }

  predicate FieldConforms(property: Property, required: bool, members: map<string, Json>, path: string, use: Use)
    decreases property
  {
    if property.key in members
    then Conforms(property.schema, members[property.key], FieldPath(path, property.key), use)
    else property.schema.default.None? && (required ==> AcceptsAbsent(property.schema))
  }

  /**
   Every default conforms to its own schema. Only for native tools, where a
   default is returned as it is, does this ask anything.
   */
  ghost predicate DefaultsConform(schema: Schema, path: string, use: Use)
    decreases schema
  {
    use == NativeInput ==>
      && (schema.default.Some? ==> Conforms(schema, schema.default.value, path, use))
      && (forall k :: 0 <= k < |schema.properties| ==>
            DefaultsConform(schema.properties[k].schema, FieldPath(path, schema.properties[k].key), use))
      && (schema.variants.Variants? ==>
            forall k :: 0 <= k < |schema.variants.options| ==> DefaultsConform(schema.variants.options[k], path, use))
      && (schema.items.Some? ==> forall i: nat :: DefaultsConform(schema.items.value, ItemPath(path, i), use))
  }

  predicate TextConforms(schema: Schema, text: Text, path: string, use: Use) {
    && (text.Utf8? && Trims(path, use) ==> Trimmed(text.chars))
    && InLimits(schema.limits, Length(text) as real, schema.limits.minLength, schema.limits.maxLength)
    && (schema.pattern.Some? ==> schema.pattern.value(text))
  }

  predicate NumberConforms(schema: Schema, number: Number) {
    match number.Value()
    case None => NumberType !in schema.types && IntegerType !in schema.types
    case Some(n) =>
      && (IntegerType in schema.types ==> SafeInteger(n))
      && InLimits(schema.limits, n, schema.limits.minimum, schema.limits.maximum)
  }

  // ---------------------------------------------------------------- small facts

  lemma BoundsMeaning(limits: Limits, n: real, low: Option<real>, high: Option<real>, path: string)
    ensures Bounds(limits, n, low, high, path) == {} <==> InLimits(limits, n, low, high)
  {
    var a, b := Below(low, n, false, path), Below(limits.exclusiveMinimum, n, true, path);
    var c, d := Above(high, n, false, path), Above(limits.exclusiveMaximum, n, true, path);
    assert a == {} <==> (low.Some? ==> n >= low.value);
    assert b == {} <==> (limits.exclusiveMinimum.Some? ==> n > limits.exclusiveMinimum.value);
    assert c == {} <==> (high.Some? ==> n <= high.value);
    assert d == {} <==> (limits.exclusiveMaximum.Some? ==> n < limits.exclusiveMaximum.value);
    assert BoundsUpTo(2, limits, n, low, high, path) == a + b;
    assert BoundsUpTo(3, limits, n, low, high, path) == a + b + c;
    assert Bounds(limits, n, low, high, path) == a + b + c + d;
  }

  /** The variant that was taken, and that one is taken exactly when one accepts. */
  lemma {:induction false} VariantTaken(schema: Schema, k: nat, input: Option<Json>, path: string, use: Use)
    requires schema.variants.Variants? && k <= |schema.variants.options|
    ensures var taken := FirstVariant(schema, k, input, path, use);
            if taken.Clean()
            then exists j :: k <= j < |schema.variants.options|
                             && Parse(schema.variants.options[j], input, path, use) == taken
            else taken.value == input && forall j :: k <= j < |schema.variants.options| ==>
                   !Parse(schema.variants.options[j], input, path, use).Clean()
    decreases |schema.variants.options| - k
  {
    if k < |schema.variants.options| {
      VariantTaken(schema, k + 1, input, path, use);
    }
  }

  /** A present value is never dropped. */
  lemma {:induction false} PresentStaysPresent(schema: Schema, v: Json, path: string, use: Use)
    ensures Parse(schema, Some(v), path, use).value.Some?
    decreases schema
  {
    if schema.enumeration.None? && schema.variants.Variants? {
      forall j | 0 <= j < |schema.variants.options|
        ensures Parse(schema.variants.options[j], Some(v), path, use).value.Some?
      {
        PresentStaysPresent(schema.variants.options[j], v, path, use);
      }
      VariantStaysPresent(schema, 0, v, path, use);
    }
  }

  lemma {:induction false} VariantStaysPresent(schema: Schema, k: nat, v: Json, path: string, use: Use)
    requires schema.variants.Variants? && k <= |schema.variants.options|
    requires forall j :: 0 <= j < |schema.variants.options| ==>
               Parse(schema.variants.options[j], Some(v), path, use).value.Some?
    ensures FirstVariant(schema, k, Some(v), path, use).value.Some?
    decreases |schema.variants.options| - k
  {
    if k < |schema.variants.options| {
      VariantStaysPresent(schema, k + 1, v, path, use);
    }
  }

  predicate DeclaredBefore(schema: Schema, n: nat, key: string)
    requires n <= |schema.properties|
  {
    exists i :: 0 <= i < n && schema.properties[i].key == key
  }

  predicate FieldsClean(schema: Schema, n: nat, members: map<string, Json>, path: string, use: Use)
    requires n <= |schema.properties|
  {
    forall i :: 0 <= i < n ==> ParseField(schema, i, members, path, use).Clean()
  }

  lemma {:induction false} FieldIssues(schema: Schema, n: nat, members: map<string, Json>, path: string, use: Use)
    requires n <= |schema.properties|
    ensures FieldsUpTo(schema, n, members, path, use).1 == {} <==> FieldsClean(schema, n, members, path, use)
  {
    if n > 0 {
      FieldIssues(schema, n - 1, members, path, use);
      var earlier := FieldsUpTo(schema, n - 1, members, path, use).1;
      var last := ParseField(schema, n - 1, members, path, use);
      assert FieldsUpTo(schema, n, members, path, use).1 == earlier + last.issues;
      assert earlier + last.issues == {} <==> earlier == {} && last.Clean();
      if FieldsClean(schema, n - 1, members, path, use) && last.Clean() {
        forall i | 0 <= i < n ensures ParseField(schema, i, members, path, use).Clean() {
        }
      }
    }
  }

  /** The object that was built holds exactly what each property parsed to. */
  lemma {:induction false} FieldsRead(schema: Schema, n: nat, members: map<string, Json>, path: string, use: Use)
    requires n <= |schema.properties|
    requires forall i, j :: 0 <= i < j < |schema.properties| ==> schema.properties[i].key != schema.properties[j].key
    ensures var fields := FieldsUpTo(schema, n, members, path, use).0;
            && (forall i :: 0 <= i < n ==>
                  Get(fields, schema.properties[i].key) == ParseField(schema, i, members, path, use).value)
            && (forall key :: !DeclaredBefore(schema, n, key) ==>
                  Get(fields, key) == if Strips(schema, use) then None else Get(members, key))
  {
    if n > 0 {
      FieldsRead(schema, n - 1, members, path, use);
      var last := schema.properties[n - 1];
      assert !DeclaredBefore(schema, n - 1, last.key);
      forall key | !DeclaredBefore(schema, n, key) ensures !DeclaredBefore(schema, n - 1, key) && key != last.key {
        assert schema.properties[n - 1].key == last.key;
      }
      if last.key in members {
        PresentStaysPresent(last.schema, members[last.key], FieldPath(path, last.key), use);
      }
    }
  }

  lemma {:induction false} ItemsRead(schema: Schema, n: nat, items: seq<Json>, path: string, use: Use)
    requires n <= |items| && schema.items.Some?
    ensures var (parsed, issues) := ItemsUpTo(schema, n, items, path, use);
            && (forall i :: 0 <= i < n ==>
                  Some(parsed[i]) == Parse(schema.items.value, Some(items[i]), ItemPath(path, i), use).value)
            && (forall i :: n <= i < |items| ==> parsed[i] == items[i])
            && (issues == {} <==> forall i :: 0 <= i < n ==>
                  Parse(schema.items.value, Some(items[i]), ItemPath(path, i), use).Clean())
  {
    if n > 0 {
      ItemsRead(schema, n - 1, items, path, use);
      PresentStaysPresent(schema.items.value, items[n - 1], ItemPath(path, n - 1), use);
    }
  }

  // ---------------------------------------------------------------- what is left as it is

  lemma {:induction false} AbsentStaysAbsent(schema: Schema, path: string, use: Use)
    requires LeavesAbsent(schema)
    ensures Parse(schema, None, path, use).value.None?
  {
    if schema.enumeration.None? && schema.variants.Variants? {
      forall j | 0 <= j < |schema.variants.options|
        ensures Parse(schema.variants.options[j], None, path, use).value.None?
      {
        AbsentStaysAbsent(schema.variants.options[j], path, use);
      }
      VariantTaken(schema, 0, None, path, use);
    }
  }

  lemma SameMembers(a: map<string, Json>, b: map<string, Json>)
    requires forall key :: Get(a, key) == Get(b, key)
    ensures a == b
  {
    assert forall key :: key in a <==> Get(a, key).Some?;
    assert forall key :: key in b <==> Get(b, key).Some?;
    assert a.Keys == b.Keys;
    assert forall key <- a :: Get(a, key) == Some(a[key]) && Get(b, key) == Some(b[key]);
  }

  /** The parser leaves a canonical value as it is, whether it accepts it or not. */
  lemma {:induction false} CanonicalIsFixed(schema: Schema, v: Json, path: string, use: Use)
    requires Distinct(schema) && Canonical(schema, v, path, use)
    ensures Parse(schema, Some(v), path, use).value == Some(v)
    decreases schema, 1
  {
    if schema.enumeration.Some? {
    } else if schema.variants.Variants? {
      forall j | 0 <= j < |schema.variants.options|
        ensures Parse(schema.variants.options[j], Some(v), path, use).value == Some(v)
      {
        CanonicalIsFixed(schema.variants.options[j], v, path, use);
      }
      VariantTaken(schema, 0, Some(v), path, use);
    } else {
      match v
      case Obj(members) => CanonicalObjectIsFixed(schema, members, path, use);
      case Arr(items) => CanonicalArrayIsFixed(schema, items, path, use);
      case Str(_) =>
      case Num(_) =>
      case Null =>
      case Bool(_) =>
    }
  }

  lemma {:induction false} CanonicalObjectIsFixed(schema: Schema, members: map<string, Json>, path: string, use: Use)
    requires Distinct(schema) && schema.enumeration.None? && schema.variants.NoVariants?
    requires Canonical(schema, Obj(members), path, use)
    ensures FieldsUpTo(schema, |schema.properties|, members, path, use).0 == members
    decreases schema, 0
  {
    var n := |schema.properties|;
    FieldsRead(schema, n, members, path, use);
    var fields := FieldsUpTo(schema, n, members, path, use).0;
    assert Strips(schema, use) ==> forall key <- members :: Declares(schema, key) && DeclaredBefore(schema, n, key);
    forall i | 0 <= i < n ensures Get(fields, schema.properties[i].key) == Get(members, schema.properties[i].key) {
      var property := schema.properties[i];
      assert CanonicalField(property, property.key in schema.required, members, path, use);
      if property.key in members {
        CanonicalIsFixed(property.schema, members[property.key], FieldPath(path, property.key), use);
      } else if property.key in schema.required {
        AbsentStaysAbsent(property.schema, FieldPath(path, property.key), use);
      }
    }
    forall key ensures Get(fields, key) == Get(members, key) {
      if DeclaredBefore(schema, n, key) {
        var i :| 0 <= i < n && schema.properties[i].key == key;
        assert Get(fields, schema.properties[i].key) == Get(members, schema.properties[i].key);
      }
    }
    SameMembers(fields, members);
  }

  lemma {:induction false} CanonicalArrayIsFixed(schema: Schema, items: seq<Json>, path: string, use: Use)
    requires Distinct(schema) && schema.enumeration.None? && schema.variants.NoVariants?
    requires Canonical(schema, Arr(items), path, use)
    ensures ItemsUpTo(schema, |items|, items, path, use).0 == items
    decreases schema, 0
  {
    if schema.items.Some? {
      ItemsRead(schema, |items|, items, path, use);
      var parsed := ItemsUpTo(schema, |items|, items, path, use).0;
      forall i | 0 <= i < |items| ensures parsed[i] == items[i] {
        CanonicalIsFixed(schema.items.value, items[i], ItemPath(path, i), use);
      }
    }
  }

  /** Except for native tools, a default is parsed as if it had been given. */
  lemma DefaultIsParsed(schema: Schema, path: string, use: Use)
    requires use != NativeInput && schema.default.Some?
    ensures Parse(schema, None, path, use) == Parse(schema, schema.default, path, use)
  {
  }

  /** A declared property of a cleanly parsed object: parsed to what the object now holds, or absent. */
  lemma FieldOfClean(schema: Schema, k: nat, members: map<string, Json>, path: string, use: Use)
    requires Distinct(schema) && k < |schema.properties|
    requires FieldsUpTo(schema, |schema.properties|, members, path, use).1 == {}
    ensures var fields := FieldsUpTo(schema, |schema.properties|, members, path, use).0;
            var property := schema.properties[k];
            var field := Parse(property.schema, Get(members, property.key), FieldPath(path, property.key), use);
            if property.key in fields then field.Clean() && field.value == Some(fields[property.key])
            else
              && property.key !in members && property.schema.default.None?
              && (property.key in schema.required ==> field.Clean() && field.value.None?)
  {
    FieldsRead(schema, |schema.properties|, members, path, use);
    FieldIssues(schema, |schema.properties|, members, path, use);
    var property := schema.properties[k];
    var fieldPath := FieldPath(path, property.key);
    assert ParseField(schema, k, members, path, use).Clean();
    if property.key in members {
      PresentStaysPresent(property.schema, members[property.key], fieldPath, use);
    } else if property.schema.default.Some? && use != NativeInput {
      DefaultIsParsed(property.schema, fieldPath, use);
      PresentStaysPresent(property.schema, property.schema.default.value, fieldPath, use);
    } else if property.schema.default.Some? {
      assert Parse(property.schema, None, fieldPath, use).value == property.schema.default;
      assert ParseField(schema, k, members, path, use) == Parse(property.schema, None, fieldPath, use);
    }
  }

  /** Where an object was closed and nothing was unknown, its keys are declared. */
  lemma ClosedKeys(schema: Schema, members: map<string, Json>, path: string, use: Use)
    requires Distinct(schema) && Closed(schema, use) && UnknownKeys(schema, members, path, use) == {}
    ensures forall key <- FieldsUpTo(schema, |schema.properties|, members, path, use).0 :: Declares(schema, key)
  {
    var n := |schema.properties|;
    FieldsRead(schema, n, members, path, use);
    var fields := FieldsUpTo(schema, n, members, path, use).0;
    forall key <- fields ensures Declares(schema, key) {
      assert Get(fields, key).Some?;
      assert key in members && !Declares(schema, key) ==>
          Issue(path, UnknownKey(key)) in UnknownKeys(schema, members, path, use);
    }
  }

  lemma OnlyDeclaredKeys(schema: Schema, members: map<string, Json>, path: string, use: Use)
    requires Distinct(schema) && Strips(schema, use)
    ensures forall key <- FieldsUpTo(schema, |schema.properties|, members, path, use).0 :: Declares(schema, key)
  {
    var n := |schema.properties|;
    FieldsRead(schema, n, members, path, use);
    var fields := FieldsUpTo(schema, n, members, path, use).0;
    forall key <- fields ensures Declares(schema, key) {
      assert Get(fields, key).Some?;
      assert DeclaredBefore(schema, n, key);
    }
  }

  lemma {:induction false} AbsenceLeavesAbsent(schema: Schema)
    requires Plain(schema) && AcceptsAbsent(schema)
    ensures LeavesAbsent(schema)
  {
  }

  /** A native value that conforms has nothing to fill in. */
  lemma {:induction false} ConformingIsCanonical(schema: Schema, v: Json, path: string)
    requires Plain(schema) && Conforms(schema, v, path, NativeInput)
    ensures Canonical(schema, v, path, NativeInput)
    decreases schema
  {
    if schema.enumeration.None? {
      match v
      case Obj(members) =>
        forall k | 0 <= k < |schema.properties|
          ensures CanonicalField(schema.properties[k], schema.properties[k].key in schema.required, members, path, NativeInput)
        {
          var property := schema.properties[k];
          assert FieldConforms(property, property.key in schema.required, members, path, NativeInput);
          if property.key in members {
            ConformingIsCanonical(property.schema, members[property.key], FieldPath(path, property.key));
          } else if property.key in schema.required {
            AbsenceLeavesAbsent(property.schema);
          }
        }
      case Arr(items) =>
        if schema.items.Some? {
          forall i | 0 <= i < |items| ensures Canonical(schema.items.value, items[i], ItemPath(path, i), NativeInput) {
            ConformingIsCanonical(schema.items.value, items[i], ItemPath(path, i));
          }
        }
      case Str(_) =>
      case Num(_) =>
      case Null =>
      case Bool(_) =>
    }
  }

  /** An accepted value has nothing left to rewrite. */
  lemma {:induction false} AcceptedIsCanonical(schema: Schema, given: Option<Json>, path: string, use: Use)
    requires Distinct(schema) && Plain(schema) && DefaultsConform(schema, path, use)
    requires Parse(schema, given, path, use).Clean() && Parse(schema, given, path, use).value.Some?
    ensures Canonical(schema, Parse(schema, given, path, use).value.value, path, use)
    decreases schema, if given.None? then 2 else 1
  {
    if schema.enumeration.Some? {
    } else if given.None? && use == NativeInput {
      ConformingIsCanonical(schema, schema.default.value, path);
    } else if given.None? {
      DefaultIsParsed(schema, path, use);
      AcceptedIsCanonical(schema, schema.default, path, use);
    } else {
      match given.value
      case Obj(members) => AcceptedObjectIsCanonical(schema, members, path, use);
      case Arr(items) => AcceptedArrayIsCanonical(schema, items, path, use);
      case Str(_) =>
      case Num(_) =>
      case Null =>
      case Bool(_) =>
    }
  }

  lemma {:induction false} AcceptedObjectIsCanonical(schema: Schema, members: map<string, Json>, path: string, use: Use)
    requires Distinct(schema) && Plain(schema) && DefaultsConform(schema, path, use) && schema.enumeration.None?
    requires FieldsUpTo(schema, |schema.properties|, members, path, use).1 == {}
    ensures Canonical(schema, Obj(FieldsUpTo(schema, |schema.properties|, members, path, use).0), path, use)
    decreases schema, 0
  {
    var fields := FieldsUpTo(schema, |schema.properties|, members, path, use).0;
    if Strips(schema, use) {
      OnlyDeclaredKeys(schema, members, path, use);
    }
    forall k | 0 <= k < |schema.properties|
      ensures CanonicalField(schema.properties[k], schema.properties[k].key in schema.required, fields, path, use)
    {
      FieldOfClean(schema, k, members, path, use);
      var property := schema.properties[k];
      if property.key in fields {
        AcceptedIsCanonical(property.schema, Get(members, property.key), FieldPath(path, property.key), use);
      }
    }
  }

  lemma {:induction false} AcceptedArrayIsCanonical(schema: Schema, items: seq<Json>, path: string, use: Use)
    requires Distinct(schema) && Plain(schema) && DefaultsConform(schema, path, use) && schema.enumeration.None?
    requires ItemsUpTo(schema, |items|, items, path, use).1 == {}
    ensures Canonical(schema, Arr(ItemsUpTo(schema, |items|, items, path, use).0), path, use)
    decreases schema, 0
  {
    if schema.items.Some? {
      ItemsRead(schema, |items|, items, path, use);
      forall i | 0 <= i < |items|
        ensures Canonical(schema.items.value, ItemsUpTo(schema, |items|, items, path, use).0[i], ItemPath(path, i), use)
      {
        AcceptedIsCanonical(schema.items.value, Some(items[i]), ItemPath(path, i), use);
      }
    }
  }

  // ---------------------------------------------------------------- what is never changed

  /** Trimming takes white space off both ends, and nothing else. */
  lemma {:induction false} TrimTakesOnlyWhitespace(text: string) returns (i: nat, j: nat)
    ensures i <= j <= |text| && Trim(text) == text[i..j]
    ensures forall k :: 0 <= k < i || j <= k < |text| ==> Whitespace(text[k])
  {
    var n := |text|;
    if text == "" {
      i, j := 0, 0;
    } else if Whitespace(text[0]) {
      i, j := TrimTakesOnlyWhitespace(text[1..]);
      assert forall k :: 0 < k < n ==> text[k] == text[1..][k - 1];
      i, j := i + 1, j + 1;
    } else if Whitespace(text[n - 1]) {
      i, j := TrimTakesOnlyWhitespace(text[..n - 1]);
      assert forall k :: 0 <= k < n - 1 ==> text[k] == text[..n - 1][k];
    } else {
      i, j := 0, n;
      assert text[0..n] == text;
    }
  }

  /** The same value, but for outer white space and the spelling of numbers, in every member they share. */
  predicate Tidied(v: Json, o: Json) {
    match (v, o)
    case (Str(a), Str(b)) => a == b || (a.Utf8? && b == Utf8(Trim(a.chars)))
    case (Num(a), Num(b)) => a == b || (a.Value().Some? && a.Value() == b.Value())
    case (Arr(a), Arr(b)) => |a| == |b| && forall i :: 0 <= i < |a| ==> Tidied(a[i], b[i])
    case (Obj(a), Obj(b)) => forall key <- a :: key in b ==> Tidied(a[key], b[key])
    case _ => v == o
  }

  lemma {:induction false} TidiedItself(v: Json)
    ensures Tidied(v, v)
  {
    match v
    case Arr(items) =>
      forall i | 0 <= i < |items| ensures Tidied(items[i], items[i]) {
        TidiedItself(items[i]);
      }
    case Obj(fields) =>
      forall key | key in fields ensures Tidied(fields[key], fields[key]) {
        TidiedItself(fields[key]);
      }
    case _ =>
  }

  /** Whatever the schema, a given value is only tidied: no member, item, text or number turns into another. */
  lemma {:induction false} ValuesAreOnlyTidied(schema: Schema, v: Json, path: string, use: Use)
    requires Distinct(schema)
    ensures Parse(schema, Some(v), path, use).value.Some?
    ensures Tidied(v, Parse(schema, Some(v), path, use).value.value)
    decreases schema, 1
  {
    PresentStaysPresent(schema, v, path, use);
    TidiedItself(v);
    if schema.enumeration.Some? {
    } else if schema.variants.Variants? {
      forall j | 0 <= j < |schema.variants.options|
        ensures Parse(schema.variants.options[j], Some(v), path, use).value.Some?
        ensures Tidied(v, Parse(schema.variants.options[j], Some(v), path, use).value.value)
      {
        ValuesAreOnlyTidied(schema.variants.options[j], v, path, use);
      }
      VariantTaken(schema, 0, Some(v), path, use);
    } else {
      match v
      case Obj(members) => MembersAreOnlyTidied(schema, members, path, use);
      case Arr(items) => ItemsAreOnlyTidied(schema, items, path, use);
      case Str(_) =>
      case Num(_) =>
      case Null =>
      case Bool(_) =>
    }
  }

  lemma {:induction false} MembersAreOnlyTidied(schema: Schema, members: map<string, Json>, path: string, use: Use)
    requires Distinct(schema)
    ensures Tidied(Obj(members), Obj(FieldsUpTo(schema, |schema.properties|, members, path, use).0))
    decreases schema, 0
  {
    var n := |schema.properties|;
    var fields := FieldsUpTo(schema, n, members, path, use).0;
    FieldsRead(schema, n, members, path, use);
    forall key | key in members && key in fields ensures Tidied(members[key], fields[key]) {
      if DeclaredBefore(schema, n, key) {
        var i :| 0 <= i < n && schema.properties[i].key == key;
        ValuesAreOnlyTidied(schema.properties[i].schema, members[key], FieldPath(path, key), use);
        assert Get(fields, schema.properties[i].key) == ParseField(schema, i, members, path, use).value;
      } else {
        assert Get(fields, key) == Get(members, key);
        TidiedItself(members[key]);
      }
    }
  }

  lemma {:induction false} ItemsAreOnlyTidied(schema: Schema, items: seq<Json>, path: string, use: Use)
    requires Distinct(schema)
    ensures Tidied(Arr(items), Arr(ItemsUpTo(schema, |items|, items, path, use).0))
    decreases schema, 0
  {
    if schema.items.Some? {
      ItemsRead(schema, |items|, items, path, use);
      forall i | 0 <= i < |items| ensures Tidied(items[i], ItemsUpTo(schema, |items|, items, path, use).0[i]) {
        ValuesAreOnlyTidied(schema.items.value, items[i], ItemPath(path, i), use);
      }
    } else {
      TidiedItself(Arr(items));
    }
  }

  /** What an object holds under each declared key: the value given, tidied, or its default, or nothing; other keys stay or go. */
  lemma DefaultsAreFilledIn(schema: Schema, k: nat, members: map<string, Json>, path: string, use: Use)
    requires Distinct(schema) && k < |schema.properties|
    ensures var property := schema.properties[k];
            var fields := FieldsUpTo(schema, |schema.properties|, members, path, use).0;
            && (property.key in members ==> property.key in fields && Tidied(members[property.key], fields[property.key]))
            && (property.key !in members && property.schema.default.Some? ==>
                  && property.key in fields
                  && (use == NativeInput ==> fields[property.key] == property.schema.default.value)
                  && Tidied(property.schema.default.value, fields[property.key]))
            && (property.key !in members && property.schema.default.None? && property.key !in schema.required ==>
                  property.key !in fields)
  {
    var property := schema.properties[k];
    var fieldPath := FieldPath(path, property.key);
    FieldsRead(schema, |schema.properties|, members, path, use);
    var fields := FieldsUpTo(schema, |schema.properties|, members, path, use).0;
    var parsed := ParseField(schema, k, members, path, use).value;
    assert Get(fields, property.key) == parsed;
    if property.key in members {
      ValuesAreOnlyTidied(property.schema, members[property.key], fieldPath, use);
    } else if property.schema.default.Some? {
      TidiedItself(property.schema.default.value);
      ValuesAreOnlyTidied(property.schema, property.schema.default.value, fieldPath, use);
      if use == NativeInput {
        assert Parse(property.schema, None, fieldPath, use).value == property.schema.default;
      } else {
        DefaultIsParsed(property.schema, fieldPath, use);
        assert parsed == Parse(property.schema, property.schema.default, fieldPath, use).value;
      }
    }
  }

  // ---------------------------------------------------------------- soundness

  lemma {:induction false} AbsenceIsAccepted(schema: Schema, path: string, use: Use)
    requires Parse(schema, None, path, use) == Parsed(None, {})
    ensures AcceptsAbsent(schema)
  {
    if schema.default.Some? && use != NativeInput {
      DefaultIsParsed(schema, path, use);
      PresentStaysPresent(schema, schema.default.value, path, use);
    } else if schema.enumeration.None? && schema.variants.Variants? {
      VariantTaken(schema, 0, None, path, use);
      var j :| 0 <= j < |schema.variants.options|
               && Parse(schema.variants.options[j], None, path, use) == Parsed(None, {});
      AbsenceIsAccepted(schema.variants.options[j], path, use);
    }
  }

  /** Whatever the parser accepts, the value it returns conforms to the schema at every depth. */
  lemma {:induction false} AcceptedConforms(schema: Schema, given: Option<Json>, path: string, use: Use)
    requires Distinct(schema) && Settled(schema, path, use) && DefaultsConform(schema, path, use)
    requires Parse(schema, given, path, use).Clean() && Parse(schema, given, path, use).value.Some?
    ensures Conforms(schema, Parse(schema, given, path, use).value.value, path, use)
    decreases schema, if given.None? then 2 else 1
  {
    if given.None? && schema.default.Some? && use == NativeInput {
    } else if given.None? && schema.default.Some? {
      DefaultIsParsed(schema, path, use);
      AcceptedConforms(schema, schema.default, path, use);
    } else if schema.enumeration.Some? {
    } else if schema.variants.Variants? {
      VariantTaken(schema, 0, given, path, use);
      var j :| 0 <= j < |schema.variants.options|
               && Parse(schema.variants.options[j], given, path, use) == Parse(schema, given, path, use);
      AcceptedConforms(schema.variants.options[j], given, path, use);
    } else {
      if schema.constant.Some? {
        CanonicalIsFixed(schema, given.value, path, use);
      }
      TypedConforms(schema, given.value, path, use);
    }
  }

  /** The part of conformance that does not come from a constant. */
  lemma {:induction false} TypedConforms(schema: Schema, v: Json, path: string, use: Use)
    requires Distinct(schema) && Settled(schema, path, use) && DefaultsConform(schema, path, use)
    requires schema.enumeration.None? && schema.variants.NoVariants?
    requires TypeMatches(schema, v) && ParseTyped(schema, v, path, use).Clean()
    ensures ParseTyped(schema, v, path, use).value.Some?
    ensures var o := ParseTyped(schema, v, path, use).value.value;
            (schema.constant.Some? ==> o == schema.constant.value) ==> Conforms(schema, o, path, use)
    decreases schema, 0, 1
  {
    match v
    case Obj(members) =>
      hide DefaultsConform, Settled, FieldConforms;
      ObjectConforms(schema, members, path, use);
    case Arr(items) =>
      hide DefaultsConform, Settled;
      ArrayConforms(schema, items, path, use);
      BoundsMeaning(schema.limits, |items| as real, schema.limits.minItems, schema.limits.maxItems, path);
    case Str(text) => ParsedTextConforms(schema, text, path, use);
    case Num(number) => ParsedNumberConforms(schema, number, path, use);
    case Null =>
    case Bool(_) =>
  }

  lemma ParsedTextConforms(schema: Schema, text: Text, path: string, use: Use)
    requires ParseText(schema, text, path, use).Clean()
    ensures TextConforms(schema, Kept(text, path, use), path, use)
  {
    var kept := Kept(text, path, use);
    BoundsMeaning(schema.limits, Length(kept) as real, schema.limits.minLength, schema.limits.maxLength, path);
  }

  lemma ParsedNumberConforms(schema: Schema, number: Number, path: string, use: Use)
    requires ParseNumber(schema, number, path, use).Clean()
    ensures var parsed := ParseNumber(schema, number, path, use).value;
            parsed.Some? && parsed.value.Num? && NumberConforms(schema, parsed.value.number)
  {
    if number.Value().Some? {
      BoundsMeaning(schema.limits, number.Value().value, schema.limits.minimum, schema.limits.maximum, path);
    }
  }

  lemma {:induction false} ObjectConforms(schema: Schema, members: map<string, Json>, path: string, use: Use)
    requires Distinct(schema) && Settled(schema, path, use) && DefaultsConform(schema, path, use)
    requires FieldsUpTo(schema, |schema.properties|, members, path, use).1 == {}
    requires UnknownKeys(schema, members, path, use) == {}
    ensures var fields := FieldsUpTo(schema, |schema.properties|, members, path, use).0;
            && (Strips(schema, use) || Closed(schema, use) ==> forall key <- fields :: Declares(schema, key))
            && forall k :: 0 <= k < |schema.properties| ==>
                 FieldConforms(schema.properties[k], schema.properties[k].key in schema.required, fields, path, use)
    decreases schema, 0, 0
  {
    var fields := FieldsUpTo(schema, |schema.properties|, members, path, use).0;
    if Strips(schema, use) {
      OnlyDeclaredKeys(schema, members, path, use);
    } else if Closed(schema, use) {
      ClosedKeys(schema, members, path, use);
    }
    forall k | 0 <= k < |schema.properties|
      ensures FieldConforms(schema.properties[k], schema.properties[k].key in schema.required, fields, path, use)
    {
      FieldOfClean(schema, k, members, path, use);
      var property := schema.properties[k];
      if property.key in fields {
        AcceptedConforms(property.schema, Get(members, property.key), FieldPath(path, property.key), use);
      } else if property.key in schema.required {
        AbsenceIsAccepted(property.schema, FieldPath(path, property.key), use);
      }
    }
  }

  lemma {:induction false} ArrayConforms(schema: Schema, items: seq<Json>, path: string, use: Use)
    requires Distinct(schema) && Settled(schema, path, use) && DefaultsConform(schema, path, use)
    requires ItemsUpTo(schema, |items|, items, path, use).1 == {}
    ensures schema.items.Some? ==>
              forall i :: 0 <= i < |items| ==>
                Conforms(schema.items.value, ItemsUpTo(schema, |items|, items, path, use).0[i], ItemPath(path, i), use)
    decreases schema, 0, 0
  {
    if schema.items.Some? {
      ItemsRead(schema, |items|, items, path, use);
      forall i | 0 <= i < |items|
        ensures Conforms(schema.items.value, ItemsUpTo(schema, |items|, items, path, use).0[i], ItemPath(path, i), use)
      {
        AcceptedConforms(schema.items.value, Some(items[i]), ItemPath(path, i), use);
      }
    }
  }

  // ---------------------------------------------------------------- completeness

  lemma {:induction false} AcceptsAbsence(schema: Schema, path: string, use: Use)
    requires AcceptsAbsent(schema)
    ensures Parse(schema, None, path, use).Clean()
  {
    if schema.variants.Variants? {
      var k :| 0 <= k < |schema.variants.options| && AcceptsAbsent(schema.variants.options[k]);
      AcceptsAbsence(schema.variants.options[k], path, use);
      VariantTaken(schema, 0, None, path, use);
    }
  }

  /** A conforming value is accepted. */
  lemma {:induction false} ConformingIsAccepted(schema: Schema, v: Json, path: string, use: Use)
    requires Distinct(schema) && Conforms(schema, v, path, use)
    ensures Parse(schema, Some(v), path, use).Clean()
    decreases schema, 1
  {
    if schema.enumeration.Some? {
    } else if schema.variants.Variants? {
      var k :| 0 <= k < |schema.variants.options| && Conforms(schema.variants.options[k], v, path, use);
      ConformingIsAccepted(schema.variants.options[k], v, path, use);
      VariantTaken(schema, 0, Some(v), path, use);
    } else {
      match v
      case Obj(members) => ConformingObjectIsAccepted(schema, members, path, use);
      case Arr(items) =>
        BoundsMeaning(schema.limits, |items| as real, schema.limits.minItems, schema.limits.maxItems, path);
        ConformingArrayIsAccepted(schema, items, path, use);
      case Str(text) =>
        BoundsMeaning(schema.limits, Length(text) as real, schema.limits.minLength, schema.limits.maxLength, path);
      case Num(number) =>
        if number.Value().Some? {
          BoundsMeaning(schema.limits, number.Value().value, schema.limits.minimum, schema.limits.maximum, path);
        }
      case Null =>
      case Bool(_) =>
    }
  }

  lemma {:induction false} ConformingObjectIsAccepted(
      schema: Schema, members: map<string, Json>, path: string, use: Use)
    requires Distinct(schema)
    requires forall k :: 0 <= k < |schema.properties| ==>
               FieldConforms(schema.properties[k], schema.properties[k].key in schema.required, members, path, use)
    ensures FieldsUpTo(schema, |schema.properties|, members, path, use).1 == {}
    decreases schema, 0
  {
    FieldIssues(schema, |schema.properties|, members, path, use);
    forall k | 0 <= k < |schema.properties| ensures ParseField(schema, k, members, path, use).Clean() {
      var property := schema.properties[k];
      if property.key in members {
        ConformingIsAccepted(property.schema, members[property.key], FieldPath(path, property.key), use);
      } else if property.key in schema.required {
        AcceptsAbsence(property.schema, FieldPath(path, property.key), use);
      }
    }
  }

  lemma {:induction false} ConformingArrayIsAccepted(schema: Schema, items: seq<Json>, path: string, use: Use)
    requires Distinct(schema)
    requires schema.items.Some? ==>
               forall i :: 0 <= i < |items| ==> Conforms(schema.items.value, items[i], ItemPath(path, i), use)
    ensures ItemsUpTo(schema, |items|, items, path, use).1 == {}
    decreases schema, 0
  {
    if schema.items.Some? {
      ItemsRead(schema, |items|, items, path, use);
      forall i | 0 <= i < |items| ensures Parse(schema.items.value, Some(items[i]), ItemPath(path, i), use).Clean() {
        ConformingIsAccepted(schema.items.value, items[i], ItemPath(path, i), use);
      }
    }
  }
}
