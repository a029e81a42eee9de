/**
 Parsing what the parser returned: exactly which values it accepts and leaves
 as they are, and exactly when it accepts its own output again.
 */
module ArgumentsStability {
  import opened Options
  import opened Arguments
  import opened ArgumentsTheorems

  /** No issue in an object: none in its properties, and no unknown key. */
  lemma CleanObject(schema: Schema, members: map<string, Json>, path: string, use: Use)
    ensures ParseTyped(schema, Obj(members), path, use).Clean()
            <==> UnknownKeys(schema, members, path, use) == {}
                 && FieldsUpTo(schema, |schema.properties|, members, path, use).1 == {}
  {
    var unknown := UnknownKeys(schema, members, path, use);
    var issues := FieldsUpTo(schema, |schema.properties|, members, path, use).1;
    assert unknown + issues == {} ==> unknown == {} && issues == {} by {
      assert unknown <= unknown + issues && issues <= unknown + issues;
    }
  }

  lemma CleanArray(schema: Schema, items: seq<Json>, path: string, use: Use)
    ensures ParseTyped(schema, Arr(items), path, use).Clean()
            <==> Bounds(schema.limits, |items| as real, schema.limits.minItems, schema.limits.maxItems, path) == {}
                 && ItemsUpTo(schema, |items|, items, path, use).1 == {}
  {
    var bounds := Bounds(schema.limits, |items| as real, schema.limits.minItems, schema.limits.maxItems, path);
    var issues := ItemsUpTo(schema, |items|, items, path, use).1;
    assert bounds + issues == {} ==> bounds == {} && issues == {} by {
      assert bounds <= bounds + issues && issues <= bounds + issues;
    }
  }

  // ---------------------------------------------------------------- values left as they are

  /** What is accepted without a change conforms, whatever the schema and whoever uses it. */
  lemma {:induction false} UnalteredConforms(schema: Schema, v: Json, path: string, use: Use)
    requires Distinct(schema) && Parse(schema, Some(v), path, use) == Parsed(Some(v), {})
    ensures Conforms(schema, v, path, use)
    decreases schema, 1
  {
    if schema.enumeration.Some? {
    } else if schema.variants.Variants? {
      VariantTaken(schema, 0, Some(v), path, use);
      var j :| 0 <= j < |schema.variants.options|
               && Parse(schema.variants.options[j], Some(v), path, use) == Parsed(Some(v), {});
      UnalteredConforms(schema.variants.options[j], v, path, use);
    } else {
      match v
      case Obj(members) =>
        CleanObject(schema, members, path, use);
        UnalteredObjectConforms(schema, members, path, use);
      case Arr(items) =>
        CleanArray(schema, items, path, use);
        BoundsMeaning(schema.limits, |items| as real, schema.limits.minItems, schema.limits.maxItems, path);
        UnalteredArrayConforms(schema, items, path, use);
      case Str(text) =>
        BoundsMeaning(schema.limits, Length(text) as real, schema.limits.minLength, schema.limits.maxLength, path);
      case Num(number) =>
        if number.Value().Some? {
          BoundsMeaning(schema.limits, number.Value().value, schema.limits.minimum, schema.limits.maximum, path);
        }
      case Null =>
      case Bool(_) =>
    }
  }

  lemma {:induction false} UnalteredObjectConforms(schema: Schema, members: map<string, Json>, path: string, use: Use)
    requires Distinct(schema) && UnknownKeys(schema, members, path, use) == {}
    requires FieldsUpTo(schema, |schema.properties|, members, path, use) == (members, {})
    ensures Strips(schema, use) || Closed(schema, use) ==> forall key <- members :: Declares(schema, key)
    ensures forall k :: 0 <= k < |schema.properties| ==>
              FieldConforms(schema.properties[k], schema.properties[k].key in schema.required, members, path, use)
    decreases schema, 0
  {
    if Strips(schema, use) {
      OnlyDeclaredKeys(schema, members, path, use);
    } else if Closed(schema, use) {
      ClosedKeys(schema, members, path, use);
    }
    forall k | 0 <= k < |schema.properties|
      ensures FieldConforms(schema.properties[k], schema.properties[k].key in schema.required, members, path, use)
    {
      FieldOfClean(schema, k, members, path, use);
      var property := schema.properties[k];
      if property.key in members {
        UnalteredConforms(property.schema, members[property.key], FieldPath(path, property.key), use);
      } else if property.key in schema.required {
        AbsenceIsAccepted(property.schema, FieldPath(path, property.key), use);
      }
    }
  }

  lemma {:induction false} UnalteredArrayConforms(schema: Schema, items: seq<Json>, path: string, use: Use)
    requires Distinct(schema) && ItemsUpTo(schema, |items|, items, path, use) == (items, {})
    ensures schema.items.Some? ==>
              forall i :: 0 <= i < |items| ==> Conforms(schema.items.value, items[i], ItemPath(path, i), use)
    decreases schema, 0
  {
    if schema.items.Some? {
      ItemsRead(schema, |items|, items, path, use);
      forall i | 0 <= i < |items| ensures Conforms(schema.items.value, items[i], ItemPath(path, i), use) {
        UnalteredConforms(schema.items.value, items[i], ItemPath(path, i), use);
      }
    }
  }

  /** Accepted as it is: exactly the conforming values with nothing to rewrite. */
  lemma AcceptedUnalteredExactly(schema: Schema, v: Json, path: string, use: Use)
    requires Distinct(schema) && Plain(schema)
    ensures Parse(schema, Some(v), path, use) == Parsed(Some(v), {})
            <==> Conforms(schema, v, path, use) && Canonical(schema, v, path, use)
  {
    if Parse(schema, Some(v), path, use) == Parsed(Some(v), {}) {
      UnalteredConforms(schema, v, path, use);
      if use == NativeInput {
        ConformingIsCanonical(schema, v, path);
      } else {
        AcceptedIsCanonical(schema, Some(v), path, use);
      }
    }
    if Conforms(schema, v, path, use) && Canonical(schema, v, path, use) {
      ConformingIsAccepted(schema, v, path, use);
      CanonicalIsFixed(schema, v, path, use);
    }
  }

  // ---------------------------------------------------------------- the output again

  /**
   Nothing in the given value stands in the way of accepting its result again:
   each constant it meets is one the parser leaves as it is, and each default
   a native tool takes conforms.
   */
  predicate Repeatable(schema: Schema, given: Option<Json>, path: string, use: Use)
    decreases schema
  {
    var input := if given.Some? then given else schema.default;
    if input.None? then true
    else if given.None? && use == NativeInput then Conforms(schema, input.value, path, use)
    else if schema.enumeration.Some? then true
    else if schema.constant.Some? then Canonical(schema, schema.constant.value, path, use)
    else match input.value
      case Obj(members) =>
        forall k :: 0 <= k < |schema.properties| ==> RepeatableField(schema.properties[k], members, path, use)
      case Arr(items) =>
        schema.items.Some? ==>
          forall i :: 0 <= i < |items| ==> Repeatable(schema.items.value, Some(items[i]), ItemPath(path, i), use)
      case _ => true
  }

  predicate RepeatableField(property: Property, members: map<string, Json>, path: string, use: Use)
    decreases property
  {
    Repeatable(property.schema, Get(members, property.key), FieldPath(path, property.key), use)
  }

  /** The output comes back unaltered exactly when it should, and otherwise only a native tool may still accept it. */
  ghost predicate Settles(schema: Schema, output: Option<Json>, repeatable: bool, path: string, use: Use) {
    var again := Parse(schema, output, path, use);
    && (again == Parsed(output, {}) <==> repeatable)
    && (use != NativeInput && again.Clean() ==> repeatable)
  }

  /**
   The output of an accepted parse is accepted again and comes back unaltered
   exactly if the given value is repeatable; for the gateway's own schemas it
   is accepted again at all exactly then.
   */
  lemma {:induction false} ReparsingIsStableExactly(schema: Schema, given: Option<Json>, path: string, use: Use)
    requires Distinct(schema) && Plain(schema) && Parse(schema, given, path, use).Clean()
    ensures Settles(schema, Parse(schema, given, path, use).value, Repeatable(schema, given, path, use), path, use)
    decreases schema, if given.None? then 3 else 2
  {
    if given.None? && schema.default.Some? && use == NativeInput {
      DefaultSettles(schema, path);
    } else if given.None? && schema.default.Some? {
      DefaultIsParsed(schema, path, use);
      ReparsingIsStableExactly(schema, schema.default, path, use);
    } else if given.None? || schema.enumeration.Some? {
    } else if schema.constant.Some? {
      ConstantSettles(schema, path, use);
    } else {
      match given.value
      case Obj(members) => ObjectSettles(schema, members, path, use);
      case Arr(items) => ArraySettles(schema, items, path, use);
      case Str(_) => ScalarSettles(schema, given.value, path, use);
      case Num(_) => ScalarSettles(schema, given.value, path, use);
      case Null =>
      case Bool(_) =>
    }
  }

  lemma DefaultSettles(schema: Schema, path: string)
    requires Distinct(schema) && Plain(schema) && schema.default.Some?
    ensures Settles(schema, schema.default, Repeatable(schema, None, path, NativeInput), path, NativeInput)
  {
    var d := schema.default.value;
    AcceptedUnalteredExactly(schema, d, path, NativeInput);
    if Conforms(schema, d, path, NativeInput) {
      ConformingIsCanonical(schema, d, path);
    }
  }

  lemma ConstantSettles(schema: Schema, path: string, use: Use)
    requires Distinct(schema) && Plain(schema) && schema.enumeration.None? && schema.constant.Some?
    requires Parse(schema, schema.constant, path, use).Clean()
    ensures Settles(schema, Parse(schema, schema.constant, path, use).value,
                    Canonical(schema, schema.constant.value, path, use), path, use)
  {
    PresentStaysPresent(schema, schema.constant.value, path, use);
    AcceptedUnalteredExactly(schema, schema.constant.value, path, use);
    if Canonical(schema, schema.constant.value, path, use) {
      CanonicalIsFixed(schema, schema.constant.value, path, use);
    }
  }

  /** Text and numbers are rewritten once. */
  lemma ScalarSettles(schema: Schema, v: Json, path: string, use: Use)
    requires Distinct(schema) && Plain(schema) && schema.enumeration.None? && schema.constant.None?
    requires (v.Str? || v.Num?) && Parse(schema, Some(v), path, use).Clean()
    ensures var output := Parse(schema, Some(v), path, use).value;
            Parse(schema, output, path, use) == Parsed(output, {})
  {
  }

  lemma {:induction false} ObjectSettles(schema: Schema, members: map<string, Json>, path: string, use: Use)
    requires Distinct(schema) && Plain(schema) && schema.enumeration.None? && schema.constant.None?
    requires Parse(schema, Some(Obj(members)), path, use).Clean()
    ensures Settles(schema, Parse(schema, Some(Obj(members)), path, use).value,
                    Repeatable(schema, Some(Obj(members)), path, use), path, use)
    decreases schema, 1
  {
    var fields := FieldsUpTo(schema, |schema.properties|, members, path, use).0;
    CleanObject(schema, members, path, use);
    forall k | 0 <= k < |schema.properties|
      ensures FieldSettles(schema, k, fields, RepeatableField(schema.properties[k], members, path, use), path, use)
    {
      OutputFieldSettles(schema, k, members, path, use);
    }
    OutputKeysAreKnown(schema, members, path, use);
    FieldsSettle(schema, members, fields, path, use);
  }

  lemma {:induction false} OutputFieldSettles(
      schema: Schema, k: nat, members: map<string, Json>, path: string, use: Use)
    requires Distinct(schema) && Plain(schema) && k < |schema.properties|
    requires FieldsUpTo(schema, |schema.properties|, members, path, use).1 == {}
    ensures FieldSettles(schema, k, FieldsUpTo(schema, |schema.properties|, members, path, use).0,
                         RepeatableField(schema.properties[k], members, path, use), path, use)
    decreases schema, 0
  {
    FieldOfClean(schema, k, members, path, use);
    var property := schema.properties[k];
    if property.key in FieldsUpTo(schema, |schema.properties|, members, path, use).0 {
      ReparsingIsStableExactly(property.schema, Get(members, property.key), FieldPath(path, property.key), use);
    }
  }

  /** Reading the output again finds no key to strip and none to refuse. */
  lemma OutputKeysAreKnown(schema: Schema, members: map<string, Json>, path: string, use: Use)
    requires Distinct(schema) && UnknownKeys(schema, members, path, use) == {}
    ensures var fields := FieldsUpTo(schema, |schema.properties|, members, path, use).0;
            && UnknownKeys(schema, fields, path, use) == {}
            && (Strips(schema, use) ==> forall key <- fields :: Declares(schema, key))
  {
    if Strips(schema, use) {
      OnlyDeclaredKeys(schema, members, path, use);
    } else if Closed(schema, use) {
      ClosedKeys(schema, members, path, use);
    }
  }

  /** One object is of a schema's types if another is. */
  lemma ReadAsObject(schema: Schema, members: map<string, Json>, fields: map<string, Json>, path: string, use: Use)
    requires schema.enumeration.None? && schema.variants.NoVariants? && schema.constant.None?
    requires TypeMatches(schema, Obj(members))
    ensures Parse(schema, Some(Obj(fields)), path, use) == ParseTyped(schema, Obj(fields), path, use)
  {
    assert forall t :: HasType(t, Obj(members)) == HasType(t, Obj(fields));
  }

  lemma FieldsSettle(schema: Schema, members: map<string, Json>, fields: map<string, Json>, path: string, use: Use)
    requires Distinct(schema) && schema.enumeration.None? && schema.variants.NoVariants? && schema.constant.None?
    requires TypeMatches(schema, Obj(members)) && UnknownKeys(schema, fields, path, use) == {}
    requires Strips(schema, use) ==> forall key <- fields :: Declares(schema, key)
    requires forall k :: 0 <= k < |schema.properties| ==>
               FieldSettles(schema, k, fields, RepeatableField(schema.properties[k], members, path, use), path, use)
    ensures Settles(schema, Some(Obj(fields)), Repeatable(schema, Some(Obj(members)), path, use), path, use)
  {
    ReadAsObject(schema, members, fields, path, use);
    hide Parse, ParseField, UnknownKeys, TypeMatches, Strips, Declares, Distinct;
    CleanObject(schema, fields, path, use);
    UnalteredFields(schema, fields, path, use);
    FieldIssues(schema, |schema.properties|, fields, path, use);
    hide FieldsUpTo;
    forall k | 0 <= k < |schema.properties|
      ensures FieldUnaltered(schema, k, fields, path, use) <==> RepeatableField(schema.properties[k], members, path, use)
      ensures use != NativeInput && ParseField(schema, k, fields, path, use).Clean() ==>
                RepeatableField(schema.properties[k], members, path, use)
    {
      assert FieldSettles(schema, k, fields, RepeatableField(schema.properties[k], members, path, use), path, use);
    }
  }

  /** One declared property of the output, as the parser reads it again. */
  predicate FieldSettles(schema: Schema, k: nat, fields: map<string, Json>, repeatable: bool, path: string, use: Use)
    requires k < |schema.properties|
  {
    var again := ParseField(schema, k, fields, path, use);
    && (again == Parsed(Get(fields, schema.properties[k].key), {}) <==> repeatable)
    && (use != NativeInput && again.Clean() ==> repeatable)
  }

  predicate FieldUnaltered(schema: Schema, k: nat, fields: map<string, Json>, path: string, use: Use)
    requires k < |schema.properties|
  {
    ParseField(schema, k, fields, path, use) == Parsed(Get(fields, schema.properties[k].key), {})
  }

  /** An object without undeclared keys to strip is unaltered exactly if every declared property is. */
  lemma UnalteredFields(schema: Schema, fields: map<string, Json>, path: string, use: Use)
    requires Distinct(schema) && (Strips(schema, use) ==> forall key <- fields :: Declares(schema, key))
    ensures FieldsUpTo(schema, |schema.properties|, fields, path, use) == (fields, {})
            <==> forall k :: 0 <= k < |schema.properties| ==> FieldUnaltered(schema, k, fields, path, use)
  {
    var n := |schema.properties|;
    var again := FieldsUpTo(schema, n, fields, path, use).0;
    FieldsRead(schema, n, fields, path, use);
    FieldIssues(schema, n, fields, path, use);
    if FieldsUpTo(schema, n, fields, path, use) == (fields, {}) {
      forall k | 0 <= k < n ensures FieldUnaltered(schema, k, fields, path, use) {
        assert Get(again, schema.properties[k].key) == ParseField(schema, k, fields, path, use).value;
        assert ParseField(schema, k, fields, path, use).Clean();
      }
    }
    if forall k :: 0 <= k < n ==> FieldUnaltered(schema, k, fields, path, use) {
      assert forall k :: 0 <= k < n ==> FieldUnaltered(schema, k, fields, path, use) ==>
               ParseField(schema, k, fields, path, use).Clean();
      assert FieldsClean(schema, n, fields, path, use);
      forall key ensures Get(again, key) == Get(fields, key) {
        if DeclaredBefore(schema, n, key) {
          var k :| 0 <= k < n && schema.properties[k].key == key;
          assert FieldUnaltered(schema, k, fields, path, use);
        } else if Strips(schema, use) {
          assert key in fields ==> Declares(schema, key);
        }
      }
      SameMembers(again, fields);
    }
  }

  lemma {:induction false} ArraySettles(schema: Schema, items: seq<Json>, path: string, use: Use)
    requires Distinct(schema) && Plain(schema) && schema.enumeration.None? && schema.constant.None?
    requires Parse(schema, Some(Arr(items)), path, use).Clean()
    ensures Settles(schema, Parse(schema, Some(Arr(items)), path, use).value,
                    Repeatable(schema, Some(Arr(items)), path, use), path, use)
    decreases schema, 1
  {
    if schema.items.Some? {
      var output := ItemsUpTo(schema, |items|, items, path, use).0;
      CleanArray(schema, items, path, use);
      ItemsRead(schema, |items|, items, path, use);
      forall i | 0 <= i < |items|
        ensures Settles(schema.items.value, Some(output[i]),
                        Repeatable(schema.items.value, Some(items[i]), ItemPath(path, i), use), ItemPath(path, i), use)
      {
        ReparsingIsStableExactly(schema.items.value, Some(items[i]), ItemPath(path, i), use);
      }
      ItemsSettle(schema, items, output, path, use);
    }
  }

  lemma ItemsSettle(schema: Schema, items: seq<Json>, output: seq<Json>, path: string, use: Use)
    requires schema.enumeration.None? && schema.variants.NoVariants? && schema.constant.None?
    requires TypeMatches(schema, Arr(items)) && schema.items.Some? && |items| == |output|
    requires Bounds(schema.limits, |items| as real, schema.limits.minItems, schema.limits.maxItems, path) == {}
    requires forall i :: 0 <= i < |items| ==>
               Settles(schema.items.value, Some(output[i]),
                       Repeatable(schema.items.value, Some(items[i]), ItemPath(path, i), use), ItemPath(path, i), use)
    ensures Settles(schema, Some(Arr(output)), Repeatable(schema, Some(Arr(items)), path, use), path, use)
  {
    assert TypeMatches(schema, Arr(output)) by {
      assert forall t :: HasType(t, Arr(items)) == HasType(t, Arr(output));
    }
    assert Parse(schema, Some(Arr(output)), path, use) == ParseTyped(schema, Arr(output), path, use);
    CleanArray(schema, output, path, use);
    UnalteredItems(schema, output, path, use);
    ItemsRead(schema, |output|, output, path, use);
    hide ItemsUpTo, Parse, Bounds;
    forall i | 0 <= i < |items|
      ensures ItemUnaltered(schema, i, output, path, use)
              <==> Repeatable(schema.items.value, Some(items[i]), ItemPath(path, i), use)
    {
    }
  }

  predicate ItemUnaltered(schema: Schema, i: nat, items: seq<Json>, path: string, use: Use)
    requires i < |items| && schema.items.Some?
  {
    Parse(schema.items.value, Some(items[i]), ItemPath(path, i), use) == Parsed(Some(items[i]), {})
  }

  lemma UnalteredItems(schema: Schema, items: seq<Json>, path: string, use: Use)
    requires schema.items.Some?
    ensures ItemsUpTo(schema, |items|, items, path, use) == (items, {})
            <==> forall i :: 0 <= i < |items| ==> ItemUnaltered(schema, i, items, path, use)
  {
    var again := ItemsUpTo(schema, |items|, items, path, use).0;
    ItemsRead(schema, |items|, items, path, use);
    if forall i :: 0 <= i < |items| ==> ItemUnaltered(schema, i, items, path, use) {
      forall i | 0 <= i < |items| ensures again[i] == items[i] {
        assert ItemUnaltered(schema, i, items, path, use);
      }
      assert forall i :: 0 <= i < |items| ==> ItemUnaltered(schema, i, items, path, use) ==>
               Parse(schema.items.value, Some(items[i]), ItemPath(path, i), use).Clean();
      assert again == items;
    }
  }

  /** The value returned conforms to its schema exactly if the given value is repeatable. */
  lemma OutputConformsExactly(schema: Schema, given: Option<Json>, path: string, use: Use)
    requires Distinct(schema) && Plain(schema)
    requires Parse(schema, given, path, use).Clean() && Parse(schema, given, path, use).value.Some?
    ensures var output := Parse(schema, given, path, use).value.value;
            Conforms(schema, output, path, use) && Canonical(schema, output, path, use)
            <==> Repeatable(schema, given, path, use)
  {
    ReparsingIsStableExactly(schema, given, path, use);
    AcceptedUnalteredExactly(schema, Parse(schema, given, path, use).value.value, path, use);
  }

  /** A native tool's default, which is returned unchecked, comes back exactly if it conforms. */
  lemma NativeDefaultIsStableExactly(schema: Schema, path: string)
    requires Distinct(schema) && Plain(schema) && schema.default.Some?
    ensures var output := Parse(schema, None, path, NativeInput).value;
            Parse(schema, output, path, NativeInput) == Parsed(output, {})
            <==> Conforms(schema, schema.default.value, path, NativeInput)
  {
    ReparsingIsStableExactly(schema, None, path, NativeInput);
  }

  /** After accepting a schema's own constant, the parser accepts its output exactly when the constant is canonical. */
  lemma ConstantIsStableExactly(schema: Schema, path: string, use: Use)
    requires Distinct(schema) && Plain(schema)
    requires schema.enumeration.None? && schema.constant.Some?
    requires Parse(schema, schema.constant, path, use).Clean()
    ensures var output := Parse(schema, schema.constant, path, use).value;
            Parse(schema, output, path, use).Clean() <==> Canonical(schema, schema.constant.value, path, use)
  {
    ConstantSettles(schema, path, use);
    if !Canonical(schema, schema.constant.value, path, use) {
      PresentStaysPresent(schema, schema.constant.value, path, use);
      AcceptedUnalteredExactly(schema, schema.constant.value, path, use);
    }
  }

  // ---------------------------------------------------------------- with variants

  /**
   Whatever the schema: if its constants are settled and its defaults conform,
   the output of an accepted parse is accepted again.
   */
  lemma ReparsingIsStable(schema: Schema, given: Option<Json>, path: string, use: Use)
    requires Distinct(schema) && Settled(schema, path, use) && DefaultsConform(schema, path, use)
    requires Parse(schema, given, path, use).Clean()
    ensures var output := Parse(schema, given, path, use).value;
            && Parse(schema, output, path, use).Clean()
            && (Plain(schema) ==> Parse(schema, output, path, use).value == output)
  {
    var output := Parse(schema, given, path, use).value;
    if output.Some? {
      AcceptedConforms(schema, given, path, use);
      ConformingIsAccepted(schema, output.value, path, use);
      if Plain(schema) {
        AcceptedIsCanonical(schema, given, path, use);
        CanonicalIsFixed(schema, output.value, path, use);
      }
    } else if given.Some? {
      PresentStaysPresent(schema, given.value, path, use);
    }
  }

  // ---------------------------------------------------------------- where it fails

  const NO_LIMITS := Limits(None, None, None, None, None, None, None, None)

  function TypedSchema(t: TypeName): Schema {
    Schema(None, None, NoVariants, None, [t], [], {}, Unstated, None, NO_LIMITS, None)
  }

  /** A constant with outer spaces under a trimmed path is accepted once and then refused. */
  lemma UntrimmedConstant()
    ensures var schema := TypedSchema(StringType).(constant := Some(Str(Utf8(" x"))));
            var first := Parse(schema, schema.constant, "title", GatewayInput);
            && first == Parsed(Some(Str(Utf8("x"))), {})
            && Parse(schema, first.value, "title", GatewayInput).issues == {Issue("title", NotTheConstant)}
  {
    assert Trim(" x") == Trim("x") by { assert " x"[1..] == "x"; }
    var schema := TypedSchema(StringType).(constant := Some(Str(Utf8(" x"))));
    assert HasType(StringType, schema.constant.value) && StringType in schema.types;
    BoundsMeaning(NO_LIMITS, 1.0, None, None, "title");
  }

  /** A native tool's default is returned unchecked, so there the output may be refused. */
  lemma NativeDefaultIsNotChecked(path: string)
    ensures var schema := TypedSchema(StringType).(default := Some(Null));
            var first := Parse(schema, None, path, NativeInput);
            first.Clean() && !Parse(schema, first.value, path, NativeInput).Clean()
  {
    assert forall t :: t in [StringType] ==> t == StringType;
  }
}
