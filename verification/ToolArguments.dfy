/**
 The arguments of a tool call (rust/src/mcp/arguments.rs:13-41): all issues of
 the value that was sent, or the object a tool is called with.
 */
module ToolArguments {
  import opened Options
  import opened Arguments
  import opened ArgumentsTheorems

  /** The schema reads an object by its properties. */
  predicate ReadsFields(schema: Schema) { schema.enumeration.None? && schema.variants.NoVariants? }

  /** What a tool finds under a declared key: the value that was sent, tidied; or the default; or nothing. */
  predicate FieldAnswers(property: Property, required: bool, sent: map<string, Json>, got: map<string, Json>, use: Use) {
    var key, default := property.key, property.schema.default;
    if key in sent then key in got && Tidied(sent[key], got[key])
    else if default.Some? then
      key in got && Tidied(default.value, got[key]) && (use == NativeInput ==> got[key] == default.value)
    else required || key !in got
  }

  /** Under a key that is not declared: nothing where keys are stripped or refused, else the value as it was sent. */
  predicate OtherKeyAnswers(schema: Schema, key: string, sent: map<string, Json>, got: map<string, Json>, use: Use) {
    if (use == GatewayInput && schema.additional in {Unstated, Forbidden}) || (use == NativeInput && schema.additional == Forbidden)
    then key !in got
    else (key in got <==> key in sent) && (key in sent ==> got[key] == sent[key])
  }

  ghost predicate Answers(schema: Schema, sent: map<string, Json>, got: map<string, Json>, use: Use) {
    && (forall k :: 0 <= k < |schema.properties| ==>
          FieldAnswers(schema.properties[k], schema.properties[k].key in schema.required, sent, got, use))
    && (forall key :: !Declares(schema, key) ==> OtherKeyAnswers(schema, key, sent, got, use))
  }

  lemma CleanIssues(schema: Schema, sent: map<string, Json>, path: string, use: Use)
    requires ParseTyped(schema, Obj(sent), path, use).Clean()
    ensures UnknownKeys(schema, sent, path, use) == {}
  {
    assert UnknownKeys(schema, sent, path, use) <= ParseTyped(schema, Obj(sent), path, use).issues;
  }

  lemma FieldsAnswer(schema: Schema, sent: map<string, Json>, path: string, use: Use)
    requires Distinct(schema) && ReadsFields(schema) && Parse(schema, Some(Obj(sent)), path, use).Clean()
    ensures var got := FieldsUpTo(schema, |schema.properties|, sent, path, use).0;
            Parse(schema, Some(Obj(sent)), path, use).value == Some(Obj(got)) && Answers(schema, sent, got, use)
  {
    var n := |schema.properties|;
    var got := FieldsUpTo(schema, n, sent, path, use).0;
    CleanIssues(schema, sent, path, use);
    forall k | 0 <= k < n
      ensures FieldAnswers(schema.properties[k], schema.properties[k].key in schema.required, sent, got, use)
    {
      DefaultsAreFilledIn(schema, k, sent, path, use);
    }
    FieldsRead(schema, n, sent, path, use);
    if Closed(schema, use) {
      ClosedKeys(schema, sent, path, use);
    }
    forall key | !Declares(schema, key) ensures OtherKeyAnswers(schema, key, sent, got, use) {
      assert !DeclaredBefore(schema, n, key);
    }
  }

  /** An object that is accepted stays one, with its shared members tidied; the listed one of an enumeration stays itself. */
  lemma ObjectStaysObject(schema: Schema, sent: map<string, Json>, path: string, use: Use)
    requires Distinct(schema)
    ensures var got := Parse(schema, Some(Obj(sent)), path, use).value;
            got.Some? && got.value.Obj? && Tidied(Obj(sent), got.value)
  {
    ValuesAreOnlyTidied(schema, Obj(sent), path, use);
  }

  /** `parse` for a tool: all issues, or the arguments as an object. */
  method ParseArguments(schema: Schema, value: Option<Json>, gateway: bool)
    returns (result: Result<map<string, Json>, set<Issue>>)
    ensures var use := if gateway then GatewayInput else NativeInput;
            var parsed := Parse(schema, value, "", use);
            && (result.Ok? <==> parsed.Clean())
            && (result.Err? ==> result.error == parsed.issues)
            && (result.Ok? ==>
                  if parsed.value.Some? && parsed.value.value.Obj? then parsed.value == Some(Obj(result.value))
                  else result.value == map[])
    ensures var use := if gateway then GatewayInput else NativeInput;
            result.Ok? && Distinct(schema) && value.Some? && value.value.Obj? ==>
              && Tidied(value.value, Obj(result.value))
              && (ReadsFields(schema) ==> Answers(schema, value.value.fields, result.value, use))
              && (Settled(schema, "", use) && DefaultsConform(schema, "", use) ==>
                    Conforms(schema, Obj(result.value), "", use))
  {
    var use := if gateway then GatewayInput else NativeInput;
    var parsed, errors := ParseValue(schema, value, "", use, {});
    if errors != {} {
      return Err(errors);
    }
    var arguments := map[];
    if parsed.Some? && parsed.value.Obj? {
      arguments := parsed.value.fields;
    }
    result := Ok(arguments);
    ArgumentsAreRight(schema, value, use);
  }

  lemma ArgumentsAreRight(schema: Schema, value: Option<Json>, use: Use)
    requires Parse(schema, value, "", use).Clean()
    ensures Distinct(schema) && value.Some? && value.value.Obj? ==>
              var got := Parse(schema, value, "", use).value;
              && got.Some? && got.value.Obj? && Tidied(value.value, got.value)
              && (ReadsFields(schema) ==> Answers(schema, value.value.fields, got.value.fields, use))
              && (Settled(schema, "", use) && DefaultsConform(schema, "", use) ==> Conforms(schema, got.value, "", use))
  {
    if Distinct(schema) && value.Some? && value.value.Obj? {
      ObjectStaysObject(schema, value.value.fields, "", use);
      if ReadsFields(schema) {
        FieldsAnswer(schema, value.value.fields, "", use);
      }
      if Settled(schema, "", use) && DefaultsConform(schema, "", use) {
        AcceptedConforms(schema, value, "", use);
      }
    }
  }
}
