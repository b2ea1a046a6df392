/** The schema well-formedness checker: the keyword guard that wraps every
    per-type validator, the object keyword rules, the seven per-type
    validators and the dispatcher on the `"type"` keyword. Each Python
    function has a function here, plus helpers for the decorator's two parts
    (`KeywordGuard`, `Guarded`), the `get` tests (`TruthyIndex`), the body of
    the object validator (`ObjectBody`), the loops over `prop.values()`
    (`ValidateEachValue`) and `{**prop, ...}` (`WithImpliedType`). Raising is
    returning a non-`Ok` outcome. */
module Validator {
  import opened JsonValue

  /** Which `ValidationError` was raised. The messages of the dispatcher are
      fixed strings, so the kind identifies the message, except that
      `InvalidKeywords` carries the offending keys that its message lists. */
  datatype Failure =
    | ExpectedDict
    | MissingType
    | InvalidType
    | DuplicateKeywords
    | InvalidKeywords(keywords: set<string>)
    | BadAdditionalProperties
    | BadProperties
    | BadPatternProperties
    | BadPropertyNames
    | BadMaxProperties
    | BadMinProperties
    | BadRequired

  /** How a call ends: normally, with a `ValidationError`, or with the
      `AssertionError` of the `assert False` in the object validator. */
  datatype Outcome = Ok | ValidationError(failure: Failure) | AssertionFailure

  const ObjectKeywords: set<string> :=
    {"additionalProperties", "properties", "patternProperties", "propertyNames",
     "maxProperties", "minProperties", "required", "type"}
  const ArrayKeywords: set<string> :=
    {"contains", "items", "minContains", "minItems", "maxContains", "maxItems",
     "prefixItems", "type", "uniqueItems"}
  const StringKeywords: set<string> := {"format", "minLength", "maxLength", "pattern", "type"}
  const NumberKeywords: set<string> :=
    {"exclusiveMaximum", "exclusiveMinimum", "maximum", "minimum", "multipleOf", "type"}
  const IntegerKeywords: set<string> :=
    {"exclusiveMaximum", "exclusiveMinimum", "maximum", "minimum", "multipleOf", "type"}
  const BooleanKeywords: set<string> := {"type"}
  const NullKeywords: set<string> := {"type"}

  /** The checks `valid_keywords` makes before running the wrapped validator:
      no key twice, then no key outside the whitelist. */
  function KeywordGuard(whitelist: set<string>, m: Members): (r: Outcome)
    ensures r.Ok? <==> Distinct(Keys(m)) && KeySet(m) <= whitelist
    ensures r == ValidationError(DuplicateKeywords) <==> !Distinct(Keys(m))
    ensures Distinct(Keys(m)) && !(KeySet(m) <= whitelist) ==>
              r == ValidationError(InvalidKeywords(KeySet(m) - whitelist))
    ensures !r.AssertionFailure?
  {
    ElemSetCardinality(Keys(m));
    EmptyDifferenceIffSubset(KeySet(m), whitelist);
    if |KeySet(m)| < |Keys(m)| then ValidationError(DuplicateKeywords)
    else if KeySet(m) - whitelist != {} then ValidationError(InvalidKeywords(KeySet(m) - whitelist))
    else Ok
  }

  /** `a - b` is empty exactly when `a` is a subset of `b`. */
  lemma EmptyDifferenceIffSubset(a: set<string>, b: set<string>)
    ensures a - b == {} <==> a <= b
  {
    if a - b != {} {
      var x :| x in a - b;
      assert x in a && x !in b;
    } else {
      forall x | x in a ensures x in b {
        assert x !in a - b;
      }
    }
  }

  /** The validator `valid_keywords(whitelist)` makes of a body: the guard,
      and only when it passes, the body. */
  function Guarded(whitelist: set<string>, m: Members, body: Outcome): (r: Outcome)
    ensures r.Ok? <==> Distinct(Keys(m)) && KeySet(m) <= whitelist && body.Ok?
    ensures KeywordGuard(whitelist, m).Ok? ==> r == body
    ensures !KeywordGuard(whitelist, m).Ok? ==> r == KeywordGuard(whitelist, m)
  {
    var g := KeywordGuard(whitelist, m);
    if g.Ok? then body else g
  }

  /** The position of `k` in `m` when `m.get(k)` is truthy. */
  function TruthyIndex(m: Members, k: string): (r: Option<nat>)
    ensures r.Some? <==> Get(m, k).Some? && Truthy(Get(m, k).value)
    ensures r.Some? ==> r.value < |m| && m[r.value].0 == k && Get(m, k) == Some(m[r.value].1)
  {
    match IndexOf(m, k)
    case Some(i) => if Truthy(m[i].1) then Some(i) else None
    case None => None
  }

  /** `_validate_schema`: the dispatcher on the `"type"` keyword. */
  function ValidateSchema(schema: Json): (r: Outcome)
    ensures !schema.JObject? ==> r == ValidationError(ExpectedDict)
    ensures schema.JObject? && "type" !in Keys(schema.members) ==> r == ValidationError(MissingType)
    ensures r.Ok? ==> schema.JObject? && Distinct(Keys(schema.members))
    decreases schema, 2, 0
  {
    if !schema.JObject? then ValidationError(ExpectedDict)
    else match Get(schema.members, "type")
      case None => ValidationError(MissingType)
      case Some(schemaType) =>
        if schemaType == JString("object") then ValidateObject(schema)
        else if schemaType == JString("array") then ValidateArray(schema)
        else if schemaType == JString("string") then ValidateString(schema)
        else if schemaType == JString("number") then ValidateNumber(schema)
        else if schemaType == JString("integer") then ValidateInteger(schema)
        else if schemaType == JString("boolean") then ValidateBoolean(schema)
        else if schemaType == JString("null") then ValidateNull(schema)
        else ValidationError(InvalidType)
  }

  /** `validate`, the public entry point. */
  function Validate(schema: Json): (r: Outcome)
    ensures r == ValidateSchema(schema)
    ensures !schema.JObject? ==> r == ValidationError(ExpectedDict)
    ensures schema.JObject? && "type" !in Keys(schema.members) ==> r == ValidationError(MissingType)
  {
    ValidateSchema(schema)
  }

  /** `_validate_object`: the guard, then the first present and truthy
      keyword of a fixed order decides; with none, `assert False` fails. */
  function ValidateObject(schema: Json): (r: Outcome)
    requires schema.JObject?
    ensures r.Ok? ==> Distinct(Keys(schema.members)) && KeySet(schema.members) <= ObjectKeywords
    ensures !KeywordGuard(ObjectKeywords, schema.members).Ok? ==>
              r == KeywordGuard(ObjectKeywords, schema.members)
    decreases schema, 1, 0
  {
    Guarded(ObjectKeywords, schema.members, ObjectBody(schema))
  }

  /** The body of `_validate_object`, an `if`/`elif` chain over `schema.get(...)`:
      with no truthy rule keyword it reaches its own `assert False`; otherwise
      its outcome is that of the first truthy keyword's check, which may itself
      be a nested schema's assertion failure. */
  function ObjectBody(schema: Json): (r: Outcome)
    requires schema.JObject?
    ensures !r.AssertionFailure? ==>
              || TruthyIndex(schema.members, "additionalProperties").Some?
              || TruthyIndex(schema.members, "properties").Some?
              || TruthyIndex(schema.members, "patternProperties").Some?
              || TruthyIndex(schema.members, "propertyNames").Some?
              || TruthyIndex(schema.members, "maxProperties").Some?
              || TruthyIndex(schema.members, "minProperties").Some?
              || TruthyIndex(schema.members, "required").Some?
    decreases schema, 0, 0
  {
    var m := schema.members;
    var additional := TruthyIndex(m, "additionalProperties");
    var properties := TruthyIndex(m, "properties");
    var patterns := TruthyIndex(m, "patternProperties");
    var names := TruthyIndex(m, "propertyNames");
    var maxProps := TruthyIndex(m, "maxProperties");
    var minProps := TruthyIndex(m, "minProperties");
    var required := TruthyIndex(m, "required");
    if additional.Some? then ValidateAdditionalProperties(m[additional.value].1)
    else if properties.Some? then ValidateProperties(m[properties.value].1)
    else if patterns.Some? then ValidatePatternProperties(m[patterns.value].1)
    else if names.Some? then ValidatePropertyNames(m[names.value].1)
    else if maxProps.Some? then ValidateMaxProperties(m[maxProps.value].1)
    else if minProps.Some? then ValidateMinProperties(m[minProps.value].1)
    else if required.Some? then ValidateRequired(m[required.value].1)
    else AssertionFailure
  }

  /** `_validate_object_additionalProperties`: a bool, or a schema that is
      validated in turn. */
  function ValidateAdditionalProperties(prop: Json): (r: Outcome)
    ensures r.Ok? <==> prop.JBool? || ValidateSchema(prop).Ok?
    ensures prop.JObject? ==> r == ValidateSchema(prop)
    ensures !prop.JBool? && !prop.JObject? ==> r == ValidationError(BadAdditionalProperties)
    decreases prop, 3, 0
  {
    if prop.JBool? then Ok
    else if prop.JObject? then ValidateSchema(prop)
    else ValidationError(BadAdditionalProperties)
  }

  /** `_validate_object_properties`: a mapping whose every value is a schema. */
  function ValidateProperties(prop: Json): (r: Outcome)
    ensures !prop.JObject? ==> r == ValidationError(BadProperties)
    ensures r.Ok? <==>
              prop.JObject? && forall i :: 0 <= i < |prop.members| ==> ValidateSchema(prop.members[i].1).Ok?
    ensures prop.JObject? && !r.Ok? ==>
              exists k :: 0 <= k < |prop.members| && r == ValidateSchema(prop.members[k].1) &&
                forall i :: 0 <= i < k ==> ValidateSchema(prop.members[i].1).Ok?
    decreases prop, 3, 0
  {
    if !prop.JObject? then ValidationError(BadProperties)
    else ValidateEachValue(prop, 0)
  }

  /** `_validate_object_patternProperties`: a mapping whose every value is a
      schema (its keys are not examined). */
  function ValidatePatternProperties(prop: Json): (r: Outcome)
    ensures !prop.JObject? ==> r == ValidationError(BadPatternProperties)
    ensures r.Ok? <==>
              prop.JObject? && forall i :: 0 <= i < |prop.members| ==> ValidateSchema(prop.members[i].1).Ok?
    ensures prop.JObject? && !r.Ok? ==>
              exists k :: 0 <= k < |prop.members| && r == ValidateSchema(prop.members[k].1) &&
                forall i :: 0 <= i < k ==> ValidateSchema(prop.members[i].1).Ok?
    decreases prop, 3, 0
  {
    if !prop.JObject? then ValidationError(BadPatternProperties)
    else ValidateEachValue(prop, 0)
  }

  /** The loop `for schema in prop.values(): _validate_schema(schema)` from
      the member at `from` on: it ends with the outcome of the first value
      that fails, or normally when none does. */
  function ValidateEachValue(mapping: Json, from: nat): (r: Outcome)
    requires mapping.JObject? && from <= |mapping.members|
    ensures r.Ok? <==>
              forall i :: from <= i < |mapping.members| ==> ValidateSchema(mapping.members[i].1).Ok?
    ensures !r.Ok? ==>
              exists k :: from <= k < |mapping.members| && r == ValidateSchema(mapping.members[k].1) &&
                forall i :: from <= i < k ==> ValidateSchema(mapping.members[i].1).Ok?
    decreases mapping, 0, |mapping.members| - from
  {
    if from == |mapping.members| then Ok
    else
      var first := ValidateSchema(mapping.members[from].1);
      if !first.Ok? then first
      else
        var rest := ValidateEachValue(mapping, from + 1);
        EachValueStep(mapping, from, rest);
        rest
  }

  /** One step of that loop: an accepted value in front of the rest does
      not change the outcome. */
  lemma {:induction false} EachValueStep(mapping: Json, from: nat, rest: Outcome)
    requires mapping.JObject? && from < |mapping.members|
    requires ValidateSchema(mapping.members[from].1).Ok?
    requires rest.Ok? <==>
               forall i :: from + 1 <= i < |mapping.members| ==> ValidateSchema(mapping.members[i].1).Ok?
    requires !rest.Ok? ==>
               exists k :: from + 1 <= k < |mapping.members| && rest == ValidateSchema(mapping.members[k].1) &&
                 forall i :: from + 1 <= i < k ==> ValidateSchema(mapping.members[i].1).Ok?
    ensures rest.Ok? <==>
              forall i :: from <= i < |mapping.members| ==> ValidateSchema(mapping.members[i].1).Ok?
    ensures !rest.Ok? ==>
              exists k :: from <= k < |mapping.members| && rest == ValidateSchema(mapping.members[k].1) &&
                forall i :: from <= i < k ==> ValidateSchema(mapping.members[i].1).Ok?
    decreases mapping, 0, 0
  {
    if !rest.Ok? {
      var k :| from + 1 <= k < |mapping.members| && rest == ValidateSchema(mapping.members[k].1) &&
               forall i :: from + 1 <= i < k ==> ValidateSchema(mapping.members[i].1).Ok?;
      assert forall i :: from <= i < k ==> ValidateSchema(mapping.members[i].1).Ok?;
    }
  }

  /** `{**prop, 'type': 'string'}` for a `prop` without `"type"`: a fresh
      mapping with the same members followed by the implied type. */
  function WithImpliedType(m: Members): (r: Members)
    requires "type" !in Keys(m)
    ensures |r| == |m| + 1 && r[..|m|] == m
    ensures Keys(r) == Keys(m) + ["type"]
    ensures Get(r, "type") == Some(JString("string"))
  {
    var r := m + [("type", JString("string"))];
    assert Keys(r)[..|m|] == Keys(m);
    r
  }

  /** `_validate_object_propertyNames`: a mapping whose `"type"` is
      `"string"` (the default when absent), checked by the string validator. */
  function ValidatePropertyNames(prop: Json): (r: Outcome)
    ensures !prop.JObject? ==> r == ValidationError(BadPropertyNames)
    ensures !r.AssertionFailure?
  {
    if !prop.JObject? || GetOr(prop.members, "type", JString("string")) != JString("string") then
      ValidationError(BadPropertyNames)
    else
      var copy := if "type" !in Keys(prop.members) then WithImpliedType(prop.members) else prop.members;
      ValidateString(JObject(copy))
  }

  /** `_validate_object_maxProperties`: an `int` (a `bool` is one) of at least 1. */
  function ValidateMaxProperties(prop: Json): (r: Outcome)
    ensures r.Ok? || r == ValidationError(BadMaxProperties)
    ensures prop.JInt? ==> (r.Ok? <==> prop.i >= 1)
    ensures prop.JBool? ==> (r.Ok? <==> prop.b)
    ensures !IsInt(prop) ==> r == ValidationError(BadMaxProperties)
  {
    if !IsInt(prop) || IntValue(prop) < 1 then ValidationError(BadMaxProperties) else Ok
  }

  /** `_validate_object_minProperties`: an `int` (a `bool` is one) of at least 1. */
  function ValidateMinProperties(prop: Json): (r: Outcome)
    ensures r.Ok? || r == ValidationError(BadMinProperties)
    ensures prop.JInt? ==> (r.Ok? <==> prop.i >= 1)
    ensures prop.JBool? ==> (r.Ok? <==> prop.b)
    ensures !IsInt(prop) ==> r == ValidationError(BadMinProperties)
  {
    if !IsInt(prop) || IntValue(prop) < 1 then ValidationError(BadMinProperties) else Ok
  }

  /** `_validate_object_required`: a list of strings. */
  function ValidateRequired(prop: Json): (r: Outcome)
    ensures r.Ok? || r == ValidationError(BadRequired)
    ensures r.Ok? <==> prop.JArray? && forall i :: 0 <= i < |prop.items| ==> prop.items[i].JString?
  {
    if !prop.JArray? || exists x :: x in prop.items && !x.JString? then ValidationError(BadRequired)
    else Ok
  }

  /** `_validate_array`: its body is `...`, so only the guard checks anything. */
  function ValidateArray(schema: Json): (r: Outcome)
    requires schema.JObject?
    ensures r.Ok? <==> Distinct(Keys(schema.members)) && KeySet(schema.members) <= ArrayKeywords
    ensures !r.AssertionFailure?
  {
    Guarded(ArrayKeywords, schema.members, Ok)
  }

  /** `_validate_string`: only the guard checks anything. */
  function ValidateString(schema: Json): (r: Outcome)
    requires schema.JObject?
    ensures r.Ok? <==> Distinct(Keys(schema.members)) && KeySet(schema.members) <= StringKeywords
    ensures !r.AssertionFailure?
  {
    Guarded(StringKeywords, schema.members, Ok)
  }

  /** `_validate_number`: only the guard checks anything. */
  function ValidateNumber(schema: Json): (r: Outcome)
    requires schema.JObject?
    ensures r.Ok? <==> Distinct(Keys(schema.members)) && KeySet(schema.members) <= NumberKeywords
    ensures !r.AssertionFailure?
  {
    Guarded(NumberKeywords, schema.members, Ok)
  }

  /** `_validate_integer`: only the guard checks anything. */
  function ValidateInteger(schema: Json): (r: Outcome)
    requires schema.JObject?
    ensures r.Ok? <==> Distinct(Keys(schema.members)) && KeySet(schema.members) <= IntegerKeywords
    ensures !r.AssertionFailure?
  {
    Guarded(IntegerKeywords, schema.members, Ok)
  }

  /** `_validate_boolean`: only the guard checks anything. */
  function ValidateBoolean(schema: Json): (r: Outcome)
    requires schema.JObject?
    ensures r.Ok? <==> Distinct(Keys(schema.members)) && KeySet(schema.members) <= BooleanKeywords
    ensures !r.AssertionFailure?
  {
    Guarded(BooleanKeywords, schema.members, Ok)
  }

  /** `_validate_null`: only the guard checks anything. */
  function ValidateNull(schema: Json): (r: Outcome)
    requires schema.JObject?
    ensures r.Ok? <==> Distinct(Keys(schema.members)) && KeySet(schema.members) <= NullKeywords
    ensures !r.AssertionFailure?
  {
    Guarded(NullKeywords, schema.members, Ok)
  }
}
