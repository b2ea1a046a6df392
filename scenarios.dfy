/** The documents of the repository's tests, and documents that exercise
    single lines of `validator.py`, each with the outcome the checker as
    written gives it. Where a test expects something else, the lemma states
    what the code does. */
module Scenarios {
  import opened JsonValue
  import opened Validator
  import opened WellFormedness
  import opened SchemaProperties

  /** The shape of a test document: `type` followed by one keyword. */
  lemma {:induction false} TypedPair(t: string, k: string, v: Json)
    requires k != "type"
    ensures var m := [("type", JString(t)), (k, v)];
      && Keys(m) == ["type", k] && Distinct(Keys(m)) && KeySet(m) == {"type", k}
      && Get(m, "type") == Some(JString(t))
      && (forall k' :: k' != "type" && k' != k ==> TruthyIndex(m, k').None?)
      && (Truthy(v) ==> TruthyIndex(m, k) == Some(1))
      && (!Truthy(v) ==> TruthyIndex(m, k).None?)
  {
    var m := [("type", JString(t)), (k, v)];
    assert Keys(m) == ["type"] + Keys(m[1..]);
    assert Keys(m[1..]) == [k] + Keys(m[2..]);
    assert Keys(m) == ["type", k];
    assert IndexOf(m, k) == Some(1);
  }

  /** The shape of the smallest test document: `type` alone. */
  lemma {:induction false} TypeOnly(t: string)
    ensures var m := [("type", JString(t))];
      && Keys(m) == ["type"] && Distinct(Keys(m)) && KeySet(m) == {"type"}
      && Get(m, "type") == Some(JString(t))
      && (forall k' :: k' != "type" ==> TruthyIndex(m, k').None?)
  {
    var m := [("type", JString(t))];
    assert Keys(m) == ["type"] + Keys(m[1..]);
  }

  /** A mapping of one member passes exactly as its one value does. */
  lemma {:induction false} SingleSchemaMapping(k: string, v: Json)
    ensures ValidateEachValue(JObject([(k, v)]), 0) == ValidateSchema(v)
  {
    var mapping := JObject([(k, v)]);
    assert ValidateEachValue(mapping, 1) == Ok;
  }

  /** `{"type": "string"}` is accepted. */
  lemma StringAlone()
    ensures ValidateSchema(JObject([("type", JString("string"))])) == Ok
  {
    TypeOnly("string");
    Dispatch(JObject([("type", JString("string"))]), StringType);
  }

  /** `{"type": "object"}` alone has no truthy rule keyword, so `assert False` fails. */
  lemma ObjectAlone()
    ensures ValidateSchema(JObject([("type", JString("object"))])) == AssertionFailure
  {
    TypeOnly("object");
    ObjectWithoutTruthyKeyword(JObject([("type", JString("object"))]));
  }

  /** The object validator called on a string node has no rule keyword to
      check, so `assert False` fails: no per-type validator checks the
      node's own `type`. */
  lemma ObjectValidatorIgnoresType()
    ensures ValidateObject(JObject([("type", JString("string"))])) == AssertionFailure
  {
    var m := [("type", JString("string"))];
    TypeOnly("string");
    ObjectBodyFailsAssertion(m);
  }

  /** `additionalProperties: false` is falsy, so nothing is checked and `assert False` fails. */
  lemma ObjectAdditionalPropertiesFalse()
    ensures ValidateSchema(JObject([("type", JString("object")), ("additionalProperties", JBool(false))]))
            == AssertionFailure
  {
    TypedPair("object", "additionalProperties", JBool(false));
    ObjectWithoutTruthyKeyword(JObject([("type", JString("object")), ("additionalProperties", JBool(false))]));
  }

  /** `additionalProperties: true` is accepted. */
  lemma ObjectAdditionalPropertiesTrue()
    ensures ValidateObject(JObject([("type", JString("object")), ("additionalProperties", JBool(true))])) == Ok
  {
    var m := [("type", JString("object")), ("additionalProperties", JBool(true))];
    TypedPair("object", "additionalProperties", JBool(true));
    ObjectBodyChecksAdditionalProperties(m);
  }

  /** `additionalProperties` holding the schema `{"type": "string"}` is accepted. */
  lemma ObjectAdditionalPropertiesSchema()
    ensures ValidateObject(JObject([("type", JString("object")),
                                    ("additionalProperties", JObject([("type", JString("string"))]))])) == Ok
  {
    var nested := JObject([("type", JString("string"))]);
    var m := [("type", JString("object")), ("additionalProperties", nested)];
    TypedPair("object", "additionalProperties", nested);
    ObjectBodyChecksAdditionalProperties(m);
    StringAlone();
  }

  /** A nested `{"type": "object"}` under `additionalProperties` fails its
      own `assert False`, and that failure ends the whole document although
      the outer node has a truthy rule keyword. */
  lemma ObjectNestedAssertionFailure()
    ensures ValidateSchema(JObject([("type", JString("object")),
                                    ("additionalProperties", JObject([("type", JString("object"))]))]))
            == AssertionFailure
  {
    var nested := JObject([("type", JString("object"))]);
    RuleOrderNames();
    SoleRuleDecides(0, "additionalProperties", nested);
    ObjectAlone();
    assert KeywordCheck(0, nested) == ValidateAdditionalProperties(nested);
  }

  /** `additionalProperties: 123` is rejected. */
  lemma ObjectAdditionalPropertiesNumber()
    ensures ValidateObject(JObject([("type", JString("object")), ("additionalProperties", JInt(123))]))
            == ValidationError(BadAdditionalProperties)
  {
    var m := [("type", JString("object")), ("additionalProperties", JInt(123))];
    TypedPair("object", "additionalProperties", JInt(123));
    ObjectBodyChecksAdditionalProperties(m);
  }

  /** `{"type": "string", "minimum": 0}` is rejected, naming `minimum`. */
  lemma StringWithMinimum()
    ensures ValidateSchema(JObject([("type", JString("string")), ("minimum", JInt(0))]))
            == ValidationError(InvalidKeywords({"minimum"}))
  {
    var nested := JObject([("type", JString("string")), ("minimum", JInt(0))]);
    TypedPair("string", "minimum", JInt(0));
    Dispatch(nested, StringType);
    assert KeySet(nested.members) - StringKeywords == {"minimum"};
  }

  /** `properties` whose nested schema carries a keyword its type does not
      allow fails the whole document with the nested failure. */
  lemma ObjectNestedFailure()
    ensures ValidateSchema(JObject([("type", JString("object")),
                                    ("properties", JObject([("name", JObject([("type", JString("string")), ("minimum", JInt(0))]))]))]))
            == ValidationError(InvalidKeywords({"minimum"}))
  {
    var props := JObject([("name", JObject([("type", JString("string")), ("minimum", JInt(0))]))]);
    RuleOrderNames();
    SoleRuleDecides(1, "properties", props);
    PropertiesNestedFailure();
    assert KeywordCheck(1, props) == ValidateProperties(props);
  }

  /** The `properties` check of `{"name": {"type": "string", "minimum": 0}}`
      fails as the nested schema does. */
  lemma PropertiesNestedFailure()
    ensures ValidateProperties(JObject([("name", JObject([("type", JString("string")), ("minimum", JInt(0))]))]))
            == ValidationError(InvalidKeywords({"minimum"}))
  {
    var nested := JObject([("type", JString("string")), ("minimum", JInt(0))]);
    SingleSchemaMapping("name", nested);
    StringWithMinimum();
  }

  /** `patternProperties` mapping `^S_` to a string schema is accepted. */
  lemma ObjectPatternPropertiesSchema()
    ensures ValidateObject(JObject([("type", JString("object")),
                                    ("patternProperties", JObject([("^S_", JObject([("type", JString("string"))]))]))])) == Ok
  {
    var nested := JObject([("type", JString("string"))]);
    var patterns := JObject([("^S_", nested)]);
    var m := [("type", JString("object")), ("patternProperties", patterns)];
    TypedPair("object", "patternProperties", patterns);
    ObjectBodyChecksPatternProperties(m);
    SingleSchemaMapping("^S_", nested);
    StringAlone();
  }

  /** A pattern that is not a valid regular expression (`\z`) is accepted:
      the keys of `patternProperties` are never compiled. */
  lemma ObjectUncompiledPattern()
    ensures ValidateObject(JObject([("type", JString("object")),
                                    ("patternProperties", JObject([("\\z", JObject([("type", JString("string"))]))]))])) == Ok
  {
    var nested := JObject([("type", JString("string"))]);
    var patterns := JObject([("\\z", nested)]);
    var m := [("type", JString("object")), ("patternProperties", patterns)];
    TypedPair("object", "patternProperties", patterns);
    ObjectBodyChecksPatternProperties(m);
    SingleSchemaMapping("\\z", nested);
    StringAlone();
  }

  /** `patternProperties: "a string"` is rejected. */
  lemma ObjectPatternPropertiesString()
    ensures ValidateObject(JObject([("type", JString("object")), ("patternProperties", JString("a string"))]))
            == ValidationError(BadPatternProperties)
  {
    var m := [("type", JString("object")), ("patternProperties", JString("a string"))];
    TypedPair("object", "patternProperties", JString("a string"));
    ObjectBodyChecksPatternProperties(m);
  }

  /** A `patternProperties` value that is not a mapping fails in the nested dispatcher. */
  lemma ObjectPatternPropertiesNonSchema()
    ensures ValidateObject(JObject([("type", JString("object")),
                                    ("patternProperties", JObject([("^S_", JString("a string"))]))]))
            == ValidationError(ExpectedDict)
  {
    var patterns := JObject([("^S_", JString("a string"))]);
    var m := [("type", JString("object")), ("patternProperties", patterns)];
    TypedPair("object", "patternProperties", patterns);
    ObjectBodyChecksPatternProperties(m);
    SingleSchemaMapping("^S_", JString("a string"));
  }

  /** The `propertyNames` check of `{"type": "string", "enum": ["a", "b"]}`
      rejects `enum`. */
  lemma PropertyNamesWithEnum()
    ensures ValidatePropertyNames(JObject([("type", JString("string")), ("enum", JArray([JString("a"), JString("b")]))]))
            == ValidationError(InvalidKeywords({"enum"}))
  {
    var names := JObject([("type", JString("string")), ("enum", JArray([JString("a"), JString("b")]))]);
    TypedPair("string", "enum", JArray([JString("a"), JString("b")]));
    assert GetOr(names.members, "type", JString("string")) == JString("string");
    assert KeySet(names.members) - StringKeywords == {"enum"};
  }

  /** `propertyNames` listing `enum` beside `type: string` is rejected: the
      string whitelist has no `enum`. */
  lemma ObjectPropertyNamesWithEnum()
    ensures ValidateObject(JObject([("type", JString("object")),
                                    ("propertyNames", JObject([("type", JString("string")), ("enum", JArray([JString("a"), JString("b")]))]))]))
            == ValidationError(InvalidKeywords({"enum"}))
  {
    var names := JObject([("type", JString("string")), ("enum", JArray([JString("a"), JString("b")]))]);
    var m := [("type", JString("object")), ("propertyNames", names)];
    TypedPair("object", "propertyNames", names);
    ObjectBodyChecksPropertyNames(m);
    PropertyNamesWithEnum();
  }

  /** The `propertyNames` check of `{"enum": ["a", "b"]}` adds `type: string`
      and still rejects `enum`. */
  lemma PropertyNamesImpliedTypeWithEnum()
    ensures ValidatePropertyNames(JObject([("enum", JArray([JString("a"), JString("b")]))]))
            == ValidationError(InvalidKeywords({"enum"}))
  {
    var names := [("enum", JArray([JString("a"), JString("b")]))];
    assert Keys(names) == ["enum"] + Keys(names[1..]);
    assert "type" !in Keys(names);
    var copy := WithImpliedType(names);
    assert Keys(copy) == ["enum", "type"];
    assert KeySet(copy) == {"enum", "type"};
    assert KeySet(copy) - StringKeywords == {"enum"};
  }

  /** `propertyNames` without `type` is checked with `type: string` added,
      and `enum` is still rejected. */
  lemma ObjectPropertyNamesImpliedTypeWithEnum()
    ensures ValidateObject(JObject([("type", JString("object")),
                                    ("propertyNames", JObject([("enum", JArray([JString("a"), JString("b")]))]))]))
            == ValidationError(InvalidKeywords({"enum"}))
  {
    var names := JObject([("enum", JArray([JString("a"), JString("b")]))]);
    var m := [("type", JString("object")), ("propertyNames", names)];
    TypedPair("object", "propertyNames", names);
    ObjectBodyChecksPropertyNames(m);
    PropertyNamesImpliedTypeWithEnum();
  }

  /** `propertyNames` declaring type boolean is rejected. */
  lemma ObjectPropertyNamesBoolean()
    ensures ValidateObject(JObject([("type", JString("object")),
                                    ("propertyNames", JObject([("type", JString("boolean"))]))]))
            == ValidationError(BadPropertyNames)
  {
    var names := JObject([("type", JString("boolean"))]);
    var m := [("type", JString("object")), ("propertyNames", names)];
    TypedPair("object", "propertyNames", names);
    ObjectBodyChecksPropertyNames(m);
    TypeOnly("boolean");
    assert JString("boolean") != JString("string");
  }

  /** `maxProperties: 999` is accepted. */
  lemma ObjectMaxProperties()
    ensures ValidateObject(JObject([("type", JString("object")), ("maxProperties", JInt(999))])) == Ok
  {
    var m := [("type", JString("object")), ("maxProperties", JInt(999))];
    TypedPair("object", "maxProperties", JInt(999));
    ObjectBodyChecksMaxProperties(m);
  }

  /** `maxProperties: true` is accepted: a Python `bool` is the integer 1. */
  lemma ObjectMaxPropertiesTrue()
    ensures ValidateObject(JObject([("type", JString("object")), ("maxProperties", JBool(true))])) == Ok
  {
    var m := [("type", JString("object")), ("maxProperties", JBool(true))];
    TypedPair("object", "maxProperties", JBool(true));
    ObjectBodyChecksMaxProperties(m);
  }

  /** `maxProperties: "999"` is rejected. */
  lemma ObjectMaxPropertiesString()
    ensures ValidateObject(JObject([("type", JString("object")), ("maxProperties", JString("999"))]))
            == ValidationError(BadMaxProperties)
  {
    var m := [("type", JString("object")), ("maxProperties", JString("999"))];
    TypedPair("object", "maxProperties", JString("999"));
    ObjectBodyChecksMaxProperties(m);
  }

  /** `maxProperties: -1` is rejected. */
  lemma ObjectMaxPropertiesNegative()
    ensures ValidateObject(JObject([("type", JString("object")), ("maxProperties", JInt(-1))]))
            == ValidationError(BadMaxProperties)
  {
    var m := [("type", JString("object")), ("maxProperties", JInt(-1))];
    TypedPair("object", "maxProperties", JInt(-1));
    ObjectBodyChecksMaxProperties(m);
  }

  /** `minProperties: 1` is accepted. */
  lemma ObjectMinProperties()
    ensures ValidateObject(JObject([("type", JString("object")), ("minProperties", JInt(1))])) == Ok
  {
    var m := [("type", JString("object")), ("minProperties", JInt(1))];
    TypedPair("object", "minProperties", JInt(1));
    ObjectBodyChecksMinProperties(m);
  }

  /** `minProperties: "1"` is rejected. */
  lemma ObjectMinPropertiesString()
    ensures ValidateObject(JObject([("type", JString("object")), ("minProperties", JString("1"))]))
            == ValidationError(BadMinProperties)
  {
    var m := [("type", JString("object")), ("minProperties", JString("1"))];
    TypedPair("object", "minProperties", JString("1"));
    ObjectBodyChecksMinProperties(m);
  }

  /** `minProperties: -1` is rejected. */
  lemma ObjectMinPropertiesNegative()
    ensures ValidateObject(JObject([("type", JString("object")), ("minProperties", JInt(-1))]))
            == ValidationError(BadMinProperties)
  {
    var m := [("type", JString("object")), ("minProperties", JInt(-1))];
    TypedPair("object", "minProperties", JInt(-1));
    ObjectBodyChecksMinProperties(m);
  }

  /** `required: ["foo"]` is accepted. */
  lemma ObjectRequired()
    ensures ValidateObject(JObject([("type", JString("object")), ("required", JArray([JString("foo")]))])) == Ok
  {
    var m := [("type", JString("object")), ("required", JArray([JString("foo")]))];
    TypedPair("object", "required", JArray([JString("foo")]));
    ObjectBodyChecksRequired(m);
    assert ValidateRequired(JArray([JString("foo")])) == Ok;
    assert ValidateObject(JObject(m)) == ObjectBody(JObject(m));
  }

  /** `required: "foo"` is rejected. */
  lemma ObjectRequiredString()
    ensures ValidateObject(JObject([("type", JString("object")), ("required", JString("foo"))]))
            == ValidationError(BadRequired)
  {
    var m := [("type", JString("object")), ("required", JString("foo"))];
    TypedPair("object", "required", JString("foo"));
    ObjectBodyChecksRequired(m);
  }

  /** A bad `required` after a truthy `maxProperties` goes unchecked. */
  lemma ObjectLaterKeywordUnchecked()
    ensures ValidateSchema(JObject([("type", JString("object")), ("maxProperties", JInt(5)), ("required", JString("foo"))]))
            == Ok
  {
    RuleOrderNames();
    FirstRuleDecides(4, "maxProperties", JInt(5), 6, "required", JString("foo"));
    assert KeywordCheck(4, JInt(5)) == Ok by {
      assert KeywordCheck(4, JInt(5)) == ValidateMaxProperties(JInt(5));
    }
  }

  /** Of two rule keywords, the one earlier in rule order alone decides an
      object node when its value is truthy. */
  lemma {:induction false} FirstRuleDecides(n: nat, k1: string, v1: Json, n2: nat, k2: string, v2: Json)
    requires n < n2 < |ObjectRuleOrder| && k1 == ObjectRuleOrder[n] && k2 == ObjectRuleOrder[n2] && Truthy(v1)
    ensures ValidateSchema(JObject([("type", JString("object")), (k1, v1), (k2, v2)])) == KeywordCheck(n, v1)
  {
    var m := [("type", JString("object")), (k1, v1), (k2, v2)];
    RuleTriple("object", n, v1, n2, v2);
    ObjectChecksFirstTruthyKeyword(JObject(m), n);
  }

  /** A truthy rule keyword alone decides an object node. */
  lemma {:induction false} SoleRuleDecides(n: nat, k: string, v: Json)
    requires n < |ObjectRuleOrder| && k == ObjectRuleOrder[n] && Truthy(v)
    ensures ValidateSchema(JObject([("type", JString("object")), (k, v)])) == KeywordCheck(n, v)
  {
    var m := [("type", JString("object")), (k, v)];
    RuleKeywordsDistinct();
    TypedPair("object", k, v);
    assert KeySet(m) <= ObjectKeywords;
    forall p | 0 <= p < n
      ensures TruthyIndex(m, ObjectRuleOrder[p]).None?
    {
      assert ObjectRuleOrder[p] != k;
    }
    ObjectChecksFirstTruthyKeyword(JObject(m), n);
  }

  /** The rule keywords are distinct object keywords other than `"type"`. */
  lemma RuleKeywordsDistinct()
    ensures forall p, q :: 0 <= p < q < |ObjectRuleOrder| ==> ObjectRuleOrder[p] != ObjectRuleOrder[q]
    ensures forall p :: 0 <= p < |ObjectRuleOrder| ==> ObjectRuleOrder[p] != "type" && ObjectRuleOrder[p] in ObjectKeywords
    ensures "type" in ObjectKeywords
  {
  }

  /** The shape of an object test document: `type` followed by two rule
      keywords in rule order, the first of them truthy. */
  lemma {:induction false} RuleTriple(t: string, n: nat, v1: Json, n2: nat, v2: Json)
    requires n < n2 < |ObjectRuleOrder| && Truthy(v1)
    ensures var m := [("type", JString(t)), (ObjectRuleOrder[n], v1), (ObjectRuleOrder[n2], v2)];
      && Get(m, "type") == Some(JString(t))
      && KeywordGuard(ObjectKeywords, m).Ok?
      && (forall p :: 0 <= p < n ==> TruthyIndex(m, ObjectRuleOrder[p]).None?)
      && TruthyIndex(m, ObjectRuleOrder[n]) == Some(1)
  {
    var k1, k2 := ObjectRuleOrder[n], ObjectRuleOrder[n2];
    RuleKeywordsDistinct();
    TypedTriple(t, k1, v1, k2, v2);
    var m := [("type", JString(t)), (k1, v1), (k2, v2)];
    assert KeySet(m) <= ObjectKeywords;
    forall p | 0 <= p < n
      ensures TruthyIndex(m, ObjectRuleOrder[p]).None?
    {
      assert ObjectRuleOrder[p] != k1 && ObjectRuleOrder[p] != k2;
    }
  }

  /** The shape of a test document: `type` followed by two keywords. */
  lemma {:induction false} TypedTriple(t: string, k1: string, v1: Json, k2: string, v2: Json)
    requires k1 != "type" && k2 != "type" && k1 != k2
    ensures var m := [("type", JString(t)), (k1, v1), (k2, v2)];
      && Keys(m) == ["type", k1, k2] && Distinct(Keys(m)) && KeySet(m) == {"type", k1, k2}
      && Get(m, "type") == Some(JString(t))
      && (forall k' :: k' != "type" && k' != k1 && k' != k2 ==> TruthyIndex(m, k').None?)
      && (Truthy(v1) ==> TruthyIndex(m, k1) == Some(1))
  {
    var m := [("type", JString(t)), (k1, v1), (k2, v2)];
    assert Keys(m) == ["type"] + Keys(m[1..]);
    assert Keys(m[1..]) == [k1] + Keys(m[2..]);
    assert Keys(m[2..]) == [k2] + Keys(m[3..]);
    assert Keys(m) == ["type", k1, k2];
    DistinctPairwise(["type", k1, k2]);
    assert IndexOf(m, k1) == Some(1);
  }

  /** `{"type": "integer"}` is accepted. */
  lemma IntegerAlone()
    ensures Validate(JObject([("type", JString("integer"))])) == Ok
  {
    TypeOnly("integer");
    Dispatch(JObject([("type", JString("integer"))]), IntegerType);
  }

  /** `{"type": "integer", "minimum": 0, "maximum": 1}` is accepted. */
  lemma IntegerWithBounds()
    ensures Validate(JObject([("type", JString("integer")), ("minimum", JInt(0)), ("maximum", JInt(1))])) == Ok
  {
    var m := [("type", JString("integer")), ("minimum", JInt(0)), ("maximum", JInt(1))];
    assert Keys(m) == ["type", "minimum", "maximum"];
    assert Get(m, "type") == Some(JString("integer"));
    WhitelistOnlyTypes(JObject(m), IntegerType);
  }

  /** `{"type": "integer", "minimumm": 0}` is rejected, naming the misspelled keyword. */
  lemma IntegerMisspelledKeyword()
    ensures Validate(JObject([("type", JString("integer")), ("minimumm", JInt(0))]))
            == ValidationError(InvalidKeywords({"minimumm"}))
  {
    var m := [("type", JString("integer")), ("minimumm", JInt(0))];
    TypedPair("integer", "minimumm", JInt(0));
    UnknownKeywordRejected(JObject(m), IntegerType, "minimumm");
    assert KeySet(m) - IntegerKeywords == {"minimumm"};
  }

  /** A number node with a string `maximum` and a negative `multipleOf` is
      accepted: only the keyword names are checked. */
  lemma NumberAnyValues()
    ensures ValidateNumber(JObject([("type", JString("number")), ("maximum", JString("a string")), ("multipleOf", JInt(-2))]))
            == Ok
  {
    var m := [("type", JString("number")), ("maximum", JString("a string")), ("multipleOf", JInt(-2))];
    assert Keys(m) == ["type"] + Keys(m[1..]);
    assert Keys(m[1..]) == ["maximum"] + Keys(m[2..]);
    assert Keys(m) == ["type", "maximum", "multipleOf"];
    assert KeySet(m) == {"type", "maximum", "multipleOf"};
  }

  /** A misspelled number keyword is rejected, naming it. */
  lemma NumberMisspelledKeyword()
    ensures ValidateNumber(JObject([("type", JString("number")), ("minimummmmm", JInt(123))]))
            == ValidationError(InvalidKeywords({"minimummmmm"}))
  {
    var m := [("type", JString("number")), ("minimummmmm", JInt(123))];
    TypedPair("number", "minimummmmm", JInt(123));
    assert KeySet(m) - NumberKeywords == {"minimummmmm"};
  }

  /** The number validator called on a boolean node accepts it: no per-type
      validator checks the node's own `type`. */
  lemma NumberValidatorIgnoresType()
    ensures ValidateNumber(JObject([("type", JString("boolean"))])) == Ok
  {
    TypeOnly("boolean");
  }

  /** The boolean validator accepts `{"type": "boolean"}`. */
  lemma BooleanAlone()
    ensures ValidateBoolean(JObject([("type", JString("boolean"))])) == Ok
  {
    TypeOnly("boolean");
  }

  /** The boolean validator called on an integer node accepts it. */
  lemma BooleanValidatorIgnoresType()
    ensures ValidateBoolean(JObject([("type", JString("integer"))])) == Ok
  {
    TypeOnly("integer");
  }

  /** A list is not a schema. */
  lemma NotAMapping()
    ensures ValidateSchema(JArray([])) == ValidationError(ExpectedDict)
  {
  }

  /** A mapping without `type` is rejected. */
  lemma MissingTypeKeyword()
    ensures ValidateSchema(JObject([("title", JString("x"))])) == ValidationError(MissingType)
  {
    assert Keys([("title", JString("x"))]) == ["title"];
  }

  /** An unknown type name is rejected. */
  lemma UnknownTypeName()
    ensures ValidateSchema(JObject([("type", JString("float"))])) == ValidationError(InvalidType)
  {
    TypeOnly("float");
    InvalidTypeRejected(JObject([("type", JString("float"))]));
  }
}
