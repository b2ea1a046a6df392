/** A declarative account of which schema documents the checker accepts,
    written with quantifiers over members and a closed enumeration of type
    tags instead of the checker's `if`/`elif` chains and loops, and the
    theorem that the two agree on every document. */
module WellFormedness {
  import opened JsonValue
  import opened Validator

  /** The seven values the `"type"` keyword may take. */
  datatype TypeTag = ObjectType | ArrayType | StringType | NumberType | IntegerType | BooleanType | NullType

  function TagName(t: TypeTag): string {
    match t
    case ObjectType => "object"
    case ArrayType => "array"
    case StringType => "string"
    case NumberType => "number"
    case IntegerType => "integer"
    case BooleanType => "boolean"
    case NullType => "null"
  }

  /** The keywords `valid_keywords` admits for each type. */
  function Whitelist(t: TypeTag): set<string> {
    match t
    case ObjectType => ObjectKeywords
    case ArrayType => ArrayKeywords
    case StringType => StringKeywords
    case NumberType => NumberKeywords
    case IntegerType => IntegerKeywords
    case BooleanType => BooleanKeywords
    case NullType => NullKeywords
  }

  /** The object keywords with a value rule, in the order they are tried. */
  const ObjectRuleOrder: seq<string> :=
    ["additionalProperties", "properties", "patternProperties", "propertyNames",
     "maxProperties", "minProperties", "required"]

  /** The rule keywords by position. */
  lemma RuleOrderNames()
    ensures && ObjectRuleOrder[0] == "additionalProperties" && ObjectRuleOrder[1] == "properties"
            && ObjectRuleOrder[2] == "patternProperties" && ObjectRuleOrder[3] == "propertyNames"
            && ObjectRuleOrder[4] == "maxProperties" && ObjectRuleOrder[5] == "minProperties"
            && ObjectRuleOrder[6] == "required"
  { }

  /** Some member of `m` is `"type"` with the name of `t` as its value. */
  predicate Declares(m: Members, t: TypeTag) {
    exists i :: 0 <= i < |m| && m[i] == ("type", JString(TagName(t)))
  }

  /** The key `k` has a truthy value in `m`. */
  predicate TruthyKey(m: Members, k: string) {
    exists q :: 0 <= q < |m| && m[q].0 == k && Truthy(m[q].1)
  }

  /** A schema node is well formed when it is a mapping without repeated
      keys that declares one of the seven types, uses only that type's
      keywords and, for an object, satisfies the object keyword rules. */
  predicate WellFormed(j: Json)
    decreases j, 2
  {
    && j.JObject?
    && Distinct(Keys(j.members))
    && exists t :: Declares(j.members, t) && KeySet(j.members) <= Whitelist(t) &&
         (t == ObjectType ==> ObjectRulesHold(j))
  }

  /** Some rule keyword has a truthy value, no earlier one in the order has,
      and that value satisfies the keyword's rule. */
  predicate ObjectRulesHold(j: Json)
    requires j.JObject?
    decreases j, 1
  {
    var m := j.members;
    exists n, i :: 0 <= n < |ObjectRuleOrder| && 0 <= i < |m| &&
      m[i].0 == ObjectRuleOrder[n] && Truthy(m[i].1) &&
      (forall p :: 0 <= p < n ==> !TruthyKey(m, ObjectRuleOrder[p])) &&
      RuleHolds(n, m[i].1)
  }

  /** What the rule keyword at position `n` of `ObjectRuleOrder` demands of
      its (truthy) value. */
  predicate RuleHolds(n: nat, v: Json)
    decreases v, 4
  {
    match n
    case 0 => AdditionalPropertiesRule(v)
    case 1 => SchemaMappingRule(v)
    case 2 => SchemaMappingRule(v)
    case 3 => PropertyNamesRule(v)
    case 4 => PositiveIntRule(v)
    case 5 => PositiveIntRule(v)
    case 6 => RequiredRule(v)
    case _ => false
  }

  /** `additionalProperties`: a boolean or a well-formed schema. */
  predicate AdditionalPropertiesRule(v: Json)
    decreases v, 3
  {
    v.JBool? || WellFormed(v)
  }

  /** `properties` and `patternProperties`: a mapping to well-formed schemas. */
  predicate SchemaMappingRule(v: Json)
    decreases v, 3
  {
    v.JObject? && forall i :: 0 <= i < |v.members| ==> WellFormed(v.members[i].1)
  }

  /** `propertyNames`: a mapping whose `"type"`, if any, is `"string"`, and
      that the string validator accepts. */
  predicate PropertyNamesRule(v: Json) {
    && v.JObject?
    && (forall i :: 0 <= i < |v.members| && v.members[i].0 == "type" ==> v.members[i].1 == JString("string"))
    && Distinct(Keys(v.members))
    && KeySet(v.members) <= StringKeywords
  }

  /** `maxProperties` and `minProperties`: an integer (or boolean) of at least 1. */
  predicate PositiveIntRule(v: Json) {
    IsInt(v) && IntValue(v) >= 1
  }

  /** `required`: a list of strings. */
  predicate RequiredRule(v: Json) {
    v.JArray? && forall i :: 0 <= i < |v.items| ==> v.items[i].JString?
  }

  /** The validator each type tag routes to. */
  function ValidatorFor(t: TypeTag, schema: Json): Outcome
    requires schema.JObject?
  {
    match t
    case ObjectType => ValidateObject(schema)
    case ArrayType => ValidateArray(schema)
    case StringType => ValidateString(schema)
    case NumberType => ValidateNumber(schema)
    case IntegerType => ValidateInteger(schema)
    case BooleanType => ValidateBoolean(schema)
    case NullType => ValidateNull(schema)
  }

  /** A node whose `"type"` names a tag gets exactly the outcome of that
      tag's validator. */
  lemma Dispatch(j: Json, t: TypeTag)
    requires j.JObject? && Get(j.members, "type") == Some(JString(TagName(t)))
    ensures ValidateSchema(j) == ValidatorFor(t, j)
  {
    match t
    case ObjectType =>
    case ArrayType =>
      assert JString("array") != JString("object");
    case StringType =>
      assert JString("string") != JString("object");
      assert JString("string") != JString("array");
    case NumberType =>
      assert JString("number") != JString("object");
      assert JString("number") != JString("array");
      assert JString("number") != JString("string");
    case IntegerType =>
      assert JString("integer") != JString("object");
      assert JString("integer") != JString("array");
      assert JString("integer") != JString("string");
      assert JString("integer") != JString("number");
    case BooleanType =>
      assert JString("boolean") != JString("object");
      assert JString("boolean") != JString("array");
      assert JString("boolean") != JString("string");
      assert JString("boolean") != JString("number");
      assert JString("boolean") != JString("integer");
    case NullType =>
      assert JString("null") != JString("object");
      assert JString("null") != JString("array");
      assert JString("null") != JString("string");
      assert JString("null") != JString("number");
      assert JString("null") != JString("integer");
      assert JString("null") != JString("boolean");
  }

  /** Every type's validator is `valid_keywords` with that type's whitelist
      around the type's body: the object rules for an object, nothing for
      the other six. */
  lemma ValidatorIsGuarded(t: TypeTag, j: Json)
    requires j.JObject?
    ensures ValidatorFor(t, j) == Guarded(Whitelist(t), j.members, if t == ObjectType then ObjectBody(j) else Ok)
  {
    match t
    case ObjectType => assert ValidatorFor(t, j) == ValidateObject(j);
    case ArrayType => assert ValidatorFor(t, j) == ValidateArray(j);
    case StringType => assert ValidatorFor(t, j) == ValidateString(j);
    case NumberType => assert ValidatorFor(t, j) == ValidateNumber(j);
    case IntegerType => assert ValidatorFor(t, j) == ValidateInteger(j);
    case BooleanType => assert ValidatorFor(t, j) == ValidateBoolean(j);
    case NullType => assert ValidatorFor(t, j) == ValidateNull(j);
  }

  /** A node whose `"type"` names no tag is rejected as an invalid type. */
  lemma InvalidTypeRejected(j: Json)
    requires j.JObject? && Get(j.members, "type").Some?
    requires forall t :: Get(j.members, "type").value != JString(TagName(t))
    ensures ValidateSchema(j) == ValidationError(InvalidType)
  {
    NamesNoTag(Get(j.members, "type").value);
  }

  /** A value that is the name of no tag is none of the seven names. */
  lemma NamesNoTag(v: Json)
    requires forall t :: v != JString(TagName(t))
    ensures && v != JString("object") && v != JString("array") && v != JString("string")
            && v != JString("number") && v != JString("integer") && v != JString("boolean")
            && v != JString("null")
  {
    assert v != JString(TagName(ObjectType));
    assert v != JString(TagName(ArrayType));
    assert v != JString(TagName(StringType));
    assert v != JString(TagName(NumberType));
    assert v != JString(TagName(IntegerType));
    assert v != JString(TagName(BooleanType));
    assert v != JString(TagName(NullType));
  }

  /** Without repeated keys, a node declares a tag exactly when its
      `"type"` lookup finds that tag's name. */
  lemma {:induction false} DeclaresIffGet(m: Members, t: TypeTag)
    requires Distinct(Keys(m))
    ensures Declares(m, t) <==> Get(m, "type") == Some(JString(TagName(t)))
  {
    if Declares(m, t) {
      var i :| 0 <= i < |m| && m[i] == ("type", JString(TagName(t)));
      IndexOfDistinct(m, i);
    }
    if Get(m, "type") == Some(JString(TagName(t))) {
      var i := IndexOf(m, "type").value;
      assert m[i] == ("type", JString(TagName(t)));
    }
  }

  /** Without repeated keys, `TruthyKey` is the `schema.get(k)` test. */
  lemma {:induction false} TruthyKeyIffIndex(m: Members, k: string)
    requires Distinct(Keys(m))
    ensures TruthyKey(m, k) <==> TruthyIndex(m, k).Some?
    ensures forall q :: 0 <= q < |m| && m[q].0 == k ==> TruthyIndex(m, k) == (if Truthy(m[q].1) then Some(q) else None)
  {
    forall q | 0 <= q < |m| && m[q].0 == k
      ensures TruthyIndex(m, k) == (if Truthy(m[q].1) then Some(q) else None)
    {
      IndexOfDistinct(m, q);
    }
    if TruthyIndex(m, k).Some? {
      var i := IndexOf(m, k).value;
      assert m[i].0 == k && Truthy(m[i].1);
    }
  }

  /** When rule keyword number `n` is the first with a truthy value, found at
      member `i`, the object rules hold exactly when its rule does. */
  lemma {:induction false} ObjectRulesAt(j: Json, n: nat, i: nat)
    requires j.JObject? && Distinct(Keys(j.members))
    requires n < |ObjectRuleOrder| && i < |j.members|
    requires j.members[i].0 == ObjectRuleOrder[n] && Truthy(j.members[i].1)
    requires forall p :: 0 <= p < n ==> !TruthyKey(j.members, ObjectRuleOrder[p])
    ensures ObjectRulesHold(j) <==> RuleHolds(n, j.members[i].1)
  {
    var m := j.members;
    if ObjectRulesHold(j) {
      var n', i' :| 0 <= n' < |ObjectRuleOrder| && 0 <= i' < |m| &&
        m[i'].0 == ObjectRuleOrder[n'] && Truthy(m[i'].1) &&
        (forall p :: 0 <= p < n' ==> !TruthyKey(m, ObjectRuleOrder[p])) &&
        RuleHolds(n', m[i'].1);
      if n' < n {
        assert TruthyKey(m, ObjectRuleOrder[n']);
      } else if n < n' {
        assert TruthyKey(m, ObjectRuleOrder[n]);
      }
      assert n' == n;
      IndexOfDistinct(m, i);
      IndexOfDistinct(m, i');
    }
  }

  lemma TagNameInjective(t: TypeTag, t': TypeTag)
    requires JString(TagName(t)) == JString(TagName(t'))
    ensures t == t'
  {
  }

  /** For a node that declares `t`, well-formedness is `t`'s whitelist and,
      for an object, the object rules. */
  lemma {:induction false} WellFormedAt(j: Json, t: TypeTag)
    requires j.JObject? && Distinct(Keys(j.members)) && Declares(j.members, t)
    ensures WellFormed(j) <==>
              KeySet(j.members) <= Whitelist(t) && (t == ObjectType ==> ObjectRulesHold(j))
  {
    if WellFormed(j) {
      var t' :| Declares(j.members, t') && KeySet(j.members) <= Whitelist(t') &&
                (t' == ObjectType ==> ObjectRulesHold(j));
      DeclaresIffGet(j.members, t);
      DeclaresIffGet(j.members, t');
      TagNameInjective(t, t');
    }
  }

  /** The checker accepts a schema node exactly when it is well formed. */
  lemma {:induction false} ValidateSchemaIffWellFormed(j: Json)
    ensures ValidateSchema(j).Ok? <==> WellFormed(j)
    decreases j, 2
  {
    if !j.JObject? || !Distinct(Keys(j.members)) || "type" !in Keys(j.members) {
      UntypedRejected(j);
    } else if t :| Get(j.members, "type").value == JString(TagName(t)) {
      DeclaredTypeIffWellFormed(j, t);
    } else {
      UnknownTypeRejected(j);
    }
  }

  /** A node that is no mapping, repeats a key or has no `"type"` is
      neither accepted nor well formed. */
  lemma {:induction false} UntypedRejected(j: Json)
    requires !j.JObject? || !Distinct(Keys(j.members)) || "type" !in Keys(j.members)
    ensures !ValidateSchema(j).Ok? && !WellFormed(j)
  {
    if WellFormed(j) {
      var t :| Declares(j.members, t);
      DeclaresIffGet(j.members, t);
    }
  }

  /** A node whose `"type"` names no tag is neither accepted nor well formed. */
  lemma {:induction false} UnknownTypeRejected(j: Json)
    requires j.JObject? && Distinct(Keys(j.members)) && "type" in Keys(j.members)
    requires forall t :: Get(j.members, "type").value != JString(TagName(t))
    ensures !ValidateSchema(j).Ok? && !WellFormed(j)
  {
    InvalidTypeRejected(j);
    if WellFormed(j) {
      var t :| Declares(j.members, t);
      DeclaresIffGet(j.members, t);
    }
  }

  /** A node that declares `t` is accepted exactly when it is well formed. */
  lemma {:induction false} DeclaredTypeIffWellFormed(j: Json, t: TypeTag)
    requires j.JObject? && Distinct(Keys(j.members))
    requires Get(j.members, "type") == Some(JString(TagName(t)))
    ensures ValidateSchema(j).Ok? <==> WellFormed(j)
    decreases j, 1
  {
    Dispatch(j, t);
    ValidatorIsGuarded(t, j);
    DeclaresIffGet(j.members, t);
    WellFormedAt(j, t);
    if t == ObjectType {
      ObjectBodyIffRules(j);
    }
  }

  /** The check the object body makes for the rule keyword at position `n`. */
  function KeywordCheck(n: nat, v: Json): Outcome {
    match n
    case 0 => ValidateAdditionalProperties(v)
    case 1 => ValidateProperties(v)
    case 2 => ValidatePatternProperties(v)
    case 3 => ValidatePropertyNames(v)
    case 4 => ValidateMaxProperties(v)
    case 5 => ValidateMinProperties(v)
    case 6 => ValidateRequired(v)
    case _ => AssertionFailure
  }

  lemma ObjectBodyChecksAdditionalProperties(m: Members)
    requires TruthyIndex(m, "additionalProperties").Some?
    ensures ObjectBody(JObject(m)) == ValidateAdditionalProperties(m[TruthyIndex(m, "additionalProperties").value].1)
  {
  }

  lemma ObjectBodyChecksProperties(m: Members)
    requires TruthyIndex(m, "additionalProperties").None?
    requires TruthyIndex(m, "properties").Some?
    ensures ObjectBody(JObject(m)) == ValidateProperties(m[TruthyIndex(m, "properties").value].1)
  {
  }

  lemma ObjectBodyChecksPatternProperties(m: Members)
    requires TruthyIndex(m, "additionalProperties").None?
    requires TruthyIndex(m, "properties").None?
    requires TruthyIndex(m, "patternProperties").Some?
    ensures ObjectBody(JObject(m)) == ValidatePatternProperties(m[TruthyIndex(m, "patternProperties").value].1)
  {
  }

  lemma ObjectBodyChecksPropertyNames(m: Members)
    requires TruthyIndex(m, "additionalProperties").None?
    requires TruthyIndex(m, "properties").None?
    requires TruthyIndex(m, "patternProperties").None?
    requires TruthyIndex(m, "propertyNames").Some?
    ensures ObjectBody(JObject(m)) == ValidatePropertyNames(m[TruthyIndex(m, "propertyNames").value].1)
  {
  }

  lemma ObjectBodyChecksMaxProperties(m: Members)
    requires TruthyIndex(m, "additionalProperties").None?
    requires TruthyIndex(m, "properties").None?
    requires TruthyIndex(m, "patternProperties").None?
    requires TruthyIndex(m, "propertyNames").None?
    requires TruthyIndex(m, "maxProperties").Some?
    ensures ObjectBody(JObject(m)) == ValidateMaxProperties(m[TruthyIndex(m, "maxProperties").value].1)
  {
  }

  lemma ObjectBodyChecksMinProperties(m: Members)
    requires TruthyIndex(m, "additionalProperties").None?
    requires TruthyIndex(m, "properties").None?
    requires TruthyIndex(m, "patternProperties").None?
    requires TruthyIndex(m, "propertyNames").None?
    requires TruthyIndex(m, "maxProperties").None?
    requires TruthyIndex(m, "minProperties").Some?
    ensures ObjectBody(JObject(m)) == ValidateMinProperties(m[TruthyIndex(m, "minProperties").value].1)
  {
  }

  lemma ObjectBodyChecksRequired(m: Members)
    requires TruthyIndex(m, "additionalProperties").None?
    requires TruthyIndex(m, "properties").None?
    requires TruthyIndex(m, "patternProperties").None?
    requires TruthyIndex(m, "propertyNames").None?
    requires TruthyIndex(m, "maxProperties").None?
    requires TruthyIndex(m, "minProperties").None?
    requires TruthyIndex(m, "required").Some?
    ensures ObjectBody(JObject(m)) == ValidateRequired(m[TruthyIndex(m, "required").value].1)
  {
  }

  /** With no rule keyword truthy, the object body ends in `assert False`. */
  lemma ObjectBodyFailsAssertion(m: Members)
    requires TruthyIndex(m, "additionalProperties").None?
    requires TruthyIndex(m, "properties").None?
    requires TruthyIndex(m, "patternProperties").None?
    requires TruthyIndex(m, "propertyNames").None?
    requires TruthyIndex(m, "maxProperties").None?
    requires TruthyIndex(m, "minProperties").None?
    requires TruthyIndex(m, "required").None?
    ensures ObjectBody(JObject(m)) == AssertionFailure
  {
  }

  /** When the rule keyword at position `n` is the first whose value is
      truthy, the object body's outcome is that keyword's check alone. */
  lemma {:induction false} ObjectBodyRunsFirstTruthy(m: Members, n: nat)
    requires n < |ObjectRuleOrder|
    requires forall p :: 0 <= p < n ==> TruthyIndex(m, ObjectRuleOrder[p]).None?
    requires TruthyIndex(m, ObjectRuleOrder[n]).Some?
    ensures ObjectBody(JObject(m)) == KeywordCheck(n, m[TruthyIndex(m, ObjectRuleOrder[n]).value].1)
  {
    RuleOrderNames();
    match n
    case 0 =>
      ObjectBodyChecksAdditionalProperties(m);
    case 1 =>
      ObjectBodyChecksProperties(m);
    case 2 =>
      ObjectBodyChecksPatternProperties(m);
    case 3 =>
      ObjectBodyChecksPropertyNames(m);
    case 4 =>
      ObjectBodyChecksMaxProperties(m);
    case 5 =>
      ObjectBodyChecksMinProperties(m);
    case 6 =>
      ObjectBodyChecksRequired(m);
  }

  /** The body of the object validator succeeds exactly when the object
      rules hold. */
  lemma {:induction false} ObjectBodyIffRules(j: Json)
    requires j.JObject? && Distinct(Keys(j.members))
    ensures ObjectBody(j).Ok? <==> ObjectRulesHold(j)
    decreases j, 0
  {
    var m := j.members;
    forall n | 0 <= n < |ObjectRuleOrder|
      ensures TruthyKey(m, ObjectRuleOrder[n]) <==> TruthyIndex(m, ObjectRuleOrder[n]).Some?
    {
      TruthyKeyIffIndex(m, ObjectRuleOrder[n]);
    }
    var n := 0;
    while n < |ObjectRuleOrder| && TruthyIndex(m, ObjectRuleOrder[n]).None?
      invariant n <= |ObjectRuleOrder|
      invariant forall p :: 0 <= p < n ==> TruthyIndex(m, ObjectRuleOrder[p]).None?
    {
      n := n + 1;
    }
    if n < |ObjectRuleOrder| {
      var i := TruthyIndex(m, ObjectRuleOrder[n]).value;
      ObjectBodyRunsFirstTruthy(m, n);
      ObjectRulesAt(j, n, i);
      KeywordCheckIffRule(n, m[i].1);
    } else {
      NoTruthyRuleKeyword(j);
    }
  }

  /** With no rule keyword truthy, the body fails and the rules do not hold. */
  lemma {:induction false} NoTruthyRuleKeyword(j: Json)
    requires j.JObject?
    requires forall p :: 0 <= p < |ObjectRuleOrder| ==> TruthyIndex(j.members, ObjectRuleOrder[p]).None?
    requires forall p :: 0 <= p < |ObjectRuleOrder| ==>
               (TruthyKey(j.members, ObjectRuleOrder[p]) <==> TruthyIndex(j.members, ObjectRuleOrder[p]).Some?)
    ensures ObjectBody(j) == AssertionFailure && !ObjectRulesHold(j)
  {
    var m := j.members;
    RuleOrderNames();
    ObjectBodyFailsAssertion(m);
    if ObjectRulesHold(j) {
      var n', i :| 0 <= n' < |ObjectRuleOrder| && 0 <= i < |m| &&
        m[i].0 == ObjectRuleOrder[n'] && Truthy(m[i].1);
      assert TruthyKey(m, ObjectRuleOrder[n']);
    }
  }

  /** Each keyword check succeeds exactly when that keyword's rule holds. */
  lemma {:induction false} KeywordCheckIffRule(n: nat, v: Json)
    requires n < |ObjectRuleOrder|
    ensures KeywordCheck(n, v).Ok? <==> RuleHolds(n, v)
    decreases v, 4
  {
    match n
    case 0 =>
      AdditionalPropertiesIffRule(v);
    case 1 =>
      if v.JObject? {
        EachValueIffAllWellFormed(v);
      }
    case 2 =>
      if v.JObject? {
        EachValueIffAllWellFormed(v);
      }
    case 3 =>
      PropertyNamesIffRule(v);
    case 4 =>
    case 5 =>
    case 6 =>
  }

  lemma {:induction false} AdditionalPropertiesIffRule(v: Json)
    ensures ValidateAdditionalProperties(v).Ok? <==> AdditionalPropertiesRule(v)
    decreases v, 3
  {
    ValidateSchemaIffWellFormed(v);
  }

  lemma {:induction false} EachValueIffAllWellFormed(v: Json)
    requires v.JObject?
    ensures ValidateEachValue(v, 0).Ok? <==> forall i :: 0 <= i < |v.members| ==> WellFormed(v.members[i].1)
    decreases v, 3
  {
    forall i | 0 <= i < |v.members| ensures ValidateSchema(v.members[i].1).Ok? <==> WellFormed(v.members[i].1) {
      ValidateSchemaIffWellFormed(v.members[i].1);
    }
  }

  lemma {:induction false} PropertyNamesIffRule(v: Json)
    ensures ValidatePropertyNames(v).Ok? <==> PropertyNamesRule(v)
  {
    if v.JObject? {
      if "type" !in Keys(v.members) {
        PropertyNamesImpliedType(v.members);
      } else {
        PropertyNamesExplicitType(v.members);
      }
    }
  }

  /** Without `"type"`, the injected copy has the same keys plus `"type"`,
      which the string whitelist admits. */
  lemma {:induction false} PropertyNamesImpliedType(m: Members)
    requires "type" !in Keys(m)
    ensures ValidatePropertyNames(JObject(m)).Ok? <==> PropertyNamesRule(JObject(m))
  {
    var copy := WithImpliedType(m);
    assert ValidatePropertyNames(JObject(m)) == ValidateString(JObject(copy)) by {
      assert GetOr(m, "type", JString("string")) == JString("string");
    }
    assert Distinct(Keys(copy)) <==> Distinct(Keys(m)) by {
      DistinctAppend(Keys(m), "type");
    }
    assert KeySet(copy) <= StringKeywords <==> KeySet(m) <= StringKeywords by {
      assert forall k :: k in KeySet(copy) <==> k in KeySet(m) || k == "type";
    }
    assert PropertyNamesRule(JObject(m)) <==> Distinct(Keys(m)) && KeySet(m) <= StringKeywords by {
      forall i | 0 <= i < |m| ensures m[i].0 != "type" {
        assert Keys(m)[i] == m[i].0;
      }
    }
  }

  /** With `"type"` present, its value must be `"string"` and the mapping
      itself goes to the string validator. */
  lemma {:induction false} PropertyNamesExplicitType(m: Members)
    requires "type" in Keys(m)
    ensures ValidatePropertyNames(JObject(m)).Ok? <==> PropertyNamesRule(JObject(m))
  {
    var i := IndexOf(m, "type").value;
    if Distinct(Keys(m)) {
      forall q | 0 <= q < |m| && m[q].0 == "type" ensures q == i {
        IndexOfDistinct(m, q);
      }
    }
  }

  lemma {:induction false} DistinctAppend(ks: seq<string>, k: string)
    requires k !in ks
    ensures Distinct(ks + [k]) <==> Distinct(ks)
  {
    var ks' := ks + [k];
    DistinctPairwise(ks);
    DistinctPairwise(ks');
    if Distinct(ks) {
      forall a, b | 0 <= a < b < |ks'| ensures ks'[a] != ks'[b] {
        if b == |ks| {
          assert ks'[a] == ks[a];
        } else {
          assert ks'[a] == ks[a] && ks'[b] == ks[b];
        }
      }
    }
    if Distinct(ks') {
      forall a, b | 0 <= a < b < |ks| ensures ks[a] != ks[b] {
        assert ks'[a] == ks[a] && ks'[b] == ks[b];
      }
    }
  }
}

