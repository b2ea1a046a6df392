/** Properties of the checker that callers rely on: what the dispatcher
    rejects, that the keyword guard runs before any keyword rule, what the
    whitelist-only validators accept, which object keyword is checked and how
    a nested failure reaches the top. */
module SchemaProperties {
  import opened JsonValue
  import opened Validator
  import opened WellFormedness

  /** The annotation keywords JSON Schema allows under every type. */
  const Annotations: set<string> :=
    {"const", "default", "deprecated", "description", "enum", "examples", "readOnly", "title", "writeOnly"}

  /** A node declaring type `t` with a key outside `t`'s whitelist is
      rejected by the guard, naming exactly the keys outside it, whatever
      the values are and before any keyword rule runs. */
  lemma UnknownKeywordRejected(j: Json, t: TypeTag, k: string)
    requires j.JObject? && Distinct(Keys(j.members))
    requires Get(j.members, "type") == Some(JString(TagName(t)))
    requires k in Keys(j.members) && k !in Whitelist(t)
    ensures ValidateSchema(j) == ValidationError(InvalidKeywords(KeySet(j.members) - Whitelist(t)))
    ensures k in KeySet(j.members) - Whitelist(t)
  {
    Dispatch(j, t);
    ValidatorIsGuarded(t, j);
    assert k in KeySet(j.members);
    assert !KeywordGuard(Whitelist(t), j.members).Ok?;
  }

  /** No whitelist holds an annotation keyword, so a node that carries one
      (`title`, `enum`, ...) is rejected, naming it. */
  lemma {:induction false} AnnotationRejected(j: Json, t: TypeTag, k: string)
    requires j.JObject? && Distinct(Keys(j.members))
    requires Get(j.members, "type") == Some(JString(TagName(t)))
    requires k in Annotations && k in Keys(j.members)
    ensures ValidateSchema(j).ValidationError?
    ensures ValidateSchema(j).failure.InvalidKeywords? && k in ValidateSchema(j).failure.keywords
  {
    AnnotationsNotWhitelisted(t);
    UnknownKeywordRejected(j, t, k);
  }

  lemma AnnotationsNotWhitelisted(t: TypeTag)
    ensures Annotations !! Whitelist(t)
  {
    match t
    case ObjectType =>
    case ArrayType =>
    case StringType =>
    case NumberType =>
    case IntegerType =>
    case BooleanType =>
    case NullType =>
  }

  /** The array, string, number, integer, boolean and null validators accept
      a node exactly when its keys are distinct and whitelisted, whatever
      the values are. */
  lemma {:induction false} WhitelistOnlyTypes(j: Json, t: TypeTag)
    requires t != ObjectType
    requires j.JObject? && Get(j.members, "type") == Some(JString(TagName(t)))
    ensures ValidateSchema(j).Ok? <==> Distinct(Keys(j.members)) && KeySet(j.members) <= Whitelist(t)
    ensures !ValidateSchema(j).AssertionFailure?
  {
    Dispatch(j, t);
    ValidatorIsGuarded(t, j);
  }

  /** A boolean or null node is accepted exactly when `"type"` is its only key. */
  lemma {:induction false} BooleanAndNullOnlyType(j: Json, t: TypeTag)
    requires t == BooleanType || t == NullType
    requires j.JObject? && Get(j.members, "type") == Some(JString(TagName(t)))
    ensures ValidateSchema(j).Ok? <==> |j.members| == 1
  {
    WhitelistOnlyTypes(j, t);
    OnlyTypeWhitelisted(t);
    OnlyKeyIsType(j.members);
  }

  /** The boolean and null whitelists hold `"type"` alone. */
  lemma OnlyTypeWhitelisted(t: TypeTag)
    requires t == BooleanType || t == NullType
    ensures Whitelist(t) == {"type"}
  {
  }

  /** Members that include `"type"` have distinct keys all equal to
      `"type"` exactly when there is one member. */
  lemma {:induction false} OnlyKeyIsType(m: Members)
    requires "type" in Keys(m)
    ensures Distinct(Keys(m)) && KeySet(m) <= {"type"} <==> |m| == 1
  {
    assert "type" in KeySet(m);
    ElemSetCardinality(Keys(m));
    if Distinct(Keys(m)) && KeySet(m) <= {"type"} {
      assert KeySet(m) == {"type"};
    }
    if |m| == 1 {
      assert Keys(m)[0] == "type";
      assert Keys(m) == ["type"];
      assert KeySet(m) == {"type"};
    }
  }

  /** An object node that passes the guard but has no truthy rule keyword
      ends in `assert False`, which is not a `ValidationError`. */
  lemma {:induction false} ObjectWithoutTruthyKeyword(j: Json)
    requires j.JObject? && Get(j.members, "type") == Some(JString("object"))
    requires KeywordGuard(ObjectKeywords, j.members).Ok?
    requires TruthyIndex(j.members, "additionalProperties").None?
    requires TruthyIndex(j.members, "properties").None?
    requires TruthyIndex(j.members, "patternProperties").None?
    requires TruthyIndex(j.members, "propertyNames").None?
    requires TruthyIndex(j.members, "maxProperties").None?
    requires TruthyIndex(j.members, "minProperties").None?
    requires TruthyIndex(j.members, "required").None?
    ensures ValidateSchema(j) == AssertionFailure
  {
    Dispatch(j, ObjectType);
    ObjectBodyFailsAssertion(j.members);
  }

  /** An object node that passes the guard gets the outcome of the check of
      its first truthy rule keyword and of nothing else. */
  lemma {:induction false} ObjectChecksFirstTruthyKeyword(j: Json, n: nat)
    requires j.JObject? && Get(j.members, "type") == Some(JString("object"))
    requires KeywordGuard(ObjectKeywords, j.members).Ok?
    requires n < |ObjectRuleOrder|
    requires forall p :: 0 <= p < n ==> TruthyIndex(j.members, ObjectRuleOrder[p]).None?
    requires TruthyIndex(j.members, ObjectRuleOrder[n]).Some?
    ensures ValidateSchema(j) == KeywordCheck(n, j.members[TruthyIndex(j.members, ObjectRuleOrder[n]).value].1)
  {
    Dispatch(j, ObjectType);
    ObjectBodyRunsFirstTruthy(j.members, n);
  }

  /** When `properties` (or `patternProperties`) decides an object node, the
      node is accepted exactly when every nested schema is, and otherwise
      fails as the first failing nested schema does. */
  lemma {:induction false} NestedSchemasDecide(j: Json, n: nat)
    requires j.JObject? && Get(j.members, "type") == Some(JString("object"))
    requires KeywordGuard(ObjectKeywords, j.members).Ok?
    requires n == 1 || n == 2
    requires forall p :: 0 <= p < n ==> TruthyIndex(j.members, ObjectRuleOrder[p]).None?
    requires TruthyIndex(j.members, ObjectRuleOrder[n]).Some?
    requires j.members[TruthyIndex(j.members, ObjectRuleOrder[n]).value].1.JObject?
    ensures var v := j.members[TruthyIndex(j.members, ObjectRuleOrder[n]).value].1;
      && (ValidateSchema(j).Ok? <==> forall q :: 0 <= q < |v.members| ==> ValidateSchema(v.members[q].1).Ok?)
      && (!ValidateSchema(j).Ok? ==>
            exists q :: 0 <= q < |v.members| && ValidateSchema(j) == ValidateSchema(v.members[q].1) &&
              forall p :: 0 <= p < q ==> ValidateSchema(v.members[p].1).Ok?)
  {
    ObjectChecksFirstTruthyKeyword(j, n);
  }

  /** When a mapping under `additionalProperties` decides an object node,
      the node's outcome is that of the nested schema. */
  lemma {:induction false} AdditionalPropertiesSchemaDecides(j: Json)
    requires j.JObject? && Get(j.members, "type") == Some(JString("object"))
    requires KeywordGuard(ObjectKeywords, j.members).Ok?
    requires TruthyIndex(j.members, "additionalProperties").Some?
    requires j.members[TruthyIndex(j.members, "additionalProperties").value].1.JObject?
    ensures ValidateSchema(j) == ValidateSchema(j.members[TruthyIndex(j.members, "additionalProperties").value].1)
  {
    Dispatch(j, ObjectType);
    ObjectBodyChecksAdditionalProperties(j.members);
  }
}
