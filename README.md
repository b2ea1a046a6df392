# jsonschema-schema-validator, modelled in Dafny

The project models the checker in `jsonschema_schema_validator/validator.py`. The checker decides whether a decoded JSON document is a schema it accepts. It reports the outcome by raising `ValidationError`, or `AssertionError` from the `assert False` at the end of the object validator. How it works:

- `_validate_schema` requires a mapping with a `type` key.
- It sends the mapping to one of seven per-type validators.
- Each per-type validator is wrapped by `valid_keywords`, which rejects repeated keys and keys outside that type's whitelist.
- Only the object validator looks at values. It checks the first truthy keyword among `additionalProperties`, `properties`, `patternProperties`, `propertyNames`, `maxProperties`, `minProperties` and `required`. It recurses into nested schemas.

The files:

- `json.dfy` (`JsonValue`): decoded JSON values. An object is the list of its members in iteration order. The module also has the few Python operations the checker uses: `dict.get`, `set(schema)`, truthiness, and `isinstance(x, int)`, which is also true of a `bool`.
- `validator.dfy` (`Validator`): one function per Python function, plus helpers for the decorator's two parts (`KeywordGuard`, `Guarded`), the `get` tests (`TruthyIndex`), the body of the object validator (`ObjectBody`), the loops over `prop.values()` (`ValidateEachValue`) and `{**prop, ...}` (`WithImpliedType`). It returns an `Outcome` that is `Ok`, `ValidationError(failure)` or `AssertionFailure`. Each `Failure` value stands for one of the source's error messages.
- `wellformed.dfy` (`WellFormedness`): `WellFormed`, a declarative statement of which documents are accepted, written with quantifiers instead of the `if`/`elif` chains and loops. The theorem `ValidateSchemaIffWellFormed` proves that the checker and this statement agree on every document.
- `properties.dfy` (`SchemaProperties`): general properties: the keyword guard, the annotation keywords, the whitelist-only types, and which object keyword decides.
- `scenarios.dfy` (`Scenarios`): the documents from the repository's tests, and documents that exercise single lines of `validator.py`, each with the outcome the code as written gives it.

## Model

| member | source | states |
|---|---|---|
| JsonValue.Keys | jsonschema_schema_validator/validator.py:14 | `list(schema)`: as long as the mapping, and the i-th key is the i-th member's key |
| JsonValue.ElemSet | jsonschema_schema_validator/validator.py:14-17 | `set(...)`: holds exactly the elements of the sequence |
| JsonValue.KeySet | jsonschema_schema_validator/validator.py:14-17 | `set(schema)`: holds exactly the mapping's keys |
| JsonValue.ElemSetCardinality | jsonschema_schema_validator/validator.py:14 | `set(schema)` is never larger than `list(schema)`, and is exactly as large iff the keys do not repeat; this is what the duplicate check tests |
| JsonValue.DistinctPairwise | jsonschema_schema_validator/validator.py:14 | "no key recurs later in the list" (the definition of `Distinct`) agrees with "no two positions hold the same key" |
| JsonValue.IndexOf | jsonschema_schema_validator/validator.py:187-190 | the first member named `k`: in range, carries `k`, no earlier member carries `k`, absent iff `k` is not a key |
| JsonValue.IndexOfDistinct | jsonschema_schema_validator/validator.py:190 | without repeated keys, looking a member's key up finds that member |
| JsonValue.Get | jsonschema_schema_validator/validator.py:111-124 | `schema.get(k)` finds nothing exactly when `k` is not a key |
| JsonValue.GetFindsMember | jsonschema_schema_validator/validator.py:111-124 | what `get` finds is a member of the mapping, and without repeated keys it is the value of the one member named `k` |
| JsonValue.Truthy | jsonschema_schema_validator/validator.py:111-124 | the truthiness test of `if schema.get(...)`: false exactly for `None`, `False`, `0`, `""`, `[]` and `{}` |
| JsonValue.IsInt | jsonschema_schema_validator/validator.py:78-85 | `isinstance(prop, int)`: every JSON value except `null`, strings, lists and mappings, so a `bool` counts |
| JsonValue.IntValue | jsonschema_schema_validator/validator.py:78-85 | the number `prop < 1` compares: an `int` is itself, a `bool` is 0 or 1, and it is non-zero exactly when the value is truthy |
| JsonValue.GetOr | jsonschema_schema_validator/validator.py:66 | `prop.get('type', 'string')`: the default exactly when the key is absent, otherwise the stored value |
| Validator.KeywordGuard | jsonschema_schema_validator/validator.py:9-26 | passes iff the keys are distinct and all whitelisted; repeated keys give `DuplicateKeywords` (checked first); otherwise the failure names exactly the keys outside the whitelist; never an assertion failure |
| Validator.Guarded | jsonschema_schema_validator/validator.py:13-22 | the decorated function runs only after the guard passes, and its outcome is then the result; a guard failure is returned unchanged |
| Validator.TruthyIndex | jsonschema_schema_validator/validator.py:111-124 | `schema.get(k)` is truthy iff the key is present with a truthy value, and the index found is that of the value `get` returns |
| Validator.ValidateSchema | jsonschema_schema_validator/validator.py:183-208 | a non-mapping gives `ExpectedDict`; a mapping without `type` gives `MissingType`; acceptance implies a mapping with distinct keys |
| Validator.Validate | jsonschema_schema_validator/validator.py:211-212 | the public entry point has the same outcome as `_validate_schema` on every input |
| Validator.ValidateObject | jsonschema_schema_validator/validator.py:98-126 | acceptance implies distinct keys from the object whitelist; a guard failure is the outcome |
| Validator.ObjectBody | jsonschema_schema_validator/validator.py:110-126 | with no truthy rule keyword the body ends in its own assertion failure; an outcome other than the assertion failure implies some rule keyword is truthy. Otherwise the outcome is the first truthy keyword's check (`WellFormedness.ObjectBodyRunsFirstTruthy`), which can itself be a nested schema's assertion failure (`Scenarios.ObjectNestedAssertionFailure`) |
| Validator.ValidateAdditionalProperties | jsonschema_schema_validator/validator.py:29-37 | accepted iff a bool or an accepted schema; a mapping is decided by the nested schema; anything else is `BadAdditionalProperties` |
| Validator.ValidateProperties | jsonschema_schema_validator/validator.py:40-51 | a non-mapping is `BadProperties`; accepted iff a mapping whose every value is an accepted schema; a failure is that of the first failing value |
| Validator.ValidatePatternProperties | jsonschema_schema_validator/validator.py:54-62 | a non-mapping is `BadPatternProperties`; accepted iff a mapping whose every value is an accepted schema (keys are not examined); a failure is that of the first failing value |
| Validator.ValidateEachValue | jsonschema_schema_validator/validator.py:50-62 | each of the two loops over `prop.values()` (lines 50-51 and 61-62) ends normally iff every remaining value is accepted; otherwise the outcome is that of the first failing value, and every earlier value was accepted |
| Validator.WithImpliedType | jsonschema_schema_validator/validator.py:71-73 | `{**prop, 'type': 'string'}` keeps every member of `prop` in order and appends `type: "string"`; the caller's mapping is unchanged |
| Validator.ValidatePropertyNames | jsonschema_schema_validator/validator.py:65-74 | a non-mapping is `BadPropertyNames`; the outcome is never an assertion failure |
| Validator.ValidateMaxProperties | jsonschema_schema_validator/validator.py:77-81 | the only failure is `BadMaxProperties`; an integer passes iff it is at least 1; `true` passes and `false` fails, since a `bool` is an `int`; any other non-`int` fails |
| Validator.ValidateMinProperties | jsonschema_schema_validator/validator.py:84-88 | the only failure is `BadMinProperties`; an integer passes iff it is at least 1; `true` passes and `false` fails; any other non-`int` fails |
| Validator.ValidateRequired | jsonschema_schema_validator/validator.py:91-95 | the only failure is `BadRequired`; accepted iff a list all of whose items are strings |
| Validator.ValidateArray | jsonschema_schema_validator/validator.py:129-142 | accepted iff keys are distinct and within the array whitelist, whatever the values; never an assertion failure |
| Validator.ValidateString | jsonschema_schema_validator/validator.py:145-146 | accepted iff keys are distinct and within the string whitelist, whatever the values |
| Validator.ValidateNumber | jsonschema_schema_validator/validator.py:149-159 | accepted iff keys are distinct and within the number whitelist, whatever the values |
| Validator.ValidateInteger | jsonschema_schema_validator/validator.py:162-172 | accepted iff keys are distinct and within the integer whitelist, whatever the values |
| Validator.ValidateBoolean | jsonschema_schema_validator/validator.py:175-176 | accepted iff keys are distinct and within `["type"]` |
| Validator.ValidateNull | jsonschema_schema_validator/validator.py:179-180 | accepted iff keys are distinct and within `["type"]` |
| WellFormedness.ValidateSchemaIffWellFormed | jsonschema_schema_validator/validator.py:9-212 | the checker accepts a document iff it is well formed in the declarative sense: a mapping without repeated keys that declares one of seven types, uses only that type's keywords and, for an object, whose first truthy rule keyword satisfies its rule, recursively |
| WellFormedness.Dispatch | jsonschema_schema_validator/validator.py:190-204 | a mapping whose `type` names one of the seven types has the outcome of that type's validator |
| WellFormedness.InvalidTypeRejected | jsonschema_schema_validator/validator.py:205-208 | a `type` value that names none of the seven types gives `InvalidType` |
| WellFormedness.DeclaresIffGet | jsonschema_schema_validator/validator.py:190 | without repeated keys, a member `type: <name>` exists iff `schema['type']` is that name |
| WellFormedness.TruthyKeyIffIndex | jsonschema_schema_validator/validator.py:111-124 | without repeated keys, a key has a truthy member iff `schema.get(k)` is truthy |
| WellFormedness.ObjectBodyRunsFirstTruthy | jsonschema_schema_validator/validator.py:111-124 | the object body's outcome is the check of the first rule keyword whose value is truthy, applied to that value |
| WellFormedness.ObjectBodyFailsAssertion | jsonschema_schema_validator/validator.py:125-126 | with no truthy rule keyword, the object body ends in the assertion failure |
| WellFormedness.ObjectBodyIffRules | jsonschema_schema_validator/validator.py:110-126 | the object body accepts iff the declarative object rules hold |
| WellFormedness.KeywordCheckIffRule | jsonschema_schema_validator/validator.py:29-95 | each keyword check accepts iff its declarative rule holds |
| WellFormedness.EachValueIffAllWellFormed | jsonschema_schema_validator/validator.py:50-62 | each loop over a mapping's values (lines 50-51 for `properties`, 61-62 for `patternProperties`) ends normally iff every value is well formed |
| WellFormedness.PropertyNamesIffRule | jsonschema_schema_validator/validator.py:65-74 | `propertyNames` passes iff it is a mapping whose `type`, if any, is `"string"`, with distinct keys all from the string whitelist |
| SchemaProperties.UnknownKeywordRejected | jsonschema_schema_validator/validator.py:17-20 | a node with a key outside its type's whitelist is rejected, naming exactly the keys outside it, before any value is looked at |
| SchemaProperties.AnnotationRejected | jsonschema_schema_validator/validator.py:98-180 | a node carrying an annotation keyword (`title`, `description`, `enum`, `const`, ...) is rejected, and the failure names that keyword |
| SchemaProperties.AnnotationsNotWhitelisted | jsonschema_schema_validator/validator.py:98-180 | no whitelist contains an annotation keyword |
| SchemaProperties.WhitelistOnlyTypes | jsonschema_schema_validator/validator.py:129-180 | a non-object node is accepted iff its keys are distinct and whitelisted, whatever the values |
| SchemaProperties.BooleanAndNullOnlyType | jsonschema_schema_validator/validator.py:175-180 | a boolean or null node is accepted iff `type` is its only member |
| SchemaProperties.ObjectWithoutTruthyKeyword | jsonschema_schema_validator/validator.py:125-126 | an object node that passes the guard with no truthy rule keyword ends in the assertion failure, not a validation error |
| SchemaProperties.ObjectChecksFirstTruthyKeyword | jsonschema_schema_validator/validator.py:110-124 | an object node that passes the guard has exactly the outcome of the check of its first truthy rule keyword |
| SchemaProperties.NestedSchemasDecide | jsonschema_schema_validator/validator.py:40-62 | when `properties` or `patternProperties` decides, the node is accepted iff every nested schema is, and otherwise fails as the first failing nested schema does |
| SchemaProperties.AdditionalPropertiesSchemaDecides | jsonschema_schema_validator/validator.py:29-33 | a mapping under `additionalProperties` decides the node's outcome |
| Scenarios.IntegerAlone | tests/test_integer.py:7-9 | `{"type": "integer"}` is accepted |
| Scenarios.IntegerWithBounds | tests/test_integer.py:12-14 | `{"type": "integer", "minimum": 0, "maximum": 1}` is accepted |
| Scenarios.IntegerMisspelledKeyword | tests/test_integer.py:17-21 | `minimumm` is rejected as an invalid keyword, named alone |
| Scenarios.NumberAnyValues | tests/test_number.py:25-30 | the one document `{type: number, maximum: "a string", multipleOf: -2}`, which combines two of the test's values, is accepted by the number validator; the general fact is `Validator.ValidateNumber` |
| Scenarios.NumberMisspelledKeyword | tests/test_number.py:31 | `minimummmmm` is rejected, named alone |
| Scenarios.NumberValidatorIgnoresType | tests/test_number.py:40-44 | the number validator accepts `{"type": "boolean"}` |
| Scenarios.BooleanAlone | tests/test_boolean.py:6-8 | the boolean validator accepts `{"type": "boolean"}` |
| Scenarios.BooleanValidatorIgnoresType | tests/test_boolean.py:11-15 | the boolean validator accepts `{"type": "integer"}` |
| Scenarios.ObjectAdditionalPropertiesTrue | tests/test_object.py:10 | `additionalProperties: true` is accepted |
| Scenarios.ObjectAdditionalPropertiesSchema | tests/test_object.py:11 | `additionalProperties: {"type": "string"}` is accepted |
| Scenarios.ObjectPatternPropertiesSchema | tests/test_object.py:12 | `patternProperties: {"^S_": {"type": "string"}}` is accepted |
| Scenarios.ObjectPropertyNamesWithEnum | tests/test_object.py:13 | `propertyNames: {"type": "string", "enum": [...]}` is rejected, naming `enum` |
| Scenarios.ObjectPropertyNamesImpliedTypeWithEnum | tests/test_object.py:14 | `propertyNames: {"enum": [...]}` gets `type: string` added and is rejected, naming `enum` |
| Scenarios.ObjectMaxProperties | tests/test_object.py:15 | `maxProperties: 999` is accepted |
| Scenarios.ObjectMinProperties | tests/test_object.py:16 | `minProperties: 1` is accepted |
| Scenarios.ObjectRequired | tests/test_object.py:17 | `required: ["foo"]` is accepted |
| Scenarios.ObjectAdditionalPropertiesNumber | tests/test_object.py:28 | `additionalProperties: 123` gives `BadAdditionalProperties` |
| Scenarios.ObjectNestedAssertionFailure | jsonschema_schema_validator/validator.py:29-33 | `{type: object, additionalProperties: {type: object}}` ends in the nested schema's assertion failure (line 126), passed up through line 33, although the outer node has a truthy rule keyword |
| Scenarios.ObjectPatternPropertiesString | tests/test_object.py:29 | `patternProperties: "a string"` gives `BadPatternProperties` |
| Scenarios.ObjectUncompiledPattern | tests/test_object.py:30 | the pattern `\z` is accepted, because pattern keys are never compiled |
| Scenarios.ObjectPatternPropertiesNonSchema | tests/test_object.py:31 | a pattern mapped to a string fails with `ExpectedDict` from the nested dispatcher |
| Scenarios.ObjectPropertyNamesBoolean | tests/test_object.py:32 | `propertyNames: {"type": "boolean"}` gives `BadPropertyNames` |
| Scenarios.ObjectMaxPropertiesString | tests/test_object.py:33 | `maxProperties: "999"` gives `BadMaxProperties` |
| Scenarios.ObjectMaxPropertiesNegative | tests/test_object.py:34 | `maxProperties: -1` gives `BadMaxProperties` |
| Scenarios.ObjectMinPropertiesString | tests/test_object.py:35 | `minProperties: "1"` gives `BadMinProperties` |
| Scenarios.ObjectMinPropertiesNegative | tests/test_object.py:36 | `minProperties: -1` gives `BadMinProperties` |
| Scenarios.ObjectRequiredString | tests/test_object.py:37 | `required: "foo"` gives `BadRequired` |
| Scenarios.ObjectValidatorIgnoresType | tests/test_object.py:46-52 | the object validator given `{"type": "string"}` ends in the assertion failure |
| Scenarios.ObjectAlone | jsonschema_schema_validator/validator.py:125-126 | `{"type": "object"}` ends in the assertion failure |
| Scenarios.ObjectAdditionalPropertiesFalse | jsonschema_schema_validator/validator.py:111 | `additionalProperties: false` is falsy, so no rule runs and the assertion fails |
| Scenarios.ObjectMaxPropertiesTrue | jsonschema_schema_validator/validator.py:78 | `maxProperties: true` is accepted, because a `bool` is an `int` equal to 1 |
| Scenarios.ObjectLaterKeywordUnchecked | jsonschema_schema_validator/validator.py:119-124 | a bad `required` after a truthy `maxProperties` is never examined |
| Scenarios.ObjectNestedFailure | jsonschema_schema_validator/validator.py:50-51 | a nested schema's invalid keyword under `properties` fails the whole document with the same failure |
| Scenarios.SoleRuleDecides | jsonschema_schema_validator/validator.py:110-124 | an object document with `type` and one truthy rule keyword has exactly the outcome of that keyword's check |
| Scenarios.FirstRuleDecides | jsonschema_schema_validator/validator.py:110-124 | when the rule keyword tested first in the `if`/`elif` chain has a truthy value, its check alone decides, whatever the later keyword holds |
| Scenarios.NotAMapping | jsonschema_schema_validator/validator.py:184-185 | a list gives `ExpectedDict` |
| Scenarios.MissingTypeKeyword | jsonschema_schema_validator/validator.py:187-188 | a mapping without `type` gives `MissingType` |
| Scenarios.UnknownTypeName | jsonschema_schema_validator/validator.py:205-208 | `type: "float"` gives `InvalidType` |

Where the repository's tests or its description disagree with `validator.py`, the model follows the code, and the scenario lemmas state what the code does:

- The tests expect the per-type validators to raise `RuntimeError` when the node declares another type (tests/test_boolean.py:11-15, tests/test_number.py:40-44, tests/test_object.py:46-52). No validator checks its own `type`, so the boolean and number validators accept such a node, and the object validator ends in the assertion failure.
- The tests expect string values for number keywords and `multipleOf: -2` to be rejected (tests/test_number.py:25-30). The number validator checks only keyword names, so they are accepted.
- The tests expect `propertyNames` with `enum` to be accepted (tests/test_object.py:13-14). The string whitelist has no `enum`, so it is rejected.
- The tests expect the pattern `\z` to be rejected (tests/test_object.py:30). Pattern keys are never compiled, so it is accepted.
- There are no generic keywords such as `$schema`, `$id` or `title`, and no `const` or `enum` checks. Every annotation keyword is rejected as invalid.

## Left out

- `jsonschema_schema_validator/__main__.py` is not part of this model. It reads files, decodes JSON and prints results: command-line I/O only.
- Floating-point numbers: JSON numbers are integers in the model. A float acts like an integer of the same truthiness everywhere except in the `isinstance(prop, int)` tests at `validator.py` lines 78 and 85. The truthiness tests at lines 111-124 read it, so `maxProperties: 0.0` is falsy and ends in the `assert False`, as `maxProperties: 0` does. At lines 78 and 85 a float is not an `int`, so a truthy float such as `5.0` is rejected there, while the integer `5` is accepted.
- Exact message text: each error message is a `Failure` constructor. `InvalidKeywords` carries the set of offending keys that the message prints.
- Python dicts never hold repeated keys. The model's member lists can, and for them it follows the code as written: `dict.get` and `schema['type']` become a lookup of the first occurrence, and the guard returns `DuplicateKeywords`. A JSON decoder would instead keep the last value for a repeated key. For member lists without repeated keys, which are all the inputs Python can produce, the two agree.
- Validator.ValidatePropertyNames: its own contract states only the non-mapping case and the absence of an assertion failure. The full acceptance condition is proved separately as `WellFormedness.PropertyNamesIffRule`.
- Validator.ValidateSchema: its own contract states the two early rejections and that acceptance implies distinct keys. Dispatch on `type` is proved by `WellFormedness.Dispatch` and `WellFormedness.InvalidTypeRejected`, and the full acceptance condition by `WellFormedness.ValidateSchemaIffWellFormed`.
- Validator.ValidateSchema and WellFormedness.ValidateSchemaIffWellFormed: the model has no depth limit. Each nested schema level under `additionalProperties`, `properties` or `patternProperties` takes four Python frames: `_validate_schema`, the decorator's `inner`, `_validate_object` and the keyword helper. So with Python's default recursion limit of 1000, a document nested about 250 levels deep raises `RecursionError`. That is neither a `ValidationError` nor the assertion failure. For the same document the model gives `Ok` and `WellFormed` holds.
- `AssertionError` is lost when Python runs with `-O`, because that switch removes `assert` statements. The model keeps the assertion failure that the code raises under normal execution.
