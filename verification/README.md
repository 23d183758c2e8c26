# `$mergeObjects` expression builders

A Dafny model of `ObjectOperators` from spring-data-mongodb: the builder API for
MongoDB's `$mergeObjects` aggregation operator. It has two parts.

- `ObjectOperatorFactory` wraps one non-null starting value (a field reference
  or an aggregation expression) and hands it to a merge node.
- `MergeObjects` is an expression node over an ordered list of
  operands. Every "merge with" call returns a new node whose operands are the
  old ones followed by the new ones. At render time a one-element operand list
  is unwrapped to its element and every other list is kept, under the key
  `"$mergeObjects"` (the constant `MergeObjectsOperator`, which
  `GetMongoMethod` returns).

Modules:

- `Wrappers` (`wrappers.dfy`): `Option` for a Java reference that may be null,
  `Result` for a call that returns or throws.
- `ObjectOperators` (`object_operators.dfy`): the data model and every
  operation of the Java file. A Java `Object` operand is a `Value`: a literal, a
  `java.util.Collection`, a field reference, or a nested aggregation expression.
  An expression is a merge node or some other expression. The Java overloads
  get distinct names: `mergeValuesOf(String...)` is `MergeValuesOfFields`,
  `mergeValuesOf(AggregationExpression...)` is `MergeValuesOfExpressions`, and
  likewise for `mergeWithValuesOf`; the two `valueOf` are `ValueOfField` and
  `ValueOfExpression`. The factory constructor, which may throw, is `NewFactory`.
- `MergeObjectsProperties` (`merge_objects_properties.dfy`): lemmas relating
  several calls.

Two collaborators live in the abstract superclass, which is not part of this
model. Both are modelled by what the calls here need from them:

- `append` is `MergeObjects.Append`: a fresh list of the node's operands followed
  by the given values.
- `super.toDocument(payload, context)` is `OperatorDocument`: the one-key map
  `{getMongoMethod(): unpack(payload)}`. The rendering of a payload against an
  aggregation context (field-name resolution, nested `toDocument`) is the
  function parameter `unpack`.

The inherited `toDocument(context)` entry point passes the node's own operand
list to `toDocument(Object, context)`; that is `MergeObjects.Render`.

## Model

| member | source | states |
|---|---|---|
| ObjectOperators.NewFactory | spring-data-mongodb/src/main/java/org/springframework/data/mongodb/core/aggregation/ObjectOperators.java:67-71 | a null value fails with IllegalArgument("Value must not be null!"), and only a null value fails; a built factory holds exactly the given value |
| ObjectOperators.ValueOfField | spring-data-mongodb/src/main/java/org/springframework/data/mongodb/core/aggregation/ObjectOperators.java:41-43 | with `Fields.field` taken as the opaque `FieldRef(name)`, valueOf(String) builds a factory holding the reference to the named field |
| ObjectOperators.ValueOfExpression | spring-data-mongodb/src/main/java/org/springframework/data/mongodb/core/aggregation/ObjectOperators.java:51-53 | valueOf(AggregationExpression) succeeds exactly when the expression is non-null, and then holds that expression as a nested operand |
| ObjectOperators.ObjectOperatorFactory.Merge | spring-data-mongodb/src/main/java/org/springframework/data/mongodb/core/aggregation/ObjectOperators.java:80-82 | factory.merge() is a node with exactly one operand, the wrapped value |
| ObjectOperators.ObjectOperatorFactory.MergeWith | spring-data-mongodb/src/main/java/org/springframework/data/mongodb/core/aggregation/ObjectOperators.java:91-93 | factory.mergeWith(vs) has operands [value] ++ vs |
| ObjectOperators.ObjectOperatorFactory.MergeWithValuesOfFields | spring-data-mongodb/src/main/java/org/springframework/data/mongodb/core/aggregation/ObjectOperators.java:102-104 | factory.mergeWithValuesOf(names) has the wrapped value first, then one field reference per name in order |
| ObjectOperators.ObjectOperatorFactory.MergeWithValuesOfExpressions | spring-data-mongodb/src/main/java/org/springframework/data/mongodb/core/aggregation/ObjectOperators.java:113-115 | factory.mergeWithValuesOf(exprs) has the wrapped value first, then the expressions in order |
| ObjectOperators.MergeObjects.Merge | spring-data-mongodb/src/main/java/org/springframework/data/mongodb/core/aggregation/ObjectOperators.java:141-143 | merge(vs) holds exactly vs in the given order; no values give an empty node, not an error |
| ObjectOperators.MergeObjects.MergeValuesOfFields | spring-data-mongodb/src/main/java/org/springframework/data/mongodb/core/aggregation/ObjectOperators.java:152-154 | mergeValuesOf(names) holds one field reference per name, same count and order |
| ObjectOperators.MergeObjects.MergeValuesOfExpressions | spring-data-mongodb/src/main/java/org/springframework/data/mongodb/core/aggregation/ObjectOperators.java:163-165 | mergeValuesOf(exprs) holds the expressions themselves, same count and order |
| ObjectOperators.FieldOf | spring-data-mongodb/src/main/java/org/springframework/data/mongodb/core/aggregation/ObjectOperators.java:42 | `Fields.field` taken as the opaque `FieldRef(name)`: the operand is a reference to the field of exactly that name |
| ObjectOperators.ExpressionOf | spring-data-mongodb/src/main/java/org/springframework/data/mongodb/core/aggregation/ObjectOperators.java:164 | an aggregation expression is passed through as an operand as it is, a nested operand holding exactly that expression |
| ObjectOperators.Wrap | spring-data-mongodb/src/main/java/org/springframework/data/mongodb/core/aggregation/ObjectOperators.java:153 | mapping inputs to operands keeps their count and puts the wrapped i-th input at position i |
| ObjectOperators.MergeObjects.MergeWithValuesOfFields | spring-data-mongodb/src/main/java/org/springframework/data/mongodb/core/aggregation/ObjectOperators.java:173-175 | the new node keeps the receiver's operands as its prefix, then one field reference per name in order |
| ObjectOperators.MergeObjects.MergeWithValuesOfExpressions | spring-data-mongodb/src/main/java/org/springframework/data/mongodb/core/aggregation/ObjectOperators.java:184-186 | the new node keeps the receiver's operands as its prefix, then the expressions in order |
| ObjectOperators.MergeObjects.Append | spring-data-mongodb/src/main/java/org/springframework/data/mongodb/core/aggregation/ObjectOperators.java:195 | the appended list has length old + new, starts with the receiver's operands and ends with the given values |
| ObjectOperators.OperatorDocument | spring-data-mongodb/src/main/java/org/springframework/data/mongodb/core/aggregation/ObjectOperators.java:204 | the superclass document has exactly one key, the operator name, mapped to the rendered payload |
| ObjectOperators.MergeObjects.MergeWith | spring-data-mongodb/src/main/java/org/springframework/data/mongodb/core/aggregation/ObjectOperators.java:194-196 | mergeWith(vs) has as many operands as the receiver and vs together, the receiver's operands first and vs after them in order |
| ObjectOperators.MergeObjects.PotentiallyExtractSingleValue | spring-data-mongodb/src/main/java/org/springframework/data/mongodb/core/aggregation/ObjectOperators.java:207-217 | the result differs from the input exactly when the input is a one-element collection, and then the input is the one-element collection of the result |
| ObjectOperators.MergeObjects.GetMongoMethod | spring-data-mongodb/src/main/java/org/springframework/data/mongodb/core/aggregation/ObjectOperators.java:224-226 | the operator name is the constant "$mergeObjects" |
| ObjectOperators.MergeObjects.ToDocument | spring-data-mongodb/src/main/java/org/springframework/data/mongodb/core/aggregation/ObjectOperators.java:203-205 | the document has the single key "$mergeObjects"; its payload is the rendered element of a one-element collection, otherwise the rendered value itself |
| ObjectOperators.MergeObjects.Render | spring-data-mongodb/src/main/java/org/springframework/data/mongodb/core/aggregation/ObjectOperators.java:203-205 | a node renders as {"$mergeObjects": its sole operand} when it has one operand and {"$mergeObjects": its operand list} otherwise |
| MergeObjectsProperties.FieldNamesOfWrappedFields | spring-data-mongodb/src/main/java/org/springframework/data/mongodb/core/aggregation/ObjectOperators.java:173-175 | with `Fields.field` taken as the opaque `FieldRef(name)`, the names can be read back from the wrapped operands in order |
| MergeObjectsProperties.WrappedFieldsOfFieldNames | spring-data-mongodb/src/main/java/org/springframework/data/mongodb/core/aggregation/ObjectOperators.java:173-175 | conversely, in this model every operand list made only of field references is the wrapping of its names |
| MergeObjectsProperties.MergeValuesOfFieldsKeepsNames | spring-data-mongodb/src/main/java/org/springframework/data/mongodb/core/aggregation/ObjectOperators.java:152-154 | a node built from field names holds exactly those names, in order |
| MergeObjectsProperties.MergeWithChains | spring-data-mongodb/src/main/java/org/springframework/data/mongodb/core/aggregation/ObjectOperators.java:194-196 | mergeWith(a) then mergeWith(b) equals one mergeWith(a ++ b) |
| MergeObjectsProperties.MergeWithBranchesIndependently | spring-data-mongodb/src/main/java/org/springframework/data/mongodb/core/aggregation/ObjectOperators.java:194-196 | two extensions of one base do not see each other; each is base ++ its own values |
| MergeObjectsProperties.MergeThenMergeWith | spring-data-mongodb/src/main/java/org/springframework/data/mongodb/core/aggregation/ObjectOperators.java:141-143 | merge(a...).mergeWith(b...) equals merge(a ++ b) |
| MergeObjectsProperties.FactoryShortcutsAreMergeThenExtend | spring-data-mongodb/src/main/java/org/springframework/data/mongodb/core/aggregation/ObjectOperators.java:91-115 | each factory shortcut is one merge over [value] followed by the wrapped inputs: the values, the field references of the names, or the expressions |
| MergeObjectsProperties.WrapDistributes | spring-data-mongodb/src/main/java/org/springframework/data/mongodb/core/aggregation/ObjectOperators.java:153 | wrapping a joined input list equals joining the wrapped lists, so wrapping commutes with appending |
| MergeObjectsProperties.FieldsThenMoreFields | spring-data-mongodb/src/main/java/org/springframework/data/mongodb/core/aggregation/ObjectOperators.java:152-175 | mergeValuesOf(a...) then mergeWithValuesOf(b...) over names equals mergeValuesOf(a ++ b) |
| MergeObjectsProperties.ExpressionsThenMoreExpressions | spring-data-mongodb/src/main/java/org/springframework/data/mongodb/core/aggregation/ObjectOperators.java:163-186 | mergeValuesOf(a...) then mergeWithValuesOf(b...) over expressions equals mergeValuesOf(a ++ b) |
| MergeObjectsProperties.ValueOfFieldThenFields | spring-data-mongodb/src/main/java/org/springframework/data/mongodb/core/aggregation/ObjectOperators.java:41-104 | valueOf(name).mergeWithValuesOf(names...) equals the node-level mergeValuesOf(name, names...) |
| MergeObjectsProperties.ValueOfExpressionThenExpressions | spring-data-mongodb/src/main/java/org/springframework/data/mongodb/core/aggregation/ObjectOperators.java:51-115 | valueOf(expr) succeeds for a non-null expression, and its mergeWithValuesOf(exprs...) equals the node-level mergeValuesOf(expr, exprs...) |
| MergeObjectsProperties.AddedFieldNames | spring-data-mongodb/src/main/java/org/springframework/data/mongodb/core/aggregation/ObjectOperators.java:173-175 | the operands added after the receiver's own are field references to exactly the given names, in order |
| MergeObjectsProperties.ToDocumentUnwrapsOnce | spring-data-mongodb/src/main/java/org/springframework/data/mongodb/core/aggregation/ObjectOperators.java:203-217 | wrapping a value that is not a one-element collection in a one-element collection leaves the document unchanged; a one-element collection inside one keeps the inner collection, so the unwrap is not recursive |
| MergeObjectsProperties.FactoryRendering | spring-data-mongodb/src/main/java/org/springframework/data/mongodb/core/aggregation/ObjectOperators.java:80-93 | factory.merge() renders the wrapped value unwrapped; factory.mergeWith(vs) with vs non-empty renders the list [value] ++ vs |
| MergeObjectsProperties.FactoryFieldExample | spring-data-mongodb/src/main/java/org/springframework/data/mongodb/core/aggregation/ObjectOperators.java:102-104 | factory.mergeWithValuesOf("status") renders as unpack of the two-operand list [value, FieldRef("status")]; the reference syntax is left to unpack |

## Left out

- Rendering of operands against an aggregation context (field-name resolution, nested `toDocument`, BSON `Document` construction): the superclass and the context are not part of this model; the rendering is the parameter `unpack`, so a resolution failure is whatever `unpack` returns and is passed through unchanged.
- `Fields.field` validation (empty or malformed names) and field-name mapping: that class is not part of this model, so a field reference is the opaque `FieldRef(name)`.
- ValueOfField: never fails in this model, whereas `Fields.field` (line 42) validates the name and can throw for an empty or null one; that validation is not part of this model.
- FieldNamesOfWrappedFields: the names read back are the ones the model's `FieldRef` stores; whether `Fields.field`'s own name mapping keeps names apart is not part of this model.
- Aliasing of the caller's varargs array: `merge` (line 142) keeps `Arrays.asList(values)`, a live view of the array the caller passed, and `mergeValuesOf(AggregationExpression...)` (line 164) hands the caller's array straight to it, so a caller who later writes into that array changes the node's operands. The model's operand lists are values, so it has no such sharing; `mergeWith` is unaffected because `append` copies.
- Java nulls other than the factory value: a null varargs array or a null element inside one is not modelled, because `Value` has no null.
- The server-side meaning of `$mergeObjects` (later keys win) and the MongoDB version notes: the library only builds the expression and never runs it.
