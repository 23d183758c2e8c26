/** Properties that relate several calls of the $mergeObjects builders:
    how chained and branched extensions compose, what the factory shortcuts
    amount to, how a node renders, and that field names survive wrapping. */
module MergeObjectsProperties {
  import opened Wrappers
  import opened ObjectOperators

  /** The names behind a list of field-reference operands, or None when some
      operand is not a field reference. */
  function FieldNames(operands: seq<Value>): Option<seq<string>> {
    if operands == [] then Some([])
    else if !operands[0].FieldRef? then None
    else match FieldNames(operands[1..])
      case None => None
      case Some(rest) => Some([operands[0].name] + rest)
  }

  /** One field reference in front of a list of field references adds its
      name in front of their names. */
  lemma FieldNamesOfCons(name: string, rest: seq<Value>)
    requires FieldNames(rest).Some?
    ensures FieldNames([FieldRef(name)] + rest) == Some([name] + FieldNames(rest).value)
  {
  }

  /** Wrapping names as field references loses nothing: the names can be read
      back in the same order. */
  lemma {:induction false} FieldNamesOfWrappedFields(names: seq<string>)
    ensures FieldNames(Wrap(names, FieldOf)) == Some(names)
  {
    if names != [] {
      var tail := Wrap(names[1..], FieldOf);
      FieldNamesOfWrappedFields(names[1..]);
      FieldNamesOfCons(names[0], tail);
      assert Wrap(names, FieldOf) == [FieldOf(names[0])] + tail;
      assert [names[0]] + names[1..] == names;
    }
  }

  /** And back: operand lists made only of field references are exactly the
      wrapped name lists. */
  lemma {:induction false} WrappedFieldsOfFieldNames(operands: seq<Value>)
    requires FieldNames(operands).Some?
    ensures Wrap(FieldNames(operands).value, FieldOf) == operands
  {
    if operands != [] {
      WrappedFieldsOfFieldNames(operands[1..]);
      var names := FieldNames(operands).value;
      assert names[1..] == FieldNames(operands[1..]).value;
    }
  }

  /** mergeValuesOf(String...) keeps exactly the given names, in order. */
  lemma MergeValuesOfFieldsKeepsNames(names: seq<string>)
    ensures FieldNames(MergeObjects.MergeValuesOfFields(names).operands) == Some(names)
  {
    FieldNamesOfWrappedFields(names);
  }

  /** Chaining two extensions is one extension by both lists, in order. */
  lemma MergeWithChains(node: MergeObjects, first: seq<Value>, second: seq<Value>)
    ensures node.MergeWith(first).MergeWith(second) == node.MergeWith(first + second)
  {
  }

  /** Extending the same base twice gives independent nodes: the second
      extension does not see the first, and it still starts with the base.
      Nodes here are values, so this holds by value semantics; the lemma
      records the property rather than proving anything deeper. */
  lemma MergeWithBranchesIndependently(base: MergeObjects, first: seq<Value>, second: seq<Value>)
    requires first != []
    ensures base.MergeWith(second) != base.MergeWith(first).MergeWith(second)
    ensures base.MergeWith(second).operands == base.operands + second
  {
  }

  /** merge(a...).mergeWith(b...) holds the operands a ++ b. */
  lemma MergeThenMergeWith(first: seq<Value>, second: seq<Value>)
    ensures MergeObjects.Merge(first).MergeWith(second) == MergeObjects.Merge(first + second)
  {
  }

  /** Wrapping a joined list is joining the wrapped lists. */
  lemma WrapDistributes<T>(first: seq<T>, second: seq<T>, wrap: T -> Value)
    ensures Wrap(first + second, wrap) == Wrap(first, wrap) + Wrap(second, wrap)
  {
  }

  /** Each factory shortcut is one merge over the wrapped value followed by
      the wrapped inputs. */
  lemma FactoryShortcutsAreMergeThenExtend(f: ObjectOperatorFactory, values: seq<Value>, names: seq<string>, exprs: seq<Expr>)
    ensures f.MergeWith(values) == MergeObjects.Merge([f.value] + values)
    ensures f.MergeWithValuesOfFields(names) == MergeObjects.Merge([f.value] + Wrap(names, FieldOf))
    ensures f.MergeWithValuesOfExpressions(exprs) == MergeObjects.Merge([f.value] + Wrap(exprs, ExpressionOf))
  {
  }

  /** mergeValuesOf(a...).mergeWithValuesOf(b...) over field names is
      mergeValuesOf(a ++ b). */
  lemma FieldsThenMoreFields(first: seq<string>, second: seq<string>)
    ensures MergeObjects.MergeValuesOfFields(first).MergeWithValuesOfFields(second)
            == MergeObjects.MergeValuesOfFields(first + second)
  {
  }

  /** mergeValuesOf(a...).mergeWithValuesOf(b...) over expressions is
      mergeValuesOf(a ++ b). */
  lemma ExpressionsThenMoreExpressions(first: seq<Expr>, second: seq<Expr>)
    ensures MergeObjects.MergeValuesOfExpressions(first).MergeWithValuesOfExpressions(second)
            == MergeObjects.MergeValuesOfExpressions(first + second)
  {
  }

  /** valueOf(name).mergeWithValuesOf(names...) is the node-level
      mergeValuesOf(name, names...). */
  lemma ValueOfFieldThenFields(name: string, names: seq<string>)
    ensures ValueOfField(name).MergeWithValuesOfFields(names)
            == MergeObjects.MergeValuesOfFields([name] + names)
  {
  }

  /** valueOf(expr) succeeds for a non-null expression, and its
      mergeWithValuesOf(exprs...) is the node-level mergeValuesOf(expr, exprs...). */
  lemma ValueOfExpressionThenExpressions(expr: Expr, exprs: seq<Expr>)
    ensures ValueOfExpression(Some(expr)).Success?
    ensures ValueOfExpression(Some(expr)).value.MergeWithValuesOfExpressions(exprs)
            == MergeObjects.MergeValuesOfExpressions([expr] + exprs)
  {
  }

  /** The operands mergeWithValuesOf(names...) adds after the receiver's own
      are field references to exactly those names, in order. */
  lemma AddedFieldNames(node: MergeObjects, names: seq<string>)
    ensures FieldNames(node.MergeWithValuesOfFields(names).operands[|node.operands|..]) == Some(names)
  {
    assert node.MergeWithValuesOfFields(names).operands[|node.operands|..] == Wrap(names, FieldOf);
    FieldNamesOfWrappedFields(names);
  }

  /** toDocument unwraps once: wrapping a value that is not itself a
      one-element collection in a one-element collection does not change the
      document, while a one-element collection inside one keeps the inner one. */
  lemma ToDocumentUnwrapsOnce<R>(node: MergeObjects, value: Value, unpack: Value -> R)
    ensures !(value.Collection? && |value.elems| == 1) ==>
              node.ToDocument(Collection([value]), unpack) == node.ToDocument(value, unpack)
    ensures node.ToDocument(Collection([Collection([value])]), unpack)
            == map[MergeObjectsOperator := unpack(Collection([value]))]
  {
  }

  /** factory.merge() renders the wrapped value unwrapped; any shortcut that
      adds operands renders the list [value, ...]. */
  lemma FactoryRendering<R>(f: ObjectOperatorFactory, values: seq<Value>, unpack: Value -> R)
    ensures f.Merge().Render(unpack) == map[MergeObjectsOperator := unpack(f.value)]
    ensures values != [] ==>
      f.MergeWith(values).Render(unpack) == map[MergeObjectsOperator := unpack(Collection([f.value] + values))]
  {
  }

  /** The factory over a value merged with the field "status" renders as
      unpack of the two-operand list [value, FieldRef("status")]; resolving
      the reference to its syntax is left to unpack. */
  lemma FactoryFieldExample<R>(f: ObjectOperatorFactory, unpack: Value -> R)
    ensures f.MergeWithValuesOfFields(["status"]).Render(unpack)
            == map[MergeObjectsOperator := unpack(Collection([f.value, FieldRef("status")]))]
  {
    var r := f.MergeWithValuesOfFields(["status"]);
    assert r.operands == [f.value, FieldRef("status")];
  }
}
