/** Builders for the `$mergeObjects` aggregation expression: a factory that wraps
    one starting value, and an expression node that holds an ordered list of
    operands and renders itself as a one-key document. */
module ObjectOperators {
  import opened Wrappers

  /** The operator name a merge node renders under (getMongoMethod). */
  const MergeObjectsOperator: string := "$mergeObjects"

  /** The message of the exception the factory throws for a null value. */
  const NullValueMessage: string := "Value must not be null!"

  /** A non-null Java object that can stand as an operand or be handed to
      toDocument: a plain literal, a java.util.Collection, a field reference
      built by Fields.field, or an aggregation expression. */
  datatype Value =
    | Literal(text: string)
    | Collection(elems: seq<Value>)
    | FieldRef(name: string)
    | Nested(expr: Expr)

  /** An aggregation expression: a merge node of this model, or any other
      expression, which this model only tells apart by an identifier. */
  datatype Expr =
    | MergeExpr(node: MergeObjects)
    | OtherExpr(id: nat)

  datatype Error = IllegalArgument(message: string)

  /** Fields.field, taken as opaque: a name becomes a reference to the field
      of that name. */
  function FieldOf(name: string): (v: Value)
    ensures v.FieldRef? && v.name == name
  {
    FieldRef(name)
  }

  /** An aggregation expression is an Object, so it becomes an operand as it
      is, with nothing around it. */
  function ExpressionOf(expr: Expr): (v: Value)
    ensures v.Nested? && v.expr == expr
  {
    Nested(expr)
  }

  /** Maps each input through a wrapping function, keeping count and order. */
  function Wrap<T>(xs: seq<T>, wrap: T -> Value): (r: seq<Value>)
    ensures |r| == |xs|
    ensures forall i :: 0 <= i < |xs| ==> r[i] == wrap(xs[i])
  {
    if xs == [] then [] else [wrap(xs[0])] + Wrap(xs[1..], wrap)
  }

  /** The one-key document {method: payload} the abstract superclass builds;
      how the payload is rendered against a context is left to `unpack`. */
  function OperatorDocument<R>(operator: string, payload: Value, unpack: Value -> R): (d: map<string, R>)
    ensures d.Keys == {operator}
    ensures d[operator] == unpack(payload)
  {
    map[operator := unpack(payload)]
  }

  /** The $mergeObjects expression node. No call here changes a node's
      operand list: every extension builds a new node over a fresh list. */
  datatype MergeObjects = MergeObjects(operands: seq<Value>) {

    /** merge(Object...): a node over the given values, in order; no values
        give an empty node. */
    static function Merge(values: seq<Value>): (r: MergeObjects)
      ensures |r.operands| == |values|
      ensures forall i :: 0 <= i < |values| ==> r.operands[i] == values[i]
    {
      MergeObjects(values)
    }

    /** mergeValuesOf(String...): one field reference per name. */
    static function MergeValuesOfFields(fieldReferences: seq<string>): (r: MergeObjects)
      ensures |r.operands| == |fieldReferences|
      ensures forall i :: 0 <= i < |fieldReferences| ==> r.operands[i] == FieldRef(fieldReferences[i])
    {
      Merge(Wrap(fieldReferences, FieldOf))
    }

    /** mergeValuesOf(AggregationExpression...): the expressions as operands. */
    static function MergeValuesOfExpressions(expressions: seq<Expr>): (r: MergeObjects)
      ensures |r.operands| == |expressions|
      ensures forall i :: 0 <= i < |expressions| ==> r.operands[i] == Nested(expressions[i])
    {
      Merge(Wrap(expressions, ExpressionOf))
    }

    /** append, inherited from the abstract superclass: a fresh list holding
        this node's operands followed by the given values. */
    function Append(values: seq<Value>): (r: seq<Value>)
      ensures |r| == |operands| + |values|
      ensures r[..|operands|] == operands
      ensures r[|operands|..] == values
    {
      operands + values
    }

    /** mergeWith(Object...): a new node with the values added at the end. */
    function MergeWith(values: seq<Value>): (r: MergeObjects)
      ensures |r.operands| == |operands| + |values|
      ensures r.operands[..|operands|] == operands
      ensures forall i :: 0 <= i < |values| ==> r.operands[|operands| + i] == values[i]
    {
      MergeObjects(Append(values))
    }

    /** mergeWithValuesOf(String...): a new node with one field reference per
        name added at the end. */
    function MergeWithValuesOfFields(fieldReferences: seq<string>): (r: MergeObjects)
      ensures |r.operands| == |operands| + |fieldReferences|
      ensures r.operands[..|operands|] == operands
      ensures forall i :: 0 <= i < |fieldReferences| ==>
                r.operands[|operands| + i] == FieldRef(fieldReferences[i])
    {
      MergeWith(Wrap(fieldReferences, FieldOf))
    }

    /** mergeWithValuesOf(AggregationExpression...): a new node with the
        expressions added at the end. */
    function MergeWithValuesOfExpressions(expressions: seq<Expr>): (r: MergeObjects)
      ensures |r.operands| == |operands| + |expressions|
      ensures r.operands[..|operands|] == operands
      ensures forall i :: 0 <= i < |expressions| ==> r.operands[|operands| + i] == Nested(expressions[i])
    {
      MergeWith(Wrap(expressions, ExpressionOf))
    }

    /** A one-element collection gives way to its element; anything else,
        the empty collection and non-collections included, stays as it is. */
    static function PotentiallyExtractSingleValue(value: Value): (r: Value)
      ensures r != value <==> value.Collection? && |value.elems| == 1
      ensures r == value || value == Collection([r])
    {
      if value.Collection? && |value.elems| == 1 then value.elems[0] else value
    }

    /** The operator name every merge node renders under. */
    function GetMongoMethod(): (r: string)
      ensures r == "$mergeObjects"
    {
      MergeObjectsOperator
    }

    /** toDocument(Object, context): the one-key document keyed by the
        operator name whose payload is the value, unwrapped once if it is a
        one-element collection. */
    function ToDocument<R>(value: Value, unpack: Value -> R): (d: map<string, R>)
      ensures d.Keys == {MergeObjectsOperator}
      ensures value.Collection? && |value.elems| == 1 ==> d[MergeObjectsOperator] == unpack(value.elems[0])
      ensures !(value.Collection? && |value.elems| == 1) ==> d[MergeObjectsOperator] == unpack(value)
    {
      OperatorDocument(GetMongoMethod(), PotentiallyExtractSingleValue(value), unpack)
    }

    /** The inherited toDocument(context), which hands the node's own operand
        list to toDocument(Object, context). */
    function Render<R>(unpack: Value -> R): (d: map<string, R>)
      ensures d.Keys == {MergeObjectsOperator}
      ensures |operands| == 1 ==> d[MergeObjectsOperator] == unpack(operands[0])
      ensures |operands| != 1 ==> d[MergeObjectsOperator] == unpack(Collection(operands))
    {
      ToDocument(Collection(operands), unpack)
    }
  }

  /** Wraps one non-null starting value and builds merge nodes that begin
      with it. */
  datatype ObjectOperatorFactory = ObjectOperatorFactory(value: Value) {

    /** merge(): a node whose only operand is the wrapped value. */
    function Merge(): (r: MergeObjects)
      ensures |r.operands| == 1 && r.operands[0] == value
    {
      MergeObjects.Merge([value])
    }

    /** mergeWith(Object...): the wrapped value, then the given values. */
    function MergeWith(values: seq<Value>): (r: MergeObjects)
      ensures |r.operands| == 1 + |values|
      ensures r.operands[0] == value
      ensures r.operands[1..] == values
    {
      Merge().MergeWith(values)
    }

    /** mergeWithValuesOf(String...): the wrapped value, then one field
        reference per name. */
    function MergeWithValuesOfFields(fieldReferences: seq<string>): (r: MergeObjects)
      ensures |r.operands| == 1 + |fieldReferences|
      ensures r.operands[0] == value
      ensures forall i :: 0 <= i < |fieldReferences| ==> r.operands[1 + i] == FieldRef(fieldReferences[i])
    {
      Merge().MergeWithValuesOfFields(fieldReferences)
    }

    /** mergeWithValuesOf(AggregationExpression...): the wrapped value, then
        the expressions. */
    function MergeWithValuesOfExpressions(expressions: seq<Expr>): (r: MergeObjects)
      ensures |r.operands| == 1 + |expressions|
      ensures r.operands[0] == value
      ensures forall i :: 0 <= i < |expressions| ==> r.operands[1 + i] == Nested(expressions[i])
    {
      Merge().MergeWithValuesOfExpressions(expressions)
    }
  }

  /** The factory constructor: a null value is rejected with an
      IllegalArgumentException; any other value is kept as it is. */
  function NewFactory(value: Option<Value>): (r: Result<ObjectOperatorFactory, Error>)
    ensures r.Failure? <==> value.None?
    ensures r.Failure? ==> r.error == IllegalArgument(NullValueMessage)
    ensures r.Success? ==> r.value.value == value.value
  {
    match value
    case None => Failure(IllegalArgument(NullValueMessage))
    case Some(v) => Success(ObjectOperatorFactory(v))
  }

  /** valueOf(String): a factory over the named field's reference. */
  function ValueOfField(fieldReference: string): (r: ObjectOperatorFactory)
    ensures r.value == FieldRef(fieldReference)
  {
    NewFactory(Some(FieldOf(fieldReference))).value
  }

  /** valueOf(AggregationExpression): a factory over the expression, which
      fails when the expression is null. */
  function ValueOfExpression(expression: Option<Expr>): (r: Result<ObjectOperatorFactory, Error>)
    ensures r.Success? <==> expression.Some?
    ensures r.Failure? ==> r.error == IllegalArgument(NullValueMessage)
    ensures r.Success? ==> r.value.value == Nested(expression.value)
  {
    match expression
    case None => NewFactory(None)
    case Some(e) => NewFactory(Some(ExpressionOf(e)))
  }
}
