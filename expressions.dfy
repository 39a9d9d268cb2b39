/** Protocol-level enumerations shared by the adapter, the session and the settings. */
module Protocol {

  /** AdapterVersion: which adapter family a session resolved to. */
  datatype AdapterVersion = V3 | V4

  /** ODataPayloadFormat. */
  datatype PayloadFormat = Unspecified | Atom | Json
}

/**
 * The expression tree a filter is written as (ODataExpression). A node is a
 * value, a reference (a '/'-separated property path), a function call, a value
 * conversion, a Not/Negate node or a binary node. The reference path is the one
 * piece of a node that is changed after construction, so it lives in a
 * ReferenceNode object shared by every place the node occurs.
 */
module Expressions {
  import opened Wrappers

  datatype UnaryOperator = Not | Negate

  datatype BinaryOperator =
    | And | AndAlso | Or | OrElse
    | Equal | NotEqual | GreaterThan | GreaterThanOrEqual | LessThan | LessThanOrEqual
    | Add | Subtract | Multiply | Divide | Modulo

  /** The node's ExpressionType: Default for leaves, else its unary or binary operator. */
  datatype Operator = NoOperator | UnaryOp(unary: UnaryOperator) | BinaryOp(binary: BinaryOperator)

  /** A constant carried by a value node. */
  datatype Literal =
    | NullLiteral
    | BoolLiteral(b: bool)
    | IntLiteral(i: int)
    | StringLiteral(s: string)
    | EnumLiteral(enumType: string, underlying: int)
    | OtherLiteral(typeName: string, text: string)

  /** The mutable Reference of a reference node. */
  class ReferenceNode {
    var path: string

    constructor (path: string)
      ensures this.path == path
    {
      this.path := path;
    }
  }

  datatype Expr =
    | Value(value: Literal)
    | Reference(node: ReferenceNode)
    | Call(caller: Option<Expr>, name: string, arguments: seq<Expr>)
    /** IsValueConversion: the inner expression converted to `targetType`; `op` is whatever operator the node carries. */
    | Conversion(op: Operator, targetType: string, inner: Expr)
    | Unary(unaryOp: UnaryOperator, operand: Option<Expr>)
    | Binary(binaryOp: BinaryOperator, left: Option<Expr>, right: Option<Expr>)

  function OperatorOf(e: Expr): Operator
  {
    match e
    case Value(_) => NoOperator
    case Reference(_) => NoOperator
    case Call(_, _, _) => NoOperator
    case Conversion(op, _, _) => op
    case Unary(op, _) => UnaryOp(op)
    case Binary(op, _, _) => BinaryOp(op)
  }

  /** The reference nodes that occur in an expression. */
  ghost function Cells(e: Expr): set<ReferenceNode>
    decreases e, 1
  {
    match e
    case Value(_) => {}
    case Reference(node) => {node}
    case Call(_, _, arguments) => CellsOfCall(e, |arguments|)
    case Conversion(_, _, inner) => Cells(inner)
    case Unary(_, operand) => CellsOfOperand(operand)
    case Binary(_, left, right) => CellsOfOperand(left) + CellsOfOperand(right)
  }

  ghost function CellsOfOperand(operand: Option<Expr>): set<ReferenceNode>
    decreases operand, 2
  {
    match operand
    case None => {}
    case Some(x) => Cells(x)
  }

  /** The reference nodes of a call's caller and of its first k arguments. */
  ghost function CellsOfCall(e: Expr, k: nat): set<ReferenceNode>
    requires e.Call? && k <= |e.arguments|
    decreases e, 0, k
  {
    if k == 0 then CellsOfOperand(e.caller)
    else CellsOfCall(e, k - 1) + Cells(e.arguments[k - 1])
  }

  /** The number of nodes in an expression; the walk over it recurses on smaller sizes. */
  ghost function Size(e: Expr): nat
    decreases e, 1
  {
    match e
    case Value(_) => 1
    case Reference(_) => 1
    case Call(_, _, arguments) => 1 + SizeOfCall(e, |arguments|)
    case Conversion(_, _, inner) => 1 + Size(inner)
    case Unary(_, operand) => 1 + SizeOfOperand(operand)
    case Binary(_, left, right) => 1 + SizeOfOperand(left) + SizeOfOperand(right)
  }

  ghost function SizeOfOperand(operand: Option<Expr>): nat
    decreases operand, 2
  {
    match operand
    case None => 0
    case Some(x) => Size(x)
  }

  ghost function SizeOfCall(e: Expr, k: nat): nat
    requires e.Call? && k <= |e.arguments|
    decreases e, 0, k
  {
    if k == 0 then SizeOfOperand(e.caller)
    else SizeOfCall(e, k - 1) + Size(e.arguments[k - 1])
  }

  /** The caller and the first k arguments of a call are part of the whole call. */
  lemma {:induction false} CallPrefix(e: Expr, k: nat)
    requires e.Call? && k <= |e.arguments|
    ensures CellsOfCall(e, k) <= Cells(e)
    ensures SizeOfCall(e, k) < Size(e)
    decreases |e.arguments| - k
  {
    if k < |e.arguments| {
      CallPrefix(e, k + 1);
    }
  }
}
