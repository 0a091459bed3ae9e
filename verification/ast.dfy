/** The syntax-tree node kinds the evaluator handles. */
module Ast {
  import opened Wrappers
  import opened Int64

  datatype Node =
    | Program(statements: seq<Node>)
    | ExpressionStatement(expression: Node)
    | IntegerLiteral(value: int64)
    | BooleanLiteral(truth: bool)
    | Prefix(operator: string, right: Node)
    | Infix(left: Node, operator: string, right: Node)
    | Block(statements: seq<Node>)
    | If(condition: Node, consequence: Node, alternative: Option<Node>)
      /** Any node kind the evaluator has no case for (identifiers, let and
          return statements, functions, calls, ...). */
    | Unhandled

  /** A termination measure: every node is larger than its children. */
  function Size(n: Node): (s: nat)
    ensures s >= 1
  {
    match n
    case Program(ss) => 1 + SizeAll(ss)
    case ExpressionStatement(e) => 1 + Size(e)
    case IntegerLiteral(_) => 1
    case BooleanLiteral(_) => 1
    case Prefix(_, r) => 1 + Size(r)
    case Infix(l, _, r) => 1 + Size(l) + Size(r)
    case Block(ss) => 1 + SizeAll(ss)
    case If(c, t, e) => 1 + Size(c) + Size(t) + SizeOpt(e)
    case Unhandled => 1
  }

  function SizeOpt(e: Option<Node>): nat {
    match e
    case Some(x) => Size(x)
    case None => 0
  }

  function SizeAll(ns: seq<Node>): (s: nat)
    ensures s >= 1
  {
    if |ns| == 0 then 1 else Size(ns[0]) + SizeAll(ns[1..])
  }
}
