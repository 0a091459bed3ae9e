/** The tree-walking evaluator of evaluator/evaluator.go. */
module Evaluator {
  import opened Wrappers
  import opened Int64
  import opened Objects
  import opened Ast

  /** Why a Go run-time panic ends the evaluation. */
  datatype PanicCause =
    | DivisionByZero   // integer `/` with a zero divisor
    | NilDereference   // `Type()` called on a nil result

  /** What evaluating a node gives: an object, Go `nil` (unhandled nodes and
      empty statement lists), or a run-time panic, which unwinds every
      enclosing evaluation. */
  datatype Outcome = Val(value: Value) | Nil | Panic(cause: PanicCause)

  /** The only values evaluation can produce: nothing in this core builds a
      String, Array, Builtin or Error. */
  predicate Producible(v: Value) {
    v.Integer? || v.Boolean? || v.Null?
  }

  /** `evalBoolean`: the shared singleton for a Go bool. */
  function EvalBoolean(b: bool): (r: Value)
    ensures r == TRUE || r == FALSE
    ensures r.boolValue == b
  {
    if b then TRUE else FALSE
  }

  /** `isTruthy`: only NULL and FALSE are false; every other object, and a
      nil result, is true. */
  predicate IsTruthy(o: Outcome)
    requires !o.Panic?
    ensures !IsTruthy(o) <==> o == Val(NULL) || o == Val(FALSE)
  {
    match o
    case Val(Null) => false
    case Val(Boolean(b)) => b
    case _ => true
  }

  /** `evalBangOperatorExpression`: logical negation of truthiness, always
      a singleton. */
  function EvalBang(right: Outcome): (r: Value)
    requires !right.Panic?
    ensures r == EvalBoolean(!IsTruthy(right))
  {
    match right
    case Val(Boolean(true)) => FALSE
    case Val(Boolean(false)) => TRUE
    case Val(Null) => TRUE
    case _ => FALSE
  }

  /** `evalMinusPrefixOperatorExpression`: int64 negation of an Integer,
      NULL for anything else. */
  function EvalMinus(right: Outcome): (r: Value)
    requires !right.Panic?
    ensures right.Val? && right.value.Integer? ==> r == Integer(Neg(right.value.intValue))
    ensures !(right.Val? && right.value.Integer?) ==> r == NULL
  {
    match right
    case Val(Integer(n)) => Integer(Neg(n))
    case _ => NULL
  }

  /** `evalPrefixExpression`: `!` and `-`; any other operator gives NULL. */
  function EvalPrefix(operator: string, right: Outcome): (r: Value)
    requires !right.Panic?
    ensures Producible(r)
    ensures operator == "!" ==> r == EvalBoolean(!IsTruthy(right))
    ensures operator == "-" ==> r == EvalMinus(right)
    ensures operator != "!" && operator != "-" ==> r == NULL
  {
    if operator == "!" then EvalBang(right)
    else if operator == "-" then EvalMinus(right)
    else NULL
  }

  predicate IsArithmetic(operator: string) {
    operator == "+" || operator == "-" || operator == "*" || operator == "/"
  }

  predicate IsComparison(operator: string) {
    operator == "<" || operator == ">" || operator == "==" || operator == "!="
  }

  /** `evalIntegerInfixExpression`: int64 arithmetic and comparisons.
      Arithmetic yields an Integer, comparisons a singleton Boolean, a zero
      divisor panics, and any other operator gives NULL. */
  function EvalIntegerInfix(operator: string, a: int64, b: int64): (r: Outcome)
    ensures r.Panic? <==> operator == "/" && b == 0
    ensures r.Panic? ==> r.cause == DivisionByZero
    ensures IsArithmetic(operator) && !r.Panic? ==> r.Val? && r.value.Integer?
    ensures IsComparison(operator) ==> r == Val(TRUE) || r == Val(FALSE)
    ensures !IsArithmetic(operator) && !IsComparison(operator) ==> r == Val(NULL)
    ensures operator == "+" ==> r.Val? && r.value.Integer? && (a + b - r.value.intValue) % MODULUS == 0
    ensures operator == "-" ==> r.Val? && r.value.Integer? && (a - b - r.value.intValue) % MODULUS == 0
    ensures operator == "*" ==> r.Val? && r.value.Integer? && (a * b - r.value.intValue) % MODULUS == 0
    ensures operator == "/" && b != 0 ==> r == Val(Integer(Div(a, b)))
    ensures operator == "<" ==> r == Val(EvalBoolean(a < b))
    ensures operator == ">" ==> r == Val(EvalBoolean(a > b))
    ensures operator == "==" ==> r == Val(EvalBoolean(a == b))
    ensures operator == "!=" ==> r == Val(EvalBoolean(a != b))
  {
    if operator == "+" then Val(Integer(Add(a, b)))
    else if operator == "-" then Val(Integer(Sub(a, b)))
    else if operator == "*" then Val(Integer(Mul(a, b)))
    else if operator == "/" then
      (if b == 0 then Panic(DivisionByZero) else Val(Integer(Div(a, b))))
    else if operator == "<" then Val(EvalBoolean(a < b))
    else if operator == ">" then Val(EvalBoolean(a > b))
    else if operator == "==" then Val(EvalBoolean(a == b))
    else if operator == "!=" then Val(EvalBoolean(a != b))
    else Val(NULL)
  }

  /** Go's reference comparison `left == right` between an object and a
      possibly nil result. */
  predicate SameReference(left: Value, right: Outcome) {
    right.Val? && Identical(left, right.value)
  }

  /** `evalInfixExpression`. Asking a nil left operand for its type panics;
      the right operand is only asked when the left one is an Integer (Go's
      `&&` short-circuits). Two Integers go to integer arithmetic; for any
      other pair that does not panic, whichever side is not an Integer,
      `==` and `!=` compare references and every other operator gives NULL. */
  function EvalInfix(operator: string, left: Outcome, right: Outcome): (r: Outcome)
    requires !left.Panic? && !right.Panic?
    ensures r.Panic? && r.cause == NilDereference <==>
      left.Nil? || (left.Val? && left.value.Integer? && right.Nil?)
    ensures r.Val? ==> Producible(r.value)
    ensures (operator == "==" || operator == "!=") && r.Val? ==> r.value == TRUE || r.value == FALSE
    ensures left.Val? && right.Val? && left.value.Integer? && right.value.Integer? ==>
      r == EvalIntegerInfix(operator, left.value.intValue, right.value.intValue)
    ensures left.Val? && (!left.value.Integer? || (right.Val? && !right.value.Integer?)) ==>
      && (operator == "==" ==> r == Val(EvalBoolean(SameReference(left.value, right))))
      && (operator == "!=" ==> r == Val(EvalBoolean(!SameReference(left.value, right))))
      && (operator != "==" && operator != "!=" ==> r == Val(NULL))
  {
    if left.Nil? then Panic(NilDereference)
    else if left.value.Integer? && right.Nil? then Panic(NilDereference)
    else if left.value.Integer? && right.value.Integer? then
      EvalIntegerInfix(operator, left.value.intValue, right.value.intValue)
    else if operator == "==" then Val(EvalBoolean(SameReference(left.value, right)))
    else if operator == "!=" then Val(EvalBoolean(!SameReference(left.value, right)))
    else Val(NULL)
  }

  /** `Eval`: structural dispatch on the node. Operands are evaluated left
      to right and a panic in either unwinds the whole evaluation. */
  function Eval(node: Node): (r: Outcome)
    ensures r.Val? ==> Producible(r.value)
    decreases Size(node)
  {
    match node
    case Program(statements) => EvalStatements(statements)
    case ExpressionStatement(e) => Eval(e)
    case IntegerLiteral(v) => Val(Integer(v))
    case BooleanLiteral(b) => Val(EvalBoolean(b))
    case Prefix(operator, rightNode) =>
      var right := Eval(rightNode);
      if right.Panic? then right else Val(EvalPrefix(operator, right))
    case Infix(leftNode, operator, rightNode) =>
      var left := Eval(leftNode);
      if left.Panic? then left
      else
        var right := Eval(rightNode);
        if right.Panic? then right else EvalInfix(operator, left, right)
    case Block(statements) => EvalStatements(statements)
    case If(condition, consequence, alternative) => EvalIf(condition, consequence, alternative)
    case Unhandled => Nil
  }

  /** `evalStatements`: evaluate in order and keep the last result; nil for
      an empty list. */
  function EvalStatements(statements: seq<Node>): (r: Outcome)
    ensures r.Val? ==> Producible(r.value)
    ensures |statements| == 0 ==> r == Nil
    ensures |statements| > 0 && Eval(statements[0]).Panic? ==> r == Eval(statements[0])
    decreases SizeAll(statements)
  {
    if |statements| == 0 then Nil
    else
      var first := Eval(statements[0]);
      if first.Panic? || |statements| == 1 then first
      else EvalStatements(statements[1..])
  }

  /** `evalIfExpression`: the consequence when the condition is truthy,
      else the alternative if there is one, else NULL. */
  function EvalIf(condition: Node, consequence: Node, alternative: Option<Node>): (r: Outcome)
    ensures r.Val? ==> Producible(r.value)
    ensures Eval(condition).Panic? ==> r == Eval(condition)
    ensures !Eval(condition).Panic? && IsTruthy(Eval(condition)) ==> r == Eval(consequence)
    ensures !Eval(condition).Panic? && !IsTruthy(Eval(condition)) ==>
      r == (if alternative.Some? then Eval(alternative.value) else Val(NULL))
    decreases Size(condition) + Size(consequence) + SizeOpt(alternative)
  {
    var c := Eval(condition);
    if c.Panic? then c
    else if IsTruthy(c) then Eval(consequence)
    else match alternative
      case Some(a) => Eval(a)
      case None => Val(NULL)
  }
}
