/** Algebraic laws of the evaluator and worked evaluations. */
module EvaluatorLaws {
  import opened Wrappers
  import opened Int64
  import opened Objects
  import opened Ast
  import opened Evaluator

  /** Truthiness inverts `evalBoolean`: the singleton for `b` is truthy
      exactly when `b` holds. */
  lemma TruthOfBoolean(b: bool)
    ensures IsTruthy(Val(EvalBoolean(b))) == b
  {
  }

  /** `!!v` is the truthiness of `v` as a singleton. */
  lemma DoubleBang(o: Outcome)
    requires !o.Panic?
    ensures EvalPrefix("!", Val(EvalPrefix("!", o))) == EvalBoolean(IsTruthy(o))
  {
    TruthOfBoolean(!IsTruthy(o));
  }

  /** Unary minus is an involution on int64, MIN included. */
  lemma MinusInvolution(n: int64)
    ensures EvalPrefix("-", Val(EvalPrefix("-", Val(Integer(n))))) == Integer(n)
  {
  }

  /** `!=` is always the negation of `==`, on every operand pair, and
      panics exactly when `==` does. */
  lemma NotEqualNegatesEqual(left: Outcome, right: Outcome)
    requires !left.Panic? && !right.Panic?
    ensures var eq := EvalInfix("==", left, right);
            var ne := EvalInfix("!=", left, right);
            && (eq.Panic? <==> ne.Panic?)
            && (eq.Val? ==> ne == Val(EvalBang(eq)))
  {
  }

  /** On Integers, `==` is equality of the numbers, symmetric, and `<` and
      `>` are converses. */
  lemma IntegerComparisons(a: int64, b: int64)
    ensures EvalInfix("==", Val(Integer(a)), Val(Integer(b))) == Val(EvalBoolean(a == b))
    ensures EvalInfix("==", Val(Integer(a)), Val(Integer(b))) == EvalInfix("==", Val(Integer(b)), Val(Integer(a)))
    ensures EvalInfix("<", Val(Integer(a)), Val(Integer(b))) == EvalInfix(">", Val(Integer(b)), Val(Integer(a)))
  {
  }

  /** Equal integers never compare equal to a value of another type, in
      either order. */
  lemma IntegerNeverEqualsOtherType(n: int64, v: Value)
    requires !v.Integer?
    ensures EvalInfix("==", Val(Integer(n)), Val(v)) == Val(FALSE)
    ensures EvalInfix("==", Val(v), Val(Integer(n))) == Val(FALSE)
  {
  }

  /** Reference equality: two Arrays or Strings with the same contents are
      still different objects, so `==` answers FALSE; the singletons compare
      by identity, which here is their value. */
  lemma IdentityEquality(xs: seq<Value>, s: seq<Bytes.byte>, b: bool, c: bool)
    ensures EvalInfix("==", Val(Array(xs)), Val(Array(xs))) == Val(FALSE)
    ensures EvalInfix("==", Val(String(s)), Val(String(s))) == Val(FALSE)
    ensures EvalInfix("==", Val(EvalBoolean(b)), Val(EvalBoolean(c))) == Val(EvalBoolean(b == c))
    ensures EvalInfix("==", Val(NULL), Val(NULL)) == Val(TRUE)
  {
  }

  /** A statement list panics exactly when one of its statements does, and
      otherwise yields the value of its last statement. */
  lemma {:induction false} StatementsYieldLast(statements: seq<Node>)
    requires |statements| > 0
    ensures EvalStatements(statements).Panic? <==>
      exists i :: 0 <= i < |statements| && Eval(statements[i]).Panic?
    ensures (forall i :: 0 <= i < |statements| ==> !Eval(statements[i]).Panic?) ==>
      EvalStatements(statements) == Eval(statements[|statements| - 1])
    decreases |statements|
  {
    if |statements| > 1 && !Eval(statements[0]).Panic? {
      var rest := statements[1..];
      StatementsYieldLast(rest);
      assert forall i :: 0 <= i < |rest| ==> rest[i] == statements[i + 1];
      if exists i :: 0 <= i < |statements| && Eval(statements[i]).Panic? {
        var i :| 0 <= i < |statements| && Eval(statements[i]).Panic?;
        assert i > 0 && Eval(rest[i - 1]).Panic?;
      }
    }
  }

  /** Negating the condition swaps the branches of an if-else. */
  lemma IfNegatedCondition(c: Node, t: Node, e: Node)
    ensures Eval(If(Prefix("!", c), t, Some(e))) == Eval(If(c, e, Some(t)))
  {
    var cond := Eval(c);
    if !cond.Panic? {
      var negated := Val(EvalBoolean(!IsTruthy(cond)));
      assert Eval(Prefix("!", c)) == negated;
      TruthOfBoolean(!IsTruthy(cond));
      assert IsTruthy(negated) == !IsTruthy(cond);
      assert Eval(If(Prefix("!", c), t, Some(e))) == EvalIf(Prefix("!", c), t, Some(e));
      assert Eval(If(c, e, Some(t))) == EvalIf(c, e, Some(t));
    } else {
      assert Eval(Prefix("!", c)) == cond;
      assert EvalIf(Prefix("!", c), t, Some(e)) == cond;
      assert Eval(If(c, e, Some(t))) == EvalIf(c, e, Some(t)) == cond;
    }
  }

  /** A falsy condition without an alternative gives NULL. */
  lemma IfFalsyWithoutAlternative(c: Node, t: Node)
    requires !Eval(c).Panic? && !IsTruthy(Eval(c))
    ensures Eval(If(c, t, None)) == Val(NULL)
  {
  }

  /** An infix expression over two integer literals is int64 arithmetic
      and comparison of the two numbers. */
  lemma IntegerInfixIsInt64(a: int64, b: int64)
    ensures Eval(Infix(IntegerLiteral(a), "+", IntegerLiteral(b))) == Val(Integer(Add(a, b)))
    ensures Eval(Infix(IntegerLiteral(a), "-", IntegerLiteral(b))) == Val(Integer(Sub(a, b)))
    ensures Eval(Infix(IntegerLiteral(a), "*", IntegerLiteral(b))) == Val(Integer(Mul(a, b)))
    ensures b != 0 ==> Eval(Infix(IntegerLiteral(a), "/", IntegerLiteral(b))) == Val(Integer(Div(a, b)))
    ensures b == 0 ==> Eval(Infix(IntegerLiteral(a), "/", IntegerLiteral(b))) == Panic(DivisionByZero)
    ensures Eval(Infix(IntegerLiteral(a), "<", IntegerLiteral(b))) == Val(EvalBoolean(a < b))
    ensures Eval(Infix(IntegerLiteral(a), ">", IntegerLiteral(b))) == Val(EvalBoolean(a > b))
  {
  }

  /** `5 + 5 * 2`, parsed as `5 + (5 * 2)`, evaluates to 15: the evaluator
      follows the tree it is given. */
  lemma FivePlusFiveTimesTwo()
    ensures Eval(Infix(IntegerLiteral(5), "+", Infix(IntegerLiteral(5), "*", IntegerLiteral(2)))) == Val(Integer(15))
  {
  }

  /** `!5` is FALSE and `!!5` is TRUE. */
  lemma BangOfInteger()
    ensures Eval(Prefix("!", IntegerLiteral(5))) == Val(FALSE)
    ensures Eval(Prefix("!", Prefix("!", IntegerLiteral(5)))) == Val(TRUE)
  {
  }

  /** MIN / -1 wraps to MIN and `/ 0` panics. */
  lemma DivisionEdges()
    ensures Eval(Infix(IntegerLiteral(MIN), "/", IntegerLiteral(-1))) == Val(Integer(MIN))
    ensures Eval(Infix(IntegerLiteral(7), "/", IntegerLiteral(0))) == Panic(DivisionByZero)
    ensures Eval(Infix(IntegerLiteral(-7), "/", IntegerLiteral(2))) == Val(Integer(-3))
  {
  }

  /** An Integer beside an object of another type, in either order, is
      not integer arithmetic: every operator except `==` and `!=` gives
      NULL, so `1 + true` is NULL. */
  lemma MixedOperandsGiveNull(operator: string, a: int64, v: Value)
    requires !v.Integer? && operator != "==" && operator != "!="
    ensures EvalInfix(operator, Val(Integer(a)), Val(v)) == Val(NULL)
    ensures EvalInfix(operator, Val(v), Val(Integer(a))) == Val(NULL)
    ensures Eval(Infix(IntegerLiteral(1), "+", BooleanLiteral(true))) == Val(NULL)
  {
  }

  /** A nil left operand panics, while a nil right operand of a non-Integer
      left one is compared by reference without panicking. */
  lemma NilOperands()
    ensures Eval(Infix(Unhandled, "==", BooleanLiteral(true))) == Panic(NilDereference)
    ensures Eval(Infix(BooleanLiteral(true), "==", Unhandled)) == Val(FALSE)
    ensures Eval(Infix(IntegerLiteral(1), "==", Unhandled)) == Panic(NilDereference)
    ensures Eval(Prefix("!", Unhandled)) == Val(FALSE)
    ensures Eval(If(Unhandled, IntegerLiteral(1), None)) == Val(Integer(1))
    ensures Eval(Program([])) == Nil
  {
  }
}
