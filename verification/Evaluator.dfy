/**
 * The third stage of the parser, `calculateStack`: evaluates a token array
 * in reverse Polish notation on a stack of values. Values are exact reals,
 * so division is exact.
 */
module Evaluator {
  import opened Tokens

  /** One of the four operations; dividing by zero is the one failure. */
  function Apply(o: Op, a: real, b: real): (r: Result<real>)
    ensures r.Failure? <==> o == Div && b == 0.0
    ensures r.Failure? ==> r.error == DivisionByZero
  {
    match o
    case Add => Success(a + b)
    case Sub => Success(a - b)
    case Mul => Success(a * b)
    case Div => if b == 0.0 then Failure(DivisionByZero) else Success(a / b)
  }

  /**
   * The value PHP's `(int)` cast gives a token that is not an operator:
   * the number a digit string denotes, and 0 for a bracket.
   */
  function Value(t: Token): real
    requires !t.Operator?
  {
    if t.Num? then DigitsValue(t.digits) as real else 0.0
  }

  /**
   * One iteration of the evaluation loop: a non-operator is pushed; an
   * operator replaces the second-from-top (left operand) and the top
   * (right operand) by its result, and is skipped when fewer than two
   * values are present.
   */
  function EvalStep(stack: seq<real>, t: Token): (r: Result<seq<real>>)
    ensures !t.Operator? ==> r.Success? && r.value == stack + [Value(t)]
    ensures t.Operator? && |stack| < 2 ==> r.Success? && r.value == stack
    ensures t.Operator? && |stack| >= 2 ==>
      var n := |stack|;
      && (r.Success? <==> Apply(t.op, stack[n - 2], stack[n - 1]).Success?)
      && (r.Failure? ==> r.error == DivisionByZero)
      && (r.Success? ==> r.value == stack[..n - 2] + [Apply(t.op, stack[n - 2], stack[n - 1]).value])
  {
    if !t.Operator? then Success(stack + [Value(t)])
    else if |stack| >= 2 then
      var n := |stack|;
      var v :- Apply(t.op, stack[n - 2], stack[n - 1]);
      Success(stack[..n - 2] + [v])
    else Success(stack)
  }

  /**
   * The evaluation loop over `ts`, starting from the stack `init`. The
   * only way it can fail is by dividing by zero.
   */
  function Run(init: seq<real>, ts: seq<Token>): (r: Result<seq<real>>)
    ensures r.Failure? ==> r.error == DivisionByZero
  {
    if |ts| == 0 then Success(init)
    else
      var stack :- Run(init, ts[..|ts| - 1]);
      EvalStep(stack, ts[|ts| - 1])
  }

  /**
   * `calculateStack`: the first value left on the stack (its bottom), or a
   * failure when the stack ends empty or a division by zero occurs.
   */
  function CalculateStack(ts: seq<Token>): (r: Result<real>)
    ensures r.Failure? ==> r.error == DivisionByZero || r.error == NoResult
  {
    var stack :- Run([], ts);
    if |stack| == 0 then Failure(NoResult) else Success(stack[0])
  }

  /** Evaluating one more token is one iteration of the loop. */
  lemma RunSnoc(init: seq<real>, ts: seq<Token>, t: Token)
    ensures Run(init, ts + [t]) == match Run(init, ts)
                                     case Failure(e) => Failure(e)
                                     case Success(stack) => EvalStep(stack, t)
  {
    assert (ts + [t])[..|ts|] == ts;
  }

  /** Running two pieces one after the other is running their concatenation. */
  lemma {:induction false} RunAppend(init: seq<real>, a: seq<Token>, b: seq<Token>)
    ensures Run(init, a + b) == match Run(init, a)
                                 case Failure(e) => Failure(e)
                                 case Success(stack) => Run(stack, b)
    decreases |b|
  {
    if |b| == 0 {
      assert a + b == a;
    } else {
      var b' := b[..|b| - 1];
      assert (a + b)[..|a + b| - 1] == a + b';
      RunAppend(init, a, b');
    }
  }

  // ---------------------------------------------------------------------
  // Reference semantics: expression trees and their postfix form.

  /** An arithmetic expression over integer literals and the four operators. */
  datatype Expr = Lit(digits: Digits) | Bin(op: Op, left: Expr, right: Expr)

  /** The value of an expression, with left-to-right evaluation of operands. */
  function Eval(e: Expr): Result<real>
  {
    match e
    case Lit(d) => Success(DigitsValue(d) as real)
    case Bin(o, l, r) =>
      var a :- Eval(l);
      var b :- Eval(r);
      Apply(o, a, b)
  }

  /** The reverse Polish form of an expression: operands first, operator last. */
  function Postfix(e: Expr): seq<Token>
  {
    match e
    case Lit(d) => [Num(d)]
    case Bin(o, l, r) => Postfix(l) + Postfix(r) + [Operator(o)]
  }

  /** Running the postfix form of `e` pushes the value of `e` and leaves the rest of the stack alone. */
  lemma {:induction false} RunPostfix(stack: seq<real>, e: Expr)
    ensures Run(stack, Postfix(e)) == match Eval(e)
                                        case Failure(x) => Failure(x)
                                        case Success(v) => Success(stack + [v])
    decreases e
  {
    match e
    case Lit(d) =>
      assert Postfix(e)[..0] == [];
    case Bin(o, l, r) =>
      RunAppend(stack, Postfix(l) + Postfix(r), [Operator(o)]);
      RunAppend(stack, Postfix(l), Postfix(r));
      RunPostfix(stack, l);
      if Eval(l).Success? {
        var a := Eval(l).value;
        RunPostfix(stack + [a], r);
        if Eval(r).Success? {
          var b := Eval(r).value;
          var s := stack + [a] + [b];
          assert s[..|s| - 2] == stack;
          assert [Operator(o)][..0] == [];
        }
      }
  }

  /** `calculateStack` on the postfix form of an expression computes the expression's value. */
  lemma CalculatePostfix(e: Expr)
    ensures CalculateStack(Postfix(e)) == Eval(e)
  {
    RunPostfix([], e);
  }

  // ---------------------------------------------------------------------
  // Well-formed reverse Polish sequences.

  predicate IsOperand(t: Token) { !t.Operator? }

  function Operands(ts: seq<Token>): nat { |Select(ts, IsOperand)| }

  function Operators(ts: seq<Token>): nat { |Select(ts, IsOpToken)| }

  /** Every non-empty prefix has more operands than operators. */
  predicate OperandsLead(ts: seq<Token>) {
    forall k :: 1 <= k <= |ts| ==> Operators(ts[..k]) < Operands(ts[..k])
  }

  /** A reverse Polish sequence in which every operator finds two operands and one value remains. */
  predicate WellFormedRpn(ts: seq<Token>) {
    OperandsLead(ts) && Operands(ts) == Operators(ts) + 1
  }

  /**
   * When operands lead, no operator is skipped: the stack holds the
   * operands pushed less the operators applied.
   */
  lemma {:induction false} RunSize(ts: seq<Token>)
    requires OperandsLead(ts)
    ensures Run([], ts).Success? ==> |Run([], ts).value| == Operands(ts) - Operators(ts)
    decreases |ts|
  {
    if |ts| > 0 {
      var init := ts[..|ts| - 1];
      forall k | 1 <= k <= |init| ensures Operators(init[..k]) < Operands(init[..k]) {
        assert init[..k] == ts[..k];
      }
      RunSize(init);
      assert ts[..|ts|] == ts;
    }
  }

  /**
   * On a well-formed sequence exactly one value remains and it is the
   * result; the only way to fail is to divide by zero.
   */
  lemma CalculateWellFormed(ts: seq<Token>)
    requires WellFormedRpn(ts)
    ensures Run([], ts).Success? ==> |Run([], ts).value| == 1 && CalculateStack(ts) == Success(Run([], ts).value[0])
    ensures Run([], ts).Failure? ==> CalculateStack(ts) == Failure(DivisionByZero)
  {
    RunSize(ts);
  }

  // ---------------------------------------------------------------------
  // When `calculateStack` has no result.

  /**
   * Starting from an empty stack, the stack is empty exactly while no
   * operand has been pushed: every operator before the first operand is
   * skipped, and an applied operator leaves one value for two.
   */
  lemma {:induction false} RunEmpty(ts: seq<Token>)
    ensures Operands(ts) == 0 ==> Run([], ts) == Success([])
    ensures Run([], ts).Success? ==> (|Run([], ts).value| == 0 <==> Operands(ts) == 0)
    decreases |ts|
  {
    if |ts| > 0 {
      RunEmpty(ts[..|ts| - 1]);
    }
  }

  /**
   * The verdict of `calculateStack`: no result exactly when the array holds
   * no operand; otherwise a failure only by dividing by zero, and else the
   * bottom value of the stack.
   */
  lemma CalculateStackVerdict(ts: seq<Token>)
    ensures CalculateStack(ts) == Failure(NoResult) <==> Operands(ts) == 0
    ensures CalculateStack(ts) == Failure(DivisionByZero) <==> Run([], ts).Failure?
    ensures CalculateStack(ts).Success? <==> Run([], ts).Success? && Operands(ts) > 0
  {
    RunEmpty(ts);
  }
}
