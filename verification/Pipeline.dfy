/**
 * The three stages run one after the other, as the parser's callers do:
 * tokenize, convert to reverse Polish notation, evaluate. The main result
 * is that a fully bracketed expression comes out with its value.
 */
module Pipeline {
  import opened Tokens
  import opened Tokenizer
  import opened Converter
  import opened Evaluator

  /**
   * The value of an expression string, or the first exception any stage
   * raises. An empty string tokenizes and converts to nothing and so has
   * no value.
   */
  function Calculate(s: string): (r: Result<real>)
    ensures |s| == 0 ==> r == Failure(NoResult)
    ensures |s| > 0 && !IsValidFirstSymbol(s[0]) ==> r == Failure(IncorrectFirstChar)
    ensures |s| > 0 && IsValidFirstSymbol(s[0]) && HasViolation(s) ==> r == Failure(InvalidSyntax)
  {
    ConvertToArrayVerdict(s);
    var ts :- ConvertToArray(s);
    var rpn :- CreateStack(ts);
    CalculateStack(rpn)
  }

  /** An expression written out with a pair of brackets around every operation. */
  function Infix(e: Expr): string
  {
    match e
    case Lit(d) => d
    case Bin(o, l, r) => "(" + Infix(l) + [OpChar(o)] + Infix(r) + ")"
  }

  /** The tokens of a fully bracketed expression. */
  function InfixTokens(e: Expr): seq<Token>
  {
    match e
    case Lit(d) => [Num(d)]
    case Bin(o, l, r) => [LParen] + InfixTokens(l) + [Operator(o)] + InfixTokens(r) + [RParen]
  }

  /** A fully bracketed expression starts with a digit or `(` and ends with a digit or `)`. */
  lemma InfixEnds(e: Expr)
    ensures |Infix(e)| > 0
    ensures IsValidFirstSymbol(Infix(e)[0])
    ensures IsNumber(Infix(e)[|Infix(e)| - 1]) || Infix(e)[|Infix(e)| - 1] == ')'
  {
  }

  lemma OpCharRoundTrip(o: Op)
    ensures CharOp(OpChar(o)) == o
  {
  }

  /** An opening bracket followed by a fully bracketed expression. */
  lemma ScanOpenOperand(ts: seq<Token>, prev: char, l: Expr)
    requires !IsNumber(prev) && prev != ')'
    requires Scan(ts + [LParen], '(', Infix(l)) == Success(ts + [LParen] + InfixTokens(l))
    ensures Scan(ts, prev, "(" + Infix(l)) == Success(ts + [LParen] + InfixTokens(l))
  {
    var p1 := "(";
    assert p1[..0] == [];
    assert Scan(ts, prev, p1) == Success(ts + [LParen]);
    ScanAppend(ts, prev, p1, Infix(l));
  }

  /** An operator after a digit or `)` becomes an operator token. */
  lemma ScanOperator(ts: seq<Token>, prev: char, a: string, us: seq<Token>, o: Op)
    requires IsNumber(prev) ==> |ts| > 0 && ts[|ts| - 1].Num?
    requires |a| > 0 && (IsNumber(a[|a| - 1]) || a[|a| - 1] == ')')
    requires Scan(ts, prev, a) == Success(us)
    ensures Scan(ts, prev, a + [OpChar(o)]) == Success(us + [Operator(o)])
  {
    ScanSnoc(ts, prev, a, OpChar(o));
    OpCharRoundTrip(o);
  }

  /** A closing bracket after a digit or `)` becomes a closing bracket token. */
  lemma ScanClose(ts: seq<Token>, prev: char, a: string, us: seq<Token>)
    requires IsNumber(prev) ==> |ts| > 0 && ts[|ts| - 1].Num?
    requires |a| > 0 && (IsNumber(a[|a| - 1]) || a[|a| - 1] == ')')
    requires Scan(ts, prev, a) == Success(us)
    ensures Scan(ts, prev, a + ")") == Success(us + [RParen])
  {
    ScanSnoc(ts, prev, a, ')');
    assert ")" == [')'];
  }

  /** A fully bracketed expression after its operator. */
  lemma ScanOperand(ts: seq<Token>, prev: char, a: string, us: seq<Token>, o: Op, r: Expr)
    requires IsNumber(prev) ==> |ts| > 0 && ts[|ts| - 1].Num?
    requires |a| > 0 && a[|a| - 1] == OpChar(o)
    requires Scan(ts, prev, a) == Success(us)
    requires Scan(us, OpChar(o), Infix(r)) == Success(us + InfixTokens(r))
    ensures Scan(ts, prev, a + Infix(r)) == Success(us + InfixTokens(r))
  {
    ScanAppend(ts, prev, a, Infix(r));
    assert LastChar(prev, a) == OpChar(o);
  }

  /** Scanning a fully bracketed expression after a non-digit other than `)` appends its tokens. */
  lemma {:induction false} ScanInfix(ts: seq<Token>, prev: char, e: Expr)
    requires !IsNumber(prev) && prev != ')'
    ensures Scan(ts, prev, Infix(e)) == Success(ts + InfixTokens(e))
    decreases e
  {
    match e
    case Lit(d) =>
      ScanDigits(ts, prev, d);
    case Bin(o, l, r) =>
      var c := OpChar(o);
      var p2 := "(" + Infix(l);
      var p3 := p2 + [c];
      var p4 := p3 + Infix(r);
      var u2 := ts + [LParen] + InfixTokens(l);
      var u3 := u2 + [Operator(o)];
      var u4 := u3 + InfixTokens(r);
      InfixEnds(l);
      InfixEnds(r);
      ScanInfix(ts + [LParen], '(', l);
      ScanOpenOperand(ts, prev, l);
      assert p2[|p2| - 1] == Infix(l)[|Infix(l)| - 1];
      ScanOperator(ts, prev, p2, u2, o);
      ScanInfix(u3, c, r);
      ScanOperand(ts, prev, p3, u3, o, r);
      assert p4[|p4| - 1] == Infix(r)[|Infix(r)| - 1];
      ScanClose(ts, prev, p4, u4);
      assert Infix(e) == p4 + ")";
      var lp, ltoks, op, rtoks := [LParen], InfixTokens(l), [Operator(o)], InfixTokens(r);
      Assoc(ts, lp + ltoks + op + rtoks, [RParen]);
      Assoc(ts, lp + ltoks + op, rtoks);
      Assoc(ts, lp + ltoks, op);
      Assoc(ts, lp, ltoks);
  }

  /** `convertToArray` on a fully bracketed expression yields exactly its tokens. */
  lemma ConvertInfix(e: Expr)
    ensures ConvertToArray(Infix(e)) == Success(InfixTokens(e))
  {
    var s := Infix(e);
    InfixEnds(e);
    assert IsValidFirstSymbol(s[0]);
    ConvertToArrayScan(s);
    ScanInfix([], ' ', e);
    assert [] + InfixTokens(e) == InfixTokens(e);
  }

  /** An opening bracket is pushed. */
  lemma ShuntOpen(st: State)
    ensures ShuntFrom(st, [LParen]) == Success(State(st.output, [LParen] + st.stack, st.closeBracketFound))
  {
    assert [LParen][..0] == [];
  }

  /** An operator arriving on an opening bracket is pushed. */
  lemma ShuntOperator(st: State, o: Op)
    requires |st.stack| > 0 && st.stack[0] == LParen
    ensures ShuntFrom(st, [Operator(o)]) == Success(State(st.output, [Operator(o)] + st.stack, st.closeBracketFound))
  {
    assert [Operator(o)][..0] == [];
  }

  /** A closing bracket on an operator above an opening bracket moves the operator out and drops the bracket. */
  lemma ShuntClose(out: seq<Token>, o: Op, below: seq<Token>, flag: bool)
    ensures ShuntFrom(State(out, [Operator(o)] + ([LParen] + below), flag), [RParen]) ==
      Success(State(out + [Operator(o)], below, true))
  {
    var stk := [Operator(o)] + ([LParen] + below);
    assert [RParen][..0] == [];
    assert stk[0] == Operator(o) && stk[1..] == [LParen] + below;
    assert ([LParen] + below)[1..] == below;
    assert PopToOpenBracket(out + [Operator(o)], [LParen] + below) == Popped(out + [Operator(o)], below, true);
  }

  /**
   * Converting the tokens of a fully bracketed expression appends its
   * postfix form to the output, leaves the stack as it was, and sets the
   * bracket flag when the expression has an operation.
   */
  lemma {:induction false} ShuntInfix(st: State, e: Expr)
    ensures ShuntFrom(st, InfixTokens(e)) ==
      Success(State(st.output + Postfix(e), st.stack, st.closeBracketFound || e.Bin?))
    decreases e
  {
    match e
    case Lit(d) =>
      assert InfixTokens(e)[..0] == [];
    case Bin(o, l, r) =>
      var t1 := [LParen];
      var t2 := t1 + InfixTokens(l);
      var t3 := t2 + [Operator(o)];
      var t4 := t3 + InfixTokens(r);
      assert InfixTokens(e) == t4 + [RParen];
      // the opening bracket
      var s1 := State(st.output, [LParen] + st.stack, st.closeBracketFound);
      ShuntOpen(st);
      // the left operand
      ShuntFromAppend(st, t1, InfixTokens(l));
      ShuntInfix(s1, l);
      var s2 := State(st.output + Postfix(l), [LParen] + st.stack, st.closeBracketFound || l.Bin?);
      // the operator, pushed onto the opening bracket
      ShuntFromAppend(st, t2, [Operator(o)]);
      ShuntOperator(s2, o);
      var s3 := State(s2.output, [Operator(o)] + s2.stack, s2.closeBracketFound);
      // the right operand
      ShuntFromAppend(st, t3, InfixTokens(r));
      ShuntInfix(s3, r);
      var s4 := State(s3.output + Postfix(r), s3.stack, s3.closeBracketFound || r.Bin?);
      // the closing bracket moves the operator out and drops the bracket
      ShuntFromAppend(st, t4, [RParen]);
      ShuntClose(s4.output, o, st.stack, s4.closeBracketFound);
      Assoc(st.output, Postfix(l) + Postfix(r), [Operator(o)]);
      Assoc(st.output, Postfix(l), Postfix(r));
      assert s4.output + [Operator(o)] == st.output + Postfix(e);
  }

  /** `createStack` on the tokens of a fully bracketed expression yields its postfix form. */
  lemma CreateStackInfix(e: Expr)
    ensures CreateStack(InfixTokens(e)) == Success(Postfix(e))
  {
    ShuntInfix(State([], [], false), e);
    assert [] + Postfix(e) == Postfix(e);
  }

  /**
   * End to end: a fully bracketed expression evaluates to the value of the
   * expression it writes out, division by zero included.
   */
  lemma CalculateInfix(e: Expr)
    ensures Calculate(Infix(e)) == Eval(e)
  {
    ConvertInfix(e);
    CreateStackInfix(e);
    CalculatePostfix(e);
  }
}
