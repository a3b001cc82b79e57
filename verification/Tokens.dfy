/**
 * Shared vocabulary of the expression parser: the character classes the
 * parser tests its input against, the tokens that flow between its three
 * stages, the exceptions it raises and a failure-compatible result type.
 */
module Tokens {

  /** The four binary operators of the parser's operator list. */
  datatype Op = Add | Sub | Mul | Div

  /** A decimal digit character (the parser's list of number characters). */
  predicate IsNumber(c: char) {
    '0' <= c <= '9'
  }

  /** One of `+ - * /` (the parser's list of allowed operators). */
  predicate IsOperation(c: char) {
    c == '+' || c == '-' || c == '*' || c == '/'
  }

  /** A character that may start an expression: a digit or an opening bracket. */
  predicate IsValidFirstSymbol(c: char) {
    IsNumber(c) || c == '('
  }

  /** A character the tokenizer turns into (part of) a token; every other one is skipped. */
  predicate IsSymbol(c: char) {
    IsNumber(c) || IsOperation(c) || c == '(' || c == ')'
  }

  predicate IsDigits(s: string) {
    forall i :: 0 <= i < |s| ==> IsNumber(s[i])
  }

  /** The text of a number token: a non-empty run of decimal digits. */
  type Digits = s: string | |s| > 0 && IsDigits(s) witness "0"

  function OpChar(o: Op): (c: char)
    ensures IsOperation(c)
  {
    match o
    case Add => '+'
    case Sub => '-'
    case Mul => '*'
    case Div => '/'
  }

  function CharOp(c: char): (o: Op)
    requires IsOperation(c)
    ensures OpChar(o) == c
  {
    if c == '+' then Add
    else if c == '-' then Sub
    else if c == '*' then Mul
    else Div
  }

  /** The elements of the arrays the parser passes from stage to stage. */
  datatype Token = Num(digits: Digits) | Operator(op: Op) | LParen | RParen

  /** The string the parser stores for a token. */
  function Text(t: Token): (s: string)
    ensures |s| > 0
    ensures forall i :: 0 <= i < |s| ==> IsSymbol(s[i])
  {
    match t
    case Num(d) => d
    case Operator(o) => [OpChar(o)]
    case LParen => "("
    case RParen => ")"
  }

  /** The concatenation of the texts of a token sequence. */
  function Flatten(ts: seq<Token>): string
  {
    if |ts| == 0 then [] else Flatten(ts[..|ts| - 1]) + Text(ts[|ts| - 1])
  }

  /** The characters of `s` that the tokenizer keeps, in order. */
  function Symbols(s: string): string
  {
    if |s| == 0 then []
    else Symbols(s[..|s| - 1]) + (if IsSymbol(s[|s| - 1]) then [s[|s| - 1]] else [])
  }

  /** The tokens of `ts` that satisfy `p`, in order. */
  function Select(ts: seq<Token>, p: Token -> bool): seq<Token>
  {
    if |ts| == 0 then []
    else Select(ts[..|ts| - 1], p) + (if p(ts[|ts| - 1]) then [ts[|ts| - 1]] else [])
  }

  /** Concatenation regrouped to the left. */
  lemma Assoc<T>(a: seq<T>, b: seq<T>, c: seq<T>)
    ensures a + (b + c) == a + b + c
  {
  }

  predicate IsNumToken(t: Token) { t.Num? }
  predicate IsOpToken(t: Token) { t.Operator? }
  predicate IsBracket(t: Token) { t.LParen? || t.RParen? }

  lemma SelectSnoc(s: seq<Token>, t: Token, p: Token -> bool)
    ensures Select(s + [t], p) == Select(s, p) + (if p(t) then [t] else [])
  {
    assert (s + [t])[..|s|] == s;
  }

  lemma {:induction false} SelectAppend(a: seq<Token>, b: seq<Token>, p: Token -> bool)
    ensures Select(a + b, p) == Select(a, p) + Select(b, p)
    decreases |b|
  {
    if |b| == 0 {
      assert a + b == a;
    } else {
      var b' := b[..|b| - 1];
      assert (a + b)[..|a + b| - 1] == a + b';
      SelectAppend(a, b', p);
    }
  }

  lemma SelectFront(s: seq<Token>, p: Token -> bool)
    requires |s| > 0
    ensures Select(s, p) == (if p(s[0]) then [s[0]] else []) + Select(s[1..], p)
  {
    assert s == [s[0]] + s[1..];
    SelectAppend([s[0]], s[1..], p);
    SelectSnoc([], s[0], p);
    assert [] + [s[0]] == [s[0]];
  }

  lemma {:induction false} SelectNone(ts: seq<Token>, p: Token -> bool)
    requires forall i :: 0 <= i < |ts| ==> !p(ts[i])
    ensures Select(ts, p) == []
    decreases |ts|
  {
    if |ts| > 0 {
      SelectNone(ts[..|ts| - 1], p);
    }
  }

  /** The value PHP's `(int)` cast gives a digit string (no overflow). */
  function DigitsValue(d: string): nat
    requires IsDigits(d)
  {
    if |d| == 0 then 0
    else 10 * DigitsValue(d[..|d| - 1]) + (d[|d| - 1] as int - '0' as int)
  }

  /** The exceptions the parser throws, and the two PHP run-time failures of its evaluator. */
  datatype Error =
    | IncorrectFirstChar
    | InvalidSyntax
    | OpenBracketNotFound
    | UnclosedBracketFound
    | DivisionByZero
    | NoResult

  /** The message the parser attaches to each exception. */
  function Message(e: Error): string
  {
    match e
    case IncorrectFirstChar => "Incorrect first char"
    case InvalidSyntax => "Invalid syntax"
    case OpenBracketNotFound => "Open bracket not found"
    case UnclosedBracketFound => "Unclosed bracket found"
    case DivisionByZero => "Division by zero"
    case NoResult => "Undefined offset: 0"
  }

  /** Either the value a stage returns or the exception it throws. */
  datatype Result<+T> = Success(value: T) | Failure(error: Error) {

    predicate IsFailure() {
      Failure?
    }

    function PropagateFailure<U>(): Result<U>
      requires Failure?
    {
      Failure(error)
    }

    function Extract(): T
      requires Success?
    {
      value
    }
  }
}
