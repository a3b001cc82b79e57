/**
 * The second stage of the parser, `createStack`: converts the token array
 * to reverse Polish notation with an operator stack, as the code does it —
 * an incoming operator moves at most one operator from the stack to the
 * output, and the "closing bracket found" flag is never cleared once set.
 */
module Converter {
  import opened Tokens

  /** Binding strength: `*` and `/` bind tighter than `+` and `-`. */
  function Priority(o: Op): nat {
    if o == Add || o == Sub then 1 else 2
  }

  /**
   * `compareOperations`: whether the incoming operator `a` makes the
   * operator `b` on top of the stack move to the output first.
   */
  function CompareOperations(a: Op, b: Op): (r: bool)
    ensures r <==> Priority(a) <= Priority(b)
  {
    (a == Add || a == Sub) || ((a == Div || a == Mul) && (b == Div || b == Mul))
  }

  predicate NoOpenBracket(s: seq<Token>) {
    forall i :: 0 <= i < |s| ==> s[i] != LParen
  }

  /** What the operator stack may hold: operators and opening brackets. */
  predicate StackShaped(s: seq<Token>) {
    forall i :: 0 <= i < |s| ==> s[i].Operator? || s[i] == LParen
  }

  /**
   * The working state of `createStack`: the output array, the operator
   * stack with its top first, and the bracket flag.
   */
  datatype State = State(output: seq<Token>, stack: seq<Token>, closeBracketFound: bool)

  /** The outcome of popping towards an opening bracket. */
  datatype Popped = Popped(output: seq<Token>, stack: seq<Token>, found: bool)

  /**
   * The loop run on a closing bracket: every entry above the topmost `(`
   * moves to the output, top first, and the `(` itself is discarded; when
   * there is no `(` the whole stack is moved.
   */
  function PopToOpenBracket(out: seq<Token>, stack: seq<Token>): (r: Popped)
    ensures |out| <= |r.output| && r.output[..|out|] == out
    ensures |r.output| - |out| + |r.stack| + (if r.found then 1 else 0) == |stack|
    ensures !r.found ==> r.stack == []
    decreases |stack|
  {
    if |stack| == 0 then Popped(out, [], false)
    else if stack[0] != LParen then
      var r := PopToOpenBracket(out + [stack[0]], stack[1..]);
      assert r.output[..|out|] == r.output[..|out| + 1][..|out|];
      r
    else Popped(out, stack[1..], true)
  }

  /**
   * What the popping loop computes: when a `(` is found, the entries above
   * the topmost `(` (none of them a `(`) are appended to the output top
   * first and the stack keeps what lies below it; otherwise there is no `(`
   * anywhere, the whole stack is appended and the stack ends empty.
   */
  lemma {:induction false} PopToOpenBracketSpec(out: seq<Token>, stack: seq<Token>)
    ensures var r := PopToOpenBracket(out, stack);
      r.found ==>
        && |r.stack| < |stack|
        && stack[|stack| - |r.stack| - 1] == LParen
        && r.stack == stack[|stack| - |r.stack|..]
        && NoOpenBracket(stack[..|stack| - |r.stack| - 1])
        && r.output == out + stack[..|stack| - |r.stack| - 1]
    ensures var r := PopToOpenBracket(out, stack);
      !r.found ==> r.stack == [] && NoOpenBracket(stack) && r.output == out + stack
    decreases |stack|
  {
    if |stack| > 0 {
      if stack[0] != LParen {
        PopToOpenBracketSpec(out + [stack[0]], stack[1..]);
        PopStep(out, stack, PopToOpenBracket(out + [stack[0]], stack[1..]));
      } else {
        assert stack[..0] == [];
      }
    }
  }

  lemma PopStep(out: seq<Token>, stack: seq<Token>, r: Popped)
    requires |stack| > 0 && stack[0] != LParen
    requires r.found ==>
      && |r.stack| < |stack| - 1
      && stack[1..][|stack| - 1 - |r.stack| - 1] == LParen
      && r.stack == stack[1..][|stack| - 1 - |r.stack|..]
      && NoOpenBracket(stack[1..][..|stack| - 1 - |r.stack| - 1])
      && r.output == out + [stack[0]] + stack[1..][..|stack| - 1 - |r.stack| - 1]
    requires !r.found ==> r.stack == [] && NoOpenBracket(stack[1..]) && r.output == out + [stack[0]] + stack[1..]
    ensures r.found ==>
      && |r.stack| < |stack|
      && stack[|stack| - |r.stack| - 1] == LParen
      && r.stack == stack[|stack| - |r.stack|..]
      && NoOpenBracket(stack[..|stack| - |r.stack| - 1])
      && r.output == out + stack[..|stack| - |r.stack| - 1]
    ensures !r.found ==> r.stack == [] && NoOpenBracket(stack) && r.output == out + stack
  {
    var rest := stack[1..];
    assert stack == [stack[0]] + rest;
    if r.found {
      var k := |stack| - |r.stack| - 1;
      assert stack[..k] == [stack[0]] + rest[..k - 1];
      assert NoOpenBracket(stack[..k]) by {
        forall i | 0 <= i < k ensures stack[..k][i] != LParen {
          if i > 0 {
            assert stack[..k][i] == rest[..k - 1][i - 1];
          }
        }
      }
    } else {
      assert NoOpenBracket(stack) by {
        forall i | 0 <= i < |stack| ensures stack[i] != LParen {
          if i > 0 {
            assert stack[i] == rest[i - 1];
          }
        }
      }
    }
  }

  /** One iteration of the conversion loop on the token `t`. */
  function Step(st: State, t: Token): (r: Result<State>)
    ensures !t.RParen? ==> r.Success? && r.value.closeBracketFound == st.closeBracketFound
    ensures t.Num? ==> r.value.output == st.output + [t] && r.value.stack == st.stack
    ensures t.LParen? ==> r.value.output == st.output && r.value.stack == [t] + st.stack
    ensures t.Operator? ==>
      if |st.stack| > 0 && st.stack[0].Operator? && CompareOperations(t.op, st.stack[0].op)
      then r.value.output == st.output + [st.stack[0]] && r.value.stack == [t] + st.stack[1..]
      else r.value.output == st.output && r.value.stack == [t] + st.stack
    ensures t.RParen? ==> (r.Failure? <==> !st.closeBracketFound && NoOpenBracket(st.stack))
    ensures t.RParen? && r.Failure? ==> r.error == OpenBracketNotFound
    ensures t.RParen? && r.Success? ==> r.value.closeBracketFound
  {
    match t
    case Num(_) => Success(st.(output := st.output + [t]))
    case Operator(o) =>
      if |st.stack| > 0 && st.stack[0].Operator? && CompareOperations(o, st.stack[0].op) then
        Success(st.(output := st.output + [st.stack[0]], stack := [t] + st.stack[1..]))
      else
        Success(st.(stack := [t] + st.stack))
    case LParen => Success(st.(stack := [t] + st.stack))
    case RParen =>
      PopToOpenBracketSpec(st.output, st.stack);
      var p := PopToOpenBracket(st.output, st.stack);
      var found := st.closeBracketFound || p.found;
      if !found then Failure(OpenBracketNotFound)
      else Success(State(p.output, p.stack, found))
  }

  /**
   * A `)` that does not throw moves the entries above the topmost `(` to
   * the output, top first, and drops that `(`; with no `(` on the stack it
   * moves the whole stack. Either way the flag ends up set.
   */
  lemma StepClose(st: State)
    ensures var r := Step(st, RParen);
      r.Success? && NoOpenBracket(st.stack) ==>
        r.value == State(st.output + st.stack, [], true)
    ensures var r := Step(st, RParen);
      !NoOpenBracket(st.stack) ==>
        && r.Success?
        && exists k :: 0 <= k < |st.stack| && st.stack[k] == LParen && NoOpenBracket(st.stack[..k]) &&
             r.value == State(st.output + st.stack[..k], st.stack[k + 1..], true)
  {
    PopToOpenBracketSpec(st.output, st.stack);
    var p := PopToOpenBracket(st.output, st.stack);
    if p.found {
      var k := |st.stack| - |p.stack| - 1;
      assert st.stack[k + 1..] == p.stack;
    }
  }

  /**
   * The conversion loop over `ts`, starting from the state `st`. Only a
   * `)` can throw, and what it throws is "Open bracket not found".
   */
  function ShuntFrom(st: State, ts: seq<Token>): (r: Result<State>)
    ensures r.Failure? ==> r.error == OpenBracketNotFound
  {
    if |ts| == 0 then Success(st)
    else
      var s :- ShuntFrom(st, ts[..|ts| - 1]);
      Step(s, ts[|ts| - 1])
  }

  /**
   * The conversion loop over all of `ts`, before the final drain: it
   * starts from an empty output, an empty stack and a clear flag.
   */
  function Shunt(ts: seq<Token>): Result<State>
  {
    ShuntFrom(State([], [], false), ts)
  }

  /** Consuming one more token is one iteration of the loop. */
  lemma ShuntSnoc(ts: seq<Token>, t: Token)
    ensures Shunt(ts + [t]) == match Shunt(ts)
                                 case Failure(e) => Failure(e)
                                 case Success(st) => Step(st, t)
  {
    assert (ts + [t])[..|ts|] == ts;
  }

  /**
   * The final drain: the remaining entries move to the output, top first,
   * unless a bracket is left among them.
   */
  function Drain(out: seq<Token>, stack: seq<Token>): (r: Result<seq<Token>>)
    ensures r.Success? <==> forall i :: 0 <= i < |stack| ==> !IsBracket(stack[i])
    ensures r.Success? ==> r.value == out + stack
    ensures r.Failure? ==> r.error == UnclosedBracketFound
    decreases |stack|
  {
    if |stack| == 0 then Success(out)
    else if stack[0] == LParen || stack[0] == RParen then Failure(UnclosedBracketFound)
    else
      var r := Drain(out + [stack[0]], stack[1..]);
      assert forall i :: 1 <= i < |stack| ==> stack[1..][i - 1] == stack[i];
      assert stack == [stack[0]] + stack[1..];
      r
  }

  /** `createStack`: the reverse Polish form of a token array, or one of the two bracket exceptions. */
  function CreateStack(ts: seq<Token>): (r: Result<seq<Token>>)
    ensures r.Failure? ==> r.error == OpenBracketNotFound || r.error == UnclosedBracketFound
  {
    var st :- Shunt(ts);
    Drain(st.output, st.stack)
  }

  // ---------------------------------------------------------------------
  // A bracket counter, independent of the operator stack.

  /** The number of `(` on the operator stack after `ts`: a `)` consumes one when there is one. */
  function Depth(ts: seq<Token>): nat
  {
    if |ts| == 0 then 0
    else
      var d := Depth(ts[..|ts| - 1]);
      match ts[|ts| - 1]
      case LParen => d + 1
      case RParen => if d > 0 then d - 1 else 0
      case _ => d
  }

  /** Some `)` of `ts` met an unclosed `(`. */
  predicate Matched(ts: seq<Token>)
  {
    if |ts| == 0 then false
    else Matched(ts[..|ts| - 1]) || (ts[|ts| - 1] == RParen && Depth(ts[..|ts| - 1]) > 0)
  }

  /** Some `)` of `ts` met no unclosed `(` before any `)` had matched one. */
  predicate HasStrayClose(ts: seq<Token>)
  {
    if |ts| == 0 then false
    else
      var init := ts[..|ts| - 1];
      HasStrayClose(init) || (ts[|ts| - 1] == RParen && Depth(init) == 0 && !Matched(init))
  }

  predicate IsOpenBracket(t: Token) { t.LParen? }

  /** The output so far holds no brackets and every number consumed, in order. */
  predicate OutputInv(ts: seq<Token>, st: State) {
    Select(st.output, IsBracket) == [] && Select(st.output, IsNumToken) == Select(ts, IsNumToken)
  }

  /** Every operator consumed is in the output or on the stack. */
  predicate OperatorInv(ts: seq<Token>, st: State) {
    multiset(Select(st.output, IsOpToken)) + multiset(Select(st.stack, IsOpToken)) == multiset(Select(ts, IsOpToken))
  }

  /** The stack holds as many `(` as the bracket counter says, and the flag says whether a `)` matched. */
  predicate BracketInv(ts: seq<Token>, st: State) {
    |Select(st.stack, IsOpenBracket)| == Depth(ts) && st.closeBracketFound == Matched(ts)
  }

  /** What the conversion loop keeps true of the tokens consumed so far. */
  predicate Conserves(ts: seq<Token>, st: State) {
    StackShaped(st.stack) && OutputInv(ts, st) && OperatorInv(ts, st) && BracketInv(ts, st)
  }

  /** A segment without `(` taken from a shaped stack holds only operators. */
  lemma OperatorsOnly(seg: seq<Token>)
    requires StackShaped(seg) && NoOpenBracket(seg)
    ensures Select(seg, IsBracket) == []
    ensures Select(seg, IsNumToken) == []
    ensures Select(seg, IsOpenBracket) == []
  {
    SelectNone(seg, IsBracket);
    SelectNone(seg, IsNumToken);
    SelectNone(seg, IsOpenBracket);
  }

  lemma ShapedPush(t: Token, s: seq<Token>)
    requires t.Operator? || t == LParen
    requires StackShaped(s)
    ensures StackShaped([t] + s)
  {
    forall i | 0 <= i < |[t] + s| ensures ([t] + s)[i].Operator? || ([t] + s)[i] == LParen {
      if i > 0 {
        assert ([t] + s)[i] == s[i - 1];
      }
    }
  }

  lemma ShapedSlice(s: seq<Token>, i: nat, j: nat)
    requires StackShaped(s) && i <= j <= |s|
    ensures StackShaped(s[i..j])
  {
    forall k | 0 <= k < j - i ensures s[i..j][k].Operator? || s[i..j][k] == LParen {
      assert s[i..j][k] == s[i + k];
    }
  }

  /** How the bracket counter and the matched flag change with one more token. */
  lemma DepthSnoc(ts: seq<Token>, t: Token)
    ensures !IsBracket(t) ==> Depth(ts + [t]) == Depth(ts) && Matched(ts + [t]) == Matched(ts)
    ensures t == LParen ==> Depth(ts + [t]) == Depth(ts) + 1 && Matched(ts + [t]) == Matched(ts)
    ensures t == RParen ==> Matched(ts + [t]) == (Matched(ts) || Depth(ts) > 0)
    ensures t == RParen ==> Depth(ts + [t]) == if Depth(ts) > 0 then Depth(ts) - 1 else 0
  {
    assert (ts + [t])[..|ts|] == ts;
  }

  /**
   * A `)` that finds a `(` splits the stack into the operators above it,
   * the `(` itself and the rest, which stays.
   */
  lemma OpenSplit(out: seq<Token>, stack: seq<Token>) returns (seg: seq<Token>)
    requires StackShaped(stack)
    requires PopToOpenBracket(out, stack).found
    ensures stack == seg + [LParen] + PopToOpenBracket(out, stack).stack
    ensures PopToOpenBracket(out, stack).output == out + seg
    ensures StackShaped(seg) && NoOpenBracket(seg)
    ensures StackShaped(PopToOpenBracket(out, stack).stack)
  {
    PopToOpenBracketSpec(out, stack);
    var p := PopToOpenBracket(out, stack);
    var k := |stack| - |p.stack| - 1;
    seg := stack[..k];
    assert stack[..k] + [stack[k]] == stack[..k + 1];
    assert stack[..k + 1] + stack[k + 1..] == stack;
    ShapedSlice(stack, 0, k);
    ShapedSlice(stack, k + 1, |stack|);
  }

  lemma StepShape(st: State, t: Token)
    requires StackShaped(st.stack)
    ensures Step(st, t).Success? ==> StackShaped(Step(st, t).value.stack)
  {
    match t
    case Num(_) =>
    case LParen => ShapedPush(t, st.stack);
    case Operator(o) =>
      if |st.stack| > 0 && st.stack[0].Operator? && CompareOperations(o, st.stack[0].op) {
        ShapedSlice(st.stack, 1, |st.stack|);
        ShapedPush(t, st.stack[1..]);
      } else {
        ShapedPush(t, st.stack);
      }
    case RParen =>
      PopToOpenBracketSpec(st.output, st.stack);
      if PopToOpenBracket(st.output, st.stack).found {
        var seg := OpenSplit(st.output, st.stack);
      }
  }

  // One lemma per kind of iteration, for each part of the invariant.

  lemma OutputNum(ts: seq<Token>, t: Token, st: State)
    requires OutputInv(ts, st) && t.Num?
    ensures OutputInv(ts + [t], st.(output := st.output + [t]))
  {
    SelectSnoc(ts, t, IsNumToken);
    SelectSnoc(st.output, t, IsBracket);
    SelectSnoc(st.output, t, IsNumToken);
  }

  lemma OutputPush(ts: seq<Token>, t: Token, st: State)
    requires OutputInv(ts, st) && (t.Operator? || t == LParen)
    ensures OutputInv(ts + [t], st.(stack := [t] + st.stack))
  {
    SelectSnoc(ts, t, IsNumToken);
  }

  lemma OutputMoveTop(ts: seq<Token>, t: Token, st: State)
    requires OutputInv(ts, st) && t.Operator? && |st.stack| > 0 && st.stack[0].Operator?
    ensures OutputInv(ts + [t], State(st.output + [st.stack[0]], [t] + st.stack[1..], st.closeBracketFound))
  {
    SelectSnoc(ts, t, IsNumToken);
    SelectSnoc(st.output, st.stack[0], IsBracket);
    SelectSnoc(st.output, st.stack[0], IsNumToken);
  }

  lemma OutputClose(ts: seq<Token>, st: State)
    requires StackShaped(st.stack) && OutputInv(ts, st)
    ensures var p := PopToOpenBracket(st.output, st.stack);
      OutputInv(ts + [RParen], State(p.output, p.stack, true))
  {
    SelectSnoc(ts, RParen, IsNumToken);
    PopToOpenBracketSpec(st.output, st.stack);
    if PopToOpenBracket(st.output, st.stack).found {
      var seg := OpenSplit(st.output, st.stack);
      OperatorsOnly(seg);
      SelectAppend(st.output, seg, IsBracket);
      SelectAppend(st.output, seg, IsNumToken);
    } else {
      OperatorsOnly(st.stack);
      SelectAppend(st.output, st.stack, IsBracket);
      SelectAppend(st.output, st.stack, IsNumToken);
    }
  }

  lemma StepOutput(ts: seq<Token>, t: Token, st: State)
    requires StackShaped(st.stack) && OutputInv(ts, st)
    ensures Step(st, t).Success? ==> OutputInv(ts + [t], Step(st, t).value)
  {
    match t
    case Num(_) => OutputNum(ts, t, st);
    case LParen => OutputPush(ts, t, st);
    case Operator(o) =>
      if |st.stack| > 0 && st.stack[0].Operator? && CompareOperations(o, st.stack[0].op) {
        OutputMoveTop(ts, t, st);
      } else {
        OutputPush(ts, t, st);
      }
    case RParen => OutputClose(ts, st);
  }

  lemma OperatorsNum(ts: seq<Token>, t: Token, st: State)
    requires OperatorInv(ts, st) && t.Num?
    ensures OperatorInv(ts + [t], st.(output := st.output + [t]))
  {
    SelectSnoc(ts, t, IsOpToken);
    SelectSnoc(st.output, t, IsOpToken);
  }

  lemma OperatorsOpen(ts: seq<Token>, st: State)
    requires OperatorInv(ts, st)
    ensures OperatorInv(ts + [LParen], st.(stack := [LParen] + st.stack))
  {
    SelectSnoc(ts, LParen, IsOpToken);
    SelectFront([LParen] + st.stack, IsOpToken);
    assert ([LParen] + st.stack)[1..] == st.stack;
  }

  lemma OperatorsPush(ts: seq<Token>, t: Token, st: State)
    requires OperatorInv(ts, st) && t.Operator?
    ensures OperatorInv(ts + [t], st.(stack := [t] + st.stack))
  {
    var so := Select(st.output, IsOpToken);
    var ss := Select(st.stack, IsOpToken);
    SelectSnoc(ts, t, IsOpToken);
    SelectFront([t] + st.stack, IsOpToken);
    assert ([t] + st.stack)[1..] == st.stack;
    assert multiset([t] + ss) == multiset{t} + multiset(ss);
    assert multiset(Select(ts, IsOpToken) + [t]) == multiset(Select(ts, IsOpToken)) + multiset{t};
  }

  lemma OperatorsMoveTop(ts: seq<Token>, t: Token, st: State)
    requires OperatorInv(ts, st) && t.Operator? && |st.stack| > 0 && st.stack[0].Operator?
    ensures OperatorInv(ts + [t], State(st.output + [st.stack[0]], [t] + st.stack[1..], st.closeBracketFound))
  {
    var top, rest := st.stack[0], st.stack[1..];
    var so, sr, sts := Select(st.output, IsOpToken), Select(rest, IsOpToken), Select(ts, IsOpToken);
    SelectSnoc(ts, t, IsOpToken);
    SelectSnoc(st.output, top, IsOpToken);
    SelectFront(st.stack, IsOpToken);
    SelectFront([t] + rest, IsOpToken);
    assert ([t] + rest)[1..] == rest;
    assert multiset(so) + multiset([top] + sr) == multiset(sts);
    BagMoveTop(so, top, sr, t, sts);
  }

  lemma OperatorsClose(ts: seq<Token>, st: State)
    requires StackShaped(st.stack) && OperatorInv(ts, st)
    ensures var p := PopToOpenBracket(st.output, st.stack);
      OperatorInv(ts + [RParen], State(p.output, p.stack, true))
  {
    SelectSnoc(ts, RParen, IsOpToken);
    PopToOpenBracketSpec(st.output, st.stack);
    var p := PopToOpenBracket(st.output, st.stack);
    if p.found {
      var seg := OpenSplit(st.output, st.stack);
      SelectSnoc(seg, LParen, IsOpToken);
      SelectAppend(st.output, seg, IsOpToken);
      SelectAppend(seg + [LParen], p.stack, IsOpToken);
      BagRegroup(Select(st.output, IsOpToken), Select(seg, IsOpToken), Select(p.stack, IsOpToken));
    } else {
      SelectAppend(st.output, st.stack, IsOpToken);
      assert Select([], IsOpToken) == [];
    }
  }

  lemma StepOperators(ts: seq<Token>, t: Token, st: State)
    requires StackShaped(st.stack) && OperatorInv(ts, st)
    ensures Step(st, t).Success? ==> OperatorInv(ts + [t], Step(st, t).value)
  {
    match t
    case Num(_) => OperatorsNum(ts, t, st);
    case LParen => OperatorsOpen(ts, st);
    case Operator(o) =>
      if |st.stack| > 0 && st.stack[0].Operator? && CompareOperations(o, st.stack[0].op) {
        OperatorsMoveTop(ts, t, st);
      } else {
        OperatorsPush(ts, t, st);
      }
    case RParen => OperatorsClose(ts, st);
  }

  lemma BagMoveTop(so: seq<Token>, top: Token, sr: seq<Token>, t: Token, sts: seq<Token>)
    requires multiset(so) + multiset([top] + sr) == multiset(sts)
    ensures multiset(so + [top]) + multiset([t] + sr) == multiset(sts + [t])
  {
    calc {
      multiset(so + [top]) + multiset([t] + sr);
      multiset(so) + multiset([top] + sr) + multiset{t};
      multiset(sts + [t]);
    }
  }

  lemma BagRegroup(so: seq<Token>, sg: seq<Token>, sp: seq<Token>)
    ensures multiset(so + sg) + multiset(sp) == multiset(so) + multiset(sg + sp)
  {
  }

  lemma BracketsNum(ts: seq<Token>, t: Token, st: State)
    requires BracketInv(ts, st) && t.Num?
    ensures BracketInv(ts + [t], st.(output := st.output + [t]))
  {
    DepthSnoc(ts, t);
  }

  lemma BracketsPush(ts: seq<Token>, t: Token, st: State)
    requires BracketInv(ts, st) && (t.Operator? || t == LParen)
    ensures BracketInv(ts + [t], st.(stack := [t] + st.stack))
  {
    DepthSnoc(ts, t);
    SelectFront([t] + st.stack, IsOpenBracket);
    assert ([t] + st.stack)[1..] == st.stack;
  }

  lemma BracketsMoveTop(ts: seq<Token>, t: Token, st: State)
    requires BracketInv(ts, st) && t.Operator? && |st.stack| > 0 && st.stack[0].Operator?
    ensures BracketInv(ts + [t], State(st.output + [st.stack[0]], [t] + st.stack[1..], st.closeBracketFound))
  {
    DepthSnoc(ts, t);
    SelectFront(st.stack, IsOpenBracket);
    SelectFront([t] + st.stack[1..], IsOpenBracket);
    assert ([t] + st.stack[1..])[1..] == st.stack[1..];
  }

  lemma BracketsClose(ts: seq<Token>, st: State)
    requires StackShaped(st.stack) && BracketInv(ts, st)
    ensures PopToOpenBracket(st.output, st.stack).found <==> Depth(ts) > 0
    ensures var p := PopToOpenBracket(st.output, st.stack);
      st.closeBracketFound || p.found ==> BracketInv(ts + [RParen], State(p.output, p.stack, true))
  {
    DepthSnoc(ts, RParen);
    PopToOpenBracketSpec(st.output, st.stack);
    var p := PopToOpenBracket(st.output, st.stack);
    if p.found {
      var seg := OpenSplit(st.output, st.stack);
      OperatorsOnly(seg);
      SelectSnoc(seg, LParen, IsOpenBracket);
      SelectAppend(seg + [LParen], p.stack, IsOpenBracket);
    } else {
      OperatorsOnly(st.stack);
      assert Select([], IsOpenBracket) == [];
    }
  }

  lemma StepBrackets(ts: seq<Token>, t: Token, st: State)
    requires StackShaped(st.stack) && BracketInv(ts, st)
    ensures Step(st, t).Failure? <==> t == RParen && Depth(ts) == 0 && !Matched(ts)
    ensures Step(st, t).Success? ==> BracketInv(ts + [t], Step(st, t).value)
  {
    match t
    case Num(_) => BracketsNum(ts, t, st);
    case LParen => BracketsPush(ts, t, st);
    case Operator(o) =>
      if |st.stack| > 0 && st.stack[0].Operator? && CompareOperations(o, st.stack[0].op) {
        BracketsMoveTop(ts, t, st);
      } else {
        BracketsPush(ts, t, st);
      }
    case RParen => BracketsClose(ts, st);
  }

  lemma StepConserves(ts: seq<Token>, t: Token, st: State)
    requires Conserves(ts, st)
    ensures Step(st, t).Failure? <==> t == RParen && Depth(ts) == 0 && !Matched(ts)
    ensures Step(st, t).Success? ==> Conserves(ts + [t], Step(st, t).value)
  {
    StepShape(st, t);
    StepOutput(ts, t, st);
    StepOperators(ts, t, st);
    StepBrackets(ts, t, st);
  }

  /**
   * The conversion loop conserves its input: output plus stack hold the
   * numbers in input order and every operator, the stack's `(` count is the
   * bracket counter, and the loop fails exactly at a stray `)`.
   */
  lemma {:induction false} ShuntConserves(ts: seq<Token>)
    ensures Shunt(ts).Failure? <==> HasStrayClose(ts)
    ensures Shunt(ts).Failure? ==> Shunt(ts).error == OpenBracketNotFound
    ensures Shunt(ts).Success? ==> Conserves(ts, Shunt(ts).value)
    decreases |ts|
  {
    if |ts| > 0 {
      var init := ts[..|ts| - 1];
      ShuntConserves(init);
      if Shunt(init).Success? {
        assert init + [ts[|ts| - 1]] == ts;
        StepConserves(init, ts[|ts| - 1], Shunt(init).value);
      }
    }
  }

  /** On a shaped stack, a bracket is present exactly when some `(` is. */
  lemma {:induction false} OpenCountZero(s: seq<Token>)
    requires StackShaped(s)
    ensures |Select(s, IsOpenBracket)| == 0 <==> forall i :: 0 <= i < |s| ==> !IsBracket(s[i])
    decreases |s|
  {
    if |s| > 0 {
      var init := s[..|s| - 1];
      ShapedSlice(s, 0, |s| - 1);
      OpenCountZero(init);
      if |Select(s, IsOpenBracket)| == 0 {
        forall i | 0 <= i < |s| ensures !IsBracket(s[i]) {
          if i < |s| - 1 {
            assert s[i] == init[i];
          }
        }
      }
    }
  }

  /** Every token is a number, an operator or a bracket. */
  lemma {:induction false} SelectPartition(s: seq<Token>)
    ensures |s| == |Select(s, IsNumToken)| + |Select(s, IsOpToken)| + |Select(s, IsBracket)|
    decreases |s|
  {
    if |s| > 0 {
      SelectPartition(s[..|s| - 1]);
    }
  }

  lemma {:induction false} SelectEmpty(s: seq<Token>, p: Token -> bool)
    requires Select(s, p) == []
    ensures forall i :: 0 <= i < |s| ==> !p(s[i])
    decreases |s|
  {
    if |s| > 0 {
      var init := s[..|s| - 1];
      assert |Select(s, p)| == |Select(init, p)| + (if p(s[|s| - 1]) then 1 else 0);
      SelectEmpty(init, p);
      forall i | 0 <= i < |s| ensures !p(s[i]) {
        if i < |s| - 1 {
          assert s[i] == init[i];
        }
      }
    }
  }

  /**
   * The verdict of `createStack`: "Open bracket not found" exactly when a
   * `)` meets no unclosed `(` before any `)` has matched one; otherwise
   * "Unclosed bracket found" exactly when the bracket counter ends above
   * zero; otherwise success.
   */
  lemma CreateStackVerdict(ts: seq<Token>)
    ensures CreateStack(ts) == Failure(OpenBracketNotFound) <==> HasStrayClose(ts)
    ensures CreateStack(ts) == Failure(UnclosedBracketFound) <==> !HasStrayClose(ts) && Depth(ts) > 0
    ensures CreateStack(ts).Success? <==> !HasStrayClose(ts) && Depth(ts) == 0
  {
    ShuntConserves(ts);
    if Shunt(ts).Success? {
      OpenCountZero(Shunt(ts).value.stack);
    }
  }

  /**
   * What `createStack` conserves: its output holds no bracket, the numbers
   * of its input in the same order, the same operators, and so has the
   * input's length less its brackets.
   */
  lemma CreateStackConserves(ts: seq<Token>)
    ensures CreateStack(ts).Success? ==>
      var out := CreateStack(ts).value;
      && (forall i :: 0 <= i < |out| ==> out[i].Num? || out[i].Operator?)
      && Select(out, IsNumToken) == Select(ts, IsNumToken)
      && multiset(Select(out, IsOpToken)) == multiset(Select(ts, IsOpToken))
      && |out| == |ts| - |Select(ts, IsBracket)|
  {
    ShuntConserves(ts);
    if CreateStack(ts).Success? {
      var st := Shunt(ts).value;
      var out := CreateStack(ts).value;
      assert out == st.output + st.stack;
      OpenCountZero(st.stack);
      assert NoOpenBracket(st.stack);
      OperatorsOnly(st.stack);
      SelectAppend(st.output, st.stack, IsBracket);
      SelectAppend(st.output, st.stack, IsNumToken);
      SelectAppend(st.output, st.stack, IsOpToken);
      SelectEmpty(out, IsBracket);
      SelectPartition(out);
      SelectPartition(ts);
      assert |multiset(Select(out, IsOpToken))| == |Select(out, IsOpToken)|;
      assert |multiset(Select(ts, IsOpToken))| == |Select(ts, IsOpToken)|;
    }
  }

  predicate IsCloseBracket(t: Token) { t.RParen? }

  /** Conventionally nested brackets: no prefix closes more than it opens, and all are closed. */
  predicate Balanced(ts: seq<Token>) {
    && (forall k :: 0 <= k <= |ts| ==> |Select(ts[..k], IsCloseBracket)| <= |Select(ts[..k], IsOpenBracket)|)
    && |Select(ts, IsCloseBracket)| == |Select(ts, IsOpenBracket)|
  }

  lemma {:induction false} PrefixDepth(ts: seq<Token>)
    requires forall k :: 0 <= k <= |ts| ==> |Select(ts[..k], IsCloseBracket)| <= |Select(ts[..k], IsOpenBracket)|
    ensures Depth(ts) == |Select(ts, IsOpenBracket)| - |Select(ts, IsCloseBracket)|
    ensures !HasStrayClose(ts)
    decreases |ts|
  {
    if |ts| > 0 {
      var init := ts[..|ts| - 1];
      forall k | 0 <= k <= |init|
        ensures |Select(init[..k], IsCloseBracket)| <= |Select(init[..k], IsOpenBracket)|
      {
        assert init[..k] == ts[..k];
      }
      PrefixDepth(init);
      assert ts[..|ts|] == ts;
    }
  }

  /** Conventionally nested brackets never make `createStack` throw. */
  lemma BalancedConverts(ts: seq<Token>)
    requires Balanced(ts)
    ensures CreateStack(ts).Success?
  {
    PrefixDepth(ts);
    CreateStackVerdict(ts);
  }

  // ---------------------------------------------------------------------
  // The conversion loop resumed part-way.

  /** Resuming on `a + b` is resuming on `a` and then on `b`. */
  lemma {:induction false} ShuntFromAppend(st: State, a: seq<Token>, b: seq<Token>)
    ensures ShuntFrom(st, a + b) == match ShuntFrom(st, a)
                                      case Failure(e) => Failure(e)
                                      case Success(s) => ShuntFrom(s, b)
    decreases |b|
  {
    if |b| == 0 {
      assert a + b == a;
    } else {
      var b' := b[..|b| - 1];
      assert (a + b)[..|a + b| - 1] == a + b';
      ShuntFromAppend(st, a, b');
    }
  }
}
