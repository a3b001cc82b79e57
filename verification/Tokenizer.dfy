/**
 * The first stage of the parser, `convertToArray`: a single left-to-right
 * pass that groups digit runs into number tokens, emits each operator and
 * bracket as a token of its own, skips every other character, and checks
 * each character against the raw character just before it.
 */
module Tokenizer {
  import opened Tokens

  /** The token for an accepted first character. */
  function FirstToken(c: char): (t: Token)
    requires IsValidFirstSymbol(c)
    ensures Text(t) == [c]
  {
    if c == '(' then LParen else Num([c])
  }

  /**
   * The adjacency rules: `c` may not follow the raw character `prev` when
   * both are operators, when `c` is `(` after a digit or `)`, or when `c`
   * is `)` after anything but a digit or `)`.
   */
  predicate Violates(prev: char, c: char) {
    || (IsOperation(c) && IsOperation(prev))
    || (c == '(' && (IsNumber(prev) || prev == ')'))
    || (c == ')' && !(IsNumber(prev) || prev == ')'))
  }

  /** The symbols among the characters `c` (none or one). */
  function Kept(c: char): string {
    if IsSymbol(c) then [c] else []
  }

  /**
   * One iteration of the scanning loop for a character after the first:
   * `ts` holds the tokens so far and `prev` is the raw preceding character.
   */
  function Feed(ts: seq<Token>, prev: char, c: char): (r: Result<seq<Token>>)
    requires IsNumber(prev) ==> |ts| > 0 && ts[|ts| - 1].Num?
    ensures r.Failure? <==> Violates(prev, c)
    ensures r.Failure? ==> r.error == InvalidSyntax
    ensures r.Success? && IsNumber(c) ==> |r.value| > 0 && r.value[|r.value| - 1].Num?
    ensures r.Success? ==> |r.value| <= |ts| + 1
  {
    if IsNumber(c) then
      if IsNumber(prev) then
        var n := |ts| - 1;
        var d: Digits := ts[n].digits + [c];
        assert (ts[..n] + [Num(d)])[..n] == ts[..n];
        Success(ts[..n] + [Num(d)])
      else
        assert (ts + [Num([c])])[..|ts|] == ts;
        Success(ts + [Num([c])])
    else if IsOperation(c) then
      if IsOperation(prev) then Failure(InvalidSyntax)
      else
        assert (ts + [Operator(CharOp(c))])[..|ts|] == ts;
        Success(ts + [Operator(CharOp(c))])
    else if c == '(' then
      if IsNumber(prev) || prev == ')' then Failure(InvalidSyntax)
      else
        assert (ts + [LParen])[..|ts|] == ts;
        Success(ts + [LParen])
    else if c == ')' then
      if IsNumber(prev) || prev == ')' then
        assert (ts + [RParen])[..|ts|] == ts;
        Success(ts + [RParen])
      else Failure(InvalidSyntax)
    else
      Success(ts)
  }

  /** Appending a token appends its text. */
  lemma FlattenSnoc(ts: seq<Token>, t: Token)
    ensures Flatten(ts + [t]) == Flatten(ts) + Text(t)
  {
    assert (ts + [t])[..|ts|] == ts;
  }

  /** Extending the last number token by a digit appends that digit to the text. */
  lemma ExtendText(ts: seq<Token>, c: char)
    requires |ts| > 0 && ts[|ts| - 1].Num? && IsNumber(c)
    ensures var n := |ts| - 1; Flatten(ts[..n] + [Num(ts[n].digits + [c])]) == Flatten(ts) + [c]
  {
    var n := |ts| - 1;
    var pre, last := ts[..n], ts[n];
    var d: Digits := last.digits + [c];
    assert Flatten(ts) == Flatten(pre) + Text(last);
    FlattenSnoc(pre, Num(d));
    Assoc(Flatten(pre), last.digits, [c]);
  }

  /** One iteration keeps the kept symbols in order: the new character's symbol, if any, is appended. */
  lemma FeedKeepsSymbols(ts: seq<Token>, prev: char, c: char)
    requires IsNumber(prev) ==> |ts| > 0 && ts[|ts| - 1].Num?
    ensures Feed(ts, prev, c).Success? ==> Flatten(Feed(ts, prev, c).value) == Flatten(ts) + Kept(c)
  {
    if Feed(ts, prev, c).Success? {
      if IsNumber(c) && IsNumber(prev) {
        ExtendText(ts, c);
      } else if IsNumber(c) {
        FlattenSnoc(ts, Num([c]));
      } else if IsOperation(c) {
        FlattenSnoc(ts, Operator(CharOp(c)));
      } else if c == '(' {
        FlattenSnoc(ts, LParen);
      } else if c == ')' {
        FlattenSnoc(ts, RParen);
      }
    }
  }

  /**
   * `convertToArray`: the token array of an expression, or the exception
   * raised at the first offending character.
   */
  function ConvertToArray(s: string): (r: Result<seq<Token>>)
    ensures r.Success? && |s| > 0 && IsNumber(s[|s| - 1]) ==> |r.value| > 0 && r.value[|r.value| - 1].Num?
    decreases |s|
  {
    if |s| == 0 then Success([])
    else if |s| == 1 then
      if IsValidFirstSymbol(s[0]) then Success([FirstToken(s[0])]) else Failure(IncorrectFirstChar)
    else
      var ts :- ConvertToArray(s[..|s| - 1]);
      Feed(ts, s[|s| - 2], s[|s| - 1])
  }

  /** Scanning one more character after a non-empty prefix is one iteration of the loop. */
  lemma ConvertToArraySnoc(s: string, c: char)
    requires |s| > 0
    ensures ConvertToArray(s + [c]) == match ConvertToArray(s)
                                         case Failure(e) => Failure(e)
                                         case Success(ts) => Feed(ts, s[|s| - 1], c)
  {
    assert (s + [c])[..|s|] == s;
  }

  /** Some character after the first breaks an adjacency rule with its predecessor. */
  predicate ViolatesAt(s: string, i: int)
    requires 1 <= i < |s|
  {
    Violates(s[i - 1], s[i])
  }

  predicate HasViolation(s: string) {
    exists i :: 1 <= i < |s| && ViolatesAt(s, i)
  }

  lemma HasViolationStep(s: string)
    requires |s| >= 2
    ensures HasViolation(s) <==> HasViolation(s[..|s| - 1]) || Violates(s[|s| - 2], s[|s| - 1])
  {
    var s' := s[..|s| - 1];
    if HasViolation(s') {
      var i :| 1 <= i < |s'| && ViolatesAt(s', i);
      assert ViolatesAt(s, i);
    }
    if Violates(s[|s| - 2], s[|s| - 1]) {
      assert ViolatesAt(s, |s| - 1);
    }
    if HasViolation(s) {
      var i :| 1 <= i < |s| && ViolatesAt(s, i);
      if i < |s| - 1 {
        assert ViolatesAt(s', i);
      }
    }
  }

  /**
   * The verdict of `convertToArray`: "Incorrect first char" exactly when the
   * first character is neither a digit nor `(`; otherwise "Invalid syntax"
   * exactly when some character breaks an adjacency rule with the raw
   * character before it; otherwise success (the empty string included).
   */
  lemma {:induction false} ConvertToArrayVerdict(s: string)
    ensures ConvertToArray(s) == Failure(IncorrectFirstChar) <==> |s| > 0 && !IsValidFirstSymbol(s[0])
    ensures ConvertToArray(s) == Failure(InvalidSyntax) <==> |s| > 0 && IsValidFirstSymbol(s[0]) && HasViolation(s)
    ensures ConvertToArray(s).Success? <==> |s| == 0 || (IsValidFirstSymbol(s[0]) && !HasViolation(s))
    decreases |s|
  {
    if |s| >= 2 {
      var s' := s[..|s| - 1];
      ConvertToArrayVerdict(s');
      HasViolationStep(s);
      assert s'[0] == s[0];
    } else if |s| == 1 {
      assert !HasViolation(s);
    }
  }

  /** A single offending pair after a valid first character is enough for "Invalid syntax". */
  lemma ConvertToArrayRejectsAt(s: string, i: int)
    requires 1 <= i < |s| && IsValidFirstSymbol(s[0]) && Violates(s[i - 1], s[i])
    ensures ConvertToArray(s) == Failure(InvalidSyntax)
  {
    ConvertToArrayVerdict(s);
    assert ViolatesAt(s, i);
  }

  /**
   * On success the tokens spell out the input with every character other
   * than a digit, an operator or a bracket dropped.
   */
  lemma {:induction false} ConvertToArrayKeepsSymbols(s: string)
    ensures ConvertToArray(s).Success? ==> Flatten(ConvertToArray(s).value) == Symbols(s)
    decreases |s|
  {
    if |s| >= 2 {
      var s' := s[..|s| - 1];
      ConvertToArrayKeepsSymbols(s');
      if ConvertToArray(s').Success? {
        FeedKeepsSymbols(ConvertToArray(s').value, s[|s| - 2], s[|s| - 1]);
      }
    } else if |s| == 1 {
      assert s[..0] == [];
    }
  }

  /** No token of `ts` is a number immediately followed by another number. */
  predicate NoAdjacentNumbers(ts: seq<Token>) {
    forall i :: 1 <= i < |ts| ==> !(ts[i - 1].Num? && ts[i].Num?)
  }

  predicate AllSymbols(s: string) {
    forall i :: 0 <= i < |s| ==> IsSymbol(s[i])
  }

  /** One iteration on a symbol keeps number tokens apart and ends in a number exactly after a digit. */
  lemma FeedKeepsRuns(ts: seq<Token>, prev: char, c: char)
    requires |ts| > 0 && (ts[|ts| - 1].Num? <==> IsNumber(prev))
    requires NoAdjacentNumbers(ts) && IsSymbol(c)
    ensures var r := Feed(ts, prev, c);
      r.Success? ==> NoAdjacentNumbers(r.value) && |r.value| > 0 && (r.value[|r.value| - 1].Num? <==> IsNumber(c))
  {
    var r := Feed(ts, prev, c);
    if r.Success? {
      var us := r.value;
      if IsNumber(c) && IsNumber(prev) {
        assert |us| == |ts|;
        assert us[..|us| - 1] == ts[..|ts| - 1];
        forall i | 1 <= i < |us|
          ensures !(us[i - 1].Num? && us[i].Num?)
        {
          if i < |us| - 1 {
            assert us[i - 1] == ts[i - 1] && us[i] == ts[i];
          }
        }
      } else {
        assert us == ts + [us[|us| - 1]];
        forall i | 1 <= i < |us|
          ensures !(us[i - 1].Num? && us[i].Num?)
        {
          if i < |us| - 1 {
            assert us[i - 1] == ts[i - 1] && us[i] == ts[i];
          }
        }
      }
    }
  }

  /**
   * Number tokens are maximal digit runs: when the input holds only digits,
   * operators and brackets, a successful result never has two number tokens
   * side by side, and its last token is a number exactly when the input
   * ends in a digit.
   */
  lemma {:induction false} ConvertToArrayMaximalRuns(s: string)
    requires AllSymbols(s)
    ensures ConvertToArray(s).Success? ==> NoAdjacentNumbers(ConvertToArray(s).value)
    ensures ConvertToArray(s).Success? && |s| > 0 ==>
      |ConvertToArray(s).value| > 0 && (ConvertToArray(s).value[|ConvertToArray(s).value| - 1].Num? <==> IsNumber(s[|s| - 1]))
    decreases |s|
  {
    if |s| >= 2 {
      var s' := s[..|s| - 1];
      ConvertToArrayMaximalRuns(s');
      if ConvertToArray(s').Success? {
        FeedKeepsRuns(ConvertToArray(s').value, s[|s| - 2], s[|s| - 1]);
      }
    }
  }

  // ---------------------------------------------------------------------
  // Number tokens and the digit runs of the raw input.

  /** The number of digits `s` starts with. */
  function LeadingDigits(s: string): (k: nat)
    ensures k <= |s| && IsDigits(s[..k])
    ensures k < |s| ==> !IsNumber(s[k])
    decreases |s|
  {
    if |s| > 0 && IsNumber(s[0]) then
      var k := 1 + LeadingDigits(s[1..]);
      assert s[..k] == [s[0]] + s[1..][..k - 1];
      k
    else 0
  }

  /**
   * The maximal runs of consecutive digits of `s`, from left to right. Any
   * other character, a skipped one included, ends a run.
   */
  function DigitRuns(s: string): seq<Digits>
    decreases |s|
  {
    if |s| == 0 then []
    else if !IsNumber(s[0]) then DigitRuns(s[1..])
    else
      var k := LeadingDigits(s);
      var run: Digits := s[..k];
      [run] + DigitRuns(s[k..])
  }

  /** The digits of the number tokens of `ts`, in order. */
  function NumberRuns(ts: seq<Token>): seq<Digits>
  {
    if |ts| == 0 then []
    else NumberRuns(ts[..|ts| - 1]) + (if ts[|ts| - 1].Num? then [ts[|ts| - 1].digits] else [])
  }

  /** `rs` with the digit `c` appended to its last run. */
  function ExtendLast(rs: seq<Digits>, c: char): seq<Digits>
    requires |rs| > 0 && IsNumber(c)
  {
    var last: Digits := rs[|rs| - 1] + [c];
    rs[..|rs| - 1] + [last]
  }

  /** Extending the leading digits by one character. */
  lemma {:induction false} LeadingDigitsSnoc(s: string, c: char)
    ensures LeadingDigits(s + [c]) ==
      if LeadingDigits(s) < |s| then LeadingDigits(s)
      else if IsNumber(c) then |s| + 1
      else |s|
    decreases |s|
  {
    var sc := s + [c];
    if |s| == 0 {
      assert sc == [c] && sc[1..] == [];
    } else {
      assert sc[0] == s[0] && sc[1..] == s[1..] + [c];
      if IsNumber(s[0]) {
        LeadingDigitsSnoc(s[1..], c);
      }
    }
  }

  /** A leading non-digit is dropped, with or without one more character. */
  lemma DigitRunsSkip(s: string, c: char)
    requires |s| > 0 && !IsNumber(s[0])
    ensures DigitRuns(s) == DigitRuns(s[1..])
    ensures DigitRuns(s + [c]) == DigitRuns(s[1..] + [c])
  {
    assert (s + [c])[0] == s[0] && (s + [c])[1..] == s[1..] + [c];
  }

  /** A string of digits is a single run. */
  lemma DigitRunsWhole(s: string)
    requires |s| > 0 && LeadingDigits(s) == |s|
    ensures DigitRuns(s) == [s]
  {
    assert IsNumber(s[0]);
    assert s[..|s|] == s && s[|s|..] == [];
  }

  /** One more digit extends a string of digits; anything else leaves its single run alone. */
  lemma DigitRunsWholeSnoc(s: string, c: char)
    requires |s| > 0 && LeadingDigits(s) == |s|
    ensures DigitRuns(s + [c]) == if IsNumber(c) then [s + [c]] else [s]
  {
    var sc := s + [c];
    LeadingDigitsSnoc(s, c);
    if IsNumber(c) {
      DigitRunsWhole(sc);
    } else {
      assert s[..|s|] == s;
      assert sc[0] == s[0];
      DigitRunsFirst(sc);
      assert sc[..|s|] == s && sc[|s|..] == [c];
      assert [c][1..] == [];
    }
  }

  /** A string that starts with a digit starts with a run. */
  lemma DigitRunsFirst(s: string)
    requires |s| > 0 && IsNumber(s[0])
    ensures DigitRuns(s) == [s[..LeadingDigits(s)]] + DigitRuns(s[LeadingDigits(s)..])
  {
  }

  /** A run that ends before the last character is split off, with or without one more character. */
  lemma DigitRunsSplit(s: string, c: char)
    requires |s| > 0 && IsNumber(s[0]) && LeadingDigits(s) < |s|
    ensures var k := LeadingDigits(s);
      && DigitRuns(s) == [s[..k]] + DigitRuns(s[k..])
      && DigitRuns(s + [c]) == [s[..k]] + DigitRuns(s[k..] + [c])
  {
    var k := LeadingDigits(s);
    var sc := s + [c];
    LeadingDigitsSnoc(s, c);
    assert sc[0] == s[0];
    DigitRunsFirst(s);
    DigitRunsFirst(sc);
    SnocSlices(s, c, k);
  }

  /** Slicing a string with one more character at a point inside the string. */
  lemma SnocSlices(s: string, c: char, k: nat)
    requires k <= |s|
    ensures (s + [c])[..k] == s[..k]
    ensures (s + [c])[k..] == s[k..] + [c]
  {
  }

  /** A single character is a run exactly when it is a digit. */
  lemma DigitRunsOne(c: char)
    ensures DigitRuns([c]) == if IsNumber(c) then [[c]] else []
  {
    assert [c][1..] == [];
    if IsNumber(c) {
      assert LeadingDigits([c]) == 1;
      DigitRunsWhole([c]);
    }
  }

  /** Extending the last run of runs that follow a first one. */
  lemma ExtendLastCons(run: Digits, rs: seq<Digits>, c: char)
    requires |rs| > 0 && IsNumber(c)
    ensures ExtendLast([run] + rs, c) == [run] + ExtendLast(rs, c)
  {
    assert ([run] + rs)[..|rs|] == [run] + rs[..|rs| - 1];
  }

  /** One more character either ends the last run, extends it, or starts a new one. */
  lemma {:induction false} DigitRunsSnoc(s: string, c: char)
    ensures |s| > 0 && IsNumber(s[|s| - 1]) ==> |DigitRuns(s)| > 0
    ensures DigitRuns(s + [c]) ==
      if !IsNumber(c) then DigitRuns(s)
      else if |s| > 0 && IsNumber(s[|s| - 1]) then ExtendLast(DigitRuns(s), c)
      else DigitRuns(s) + [[c]]
    decreases |s|
  {
    if |s| == 0 {
      DigitRunsOne(c);
      assert [] + [c] == [c];
    } else if !IsNumber(s[0]) {
      DigitRunsSkip(s, c);
      DigitRunsSnoc(s[1..], c);
      if |s| > 1 {
        assert s[1..][|s| - 2] == s[|s| - 1];
      }
    } else if LeadingDigits(s) == |s| {
      assert s[..|s|] == s;
      DigitRunsWhole(s);
      DigitRunsWholeSnoc(s, c);
      if IsNumber(c) {
        assert ExtendLast([s], c) == [s + [c]];
      }
    } else {
      var k := LeadingDigits(s);
      var rest := s[k..];
      DigitRunsSplit(s, c);
      assert rest[|rest| - 1] == s[|s| - 1];
      DigitRunsSnoc(rest, c);
      var run := s[..k];
      var rs := DigitRuns(rest);
      if IsNumber(c) && IsNumber(s[|s| - 1]) {
        ExtendLastCons(run, rs, c);
      } else if IsNumber(c) {
        Assoc([run], rs, [[c]]);
      }
    }
  }

  /** One iteration ends, extends or starts a number run as the raw input does. */
  lemma FeedRuns(ts: seq<Token>, prev: char, c: char)
    requires IsNumber(prev) ==> |ts| > 0 && ts[|ts| - 1].Num?
    ensures IsNumber(prev) ==> |NumberRuns(ts)| > 0
    ensures Feed(ts, prev, c).Success? ==>
      NumberRuns(Feed(ts, prev, c).value) ==
        (if !IsNumber(c) then NumberRuns(ts)
         else if IsNumber(prev) then ExtendLast(NumberRuns(ts), c)
         else NumberRuns(ts) + [[c]])
  {
    var r := Feed(ts, prev, c);
    if IsNumber(prev) {
      var n := |ts| - 1;
      assert ts[..n] + [ts[n]] == ts;
      assert NumberRuns(ts) == NumberRuns(ts[..n]) + [ts[n].digits];
      if IsNumber(c) {
        var d: Digits := ts[n].digits + [c];
        var us := ts[..n] + [Num(d)];
        var rs := NumberRuns(ts[..n]);
        assert us[..n] == ts[..n];
        assert NumberRuns(us) == rs + [d];
        assert (rs + [ts[n].digits])[..|rs|] == rs;
      }
    }
    if r.Success? && !(IsNumber(c) && IsNumber(prev)) {
      assert r.value == ts || r.value == ts + [r.value[|r.value| - 1]];
      if r.value != ts {
        assert (ts + [r.value[|r.value| - 1]])[..|ts|] == ts;
      }
    }
  }

  /**
   * The number tokens are exactly the maximal digit runs of the raw input,
   * in order: a digit extends the number in progress only when the raw
   * character before it is a digit, so a skipped character splits a number.
   */
  lemma {:induction false} ConvertToArrayDigitRuns(s: string)
    ensures ConvertToArray(s).Success? ==> NumberRuns(ConvertToArray(s).value) == DigitRuns(s)
    decreases |s|
  {
    if |s| == 1 {
      DigitRunsSnoc([], s[0]);
      assert [] + [s[0]] == s;
      if ConvertToArray(s).Success? {
        assert NumberRuns([FirstToken(s[0])]) == NumberRuns([]) + (if IsNumber(s[0]) then [[s[0]]] else []);
      }
    } else if |s| >= 2 {
      var s' := s[..|s| - 1];
      assert s' + [s[|s| - 1]] == s;
      ConvertToArrayDigitRuns(s');
      DigitRunsSnoc(s', s[|s| - 1]);
      if ConvertToArray(s').Success? {
        FeedRuns(ConvertToArray(s').value, s[|s| - 2], s[|s| - 1]);
      }
    }
  }

  /**
   * The scanning loop of `convertToArray` written as a loop over the input,
   * computing the same tokens or exception.
   */
  method ScanExpression(s: string) returns (r: Result<seq<Token>>)
    ensures r == ConvertToArray(s)
    ensures r.Success? ==> Flatten(r.value) == Symbols(s)
  {
    var result: seq<Token> := [];
    var i := 0;
    while i < |s|
      invariant 0 <= i <= |s|
      invariant ConvertToArray(s[..i]) == Success(result)
      invariant Flatten(result) == Symbols(s[..i])
    {
      assert s[..i + 1][..i] == s[..i];
      if i == 0 {
        if !IsValidFirstSymbol(s[0]) {
          ConvertToArrayVerdict(s);
          return Failure(IncorrectFirstChar);
        }
        result := [FirstToken(s[0])];
      } else {
        var next := Feed(result, s[i - 1], s[i]);
        FeedKeepsSymbols(result, s[i - 1], s[i]);
        if next.Failure? {
          ConvertToArrayFailsOnPrefix(s, i + 1);
          return next;
        }
        result := next.value;
      }
      i := i + 1;
    }
    assert s[..i] == s;
    return Success(result);
  }

  /** An exception raised on a prefix is the exception raised on the whole input. */
  lemma {:induction false} ConvertToArrayFailsOnPrefix(s: string, k: nat)
    requires k <= |s|
    requires ConvertToArray(s[..k]).Failure?
    ensures ConvertToArray(s) == ConvertToArray(s[..k])
    decreases |s| - k
  {
    if k == |s| {
      assert s[..k] == s;
    } else {
      assert s[..k + 1][..k] == s[..k];
      ConvertToArrayFailsOnPrefix(s, k + 1);
    }
  }

  // ---------------------------------------------------------------------
  // The scanning loop resumed part-way through an input.

  /** The raw character last seen after scanning `b`, given `prev` before it. */
  function LastChar(prev: char, b: string): char {
    if |b| == 0 then prev else b[|b| - 1]
  }

  /**
   * The scanning loop resumed on `b`: `ts` holds the tokens so far and
   * `prev` is the raw character just before `b`.
   */
  function Scan(ts: seq<Token>, prev: char, b: string): (r: Result<seq<Token>>)
    requires IsNumber(prev) ==> |ts| > 0 && ts[|ts| - 1].Num?
    ensures r.Success? && IsNumber(LastChar(prev, b)) ==> |r.value| > 0 && r.value[|r.value| - 1].Num?
    decreases |b|
  {
    if |b| == 0 then Success(ts)
    else
      var us :- Scan(ts, prev, b[..|b| - 1]);
      Feed(us, LastChar(prev, b[..|b| - 1]), b[|b| - 1])
  }

  /** Resuming on a single character is one iteration of the loop. */
  lemma ScanOne(ts: seq<Token>, prev: char, c: char)
    requires IsNumber(prev) ==> |ts| > 0 && ts[|ts| - 1].Num?
    ensures Scan(ts, prev, [c]) == Feed(ts, prev, c)
  {
    assert [c][..0] == [];
  }

  /** Resuming on one more character is one more loop iteration. */
  lemma ScanSnoc(ts: seq<Token>, prev: char, a: string, c: char)
    requires IsNumber(prev) ==> |ts| > 0 && ts[|ts| - 1].Num?
    ensures Scan(ts, prev, a + [c]) == match Scan(ts, prev, a)
                                         case Failure(e) => Failure(e)
                                         case Success(us) => Feed(us, LastChar(prev, a), c)
  {
    assert (a + [c])[..|a|] == a;
  }

  /** Resuming on `a + b` is resuming on `a` and then on `b`. */
  lemma {:induction false} ScanAppend(ts: seq<Token>, prev: char, a: string, b: string)
    requires IsNumber(prev) ==> |ts| > 0 && ts[|ts| - 1].Num?
    ensures Scan(ts, prev, a + b) == match Scan(ts, prev, a)
                                       case Failure(e) => Failure(e)
                                       case Success(us) => Scan(us, LastChar(prev, a), b)
    decreases |b|
  {
    if |b| == 0 {
      assert a + b == a;
    } else {
      var b' := b[..|b| - 1];
      assert (a + b)[..|a + b| - 1] == a + b';
      assert LastChar(prev, a + b') == LastChar(LastChar(prev, a), b');
      ScanAppend(ts, prev, a, b');
    }
  }

  /**
   * An input that starts well is scanned as if a blank preceded it: the
   * blank lets a digit or `(` through exactly as the first-character rule does.
   */
  lemma {:induction false} ConvertToArrayScan(s: string)
    requires |s| == 0 || IsValidFirstSymbol(s[0])
    ensures ConvertToArray(s) == Scan([], ' ', s)
    decreases |s|
  {
    if |s| == 1 {
      assert s[..0] == [];
      assert Scan([], ' ', s) == Feed([], ' ', s[0]);
      assert [] + [FirstToken(s[0])] == [FirstToken(s[0])];
    } else if |s| >= 2 {
      var s' := s[..|s| - 1];
      assert s'[0] == s[0];
      ConvertToArrayScan(s');
    }
  }

  /** A run of digits after a non-digit becomes one number token. */
  lemma {:induction false} ScanDigits(ts: seq<Token>, prev: char, d: Digits)
    requires !IsNumber(prev)
    ensures Scan(ts, prev, d) == Success(ts + [Num(d)])
    decreases |d|
  {
    var n := |d|;
    if n == 1 {
      assert d[..0] == [];
      assert [d[0]] == d;
    } else {
      var d': Digits := d[..n - 1];
      ScanDigits(ts, prev, d');
      var us := ts + [Num(d')];
      assert LastChar(prev, d') == d[n - 2];
      assert us[..|ts|] == ts && us[|ts|].digits == d';
      assert d' + [d[n - 1]] == d;
      assert Feed(us, d[n - 2], d[n - 1]) == Success(ts + [Num(d)]);
    }
  }
}
