/**
 * Worked examples: the cases of the parser's test suite and a few inputs
 * on which the code as written departs from what the test suite or the
 * usual reading of arithmetic expects. Each is proved by stepping the
 * stage's loop one input element at a time.
 */
module Examples {
  import opened Tokens
  import opened Tokenizer
  import opened Converter
  import opened Evaluator
  import opened Pipeline

  // ---------------------------------------------------------------------
  // convertToArray

  /** The first 2 iterations for `ConvertSum`. */
  lemma ConvertSumUpTo2(ss: string)
    requires ss == "1+2"
    ensures ConvertToArray(ss).Success? && ConvertToArray(ss).value == [Num("1"), Operator(Add), Num("2")]
  {
    var s0 := ss[..1];
    var s1 := ss[..2];
    var s2 := ss;
    assert ConvertToArray(s0).Success? && ConvertToArray(s0).value == [Num("1")];
    assert ConvertToArray(s1).Success? && ConvertToArray(s1).value == [Num("1"), Operator(Add)] by {
      assert s1[..1] == s0;
    }
    assert s2[..2] == s1;
  }

  /** A plain sum splits into its three symbols. */
  lemma ConvertSum()
    ensures ConvertToArray("1+2") == Success([Num("1"), Operator(Add), Num("2")])
  {
    ConvertSumUpTo2("1+2");
  }

  /** The first 2 iterations for `ConvertBracketed`. */
  lemma ConvertBracketedUpTo2(ss: string)
    requires ss == "(1+"
    ensures ConvertToArray(ss).Success? && ConvertToArray(ss).value == [LParen, Num("1"), Operator(Add)]
  {
    var s0 := ss[..1];
    var s1 := ss[..2];
    var s2 := ss;
    assert ConvertToArray(s0).Success? && ConvertToArray(s0).value == [LParen];
    assert ConvertToArray(s1).Success? && ConvertToArray(s1).value == [LParen, Num("1")] by {
      assert s1[..1] == s0;
    }
    assert s2[..2] == s1;
  }

  /** The first 4 iterations for `ConvertBracketed`. */
  lemma ConvertBracketedUpTo4(ss: string)
    requires ss == "(1+2)"
    ensures ConvertToArray(ss).Success? && ConvertToArray(ss).value == [LParen, Num("1"), Operator(Add), Num("2"), RParen]
  {
    var s2 := ss[..3];
    var s3 := ss[..4];
    var s4 := ss;
    ConvertBracketedUpTo2(s2);
    assert ConvertToArray(s3).Success? && ConvertToArray(s3).value == [LParen, Num("1"), Operator(Add), Num("2")] by {
      assert s3[..3] == s2;
    }
    assert s4[..4] == s3;
  }

  /** The first 6 iterations for `ConvertBracketed`. */
  lemma ConvertBracketedUpTo6(ss: string)
    requires ss == "(1+2)*4"
    ensures ConvertToArray(ss).Success? && ConvertToArray(ss).value == [LParen, Num("1"), Operator(Add), Num("2"), RParen, Operator(Mul), Num("4")]
  {
    var s4 := ss[..5];
    var s5 := ss[..6];
    var s6 := ss;
    ConvertBracketedUpTo4(s4);
    assert ConvertToArray(s5).Success? && ConvertToArray(s5).value == [LParen, Num("1"), Operator(Add), Num("2"), RParen, Operator(Mul)] by {
      assert s5[..5] == s4;
    }
    assert s6[..6] == s5;
  }

  /** The first 8 iterations for `ConvertBracketed`. */
  lemma ConvertBracketedUpTo8(ss: string)
    requires ss == "(1+2)*4/2"
    ensures ConvertToArray(ss).Success? && ConvertToArray(ss).value == [LParen, Num("1"), Operator(Add), Num("2"), RParen, Operator(Mul), Num("4"), Operator(Div), Num("2")]
  {
    var s6 := ss[..7];
    var s7 := ss[..8];
    var s8 := ss;
    ConvertBracketedUpTo6(s6);
    assert ConvertToArray(s7).Success? && ConvertToArray(s7).value == [LParen, Num("1"), Operator(Add), Num("2"), RParen, Operator(Mul), Num("4"), Operator(Div)] by {
      assert s7[..7] == s6;
    }
    assert s8[..8] == s7;
  }

  /** Brackets, operators and numbers each become a token. */
  lemma ConvertBracketed()
    ensures ConvertToArray("(1+2)*4/2") == Success([LParen, Num("1"), Operator(Add), Num("2"), RParen, Operator(Mul), Num("4"), Operator(Div), Num("2")])
  {
    ConvertBracketedUpTo8("(1+2)*4/2");
  }

  /** The first 2 iterations for `ConvertNested`. */
  lemma ConvertNestedUpTo2(ss: string)
    requires ss == "((("
    ensures ConvertToArray(ss).Success? && ConvertToArray(ss).value == [LParen, LParen, LParen]
  {
    var s0 := ss[..1];
    var s1 := ss[..2];
    var s2 := ss;
    assert ConvertToArray(s0).Success? && ConvertToArray(s0).value == [LParen];
    assert ConvertToArray(s1).Success? && ConvertToArray(s1).value == [LParen, LParen] by {
      assert s1[..1] == s0;
    }
    assert s2[..2] == s1;
  }

  /** The first 4 iterations for `ConvertNested`. */
  lemma ConvertNestedUpTo4(ss: string)
    requires ss == "(((1+"
    ensures ConvertToArray(ss).Success? && ConvertToArray(ss).value == [LParen, LParen, LParen, Num("1"), Operator(Add)]
  {
    var s2 := ss[..3];
    var s3 := ss[..4];
    var s4 := ss;
    ConvertNestedUpTo2(s2);
    assert ConvertToArray(s3).Success? && ConvertToArray(s3).value == [LParen, LParen, LParen, Num("1")] by {
      assert s3[..3] == s2;
    }
    assert s4[..4] == s3;
  }

  /** The first 6 iterations for `ConvertNested`. */
  lemma ConvertNestedUpTo6(ss: string)
    requires ss == "(((1+2)"
    ensures ConvertToArray(ss).Success? && ConvertToArray(ss).value == [LParen, LParen, LParen, Num("1"), Operator(Add), Num("2"), RParen]
  {
    var s4 := ss[..5];
    var s5 := ss[..6];
    var s6 := ss;
    ConvertNestedUpTo4(s4);
    assert ConvertToArray(s5).Success? && ConvertToArray(s5).value == [LParen, LParen, LParen, Num("1"), Operator(Add), Num("2")] by {
      assert s5[..5] == s4;
    }
    assert s6[..6] == s5;
  }

  /** The first 8 iterations for `ConvertNested`. */
  lemma ConvertNestedUpTo8(ss: string)
    requires ss == "(((1+2)))"
    ensures ConvertToArray(ss).Success? && ConvertToArray(ss).value == [LParen, LParen, LParen, Num("1"), Operator(Add), Num("2"), RParen, RParen, RParen]
  {
    var s6 := ss[..7];
    var s7 := ss[..8];
    var s8 := ss;
    ConvertNestedUpTo6(s6);
    assert ConvertToArray(s7).Success? && ConvertToArray(s7).value == [LParen, LParen, LParen, Num("1"), Operator(Add), Num("2"), RParen, RParen] by {
      assert s7[..7] == s6;
    }
    assert s8[..8] == s7;
  }

  /** Nested brackets are kept one token each. */
  lemma ConvertNested()
    ensures ConvertToArray("(((1+2)))") == Success([LParen, LParen, LParen, Num("1"), Operator(Add), Num("2"), RParen, RParen, RParen])
  {
    ConvertNestedUpTo8("(((1+2)))");
  }

  /** The first 2 iterations for `SkippedCharSplitsNumber`. */
  lemma SkippedCharSplitsNumberUpTo2(ss: string)
    requires ss == "4 7"
    ensures ConvertToArray(ss).Success? && ConvertToArray(ss).value == [Num("4"), Num("7")]
  {
    var s0 := ss[..1];
    var s1 := ss[..2];
    var s2 := ss;
    assert ConvertToArray(s0).Success? && ConvertToArray(s0).value == [Num("4")];
    assert ConvertToArray(s1).Success? && ConvertToArray(s1).value == [Num("4")] by {
      assert s1[..1] == s0;
    }
    assert s2[..2] == s1;
  }

  /** A skipped character between two digits splits them into two numbers: the digit after it is checked against the raw character before it, not against the last digit. */
  lemma SkippedCharSplitsNumber()
    ensures ConvertToArray("4 7") == Success([Num("4"), Num("7")])
  {
    SkippedCharSplitsNumberUpTo2("4 7");
  }

  /** The first 2 iterations for `ConvertSkipsLetters`. */
  lemma ConvertSkipsLettersUpTo2(ss: string)
    requires ss == "12+"
    ensures ConvertToArray(ss).Success? && ConvertToArray(ss).value == [Num("12"), Operator(Add)]
  {
    var s0 := ss[..1];
    var s1 := ss[..2];
    var s2 := ss;
    assert ConvertToArray(s0).Success? && ConvertToArray(s0).value == [Num("1")];
    assert ConvertToArray(s1).Success? && ConvertToArray(s1).value == [Num("12")] by {
      assert s1[..1] == s0;
      assert "1" + ['2'] == "12";
    }
    assert s2[..2] == s1;
  }

  /** The first 4 iterations for `ConvertSkipsLetters`. */
  lemma ConvertSkipsLettersUpTo4(ss: string)
    requires ss == "12+ac"
    ensures ConvertToArray(ss).Success? && ConvertToArray(ss).value == [Num("12"), Operator(Add)]
  {
    var s2 := ss[..3];
    var s3 := ss[..4];
    var s4 := ss;
    ConvertSkipsLettersUpTo2(s2);
    assert ConvertToArray(s3).Success? && ConvertToArray(s3).value == [Num("12"), Operator(Add)] by {
      assert s3[..3] == s2;
    }
    assert s4[..4] == s3;
  }

  /** The first 6 iterations for `ConvertSkipsLetters`. */
  lemma ConvertSkipsLettersUpTo6(ss: string)
    requires ss == "12+acv+"
    ensures ConvertToArray(ss).Success? && ConvertToArray(ss).value == [Num("12"), Operator(Add), Operator(Add)]
  {
    var s4 := ss[..5];
    var s5 := ss[..6];
    var s6 := ss;
    ConvertSkipsLettersUpTo4(s4);
    assert ConvertToArray(s5).Success? && ConvertToArray(s5).value == [Num("12"), Operator(Add)] by {
      assert s5[..5] == s4;
    }
    assert s6[..6] == s5;
  }

  /** The first 8 iterations for `ConvertSkipsLetters`. */
  lemma ConvertSkipsLettersUpTo8(ss: string)
    requires ss == "12+acv+23"
    ensures ConvertToArray(ss).Success? && ConvertToArray(ss).value == [Num("12"), Operator(Add), Operator(Add), Num("23")]
  {
    var s6 := ss[..7];
    var s7 := ss[..8];
    var s8 := ss;
    ConvertSkipsLettersUpTo6(s6);
    assert ConvertToArray(s7).Success? && ConvertToArray(s7).value == [Num("12"), Operator(Add), Operator(Add), Num("2")] by {
      assert s7[..7] == s6;
    }
    assert s8[..8] == s7;
    assert "2" + ['3'] == "23";
  }

  /** The first 9 iterations for `ConvertSkipsLetters`. */
  lemma ConvertSkipsLettersUpTo9(ss: string)
    requires ss == "12+acv+233"
    ensures ConvertToArray(ss).Success? && ConvertToArray(ss).value == [Num("12"), Operator(Add), Operator(Add), Num("233")]
  {
    var s8 := ss[..9];
    var s9 := ss;
    ConvertSkipsLettersUpTo8(s8);
    assert s9[..9] == s8;
    assert "23" + ['3'] == "233";
  }

  /** Letters are skipped without complaint, and an operator after a skipped letter is not checked against the operator before it. */
  lemma ConvertSkipsLetters()
    ensures ConvertToArray("12+acv+233") == Success([Num("12"), Operator(Add), Operator(Add), Num("233")])
  {
    ConvertSkipsLettersUpTo9("12+acv+233");
  }

  /** An expression may not start with `)` or an operator. */
  lemma FirstCharErrors()
    ensures ConvertToArray(")") == Failure(IncorrectFirstChar)
    ensures ConvertToArray("+") == Failure(IncorrectFirstChar)
    ensures ConvertToArray("*") == Failure(IncorrectFirstChar)
    ensures ConvertToArray("/") == Failure(IncorrectFirstChar)
    ensures ConvertToArray("-") == Failure(IncorrectFirstChar)
  {
  }

  /** Two operators in a row are a syntax error, whichever two they are. */
  lemma OperatorPairErrors()
    ensures ConvertToArray("12/+23") == Failure(InvalidSyntax)
    ensures ConvertToArray("12++23") == Failure(InvalidSyntax)
    ensures ConvertToArray("12-+23") == Failure(InvalidSyntax)
    ensures ConvertToArray("12*+23") == Failure(InvalidSyntax)
    ensures ConvertToArray("12+*23") == Failure(InvalidSyntax)
    ensures ConvertToArray("12-*23") == Failure(InvalidSyntax)
    ensures ConvertToArray("12**23") == Failure(InvalidSyntax)
    ensures ConvertToArray("12/*23") == Failure(InvalidSyntax)
    ensures ConvertToArray("12+/23") == Failure(InvalidSyntax)
    ensures ConvertToArray("12-/23") == Failure(InvalidSyntax)
    ensures ConvertToArray("12*/23") == Failure(InvalidSyntax)
    ensures ConvertToArray("12//23") == Failure(InvalidSyntax)
  {
    ConvertToArrayRejectsAt("12/+23", 3);
    ConvertToArrayRejectsAt("12++23", 3);
    ConvertToArrayRejectsAt("12-+23", 3);
    ConvertToArrayRejectsAt("12*+23", 3);
    ConvertToArrayRejectsAt("12+*23", 3);
    ConvertToArrayRejectsAt("12-*23", 3);
    ConvertToArrayRejectsAt("12**23", 3);
    ConvertToArrayRejectsAt("12/*23", 3);
    ConvertToArrayRejectsAt("12+/23", 3);
    ConvertToArrayRejectsAt("12-/23", 3);
    ConvertToArrayRejectsAt("12*/23", 3);
    ConvertToArrayRejectsAt("12//23", 3);
  }

  /** `(` after a number or `)`, and `)` after anything but a number or `)`, are syntax errors. */
  lemma BracketPlacementErrors()
    ensures ConvertToArray("12(12+1)") == Failure(InvalidSyntax)
    ensures ConvertToArray("(1+12)(12+1)") == Failure(InvalidSyntax)
    ensures ConvertToArray("(1+)") == Failure(InvalidSyntax)
    ensures ConvertToArray("(1+()") == Failure(InvalidSyntax)
  {
    ConvertToArrayRejectsAt("12(12+1)", 2);
    ConvertToArrayRejectsAt("(1+12)(12+1)", 6);
    ConvertToArrayRejectsAt("(1+)", 3);
    ConvertToArrayRejectsAt("(1+()", 4);
  }

  /** A minus sign after an operator is a syntax error like any other pair of operators: signs are not folded and negative operands are not bracketed. */
  lemma SignedOperandsRejected()
    ensures ConvertToArray("1+-2") == Failure(InvalidSyntax)
    ensures ConvertToArray("1--2") == Failure(InvalidSyntax)
    ensures ConvertToArray("12*-47") == Failure(InvalidSyntax)
    ensures ConvertToArray("47/-12") == Failure(InvalidSyntax)
    ensures ConvertToArray("4 7    /- 1   2") == Failure(InvalidSyntax)
  {
    ConvertToArrayRejectsAt("1+-2", 2);
    ConvertToArrayRejectsAt("1--2", 2);
    ConvertToArrayRejectsAt("12*-47", 3);
    ConvertToArrayRejectsAt("47/-12", 3);
    ConvertToArrayRejectsAt("4 7    /- 1   2", 8);
  }

  // ---------------------------------------------------------------------
  // createStack

  /** The first 2 iterations for `CreateStackPrecedence`. */
  lemma CreateStackPrecedenceUpTo2(ts: seq<Token>)
    requires ts == [Num("1"), Operator(Add)]
    ensures Shunt(ts).Success? && Shunt(ts).value.output == [Num("1")] && Shunt(ts).value.stack == [Operator(Add)] && Shunt(ts).value.closeBracketFound == false
  {
    var t0 := ts[..0];
    var t1 := ts[..1];
    var t2 := ts;
    assert Shunt(t0).Success? && Shunt(t0).value.output == [] && Shunt(t0).value.stack == [] && !Shunt(t0).value.closeBracketFound;
    assert Shunt(t1).Success? && Shunt(t1).value.output == [Num("1")] && Shunt(t1).value.stack == [] && Shunt(t1).value.closeBracketFound == false by {
      assert t1[..0] == t0;
    }
    assert t2[..1] == t1;
  }

  /** The first 4 iterations for `CreateStackPrecedence`. */
  lemma CreateStackPrecedenceUpTo4(ts: seq<Token>)
    requires ts == [Num("1"), Operator(Add), Num("123"), Operator(Mul)]
    ensures Shunt(ts).Success? && Shunt(ts).value.output == [Num("1"), Num("123")] && Shunt(ts).value.stack == [Operator(Mul), Operator(Add)] && Shunt(ts).value.closeBracketFound == false
  {
    var t2 := ts[..2];
    var t3 := ts[..3];
    var t4 := ts;
    CreateStackPrecedenceUpTo2(t2);
    assert Shunt(t3).Success? && Shunt(t3).value.output == [Num("1"), Num("123")] && Shunt(t3).value.stack == [Operator(Add)] && Shunt(t3).value.closeBracketFound == false by {
      assert t3[..2] == t2;
    }
    assert t4[..3] == t3;
  }

  /** The first 6 iterations for `CreateStackPrecedence`. */
  lemma CreateStackPrecedenceUpTo6(ts: seq<Token>)
    requires ts == [Num("1"), Operator(Add), Num("123"), Operator(Mul), LParen, Num("3")]
    ensures Shunt(ts).Success? && Shunt(ts).value.output == [Num("1"), Num("123"), Num("3")] && Shunt(ts).value.stack == [LParen, Operator(Mul), Operator(Add)] && Shunt(ts).value.closeBracketFound == false
  {
    var t4 := ts[..4];
    var t5 := ts[..5];
    var t6 := ts;
    CreateStackPrecedenceUpTo4(t4);
    assert Shunt(t5).Success? && Shunt(t5).value.output == [Num("1"), Num("123")] && Shunt(t5).value.stack == [LParen, Operator(Mul), Operator(Add)] && Shunt(t5).value.closeBracketFound == false by {
      assert t5[..4] == t4;
    }
    assert t6[..5] == t5;
  }

  /** The first 8 iterations for `CreateStackPrecedence`. */
  lemma CreateStackPrecedenceUpTo8(ts: seq<Token>)
    requires ts == [Num("1"), Operator(Add), Num("123"), Operator(Mul), LParen, Num("3"), Operator(Add), Num("45")]
    ensures Shunt(ts).Success? && Shunt(ts).value.output == [Num("1"), Num("123"), Num("3"), Num("45")] && Shunt(ts).value.stack == [Operator(Add), LParen, Operator(Mul), Operator(Add)] && Shunt(ts).value.closeBracketFound == false
  {
    var t6 := ts[..6];
    var t7 := ts[..7];
    var t8 := ts;
    CreateStackPrecedenceUpTo6(t6);
    assert Shunt(t7).Success? && Shunt(t7).value.output == [Num("1"), Num("123"), Num("3")] && Shunt(t7).value.stack == [Operator(Add), LParen, Operator(Mul), Operator(Add)] && Shunt(t7).value.closeBracketFound == false by {
      assert t7[..6] == t6;
    }
    assert t8[..7] == t7;
  }

  /** The first 9 iterations for `CreateStackPrecedence`. */
  lemma CreateStackPrecedenceUpTo9(ts: seq<Token>)
    requires ts == [Num("1"), Operator(Add), Num("123"), Operator(Mul), LParen, Num("3"), Operator(Add), Num("45"), RParen]
    ensures Shunt(ts).Success? && Shunt(ts).value.output == [Num("1"), Num("123"), Num("3"), Num("45"), Operator(Add)] && Shunt(ts).value.stack == [Operator(Mul), Operator(Add)] && Shunt(ts).value.closeBracketFound == true
  {
    var t8 := ts[..8];
    var t9 := ts;
    CreateStackPrecedenceUpTo8(t8);
    assert t9[..8] == t8;
    assert [LParen, Operator(Mul), Operator(Add)][1..] == [Operator(Mul), Operator(Add)];
    assert PopToOpenBracket([Num("1"), Num("123"), Num("3"), Num("45"), Operator(Add)], [LParen, Operator(Mul), Operator(Add)]) == Popped([Num("1"), Num("123"), Num("3"), Num("45"), Operator(Add)], [Operator(Mul), Operator(Add)], true);
    assert [Num("1"), Num("123"), Num("3"), Num("45")] + [Operator(Add)] == [Num("1"), Num("123"), Num("3"), Num("45"), Operator(Add)];
    assert [Operator(Add), LParen, Operator(Mul), Operator(Add)][1..] == [LParen, Operator(Mul), Operator(Add)];
    assert PopToOpenBracket([Num("1"), Num("123"), Num("3"), Num("45")], [Operator(Add), LParen, Operator(Mul), Operator(Add)]) == Popped([Num("1"), Num("123"), Num("3"), Num("45"), Operator(Add)], [Operator(Mul), Operator(Add)], true);
  }

  /** Multiplication binds tighter than addition, and a bracketed sum is an operand. */
  lemma CreateStackPrecedence()
    ensures CreateStack([Num("1"), Operator(Add), Num("123"), Operator(Mul), LParen, Num("3"), Operator(Add), Num("45"), RParen]) == Success([Num("1"), Num("123"), Num("3"), Num("45"), Operator(Add), Operator(Mul), Operator(Add)])
  {
    CreateStackPrecedenceUpTo9([Num("1"), Operator(Add), Num("123"), Operator(Mul), LParen, Num("3"), Operator(Add), Num("45"), RParen]);
    assert Drain([Num("1"), Num("123"), Num("3"), Num("45"), Operator(Add), Operator(Mul), Operator(Add)], []).Success? && Drain([Num("1"), Num("123"), Num("3"), Num("45"), Operator(Add), Operator(Mul), Operator(Add)], []).value == [Num("1"), Num("123"), Num("3"), Num("45"), Operator(Add), Operator(Mul), Operator(Add)];
    assert [Num("1"), Num("123"), Num("3"), Num("45"), Operator(Add), Operator(Mul)] + [Operator(Add)] == [Num("1"), Num("123"), Num("3"), Num("45"), Operator(Add), Operator(Mul), Operator(Add)];
    assert [Operator(Add)][1..] == [];
    assert Drain([Num("1"), Num("123"), Num("3"), Num("45"), Operator(Add), Operator(Mul)], [Operator(Add)]).Success? && Drain([Num("1"), Num("123"), Num("3"), Num("45"), Operator(Add), Operator(Mul)], [Operator(Add)]).value == [Num("1"), Num("123"), Num("3"), Num("45"), Operator(Add), Operator(Mul), Operator(Add)];
    assert [Num("1"), Num("123"), Num("3"), Num("45"), Operator(Add)] + [Operator(Mul)] == [Num("1"), Num("123"), Num("3"), Num("45"), Operator(Add), Operator(Mul)];
    assert [Operator(Mul), Operator(Add)][1..] == [Operator(Add)];
    assert Drain([Num("1"), Num("123"), Num("3"), Num("45"), Operator(Add)], [Operator(Mul), Operator(Add)]).Success? && Drain([Num("1"), Num("123"), Num("3"), Num("45"), Operator(Add)], [Operator(Mul), Operator(Add)]).value == [Num("1"), Num("123"), Num("3"), Num("45"), Operator(Add), Operator(Mul), Operator(Add)];
  }

  /** The first 6 iterations for `CreateStackNoOpenBracket`. */
  lemma CreateStackNoOpenBracketUpTo6(ts: seq<Token>)
    requires ts == [Num("1"), Operator(Add), Num("123"), Operator(Mul), Num("3"), Operator(Add)]
    ensures Shunt(ts).Success? && Shunt(ts).value.output == [Num("1"), Num("123"), Num("3"), Operator(Mul)] && Shunt(ts).value.stack == [Operator(Add), Operator(Add)] && Shunt(ts).value.closeBracketFound == false
  {
    var t4 := ts[..4];
    var t5 := ts[..5];
    var t6 := ts;
    CreateStackPrecedenceUpTo4(t4);
    assert Shunt(t5).Success? && Shunt(t5).value.output == [Num("1"), Num("123"), Num("3")] && Shunt(t5).value.stack == [Operator(Mul), Operator(Add)] && Shunt(t5).value.closeBracketFound == false by {
      assert t5[..4] == t4;
    }
    assert t6[..5] == t5;
    assert [Operator(Mul), Operator(Add)][1..] == [Operator(Add)];
    assert [Num("1"), Num("123"), Num("3")] + [Operator(Mul)] == [Num("1"), Num("123"), Num("3"), Operator(Mul)];
  }

  /** The first 7 iterations for `CreateStackNoOpenBracket`. */
  lemma CreateStackNoOpenBracketUpTo7(ts: seq<Token>)
    requires ts == [Num("1"), Operator(Add), Num("123"), Operator(Mul), Num("3"), Operator(Add), Num("45")]
    ensures Shunt(ts).Success? && Shunt(ts).value.output == [Num("1"), Num("123"), Num("3"), Operator(Mul), Num("45")] && Shunt(ts).value.stack == [Operator(Add), Operator(Add)] && Shunt(ts).value.closeBracketFound == false
  {
    var t6 := ts[..6];
    var t7 := ts;
    CreateStackNoOpenBracketUpTo6(t6);
    assert t7[..6] == t6;
  }

  /** The first 8 iterations for `CreateStackNoOpenBracket`. */
  lemma CreateStackNoOpenBracketUpTo8(ts: seq<Token>)
    requires ts == [Num("1"), Operator(Add), Num("123"), Operator(Mul), Num("3"), Operator(Add), Num("45"), RParen]
    ensures Shunt(ts) == Failure(OpenBracketNotFound)
  {
    var t7 := ts[..7];
    var t8 := ts;
    CreateStackNoOpenBracketUpTo7(t7);
    assert t8[..7] == t7;
    assert PopToOpenBracket([Num("1"), Num("123"), Num("3"), Operator(Mul), Num("45"), Operator(Add), Operator(Add)], []) == Popped([Num("1"), Num("123"), Num("3"), Operator(Mul), Num("45"), Operator(Add), Operator(Add)], [], false);
    assert [Num("1"), Num("123"), Num("3"), Operator(Mul), Num("45"), Operator(Add)] + [Operator(Add)] == [Num("1"), Num("123"), Num("3"), Operator(Mul), Num("45"), Operator(Add), Operator(Add)];
    assert [Operator(Add)][1..] == [];
    assert PopToOpenBracket([Num("1"), Num("123"), Num("3"), Operator(Mul), Num("45"), Operator(Add)], [Operator(Add)]) == Popped([Num("1"), Num("123"), Num("3"), Operator(Mul), Num("45"), Operator(Add), Operator(Add)], [], false);
    assert [Num("1"), Num("123"), Num("3"), Operator(Mul), Num("45")] + [Operator(Add)] == [Num("1"), Num("123"), Num("3"), Operator(Mul), Num("45"), Operator(Add)];
    assert [Operator(Add), Operator(Add)][1..] == [Operator(Add)];
    assert PopToOpenBracket([Num("1"), Num("123"), Num("3"), Operator(Mul), Num("45")], [Operator(Add), Operator(Add)]) == Popped([Num("1"), Num("123"), Num("3"), Operator(Mul), Num("45"), Operator(Add), Operator(Add)], [], false);
  }

  /** A `)` with no `(` on the stack, and none met before, is an error. */
  lemma CreateStackNoOpenBracket()
    ensures CreateStack([Num("1"), Operator(Add), Num("123"), Operator(Mul), Num("3"), Operator(Add), Num("45"), RParen]) == Failure(OpenBracketNotFound)
  {
    CreateStackNoOpenBracketUpTo8([Num("1"), Operator(Add), Num("123"), Operator(Mul), Num("3"), Operator(Add), Num("45"), RParen]);
  }

  /** The first 11 iterations for `CreateStackUnclosedBracket`. */
  lemma CreateStackUnclosedBracketUpTo11(ts: seq<Token>)
    requires ts == [Num("1"), Operator(Add), Num("123"), Operator(Mul), LParen, Num("3"), Operator(Add), Num("45"), RParen, Operator(Mul), LParen]
    ensures Shunt(ts).Success? && Shunt(ts).value.output == [Num("1"), Num("123"), Num("3"), Num("45"), Operator(Add), Operator(Mul)] && Shunt(ts).value.stack == [LParen, Operator(Mul), Operator(Add)] && Shunt(ts).value.closeBracketFound == true
  {
    var t9 := ts[..9];
    var t10 := ts[..10];
    var t11 := ts;
    CreateStackPrecedenceUpTo9(t9);
    assert Shunt(t10).Success? && Shunt(t10).value.output == [Num("1"), Num("123"), Num("3"), Num("45"), Operator(Add), Operator(Mul)] && Shunt(t10).value.stack == [Operator(Mul), Operator(Add)] && Shunt(t10).value.closeBracketFound == true by {
      assert t10[..9] == t9;
      assert [Operator(Mul), Operator(Add)][1..] == [Operator(Add)];
      assert [Num("1"), Num("123"), Num("3"), Num("45"), Operator(Add)] + [Operator(Mul)] == [Num("1"), Num("123"), Num("3"), Num("45"), Operator(Add), Operator(Mul)];
    }
    assert t11[..10] == t10;
  }

  /** A `(` left on the stack at the end is an error. */
  lemma CreateStackUnclosedBracket()
    ensures CreateStack([Num("1"), Operator(Add), Num("123"), Operator(Mul), LParen, Num("3"), Operator(Add), Num("45"), RParen, Operator(Mul), LParen]) == Failure(UnclosedBracketFound)
  {
    CreateStackUnclosedBracketUpTo11([Num("1"), Operator(Add), Num("123"), Operator(Mul), LParen, Num("3"), Operator(Add), Num("45"), RParen, Operator(Mul), LParen]);
    assert Drain([Num("1"), Num("123"), Num("3"), Num("45"), Operator(Add), Operator(Mul)], [LParen, Operator(Mul), Operator(Add)]) == Failure(UnclosedBracketFound);
  }

  /** The first 2 iterations for `StickyBracketFlag`. */
  lemma StickyBracketFlagUpTo2(ts: seq<Token>)
    requires ts == [LParen, Num("1")]
    ensures Shunt(ts).Success? && Shunt(ts).value.output == [Num("1")] && Shunt(ts).value.stack == [LParen] && Shunt(ts).value.closeBracketFound == false
  {
    var t0 := ts[..0];
    var t1 := ts[..1];
    var t2 := ts;
    assert Shunt(t0).Success? && Shunt(t0).value.output == [] && Shunt(t0).value.stack == [] && !Shunt(t0).value.closeBracketFound;
    assert Shunt(t1).Success? && Shunt(t1).value.output == [] && Shunt(t1).value.stack == [LParen] && Shunt(t1).value.closeBracketFound == false by {
      assert t1[..0] == t0;
    }
    assert t2[..1] == t1;
  }

  /** The first 3 iterations for `StickyBracketFlag`. */
  lemma StickyBracketFlagUpTo3(ts: seq<Token>)
    requires ts == [LParen, Num("1"), RParen]
    ensures Shunt(ts).Success? && Shunt(ts).value.output == [Num("1")] && Shunt(ts).value.stack == [] && Shunt(ts).value.closeBracketFound == true
  {
    var t2 := ts[..2];
    var t3 := ts;
    StickyBracketFlagUpTo2(t2);
    assert t3[..2] == t2;
    assert [LParen][1..] == [];
    assert PopToOpenBracket([Num("1")], [LParen]) == Popped([Num("1")], [], true);
  }

  /** The first 4 iterations for `StickyBracketFlag`. */
  lemma StickyBracketFlagUpTo4(ts: seq<Token>)
    requires ts == [LParen, Num("1"), RParen, RParen]
    ensures Shunt(ts).Success? && Shunt(ts).value.output == [Num("1")] && Shunt(ts).value.stack == [] && Shunt(ts).value.closeBracketFound == true
  {
    var t3 := ts[..3];
    var t4 := ts;
    StickyBracketFlagUpTo3(t3);
    assert t4[..3] == t3;
    assert PopToOpenBracket([Num("1")], []) == Popped([Num("1")], [], false);
  }

  /** Once one `)` has found its `(`, a later unmatched `)` is no longer reported: the flag is never cleared. */
  lemma StickyBracketFlag()
    ensures CreateStack([LParen, Num("1"), RParen, RParen]) == Success([Num("1")])
  {
    StickyBracketFlagUpTo4([LParen, Num("1"), RParen, RParen]);
    assert Drain([Num("1")], []).Success? && Drain([Num("1")], []).value == [Num("1")];
  }

  // ---------------------------------------------------------------------
  // calculateStack

  /** The first 2 iterations for `MissingOperandSkipped`. */
  lemma MissingOperandSkippedUpTo2(rs: seq<Token>)
    requires rs == [Num("1"), Operator(Add)]
    ensures Run([], rs).Success? && Run([], rs).value == [1.0]
  {
    var r0 := rs[..0];
    var r1 := rs[..1];
    var r2 := rs;
    assert Run([], r0) == Success([]);
    assert Run([], r1).Success? && Run([], r1).value == [1.0] by {
      assert r1[..0] == r0;
      assert DigitsValue("1") == 1;
    }
    assert r2[..1] == r1;
  }

  /** An operator with fewer than two values below it is skipped. */
  lemma MissingOperandSkipped()
    ensures CalculateStack([Num("1"), Operator(Add)]) == Success(1.0)
  {
    MissingOperandSkippedUpTo2([Num("1"), Operator(Add)]);
  }

  // ---------------------------------------------------------------------
  // The three stages together

  /** The first 4 iterations for `FirstCalculationTokens`. */
  lemma FirstCalculationTokensUpTo4(ss: string)
    requires ss == "((((3"
    ensures ConvertToArray(ss).Success? && ConvertToArray(ss).value == [LParen, LParen, LParen, LParen, Num("3")]
  {
    var s2 := ss[..3];
    var s3 := ss[..4];
    var s4 := ss;
    ConvertNestedUpTo2(s2);
    assert ConvertToArray(s3).Success? && ConvertToArray(s3).value == [LParen, LParen, LParen, LParen] by {
      assert s3[..3] == s2;
    }
    assert s4[..4] == s3;
  }

  /** The first 6 iterations for `FirstCalculationTokens`. */
  lemma FirstCalculationTokensUpTo6(ss: string)
    requires ss == "((((34+"
    ensures ConvertToArray(ss).Success? && ConvertToArray(ss).value == [LParen, LParen, LParen, LParen, Num("34"), Operator(Add)]
  {
    var s4 := ss[..5];
    var s5 := ss[..6];
    var s6 := ss;
    FirstCalculationTokensUpTo4(s4);
    assert ConvertToArray(s5).Success? && ConvertToArray(s5).value == [LParen, LParen, LParen, LParen, Num("34")] by {
      assert s5[..5] == s4;
      assert "3" + ['4'] == "34";
    }
    assert s6[..6] == s5;
  }

  /** The first 8 iterations for `FirstCalculationTokens`. */
  lemma FirstCalculationTokensUpTo8(ss: string)
    requires ss == "((((34+2)"
    ensures ConvertToArray(ss).Success? && ConvertToArray(ss).value == [LParen, LParen, LParen, LParen, Num("34"), Operator(Add), Num("2"), RParen]
  {
    var s6 := ss[..7];
    var s7 := ss[..8];
    var s8 := ss;
    FirstCalculationTokensUpTo6(s6);
    assert ConvertToArray(s7).Success? && ConvertToArray(s7).value == [LParen, LParen, LParen, LParen, Num("34"), Operator(Add), Num("2")] by {
      assert s7[..7] == s6;
    }
    assert s8[..8] == s7;
  }

  /** The first 10 iterations for `FirstCalculationTokens`. */
  lemma FirstCalculationTokensUpTo10(ss: string)
    requires ss == "((((34+2)*2"
    ensures ConvertToArray(ss).Success? && ConvertToArray(ss).value == [LParen, LParen, LParen, LParen, Num("34"), Operator(Add), Num("2"), RParen, Operator(Mul), Num("2")]
  {
    var s8 := ss[..9];
    var s9 := ss[..10];
    var s10 := ss;
    FirstCalculationTokensUpTo8(s8);
    assert ConvertToArray(s9).Success? && ConvertToArray(s9).value == [LParen, LParen, LParen, LParen, Num("34"), Operator(Add), Num("2"), RParen, Operator(Mul)] by {
      assert s9[..9] == s8;
    }
    assert s10[..10] == s9;
  }

  /** The first 12 iterations for `FirstCalculationTokens`. */
  lemma FirstCalculationTokensUpTo12(ss: string)
    requires ss == "((((34+2)*2)-"
    ensures ConvertToArray(ss).Success? && ConvertToArray(ss).value == [LParen, LParen, LParen, LParen, Num("34"), Operator(Add), Num("2"), RParen, Operator(Mul), Num("2"), RParen, Operator(Sub)]
  {
    var s10 := ss[..11];
    var s11 := ss[..12];
    var s12 := ss;
    FirstCalculationTokensUpTo10(s10);
    assert ConvertToArray(s11).Success? && ConvertToArray(s11).value == [LParen, LParen, LParen, LParen, Num("34"), Operator(Add), Num("2"), RParen, Operator(Mul), Num("2"), RParen] by {
      assert s11[..11] == s10;
    }
    assert s12[..12] == s11;
  }

  /** The first 14 iterations for `FirstCalculationTokens`. */
  lemma FirstCalculationTokensUpTo14(ss: string)
    requires ss == "((((34+2)*2)-(4"
    ensures ConvertToArray(ss).Success? && ConvertToArray(ss).value == [LParen, LParen, LParen, LParen, Num("34"), Operator(Add), Num("2"), RParen, Operator(Mul), Num("2"), RParen, Operator(Sub), LParen, Num("4")]
  {
    var s12 := ss[..13];
    var s13 := ss[..14];
    var s14 := ss;
    FirstCalculationTokensUpTo12(s12);
    assert ConvertToArray(s13).Success? && ConvertToArray(s13).value == [LParen, LParen, LParen, LParen, Num("34"), Operator(Add), Num("2"), RParen, Operator(Mul), Num("2"), RParen, Operator(Sub), LParen] by {
      assert s13[..13] == s12;
    }
    assert s14[..14] == s13;
  }

  /** The first 15 iterations for `FirstCalculationTokens`. */
  lemma FirstCalculationTokensUpTo15(ss: string)
    requires ss == "((((34+2)*2)-(45"
    ensures ConvertToArray(ss).Success? && ConvertToArray(ss).value == [LParen, LParen, LParen, LParen, Num("34"), Operator(Add), Num("2"), RParen, Operator(Mul), Num("2"), RParen, Operator(Sub), LParen, Num("45")]
  {
    var s14 := ss[..15];
    var s15 := ss;
    FirstCalculationTokensUpTo14(s14);
    assert s15[..15] == s14;
    assert "4" + ['5'] == "45";
  }

  /** The first 16 iterations for `FirstCalculationTokens`. */
  lemma FirstCalculationTokensUpTo16(ss: string)
    requires ss == "((((34+2)*2)-(45+"
    ensures ConvertToArray(ss).Success? && ConvertToArray(ss).value == [LParen, LParen, LParen, LParen, Num("34"), Operator(Add), Num("2"), RParen, Operator(Mul), Num("2"), RParen, Operator(Sub), LParen, Num("45"), Operator(Add)]
  {
    var s15 := ss[..16];
    var s16 := ss;
    FirstCalculationTokensUpTo15(s15);
    assert s16[..16] == s15;
  }

  /** The first 17 iterations for `FirstCalculationTokens`. */
  lemma FirstCalculationTokensUpTo17(ss: string)
    requires ss == "((((34+2)*2)-(45+2"
    ensures ConvertToArray(ss).Success? && ConvertToArray(ss).value == [LParen, LParen, LParen, LParen, Num("34"), Operator(Add), Num("2"), RParen, Operator(Mul), Num("2"), RParen, Operator(Sub), LParen, Num("45"), Operator(Add), Num("2")]
  {
    var s16 := ss[..17];
    var s17 := ss;
    FirstCalculationTokensUpTo16(s16);
    assert s17[..17] == s16;
  }

  /** The first 18 iterations for `FirstCalculationTokens`. */
  lemma FirstCalculationTokensUpTo18(ss: string)
    requires ss == "((((34+2)*2)-(45+21"
    ensures ConvertToArray(ss).Success? && ConvertToArray(ss).value == [LParen, LParen, LParen, LParen, Num("34"), Operator(Add), Num("2"), RParen, Operator(Mul), Num("2"), RParen, Operator(Sub), LParen, Num("45"), Operator(Add), Num("21")]
  {
    var s17 := ss[..18];
    var s18 := ss;
    FirstCalculationTokensUpTo17(s17);
    assert s18[..18] == s17;
    assert "2" + ['1'] == "21";
  }

  /** The first 19 iterations for `FirstCalculationTokens`. */
  lemma FirstCalculationTokensUpTo19(ss: string)
    requires ss == "((((34+2)*2)-(45+21)"
    ensures ConvertToArray(ss).Success? && ConvertToArray(ss).value == [LParen, LParen, LParen, LParen, Num("34"), Operator(Add), Num("2"), RParen, Operator(Mul), Num("2"), RParen, Operator(Sub), LParen, Num("45"), Operator(Add), Num("21"), RParen]
  {
    var s18 := ss[..19];
    var s19 := ss;
    FirstCalculationTokensUpTo18(s18);
    assert s19[..19] == s18;
  }

  /** The first 20 iterations for `FirstCalculationTokens`. */
  lemma FirstCalculationTokensUpTo20(ss: string)
    requires ss == "((((34+2)*2)-(45+21)/"
    ensures ConvertToArray(ss).Success? && ConvertToArray(ss).value == [LParen, LParen, LParen, LParen, Num("34"), Operator(Add), Num("2"), RParen, Operator(Mul), Num("2"), RParen, Operator(Sub), LParen, Num("45"), Operator(Add), Num("21"), RParen, Operator(Div)]
  {
    var s19 := ss[..20];
    var s20 := ss;
    FirstCalculationTokensUpTo19(s19);
    assert s20[..20] == s19;
  }

  /** The first 21 iterations for `FirstCalculationTokens`. */
  lemma FirstCalculationTokensUpTo21(ss: string)
    requires ss == "((((34+2)*2)-(45+21)/4"
    ensures ConvertToArray(ss).Success? && ConvertToArray(ss).value == [LParen, LParen, LParen, LParen, Num("34"), Operator(Add), Num("2"), RParen, Operator(Mul), Num("2"), RParen, Operator(Sub), LParen, Num("45"), Operator(Add), Num("21"), RParen, Operator(Div), Num("4")]
  {
    var s20 := ss[..21];
    var s21 := ss;
    FirstCalculationTokensUpTo20(s20);
    assert s21[..21] == s20;
  }

  /** The first 22 iterations for `FirstCalculationTokens`. */
  lemma FirstCalculationTokensUpTo22(ss: string)
    requires ss == "((((34+2)*2)-(45+21)/4)"
    ensures ConvertToArray(ss).Success? && ConvertToArray(ss).value == [LParen, LParen, LParen, LParen, Num("34"), Operator(Add), Num("2"), RParen, Operator(Mul), Num("2"), RParen, Operator(Sub), LParen, Num("45"), Operator(Add), Num("21"), RParen, Operator(Div), Num("4"), RParen]
  {
    var s21 := ss[..22];
    var s22 := ss;
    FirstCalculationTokensUpTo21(s21);
    assert s22[..22] == s21;
  }

  /** The first 23 iterations for `FirstCalculationTokens`. */
  lemma FirstCalculationTokensUpTo23(ss: string)
    requires ss == "((((34+2)*2)-(45+21)/4)-"
    ensures ConvertToArray(ss).Success? && ConvertToArray(ss).value == [LParen, LParen, LParen, LParen, Num("34"), Operator(Add), Num("2"), RParen, Operator(Mul), Num("2"), RParen, Operator(Sub), LParen, Num("45"), Operator(Add), Num("21"), RParen, Operator(Div), Num("4"), RParen, Operator(Sub)]
  {
    var s22 := ss[..23];
    var s23 := ss;
    FirstCalculationTokensUpTo22(s22);
    assert s23[..23] == s22;
  }

  /** The first 24 iterations for `FirstCalculationTokens`. */
  lemma FirstCalculationTokensUpTo24(ss: string)
    requires ss == "((((34+2)*2)-(45+21)/4)-1"
    ensures ConvertToArray(ss).Success? && ConvertToArray(ss).value == [LParen, LParen, LParen, LParen, Num("34"), Operator(Add), Num("2"), RParen, Operator(Mul), Num("2"), RParen, Operator(Sub), LParen, Num("45"), Operator(Add), Num("21"), RParen, Operator(Div), Num("4"), RParen, Operator(Sub), Num("1")]
  {
    var s23 := ss[..24];
    var s24 := ss;
    FirstCalculationTokensUpTo23(s23);
    assert s24[..24] == s23;
  }

  /** The first 25 iterations for `FirstCalculationTokens`. */
  lemma FirstCalculationTokensUpTo25(ss: string)
    requires ss == "((((34+2)*2)-(45+21)/4)-12"
    ensures ConvertToArray(ss).Success? && ConvertToArray(ss).value == [LParen, LParen, LParen, LParen, Num("34"), Operator(Add), Num("2"), RParen, Operator(Mul), Num("2"), RParen, Operator(Sub), LParen, Num("45"), Operator(Add), Num("21"), RParen, Operator(Div), Num("4"), RParen, Operator(Sub), Num("12")]
  {
    var s24 := ss[..25];
    var s25 := ss;
    FirstCalculationTokensUpTo24(s24);
    assert s25[..25] == s24;
    assert "1" + ['2'] == "12";
  }

  /** The first 26 iterations for `FirstCalculationTokens`. */
  lemma FirstCalculationTokensUpTo26(ss: string)
    requires ss == "((((34+2)*2)-(45+21)/4)-123"
    ensures ConvertToArray(ss).Success? && ConvertToArray(ss).value == [LParen, LParen, LParen, LParen, Num("34"), Operator(Add), Num("2"), RParen, Operator(Mul), Num("2"), RParen, Operator(Sub), LParen, Num("45"), Operator(Add), Num("21"), RParen, Operator(Div), Num("4"), RParen, Operator(Sub), Num("123")]
  {
    var s25 := ss[..26];
    var s26 := ss;
    FirstCalculationTokensUpTo25(s25);
    assert s26[..26] == s25;
    assert "12" + ['3'] == "123";
  }

  /** The first 27 iterations for `FirstCalculationTokens`. */
  lemma FirstCalculationTokensUpTo27(ss: string)
    requires ss == "((((34+2)*2)-(45+21)/4)-123)"
    ensures ConvertToArray(ss).Success? && ConvertToArray(ss).value == [LParen, LParen, LParen, LParen, Num("34"), Operator(Add), Num("2"), RParen, Operator(Mul), Num("2"), RParen, Operator(Sub), LParen, Num("45"), Operator(Add), Num("21"), RParen, Operator(Div), Num("4"), RParen, Operator(Sub), Num("123"), RParen]
  {
    var s26 := ss[..27];
    var s27 := ss;
    FirstCalculationTokensUpTo26(s26);
    assert s27[..27] == s26;
  }

  /** The first 28 iterations for `FirstCalculationTokens`. */
  lemma FirstCalculationTokensUpTo28(ss: string)
    requires ss == "((((34+2)*2)-(45+21)/4)-123)-"
    ensures ConvertToArray(ss).Success? && ConvertToArray(ss).value == [LParen, LParen, LParen, LParen, Num("34"), Operator(Add), Num("2"), RParen, Operator(Mul), Num("2"), RParen, Operator(Sub), LParen, Num("45"), Operator(Add), Num("21"), RParen, Operator(Div), Num("4"), RParen, Operator(Sub), Num("123"), RParen, Operator(Sub)]
  {
    var s27 := ss[..28];
    var s28 := ss;
    FirstCalculationTokensUpTo27(s27);
    assert s28[..28] == s27;
  }

  /** The first 29 iterations for `FirstCalculationTokens`. */
  lemma FirstCalculationTokensUpTo29(ss: string)
    requires ss == "((((34+2)*2)-(45+21)/4)-123)-4"
    ensures ConvertToArray(ss).Success? && ConvertToArray(ss).value == [LParen, LParen, LParen, LParen, Num("34"), Operator(Add), Num("2"), RParen, Operator(Mul), Num("2"), RParen, Operator(Sub), LParen, Num("45"), Operator(Add), Num("21"), RParen, Operator(Div), Num("4"), RParen, Operator(Sub), Num("123"), RParen, Operator(Sub), Num("4")]
  {
    var s28 := ss[..29];
    var s29 := ss;
    FirstCalculationTokensUpTo28(s28);
    assert s29[..29] == s28;
  }

  /** The tokens of `((((34+2)*2)-(45+21)/4)-123)-4`. */
  lemma FirstCalculationTokens()
    ensures ConvertToArray("((((34+2)*2)-(45+21)/4)-123)-4") == Success([LParen, LParen, LParen, LParen, Num("34"), Operator(Add), Num("2"), RParen, Operator(Mul), Num("2"), RParen, Operator(Sub), LParen, Num("45"), Operator(Add), Num("21"), RParen, Operator(Div), Num("4"), RParen, Operator(Sub), Num("123"), RParen, Operator(Sub), Num("4")])
  {
    FirstCalculationTokensUpTo29("((((34+2)*2)-(45+21)/4)-123)-4");
  }

  /** The first 2 iterations for `FirstCalculationRpn`. */
  lemma FirstCalculationRpnUpTo2(ts: seq<Token>)
    requires ts == [LParen, LParen]
    ensures Shunt(ts).Success? && Shunt(ts).value.output == [] && Shunt(ts).value.stack == [LParen, LParen] && Shunt(ts).value.closeBracketFound == false
  {
    var t0 := ts[..0];
    var t1 := ts[..1];
    var t2 := ts;
    assert Shunt(t0).Success? && Shunt(t0).value.output == [] && Shunt(t0).value.stack == [] && !Shunt(t0).value.closeBracketFound;
    assert Shunt(t1).Success? && Shunt(t1).value.output == [] && Shunt(t1).value.stack == [LParen] && Shunt(t1).value.closeBracketFound == false by {
      assert t1[..0] == t0;
    }
    assert t2[..1] == t1;
  }

  /** The first 4 iterations for `FirstCalculationRpn`. */
  lemma FirstCalculationRpnUpTo4(ts: seq<Token>)
    requires ts == [LParen, LParen, LParen, LParen]
    ensures Shunt(ts).Success? && Shunt(ts).value.output == [] && Shunt(ts).value.stack == [LParen, LParen, LParen, LParen] && Shunt(ts).value.closeBracketFound == false
  {
    var t2 := ts[..2];
    var t3 := ts[..3];
    var t4 := ts;
    FirstCalculationRpnUpTo2(t2);
    assert Shunt(t3).Success? && Shunt(t3).value.output == [] && Shunt(t3).value.stack == [LParen, LParen, LParen] && Shunt(t3).value.closeBracketFound == false by {
      assert t3[..2] == t2;
    }
    assert t4[..3] == t3;
  }

  /** The first 6 iterations for `FirstCalculationRpn`. */
  lemma FirstCalculationRpnUpTo6(ts: seq<Token>)
    requires ts == [LParen, LParen, LParen, LParen, Num("34"), Operator(Add)]
    ensures Shunt(ts).Success? && Shunt(ts).value.output == [Num("34")] && Shunt(ts).value.stack == [Operator(Add), LParen, LParen, LParen, LParen] && Shunt(ts).value.closeBracketFound == false
  {
    var t4 := ts[..4];
    var t5 := ts[..5];
    var t6 := ts;
    FirstCalculationRpnUpTo4(t4);
    assert Shunt(t5).Success? && Shunt(t5).value.output == [Num("34")] && Shunt(t5).value.stack == [LParen, LParen, LParen, LParen] && Shunt(t5).value.closeBracketFound == false by {
      assert t5[..4] == t4;
    }
    assert t6[..5] == t5;
  }

  /** The first 7 iterations for `FirstCalculationRpn`. */
  lemma FirstCalculationRpnUpTo7(ts: seq<Token>)
    requires ts == [LParen, LParen, LParen, LParen, Num("34"), Operator(Add), Num("2")]
    ensures Shunt(ts).Success? && Shunt(ts).value.output == [Num("34"), Num("2")] && Shunt(ts).value.stack == [Operator(Add), LParen, LParen, LParen, LParen] && Shunt(ts).value.closeBracketFound == false
  {
    var t6 := ts[..6];
    var t7 := ts;
    FirstCalculationRpnUpTo6(t6);
    assert t7[..6] == t6;
  }

  /** The first 8 iterations for `FirstCalculationRpn`. */
  lemma FirstCalculationRpnUpTo8(ts: seq<Token>)
    requires ts == [LParen, LParen, LParen, LParen, Num("34"), Operator(Add), Num("2"), RParen]
    ensures Shunt(ts).Success? && Shunt(ts).value.output == [Num("34"), Num("2"), Operator(Add)] && Shunt(ts).value.stack == [LParen, LParen, LParen] && Shunt(ts).value.closeBracketFound == true
  {
    var t7 := ts[..7];
    var t8 := ts;
    FirstCalculationRpnUpTo7(t7);
    assert t8[..7] == t7;
    assert [LParen, LParen, LParen, LParen][1..] == [LParen, LParen, LParen];
    assert PopToOpenBracket([Num("34"), Num("2"), Operator(Add)], [LParen, LParen, LParen, LParen]) == Popped([Num("34"), Num("2"), Operator(Add)], [LParen, LParen, LParen], true);
    assert [Num("34"), Num("2")] + [Operator(Add)] == [Num("34"), Num("2"), Operator(Add)];
    assert [Operator(Add), LParen, LParen, LParen, LParen][1..] == [LParen, LParen, LParen, LParen];
    assert PopToOpenBracket([Num("34"), Num("2")], [Operator(Add), LParen, LParen, LParen, LParen]) == Popped([Num("34"), Num("2"), Operator(Add)], [LParen, LParen, LParen], true);
  }

  /** The first 10 iterations for `FirstCalculationRpn`. */
  lemma FirstCalculationRpnUpTo10(ts: seq<Token>)
    requires ts == [LParen, LParen, LParen, LParen, Num("34"), Operator(Add), Num("2"), RParen, Operator(Mul), Num("2")]
    ensures Shunt(ts).Success? && Shunt(ts).value.output == [Num("34"), Num("2"), Operator(Add), Num("2")] && Shunt(ts).value.stack == [Operator(Mul), LParen, LParen, LParen] && Shunt(ts).value.closeBracketFound == true
  {
    var t8 := ts[..8];
    var t9 := ts[..9];
    var t10 := ts;
    FirstCalculationRpnUpTo8(t8);
    assert Shunt(t9).Success? && Shunt(t9).value.output == [Num("34"), Num("2"), Operator(Add)] && Shunt(t9).value.stack == [Operator(Mul), LParen, LParen, LParen] && Shunt(t9).value.closeBracketFound == true by {
      assert t9[..8] == t8;
    }
    assert t10[..9] == t9;
  }

  /** The first 11 iterations for `FirstCalculationRpn`. */
  lemma FirstCalculationRpnUpTo11(ts: seq<Token>)
    requires ts == [LParen, LParen, LParen, LParen, Num("34"), Operator(Add), Num("2"), RParen, Operator(Mul), Num("2"), RParen]
    ensures Shunt(ts).Success? && Shunt(ts).value.output == [Num("34"), Num("2"), Operator(Add), Num("2"), Operator(Mul)] && Shunt(ts).value.stack == [LParen, LParen] && Shunt(ts).value.closeBracketFound == true
  {
    var t10 := ts[..10];
    var t11 := ts;
    FirstCalculationRpnUpTo10(t10);
    assert t11[..10] == t10;
    assert [LParen, LParen, LParen][1..] == [LParen, LParen];
    assert PopToOpenBracket([Num("34"), Num("2"), Operator(Add), Num("2"), Operator(Mul)], [LParen, LParen, LParen]) == Popped([Num("34"), Num("2"), Operator(Add), Num("2"), Operator(Mul)], [LParen, LParen], true);
    assert [Num("34"), Num("2"), Operator(Add), Num("2")] + [Operator(Mul)] == [Num("34"), Num("2"), Operator(Add), Num("2"), Operator(Mul)];
    assert [Operator(Mul), LParen, LParen, LParen][1..] == [LParen, LParen, LParen];
    assert PopToOpenBracket([Num("34"), Num("2"), Operator(Add), Num("2")], [Operator(Mul), LParen, LParen, LParen]) == Popped([Num("34"), Num("2"), Operator(Add), Num("2"), Operator(Mul)], [LParen, LParen], true);
  }

  /** The first 13 iterations for `FirstCalculationRpn`. */
  lemma FirstCalculationRpnUpTo13(ts: seq<Token>)
    requires ts == [LParen, LParen, LParen, LParen, Num("34"), Operator(Add), Num("2"), RParen, Operator(Mul), Num("2"), RParen, Operator(Sub), LParen]
    ensures Shunt(ts).Success? && Shunt(ts).value.output == [Num("34"), Num("2"), Operator(Add), Num("2"), Operator(Mul)] && Shunt(ts).value.stack == [LParen, Operator(Sub), LParen, LParen] && Shunt(ts).value.closeBracketFound == true
  {
    var t11 := ts[..11];
    var t12 := ts[..12];
    var t13 := ts;
    FirstCalculationRpnUpTo11(t11);
    assert Shunt(t12).Success? && Shunt(t12).value.output == [Num("34"), Num("2"), Operator(Add), Num("2"), Operator(Mul)] && Shunt(t12).value.stack == [Operator(Sub), LParen, LParen] && Shunt(t12).value.closeBracketFound == true by {
      assert t12[..11] == t11;
    }
    assert t13[..12] == t12;
  }

  /** The first 15 iterations for `FirstCalculationRpn`. */
  lemma FirstCalculationRpnUpTo15(ts: seq<Token>)
    requires ts == [LParen, LParen, LParen, LParen, Num("34"), Operator(Add), Num("2"), RParen, Operator(Mul), Num("2"), RParen, Operator(Sub), LParen, Num("45"), Operator(Add)]
    ensures Shunt(ts).Success? && Shunt(ts).value.output == [Num("34"), Num("2"), Operator(Add), Num("2"), Operator(Mul), Num("45")] && Shunt(ts).value.stack == [Operator(Add), LParen, Operator(Sub), LParen, LParen] && Shunt(ts).value.closeBracketFound == true
  {
    var t13 := ts[..13];
    var t14 := ts[..14];
    var t15 := ts;
    FirstCalculationRpnUpTo13(t13);
    assert Shunt(t14).Success? && Shunt(t14).value.output == [Num("34"), Num("2"), Operator(Add), Num("2"), Operator(Mul), Num("45")] && Shunt(t14).value.stack == [LParen, Operator(Sub), LParen, LParen] && Shunt(t14).value.closeBracketFound == true by {
      assert t14[..13] == t13;
    }
    assert t15[..14] == t14;
  }

  /** The first 16 iterations for `FirstCalculationRpn`. */
  lemma FirstCalculationRpnUpTo16(ts: seq<Token>)
    requires ts == [LParen, LParen, LParen, LParen, Num("34"), Operator(Add), Num("2"), RParen, Operator(Mul), Num("2"), RParen, Operator(Sub), LParen, Num("45"), Operator(Add), Num("21")]
    ensures Shunt(ts).Success? && Shunt(ts).value.output == [Num("34"), Num("2"), Operator(Add), Num("2"), Operator(Mul), Num("45"), Num("21")] && Shunt(ts).value.stack == [Operator(Add), LParen, Operator(Sub), LParen, LParen] && Shunt(ts).value.closeBracketFound == true
  {
    var t15 := ts[..15];
    var t16 := ts;
    FirstCalculationRpnUpTo15(t15);
    assert t16[..15] == t15;
  }

  /** The first 17 iterations for `FirstCalculationRpn`. */
  lemma FirstCalculationRpnUpTo17(ts: seq<Token>)
    requires ts == [LParen, LParen, LParen, LParen, Num("34"), Operator(Add), Num("2"), RParen, Operator(Mul), Num("2"), RParen, Operator(Sub), LParen, Num("45"), Operator(Add), Num("21"), RParen]
    ensures Shunt(ts).Success? && Shunt(ts).value.output == [Num("34"), Num("2"), Operator(Add), Num("2"), Operator(Mul), Num("45"), Num("21"), Operator(Add)] && Shunt(ts).value.stack == [Operator(Sub), LParen, LParen] && Shunt(ts).value.closeBracketFound == true
  {
    var t16 := ts[..16];
    var t17 := ts;
    FirstCalculationRpnUpTo16(t16);
    assert t17[..16] == t16;
    assert [LParen, Operator(Sub), LParen, LParen][1..] == [Operator(Sub), LParen, LParen];
    assert PopToOpenBracket([Num("34"), Num("2"), Operator(Add), Num("2"), Operator(Mul), Num("45"), Num("21"), Operator(Add)], [LParen, Operator(Sub), LParen, LParen]) == Popped([Num("34"), Num("2"), Operator(Add), Num("2"), Operator(Mul), Num("45"), Num("21"), Operator(Add)], [Operator(Sub), LParen, LParen], true);
    assert [Num("34"), Num("2"), Operator(Add), Num("2"), Operator(Mul), Num("45"), Num("21")] + [Operator(Add)] == [Num("34"), Num("2"), Operator(Add), Num("2"), Operator(Mul), Num("45"), Num("21"), Operator(Add)];
    assert [Operator(Add), LParen, Operator(Sub), LParen, LParen][1..] == [LParen, Operator(Sub), LParen, LParen];
    assert PopToOpenBracket([Num("34"), Num("2"), Operator(Add), Num("2"), Operator(Mul), Num("45"), Num("21")], [Operator(Add), LParen, Operator(Sub), LParen, LParen]) == Popped([Num("34"), Num("2"), Operator(Add), Num("2"), Operator(Mul), Num("45"), Num("21"), Operator(Add)], [Operator(Sub), LParen, LParen], true);
  }

  /** The first 19 iterations for `FirstCalculationRpn`. */
  lemma FirstCalculationRpnUpTo19(ts: seq<Token>)
    requires ts == [LParen, LParen, LParen, LParen, Num("34"), Operator(Add), Num("2"), RParen, Operator(Mul), Num("2"), RParen, Operator(Sub), LParen, Num("45"), Operator(Add), Num("21"), RParen, Operator(Div), Num("4")]
    ensures Shunt(ts).Success? && Shunt(ts).value.output == [Num("34"), Num("2"), Operator(Add), Num("2"), Operator(Mul), Num("45"), Num("21"), Operator(Add), Num("4")] && Shunt(ts).value.stack == [Operator(Div), Operator(Sub), LParen, LParen] && Shunt(ts).value.closeBracketFound == true
  {
    var t17 := ts[..17];
    var t18 := ts[..18];
    var t19 := ts;
    FirstCalculationRpnUpTo17(t17);
    assert Shunt(t18).Success? && Shunt(t18).value.output == [Num("34"), Num("2"), Operator(Add), Num("2"), Operator(Mul), Num("45"), Num("21"), Operator(Add)] && Shunt(t18).value.stack == [Operator(Div), Operator(Sub), LParen, LParen] && Shunt(t18).value.closeBracketFound == true by {
      assert t18[..17] == t17;
    }
    assert t19[..18] == t18;
  }

  /** The first 20 iterations for `FirstCalculationRpn`. */
  lemma FirstCalculationRpnUpTo20(ts: seq<Token>)
    requires ts == [LParen, LParen, LParen, LParen, Num("34"), Operator(Add), Num("2"), RParen, Operator(Mul), Num("2"), RParen, Operator(Sub), LParen, Num("45"), Operator(Add), Num("21"), RParen, Operator(Div), Num("4"), RParen]
    ensures Shunt(ts).Success? && Shunt(ts).value.output == [Num("34"), Num("2"), Operator(Add), Num("2"), Operator(Mul), Num("45"), Num("21"), Operator(Add), Num("4"), Operator(Div), Operator(Sub)] && Shunt(ts).value.stack == [LParen] && Shunt(ts).value.closeBracketFound == true
  {
    var t19 := ts[..19];
    var t20 := ts;
    FirstCalculationRpnUpTo19(t19);
    assert t20[..19] == t19;
    assert [LParen, LParen][1..] == [LParen];
    assert PopToOpenBracket([Num("34"), Num("2"), Operator(Add), Num("2"), Operator(Mul), Num("45"), Num("21"), Operator(Add), Num("4"), Operator(Div), Operator(Sub)], [LParen, LParen]) == Popped([Num("34"), Num("2"), Operator(Add), Num("2"), Operator(Mul), Num("45"), Num("21"), Operator(Add), Num("4"), Operator(Div), Operator(Sub)], [LParen], true);
    assert [Num("34"), Num("2"), Operator(Add), Num("2"), Operator(Mul), Num("45"), Num("21"), Operator(Add), Num("4"), Operator(Div)] + [Operator(Sub)] == [Num("34"), Num("2"), Operator(Add), Num("2"), Operator(Mul), Num("45"), Num("21"), Operator(Add), Num("4"), Operator(Div), Operator(Sub)];
    assert [Operator(Sub), LParen, LParen][1..] == [LParen, LParen];
    assert PopToOpenBracket([Num("34"), Num("2"), Operator(Add), Num("2"), Operator(Mul), Num("45"), Num("21"), Operator(Add), Num("4"), Operator(Div)], [Operator(Sub), LParen, LParen]) == Popped([Num("34"), Num("2"), Operator(Add), Num("2"), Operator(Mul), Num("45"), Num("21"), Operator(Add), Num("4"), Operator(Div), Operator(Sub)], [LParen], true);
    assert [Num("34"), Num("2"), Operator(Add), Num("2"), Operator(Mul), Num("45"), Num("21"), Operator(Add), Num("4")] + [Operator(Div)] == [Num("34"), Num("2"), Operator(Add), Num("2"), Operator(Mul), Num("45"), Num("21"), Operator(Add), Num("4"), Operator(Div)];
    assert [Operator(Div), Operator(Sub), LParen, LParen][1..] == [Operator(Sub), LParen, LParen];
    assert PopToOpenBracket([Num("34"), Num("2"), Operator(Add), Num("2"), Operator(Mul), Num("45"), Num("21"), Operator(Add), Num("4")], [Operator(Div), Operator(Sub), LParen, LParen]) == Popped([Num("34"), Num("2"), Operator(Add), Num("2"), Operator(Mul), Num("45"), Num("21"), Operator(Add), Num("4"), Operator(Div), Operator(Sub)], [LParen], true);
  }

  /** The first 22 iterations for `FirstCalculationRpn`. */
  lemma FirstCalculationRpnUpTo22(ts: seq<Token>)
    requires ts == [LParen, LParen, LParen, LParen, Num("34"), Operator(Add), Num("2"), RParen, Operator(Mul), Num("2"), RParen, Operator(Sub), LParen, Num("45"), Operator(Add), Num("21"), RParen, Operator(Div), Num("4"), RParen, Operator(Sub), Num("123")]
    ensures Shunt(ts).Success? && Shunt(ts).value.output == [Num("34"), Num("2"), Operator(Add), Num("2"), Operator(Mul), Num("45"), Num("21"), Operator(Add), Num("4"), Operator(Div), Operator(Sub), Num("123")] && Shunt(ts).value.stack == [Operator(Sub), LParen] && Shunt(ts).value.closeBracketFound == true
  {
    var t20 := ts[..20];
    var t21 := ts[..21];
    var t22 := ts;
    FirstCalculationRpnUpTo20(t20);
    assert Shunt(t21).Success? && Shunt(t21).value.output == [Num("34"), Num("2"), Operator(Add), Num("2"), Operator(Mul), Num("45"), Num("21"), Operator(Add), Num("4"), Operator(Div), Operator(Sub)] && Shunt(t21).value.stack == [Operator(Sub), LParen] && Shunt(t21).value.closeBracketFound == true by {
      assert t21[..20] == t20;
    }
    assert t22[..21] == t21;
  }

  /** The first 23 iterations for `FirstCalculationRpn`. */
  lemma FirstCalculationRpnUpTo23(ts: seq<Token>)
    requires ts == [LParen, LParen, LParen, LParen, Num("34"), Operator(Add), Num("2"), RParen, Operator(Mul), Num("2"), RParen, Operator(Sub), LParen, Num("45"), Operator(Add), Num("21"), RParen, Operator(Div), Num("4"), RParen, Operator(Sub), Num("123"), RParen]
    ensures Shunt(ts).Success? && Shunt(ts).value.output == [Num("34"), Num("2"), Operator(Add), Num("2"), Operator(Mul), Num("45"), Num("21"), Operator(Add), Num("4"), Operator(Div), Operator(Sub), Num("123"), Operator(Sub)] && Shunt(ts).value.stack == [] && Shunt(ts).value.closeBracketFound == true
  {
    var t22 := ts[..22];
    var t23 := ts;
    FirstCalculationRpnUpTo22(t22);
    assert t23[..22] == t22;
    assert [LParen][1..] == [];
    assert PopToOpenBracket([Num("34"), Num("2"), Operator(Add), Num("2"), Operator(Mul), Num("45"), Num("21"), Operator(Add), Num("4"), Operator(Div), Operator(Sub), Num("123"), Operator(Sub)], [LParen]) == Popped([Num("34"), Num("2"), Operator(Add), Num("2"), Operator(Mul), Num("45"), Num("21"), Operator(Add), Num("4"), Operator(Div), Operator(Sub), Num("123"), Operator(Sub)], [], true);
    assert [Num("34"), Num("2"), Operator(Add), Num("2"), Operator(Mul), Num("45"), Num("21"), Operator(Add), Num("4"), Operator(Div), Operator(Sub), Num("123")] + [Operator(Sub)] == [Num("34"), Num("2"), Operator(Add), Num("2"), Operator(Mul), Num("45"), Num("21"), Operator(Add), Num("4"), Operator(Div), Operator(Sub), Num("123"), Operator(Sub)];
    assert [Operator(Sub), LParen][1..] == [LParen];
    assert PopToOpenBracket([Num("34"), Num("2"), Operator(Add), Num("2"), Operator(Mul), Num("45"), Num("21"), Operator(Add), Num("4"), Operator(Div), Operator(Sub), Num("123")], [Operator(Sub), LParen]) == Popped([Num("34"), Num("2"), Operator(Add), Num("2"), Operator(Mul), Num("45"), Num("21"), Operator(Add), Num("4"), Operator(Div), Operator(Sub), Num("123"), Operator(Sub)], [], true);
  }

  /** The first 25 iterations for `FirstCalculationRpn`. */
  lemma FirstCalculationRpnUpTo25(ts: seq<Token>)
    requires ts == [LParen, LParen, LParen, LParen, Num("34"), Operator(Add), Num("2"), RParen, Operator(Mul), Num("2"), RParen, Operator(Sub), LParen, Num("45"), Operator(Add), Num("21"), RParen, Operator(Div), Num("4"), RParen, Operator(Sub), Num("123"), RParen, Operator(Sub), Num("4")]
    ensures Shunt(ts).Success? && Shunt(ts).value.output == [Num("34"), Num("2"), Operator(Add), Num("2"), Operator(Mul), Num("45"), Num("21"), Operator(Add), Num("4"), Operator(Div), Operator(Sub), Num("123"), Operator(Sub), Num("4")] && Shunt(ts).value.stack == [Operator(Sub)] && Shunt(ts).value.closeBracketFound == true
  {
    var t23 := ts[..23];
    var t24 := ts[..24];
    var t25 := ts;
    FirstCalculationRpnUpTo23(t23);
    assert Shunt(t24).Success? && Shunt(t24).value.output == [Num("34"), Num("2"), Operator(Add), Num("2"), Operator(Mul), Num("45"), Num("21"), Operator(Add), Num("4"), Operator(Div), Operator(Sub), Num("123"), Operator(Sub)] && Shunt(t24).value.stack == [Operator(Sub)] && Shunt(t24).value.closeBracketFound == true by {
      assert t24[..23] == t23;
    }
    assert t25[..24] == t24;
  }

  /** The reverse Polish form of `((((34+2)*2)-(45+21)/4)-123)-4`. */
  lemma FirstCalculationRpn()
    ensures CreateStack([LParen, LParen, LParen, LParen, Num("34"), Operator(Add), Num("2"), RParen, Operator(Mul), Num("2"), RParen, Operator(Sub), LParen, Num("45"), Operator(Add), Num("21"), RParen, Operator(Div), Num("4"), RParen, Operator(Sub), Num("123"), RParen, Operator(Sub), Num("4")]) == Success([Num("34"), Num("2"), Operator(Add), Num("2"), Operator(Mul), Num("45"), Num("21"), Operator(Add), Num("4"), Operator(Div), Operator(Sub), Num("123"), Operator(Sub), Num("4"), Operator(Sub)])
  {
    FirstCalculationRpnUpTo25([LParen, LParen, LParen, LParen, Num("34"), Operator(Add), Num("2"), RParen, Operator(Mul), Num("2"), RParen, Operator(Sub), LParen, Num("45"), Operator(Add), Num("21"), RParen, Operator(Div), Num("4"), RParen, Operator(Sub), Num("123"), RParen, Operator(Sub), Num("4")]);
    assert Drain([Num("34"), Num("2"), Operator(Add), Num("2"), Operator(Mul), Num("45"), Num("21"), Operator(Add), Num("4"), Operator(Div), Operator(Sub), Num("123"), Operator(Sub), Num("4"), Operator(Sub)], []).Success? && Drain([Num("34"), Num("2"), Operator(Add), Num("2"), Operator(Mul), Num("45"), Num("21"), Operator(Add), Num("4"), Operator(Div), Operator(Sub), Num("123"), Operator(Sub), Num("4"), Operator(Sub)], []).value == [Num("34"), Num("2"), Operator(Add), Num("2"), Operator(Mul), Num("45"), Num("21"), Operator(Add), Num("4"), Operator(Div), Operator(Sub), Num("123"), Operator(Sub), Num("4"), Operator(Sub)];
    assert [Num("34"), Num("2"), Operator(Add), Num("2"), Operator(Mul), Num("45"), Num("21"), Operator(Add), Num("4"), Operator(Div), Operator(Sub), Num("123"), Operator(Sub), Num("4")] + [Operator(Sub)] == [Num("34"), Num("2"), Operator(Add), Num("2"), Operator(Mul), Num("45"), Num("21"), Operator(Add), Num("4"), Operator(Div), Operator(Sub), Num("123"), Operator(Sub), Num("4"), Operator(Sub)];
    assert [Operator(Sub)][1..] == [];
    assert Drain([Num("34"), Num("2"), Operator(Add), Num("2"), Operator(Mul), Num("45"), Num("21"), Operator(Add), Num("4"), Operator(Div), Operator(Sub), Num("123"), Operator(Sub), Num("4")], [Operator(Sub)]).Success? && Drain([Num("34"), Num("2"), Operator(Add), Num("2"), Operator(Mul), Num("45"), Num("21"), Operator(Add), Num("4"), Operator(Div), Operator(Sub), Num("123"), Operator(Sub), Num("4")], [Operator(Sub)]).value == [Num("34"), Num("2"), Operator(Add), Num("2"), Operator(Mul), Num("45"), Num("21"), Operator(Add), Num("4"), Operator(Div), Operator(Sub), Num("123"), Operator(Sub), Num("4"), Operator(Sub)];
  }

  /** The first 3 iterations for `FirstCalculationValue`. */
  lemma FirstCalculationValueUpTo3(rs: seq<Token>)
    requires rs == [Num("34"), Num("2"), Operator(Add)]
    ensures Run([], rs).Success? && Run([], rs).value == [36.0]
  {
    var r0 := rs[..0];
    var r1 := rs[..1];
    var r2 := rs[..2];
    var r3 := rs;
    assert Run([], r0) == Success([]);
    assert Run([], r1).Success? && Run([], r1).value == [34.0] by {
      assert r1[..0] == r0;
      assert DigitsValue("3") == 3;
      assert "34"[..1] == "3";
      assert DigitsValue("34") == 34;
    }
    assert Run([], r2).Success? && Run([], r2).value == [34.0, 2.0] by {
      assert r2[..1] == r1;
      assert DigitsValue("2") == 2;
    }
    assert r3[..2] == r2;
    assert [34.0, 2.0][..0] == [];
  }

  /** The first 6 iterations for `FirstCalculationValue`. */
  lemma FirstCalculationValueUpTo6(rs: seq<Token>)
    requires rs == [Num("34"), Num("2"), Operator(Add), Num("2"), Operator(Mul), Num("45")]
    ensures Run([], rs).Success? && Run([], rs).value == [72.0, 45.0]
  {
    var r3 := rs[..3];
    var r4 := rs[..4];
    var r5 := rs[..5];
    var r6 := rs;
    FirstCalculationValueUpTo3(r3);
    assert Run([], r4).Success? && Run([], r4).value == [36.0, 2.0] by {
      assert r4[..3] == r3;
      assert DigitsValue("2") == 2;
    }
    assert Run([], r5).Success? && Run([], r5).value == [72.0] by {
      assert r5[..4] == r4;
      assert [36.0, 2.0][..0] == [];
    }
    assert r6[..5] == r5;
    assert DigitsValue("4") == 4;
    assert "45"[..1] == "4";
    assert DigitsValue("45") == 45;
  }

  /** The first 9 iterations for `FirstCalculationValue`. */
  lemma FirstCalculationValueUpTo9(rs: seq<Token>)
    requires rs == [Num("34"), Num("2"), Operator(Add), Num("2"), Operator(Mul), Num("45"), Num("21"), Operator(Add), Num("4")]
    ensures Run([], rs).Success? && Run([], rs).value == [72.0, 66.0, 4.0]
  {
    var r6 := rs[..6];
    var r7 := rs[..7];
    var r8 := rs[..8];
    var r9 := rs;
    FirstCalculationValueUpTo6(r6);
    assert Run([], r7).Success? && Run([], r7).value == [72.0, 45.0, 21.0] by {
      assert r7[..6] == r6;
      assert DigitsValue("2") == 2;
      assert "21"[..1] == "2";
      assert DigitsValue("21") == 21;
    }
    assert Run([], r8).Success? && Run([], r8).value == [72.0, 66.0] by {
      assert r8[..7] == r7;
      assert [72.0, 45.0, 21.0][..1] == [72.0];
    }
    assert r9[..8] == r8;
    assert DigitsValue("4") == 4;
  }

  /** The first 12 iterations for `FirstCalculationValue`. */
  lemma FirstCalculationValueUpTo12(rs: seq<Token>)
    requires rs == [Num("34"), Num("2"), Operator(Add), Num("2"), Operator(Mul), Num("45"), Num("21"), Operator(Add), Num("4"), Operator(Div), Operator(Sub), Num("123")]
    ensures Run([], rs).Success? && Run([], rs).value == [55.5, 123.0]
  {
    var r9 := rs[..9];
    var r10 := rs[..10];
    var r11 := rs[..11];
    var r12 := rs;
    FirstCalculationValueUpTo9(r9);
    assert Run([], r10).Success? && Run([], r10).value == [72.0, 16.5] by {
      assert r10[..9] == r9;
      assert [72.0, 66.0, 4.0][..1] == [72.0];
    }
    assert Run([], r11).Success? && Run([], r11).value == [55.5] by {
      assert r11[..10] == r10;
      assert [72.0, 16.5][..0] == [];
    }
    assert r12[..11] == r11;
    assert DigitsValue("1") == 1;
    assert "12"[..1] == "1";
    assert DigitsValue("12") == 12;
    assert "123"[..2] == "12";
    assert DigitsValue("123") == 123;
  }

  /** The first 15 iterations for `FirstCalculationValue`. */
  lemma FirstCalculationValueUpTo15(rs: seq<Token>)
    requires rs == [Num("34"), Num("2"), Operator(Add), Num("2"), Operator(Mul), Num("45"), Num("21"), Operator(Add), Num("4"), Operator(Div), Operator(Sub), Num("123"), Operator(Sub), Num("4"), Operator(Sub)]
    ensures Run([], rs).Success? && Run([], rs).value == [-71.5]
  {
    var r12 := rs[..12];
    var r13 := rs[..13];
    var r14 := rs[..14];
    var r15 := rs;
    FirstCalculationValueUpTo12(r12);
    assert Run([], r13).Success? && Run([], r13).value == [-67.5] by {
      assert r13[..12] == r12;
      assert [55.5, 123.0][..0] == [];
    }
    assert Run([], r14).Success? && Run([], r14).value == [-67.5, 4.0] by {
      assert r14[..13] == r13;
      assert DigitsValue("4") == 4;
    }
    assert r15[..14] == r14;
    assert [-67.5, 4.0][..0] == [];
  }

  /** The value of the reverse Polish form of `((((34+2)*2)-(45+21)/4)-123)-4`. */
  lemma FirstCalculationValue()
    ensures CalculateStack([Num("34"), Num("2"), Operator(Add), Num("2"), Operator(Mul), Num("45"), Num("21"), Operator(Add), Num("4"), Operator(Div), Operator(Sub), Num("123"), Operator(Sub), Num("4"), Operator(Sub)]) == Success(-71.5)
  {
    FirstCalculationValueUpTo15([Num("34"), Num("2"), Operator(Add), Num("2"), Operator(Mul), Num("45"), Num("21"), Operator(Add), Num("4"), Operator(Div), Operator(Sub), Num("123"), Operator(Sub), Num("4"), Operator(Sub)]);
  }

  /** The first calculation of the test suite. */
  lemma FirstCalculation()
    ensures Calculate("((((34+2)*2)-(45+21)/4)-123)-4") == Success(-71.5)
  {
    FirstCalculationTokens();
    FirstCalculationRpn();
    FirstCalculationValue();
  }

  /** The first 2 iterations for `SecondCalculationTokens`. */
  lemma SecondCalculationTokensUpTo2(ss: string)
    requires ss == "200"
    ensures ConvertToArray(ss).Success? && ConvertToArray(ss).value == [Num("200")]
  {
    var s0 := ss[..1];
    var s1 := ss[..2];
    var s2 := ss;
    assert ConvertToArray(s0).Success? && ConvertToArray(s0).value == [Num("2")];
    assert ConvertToArray(s1).Success? && ConvertToArray(s1).value == [Num("20")] by {
      assert s1[..1] == s0;
      assert "2" + ['0'] == "20";
    }
    assert s2[..2] == s1;
    assert "20" + ['0'] == "200";
  }

  /** The first 4 iterations for `SecondCalculationTokens`. */
  lemma SecondCalculationTokensUpTo4(ss: string)
    requires ss == "200+1"
    ensures ConvertToArray(ss).Success? && ConvertToArray(ss).value == [Num("200"), Operator(Add), Num("1")]
  {
    var s2 := ss[..3];
    var s3 := ss[..4];
    var s4 := ss;
    SecondCalculationTokensUpTo2(s2);
    assert ConvertToArray(s3).Success? && ConvertToArray(s3).value == [Num("200"), Operator(Add)] by {
      assert s3[..3] == s2;
    }
    assert s4[..4] == s3;
  }

  /** The first 6 iterations for `SecondCalculationTokens`. */
  lemma SecondCalculationTokensUpTo6(ss: string)
    requires ss == "200+12*"
    ensures ConvertToArray(ss).Success? && ConvertToArray(ss).value == [Num("200"), Operator(Add), Num("12"), Operator(Mul)]
  {
    var s4 := ss[..5];
    var s5 := ss[..6];
    var s6 := ss;
    SecondCalculationTokensUpTo4(s4);
    assert ConvertToArray(s5).Success? && ConvertToArray(s5).value == [Num("200"), Operator(Add), Num("12")] by {
      assert s5[..5] == s4;
      assert "1" + ['2'] == "12";
    }
    assert s6[..6] == s5;
  }

  /** The first 8 iterations for `SecondCalculationTokens`. */
  lemma SecondCalculationTokensUpTo8(ss: string)
    requires ss == "200+12*(("
    ensures ConvertToArray(ss).Success? && ConvertToArray(ss).value == [Num("200"), Operator(Add), Num("12"), Operator(Mul), LParen, LParen]
  {
    var s6 := ss[..7];
    var s7 := ss[..8];
    var s8 := ss;
    SecondCalculationTokensUpTo6(s6);
    assert ConvertToArray(s7).Success? && ConvertToArray(s7).value == [Num("200"), Operator(Add), Num("12"), Operator(Mul), LParen] by {
      assert s7[..7] == s6;
    }
    assert s8[..8] == s7;
  }

  /** The first 10 iterations for `SecondCalculationTokens`. */
  lemma SecondCalculationTokensUpTo10(ss: string)
    requires ss == "200+12*((1/"
    ensures ConvertToArray(ss).Success? && ConvertToArray(ss).value == [Num("200"), Operator(Add), Num("12"), Operator(Mul), LParen, LParen, Num("1"), Operator(Div)]
  {
    var s8 := ss[..9];
    var s9 := ss[..10];
    var s10 := ss;
    SecondCalculationTokensUpTo8(s8);
    assert ConvertToArray(s9).Success? && ConvertToArray(s9).value == [Num("200"), Operator(Add), Num("12"), Operator(Mul), LParen, LParen, Num("1")] by {
      assert s9[..9] == s8;
    }
    assert s10[..10] == s9;
  }

  /** The first 12 iterations for `SecondCalculationTokens`. */
  lemma SecondCalculationTokensUpTo12(ss: string)
    requires ss == "200+12*((1/8)"
    ensures ConvertToArray(ss).Success? && ConvertToArray(ss).value == [Num("200"), Operator(Add), Num("12"), Operator(Mul), LParen, LParen, Num("1"), Operator(Div), Num("8"), RParen]
  {
    var s10 := ss[..11];
    var s11 := ss[..12];
    var s12 := ss;
    SecondCalculationTokensUpTo10(s10);
    assert ConvertToArray(s11).Success? && ConvertToArray(s11).value == [Num("200"), Operator(Add), Num("12"), Operator(Mul), LParen, LParen, Num("1"), Operator(Div), Num("8")] by {
      assert s11[..11] == s10;
    }
    assert s12[..12] == s11;
  }

  /** The first 14 iterations for `SecondCalculationTokens`. */
  lemma SecondCalculationTokensUpTo14(ss: string)
    requires ss == "200+12*((1/8)+1"
    ensures ConvertToArray(ss).Success? && ConvertToArray(ss).value == [Num("200"), Operator(Add), Num("12"), Operator(Mul), LParen, LParen, Num("1"), Operator(Div), Num("8"), RParen, Operator(Add), Num("1")]
  {
    var s12 := ss[..13];
    var s13 := ss[..14];
    var s14 := ss;
    SecondCalculationTokensUpTo12(s12);
    assert ConvertToArray(s13).Success? && ConvertToArray(s13).value == [Num("200"), Operator(Add), Num("12"), Operator(Mul), LParen, LParen, Num("1"), Operator(Div), Num("8"), RParen, Operator(Add)] by {
      assert s13[..13] == s12;
    }
    assert s14[..14] == s13;
  }

  /** The first 15 iterations for `SecondCalculationTokens`. */
  lemma SecondCalculationTokensUpTo15(ss: string)
    requires ss == "200+12*((1/8)+1)"
    ensures ConvertToArray(ss).Success? && ConvertToArray(ss).value == [Num("200"), Operator(Add), Num("12"), Operator(Mul), LParen, LParen, Num("1"), Operator(Div), Num("8"), RParen, Operator(Add), Num("1"), RParen]
  {
    var s14 := ss[..15];
    var s15 := ss;
    SecondCalculationTokensUpTo14(s14);
    assert s15[..15] == s14;
  }

  /** The first 16 iterations for `SecondCalculationTokens`. */
  lemma SecondCalculationTokensUpTo16(ss: string)
    requires ss == "200+12*((1/8)+1)-"
    ensures ConvertToArray(ss).Success? && ConvertToArray(ss).value == [Num("200"), Operator(Add), Num("12"), Operator(Mul), LParen, LParen, Num("1"), Operator(Div), Num("8"), RParen, Operator(Add), Num("1"), RParen, Operator(Sub)]
  {
    var s15 := ss[..16];
    var s16 := ss;
    SecondCalculationTokensUpTo15(s15);
    assert s16[..16] == s15;
  }

  /** The first 17 iterations for `SecondCalculationTokens`. */
  lemma SecondCalculationTokensUpTo17(ss: string)
    requires ss == "200+12*((1/8)+1)-1"
    ensures ConvertToArray(ss).Success? && ConvertToArray(ss).value == [Num("200"), Operator(Add), Num("12"), Operator(Mul), LParen, LParen, Num("1"), Operator(Div), Num("8"), RParen, Operator(Add), Num("1"), RParen, Operator(Sub), Num("1")]
  {
    var s16 := ss[..17];
    var s17 := ss;
    SecondCalculationTokensUpTo16(s16);
    assert s17[..17] == s16;
  }

  /** The first 18 iterations for `SecondCalculationTokens`. */
  lemma SecondCalculationTokensUpTo18(ss: string)
    requires ss == "200+12*((1/8)+1)-19"
    ensures ConvertToArray(ss).Success? && ConvertToArray(ss).value == [Num("200"), Operator(Add), Num("12"), Operator(Mul), LParen, LParen, Num("1"), Operator(Div), Num("8"), RParen, Operator(Add), Num("1"), RParen, Operator(Sub), Num("19")]
  {
    var s17 := ss[..18];
    var s18 := ss;
    SecondCalculationTokensUpTo17(s17);
    assert s18[..18] == s17;
    assert "1" + ['9'] == "19";
  }

  /** The tokens of `200+12*((1/8)+1)-19`. */
  lemma SecondCalculationTokens()
    ensures ConvertToArray("200+12*((1/8)+1)-19") == Success([Num("200"), Operator(Add), Num("12"), Operator(Mul), LParen, LParen, Num("1"), Operator(Div), Num("8"), RParen, Operator(Add), Num("1"), RParen, Operator(Sub), Num("19")])
  {
    SecondCalculationTokensUpTo18("200+12*((1/8)+1)-19");
  }

  /** The first 4 iterations for `SecondCalculationRpn`. */
  lemma SecondCalculationRpnUpTo4(ts: seq<Token>)
    requires ts == [Num("200"), Operator(Add), Num("12"), Operator(Mul)]
    ensures Shunt(ts).Success? && Shunt(ts).value.output == [Num("200"), Num("12")] && Shunt(ts).value.stack == [Operator(Mul), Operator(Add)] && Shunt(ts).value.closeBracketFound == false
  {
    var t0 := ts[..0];
    var t1 := ts[..1];
    var t2 := ts[..2];
    var t3 := ts[..3];
    var t4 := ts;
    assert Shunt(t0).Success? && Shunt(t0).value.output == [] && Shunt(t0).value.stack == [] && !Shunt(t0).value.closeBracketFound;
    assert Shunt(t1).Success? && Shunt(t1).value.output == [Num("200")] && Shunt(t1).value.stack == [] && Shunt(t1).value.closeBracketFound == false by {
      assert t1[..0] == t0;
    }
    assert Shunt(t2).Success? && Shunt(t2).value.output == [Num("200")] && Shunt(t2).value.stack == [Operator(Add)] && Shunt(t2).value.closeBracketFound == false by {
      assert t2[..1] == t1;
    }
    assert Shunt(t3).Success? && Shunt(t3).value.output == [Num("200"), Num("12")] && Shunt(t3).value.stack == [Operator(Add)] && Shunt(t3).value.closeBracketFound == false by {
      assert t3[..2] == t2;
    }
    assert t4[..3] == t3;
  }

  /** The first 6 iterations for `SecondCalculationRpn`. */
  lemma SecondCalculationRpnUpTo6(ts: seq<Token>)
    requires ts == [Num("200"), Operator(Add), Num("12"), Operator(Mul), LParen, LParen]
    ensures Shunt(ts).Success? && Shunt(ts).value.output == [Num("200"), Num("12")] && Shunt(ts).value.stack == [LParen, LParen, Operator(Mul), Operator(Add)] && Shunt(ts).value.closeBracketFound == false
  {
    var t4 := ts[..4];
    var t5 := ts[..5];
    var t6 := ts;
    SecondCalculationRpnUpTo4(t4);
    assert Shunt(t5).Success? && Shunt(t5).value.output == [Num("200"), Num("12")] && Shunt(t5).value.stack == [LParen, Operator(Mul), Operator(Add)] && Shunt(t5).value.closeBracketFound == false by {
      assert t5[..4] == t4;
    }
    assert t6[..5] == t5;
  }

  /** The first 8 iterations for `SecondCalculationRpn`. */
  lemma SecondCalculationRpnUpTo8(ts: seq<Token>)
    requires ts == [Num("200"), Operator(Add), Num("12"), Operator(Mul), LParen, LParen, Num("1"), Operator(Div)]
    ensures Shunt(ts).Success? && Shunt(ts).value.output == [Num("200"), Num("12"), Num("1")] && Shunt(ts).value.stack == [Operator(Div), LParen, LParen, Operator(Mul), Operator(Add)] && Shunt(ts).value.closeBracketFound == false
  {
    var t6 := ts[..6];
    var t7 := ts[..7];
    var t8 := ts;
    SecondCalculationRpnUpTo6(t6);
    assert Shunt(t7).Success? && Shunt(t7).value.output == [Num("200"), Num("12"), Num("1")] && Shunt(t7).value.stack == [LParen, LParen, Operator(Mul), Operator(Add)] && Shunt(t7).value.closeBracketFound == false by {
      assert t7[..6] == t6;
    }
    assert t8[..7] == t7;
  }

  /** The first 9 iterations for `SecondCalculationRpn`. */
  lemma SecondCalculationRpnUpTo9(ts: seq<Token>)
    requires ts == [Num("200"), Operator(Add), Num("12"), Operator(Mul), LParen, LParen, Num("1"), Operator(Div), Num("8")]
    ensures Shunt(ts).Success? && Shunt(ts).value.output == [Num("200"), Num("12"), Num("1"), Num("8")] && Shunt(ts).value.stack == [Operator(Div), LParen, LParen, Operator(Mul), Operator(Add)] && Shunt(ts).value.closeBracketFound == false
  {
    var t8 := ts[..8];
    var t9 := ts;
    SecondCalculationRpnUpTo8(t8);
    assert t9[..8] == t8;
  }

  /** The first 10 iterations for `SecondCalculationRpn`. */
  lemma SecondCalculationRpnUpTo10(ts: seq<Token>)
    requires ts == [Num("200"), Operator(Add), Num("12"), Operator(Mul), LParen, LParen, Num("1"), Operator(Div), Num("8"), RParen]
    ensures Shunt(ts).Success? && Shunt(ts).value.output == [Num("200"), Num("12"), Num("1"), Num("8"), Operator(Div)] && Shunt(ts).value.stack == [LParen, Operator(Mul), Operator(Add)] && Shunt(ts).value.closeBracketFound == true
  {
    var t9 := ts[..9];
    var t10 := ts;
    SecondCalculationRpnUpTo9(t9);
    assert t10[..9] == t9;
    assert [LParen, LParen, Operator(Mul), Operator(Add)][1..] == [LParen, Operator(Mul), Operator(Add)];
    assert PopToOpenBracket([Num("200"), Num("12"), Num("1"), Num("8"), Operator(Div)], [LParen, LParen, Operator(Mul), Operator(Add)]) == Popped([Num("200"), Num("12"), Num("1"), Num("8"), Operator(Div)], [LParen, Operator(Mul), Operator(Add)], true);
    assert [Num("200"), Num("12"), Num("1"), Num("8")] + [Operator(Div)] == [Num("200"), Num("12"), Num("1"), Num("8"), Operator(Div)];
    assert [Operator(Div), LParen, LParen, Operator(Mul), Operator(Add)][1..] == [LParen, LParen, Operator(Mul), Operator(Add)];
    assert PopToOpenBracket([Num("200"), Num("12"), Num("1"), Num("8")], [Operator(Div), LParen, LParen, Operator(Mul), Operator(Add)]) == Popped([Num("200"), Num("12"), Num("1"), Num("8"), Operator(Div)], [LParen, Operator(Mul), Operator(Add)], true);
  }

  /** The first 12 iterations for `SecondCalculationRpn`. */
  lemma SecondCalculationRpnUpTo12(ts: seq<Token>)
    requires ts == [Num("200"), Operator(Add), Num("12"), Operator(Mul), LParen, LParen, Num("1"), Operator(Div), Num("8"), RParen, Operator(Add), Num("1")]
    ensures Shunt(ts).Success? && Shunt(ts).value.output == [Num("200"), Num("12"), Num("1"), Num("8"), Operator(Div), Num("1")] && Shunt(ts).value.stack == [Operator(Add), LParen, Operator(Mul), Operator(Add)] && Shunt(ts).value.closeBracketFound == true
  {
    var t10 := ts[..10];
    var t11 := ts[..11];
    var t12 := ts;
    SecondCalculationRpnUpTo10(t10);
    assert Shunt(t11).Success? && Shunt(t11).value.output == [Num("200"), Num("12"), Num("1"), Num("8"), Operator(Div)] && Shunt(t11).value.stack == [Operator(Add), LParen, Operator(Mul), Operator(Add)] && Shunt(t11).value.closeBracketFound == true by {
      assert t11[..10] == t10;
    }
    assert t12[..11] == t11;
  }

  /** The first 13 iterations for `SecondCalculationRpn`. */
  lemma SecondCalculationRpnUpTo13(ts: seq<Token>)
    requires ts == [Num("200"), Operator(Add), Num("12"), Operator(Mul), LParen, LParen, Num("1"), Operator(Div), Num("8"), RParen, Operator(Add), Num("1"), RParen]
    ensures Shunt(ts).Success? && Shunt(ts).value.output == [Num("200"), Num("12"), Num("1"), Num("8"), Operator(Div), Num("1"), Operator(Add)] && Shunt(ts).value.stack == [Operator(Mul), Operator(Add)] && Shunt(ts).value.closeBracketFound == true
  {
    var t12 := ts[..12];
    var t13 := ts;
    SecondCalculationRpnUpTo12(t12);
    assert t13[..12] == t12;
    assert [LParen, Operator(Mul), Operator(Add)][1..] == [Operator(Mul), Operator(Add)];
    assert PopToOpenBracket([Num("200"), Num("12"), Num("1"), Num("8"), Operator(Div), Num("1"), Operator(Add)], [LParen, Operator(Mul), Operator(Add)]) == Popped([Num("200"), Num("12"), Num("1"), Num("8"), Operator(Div), Num("1"), Operator(Add)], [Operator(Mul), Operator(Add)], true);
    assert [Num("200"), Num("12"), Num("1"), Num("8"), Operator(Div), Num("1")] + [Operator(Add)] == [Num("200"), Num("12"), Num("1"), Num("8"), Operator(Div), Num("1"), Operator(Add)];
    assert [Operator(Add), LParen, Operator(Mul), Operator(Add)][1..] == [LParen, Operator(Mul), Operator(Add)];
    assert PopToOpenBracket([Num("200"), Num("12"), Num("1"), Num("8"), Operator(Div), Num("1")], [Operator(Add), LParen, Operator(Mul), Operator(Add)]) == Popped([Num("200"), Num("12"), Num("1"), Num("8"), Operator(Div), Num("1"), Operator(Add)], [Operator(Mul), Operator(Add)], true);
  }

  /** The first 15 iterations for `SecondCalculationRpn`. */
  lemma SecondCalculationRpnUpTo15(ts: seq<Token>)
    requires ts == [Num("200"), Operator(Add), Num("12"), Operator(Mul), LParen, LParen, Num("1"), Operator(Div), Num("8"), RParen, Operator(Add), Num("1"), RParen, Operator(Sub), Num("19")]
    ensures Shunt(ts).Success? && Shunt(ts).value.output == [Num("200"), Num("12"), Num("1"), Num("8"), Operator(Div), Num("1"), Operator(Add), Operator(Mul), Num("19")] && Shunt(ts).value.stack == [Operator(Sub), Operator(Add)] && Shunt(ts).value.closeBracketFound == true
  {
    var t13 := ts[..13];
    var t14 := ts[..14];
    var t15 := ts;
    SecondCalculationRpnUpTo13(t13);
    assert Shunt(t14).Success? && Shunt(t14).value.output == [Num("200"), Num("12"), Num("1"), Num("8"), Operator(Div), Num("1"), Operator(Add), Operator(Mul)] && Shunt(t14).value.stack == [Operator(Sub), Operator(Add)] && Shunt(t14).value.closeBracketFound == true by {
      assert t14[..13] == t13;
      assert [Operator(Mul), Operator(Add)][1..] == [Operator(Add)];
      assert [Num("200"), Num("12"), Num("1"), Num("8"), Operator(Div), Num("1"), Operator(Add)] + [Operator(Mul)] == [Num("200"), Num("12"), Num("1"), Num("8"), Operator(Div), Num("1"), Operator(Add), Operator(Mul)];
    }
    assert t15[..14] == t14;
  }

  /** The reverse Polish form of `200+12*((1/8)+1)-19`. */
  lemma SecondCalculationRpn()
    ensures CreateStack([Num("200"), Operator(Add), Num("12"), Operator(Mul), LParen, LParen, Num("1"), Operator(Div), Num("8"), RParen, Operator(Add), Num("1"), RParen, Operator(Sub), Num("19")]) == Success([Num("200"), Num("12"), Num("1"), Num("8"), Operator(Div), Num("1"), Operator(Add), Operator(Mul), Num("19"), Operator(Sub), Operator(Add)])
  {
    SecondCalculationRpnUpTo15([Num("200"), Operator(Add), Num("12"), Operator(Mul), LParen, LParen, Num("1"), Operator(Div), Num("8"), RParen, Operator(Add), Num("1"), RParen, Operator(Sub), Num("19")]);
    assert Drain([Num("200"), Num("12"), Num("1"), Num("8"), Operator(Div), Num("1"), Operator(Add), Operator(Mul), Num("19"), Operator(Sub), Operator(Add)], []).Success? && Drain([Num("200"), Num("12"), Num("1"), Num("8"), Operator(Div), Num("1"), Operator(Add), Operator(Mul), Num("19"), Operator(Sub), Operator(Add)], []).value == [Num("200"), Num("12"), Num("1"), Num("8"), Operator(Div), Num("1"), Operator(Add), Operator(Mul), Num("19"), Operator(Sub), Operator(Add)];
    assert [Num("200"), Num("12"), Num("1"), Num("8"), Operator(Div), Num("1"), Operator(Add), Operator(Mul), Num("19"), Operator(Sub)] + [Operator(Add)] == [Num("200"), Num("12"), Num("1"), Num("8"), Operator(Div), Num("1"), Operator(Add), Operator(Mul), Num("19"), Operator(Sub), Operator(Add)];
    assert [Operator(Add)][1..] == [];
    assert Drain([Num("200"), Num("12"), Num("1"), Num("8"), Operator(Div), Num("1"), Operator(Add), Operator(Mul), Num("19"), Operator(Sub)], [Operator(Add)]).Success? && Drain([Num("200"), Num("12"), Num("1"), Num("8"), Operator(Div), Num("1"), Operator(Add), Operator(Mul), Num("19"), Operator(Sub)], [Operator(Add)]).value == [Num("200"), Num("12"), Num("1"), Num("8"), Operator(Div), Num("1"), Operator(Add), Operator(Mul), Num("19"), Operator(Sub), Operator(Add)];
    assert [Num("200"), Num("12"), Num("1"), Num("8"), Operator(Div), Num("1"), Operator(Add), Operator(Mul), Num("19")] + [Operator(Sub)] == [Num("200"), Num("12"), Num("1"), Num("8"), Operator(Div), Num("1"), Operator(Add), Operator(Mul), Num("19"), Operator(Sub)];
    assert [Operator(Sub), Operator(Add)][1..] == [Operator(Add)];
    assert Drain([Num("200"), Num("12"), Num("1"), Num("8"), Operator(Div), Num("1"), Operator(Add), Operator(Mul), Num("19")], [Operator(Sub), Operator(Add)]).Success? && Drain([Num("200"), Num("12"), Num("1"), Num("8"), Operator(Div), Num("1"), Operator(Add), Operator(Mul), Num("19")], [Operator(Sub), Operator(Add)]).value == [Num("200"), Num("12"), Num("1"), Num("8"), Operator(Div), Num("1"), Operator(Add), Operator(Mul), Num("19"), Operator(Sub), Operator(Add)];
  }

  /** The first 3 iterations for `SecondCalculationValue`. */
  lemma SecondCalculationValueUpTo3(rs: seq<Token>)
    requires rs == [Num("200"), Num("12"), Num("1")]
    ensures Run([], rs).Success? && Run([], rs).value == [200.0, 12.0, 1.0]
  {
    var r0 := rs[..0];
    var r1 := rs[..1];
    var r2 := rs[..2];
    var r3 := rs;
    assert Run([], r0) == Success([]);
    assert Run([], r1).Success? && Run([], r1).value == [200.0] by {
      assert r1[..0] == r0;
      assert DigitsValue("2") == 2;
      assert "20"[..1] == "2";
      assert DigitsValue("20") == 20;
      assert "200"[..2] == "20";
      assert DigitsValue("200") == 200;
    }
    assert Run([], r2).Success? && Run([], r2).value == [200.0, 12.0] by {
      assert r2[..1] == r1;
      assert DigitsValue("1") == 1;
      assert "12"[..1] == "1";
      assert DigitsValue("12") == 12;
    }
    assert r3[..2] == r2;
    assert DigitsValue("1") == 1;
  }

  /** The first 6 iterations for `SecondCalculationValue`. */
  lemma SecondCalculationValueUpTo6(rs: seq<Token>)
    requires rs == [Num("200"), Num("12"), Num("1"), Num("8"), Operator(Div), Num("1")]
    ensures Run([], rs).Success? && Run([], rs).value == [200.0, 12.0, 0.125, 1.0]
  {
    var r3 := rs[..3];
    var r4 := rs[..4];
    var r5 := rs[..5];
    var r6 := rs;
    SecondCalculationValueUpTo3(r3);
    assert Run([], r4).Success? && Run([], r4).value == [200.0, 12.0, 1.0, 8.0] by {
      assert r4[..3] == r3;
      assert DigitsValue("8") == 8;
    }
    assert Run([], r5).Success? && Run([], r5).value == [200.0, 12.0, 0.125] by {
      assert r5[..4] == r4;
      assert [200.0, 12.0, 1.0, 8.0][..2] == [200.0, 12.0];
    }
    assert r6[..5] == r5;
    assert DigitsValue("1") == 1;
  }

  /** The first 9 iterations for `SecondCalculationValue`. */
  lemma SecondCalculationValueUpTo9(rs: seq<Token>)
    requires rs == [Num("200"), Num("12"), Num("1"), Num("8"), Operator(Div), Num("1"), Operator(Add), Operator(Mul), Num("19")]
    ensures Run([], rs).Success? && Run([], rs).value == [200.0, 13.5, 19.0]
  {
    var r6 := rs[..6];
    var r7 := rs[..7];
    var r8 := rs[..8];
    var r9 := rs;
    SecondCalculationValueUpTo6(r6);
    assert Run([], r7).Success? && Run([], r7).value == [200.0, 12.0, 1.125] by {
      assert r7[..6] == r6;
      assert [200.0, 12.0, 0.125, 1.0][..2] == [200.0, 12.0];
    }
    assert Run([], r8).Success? && Run([], r8).value == [200.0, 13.5] by {
      assert r8[..7] == r7;
      assert [200.0, 12.0, 1.125][..1] == [200.0];
    }
    assert r9[..8] == r8;
    assert DigitsValue("1") == 1;
    assert "19"[..1] == "1";
    assert DigitsValue("19") == 19;
  }

  /** The first 11 iterations for `SecondCalculationValue`. */
  lemma SecondCalculationValueUpTo11(rs: seq<Token>)
    requires rs == [Num("200"), Num("12"), Num("1"), Num("8"), Operator(Div), Num("1"), Operator(Add), Operator(Mul), Num("19"), Operator(Sub), Operator(Add)]
    ensures Run([], rs).Success? && Run([], rs).value == [194.5]
  {
    var r9 := rs[..9];
    var r10 := rs[..10];
    var r11 := rs;
    SecondCalculationValueUpTo9(r9);
    assert Run([], r10).Success? && Run([], r10).value == [200.0, -5.5] by {
      assert r10[..9] == r9;
      assert [200.0, 13.5, 19.0][..1] == [200.0];
    }
    assert r11[..10] == r10;
    assert [200.0, -5.5][..0] == [];
  }

  /** The value of the reverse Polish form of `200+12*((1/8)+1)-19`. */
  lemma SecondCalculationValue()
    ensures CalculateStack([Num("200"), Num("12"), Num("1"), Num("8"), Operator(Div), Num("1"), Operator(Add), Operator(Mul), Num("19"), Operator(Sub), Operator(Add)]) == Success(194.5)
  {
    SecondCalculationValueUpTo11([Num("200"), Num("12"), Num("1"), Num("8"), Operator(Div), Num("1"), Operator(Add), Operator(Mul), Num("19"), Operator(Sub), Operator(Add)]);
  }

  /** The second calculation of the test suite: with one operator moved per incoming operator the trailing `-19` is applied before the `+`, which gives the same value here. */
  lemma SecondCalculation()
    ensures Calculate("200+12*((1/8)+1)-19") == Success(194.5)
  {
    SecondCalculationTokens();
    SecondCalculationRpn();
    SecondCalculationValue();
  }

  /** The first 2 iterations for `SinglePopTokens`. */
  lemma SinglePopTokensUpTo2(ss: string)
    requires ss == "1-2"
    ensures ConvertToArray(ss).Success? && ConvertToArray(ss).value == [Num("1"), Operator(Sub), Num("2")]
  {
    var s0 := ss[..1];
    var s1 := ss[..2];
    var s2 := ss;
    assert ConvertToArray(s0).Success? && ConvertToArray(s0).value == [Num("1")];
    assert ConvertToArray(s1).Success? && ConvertToArray(s1).value == [Num("1"), Operator(Sub)] by {
      assert s1[..1] == s0;
    }
    assert s2[..2] == s1;
  }

  /** The first 4 iterations for `SinglePopTokens`. */
  lemma SinglePopTokensUpTo4(ss: string)
    requires ss == "1-2*3"
    ensures ConvertToArray(ss).Success? && ConvertToArray(ss).value == [Num("1"), Operator(Sub), Num("2"), Operator(Mul), Num("3")]
  {
    var s2 := ss[..3];
    var s3 := ss[..4];
    var s4 := ss;
    SinglePopTokensUpTo2(s2);
    assert ConvertToArray(s3).Success? && ConvertToArray(s3).value == [Num("1"), Operator(Sub), Num("2"), Operator(Mul)] by {
      assert s3[..3] == s2;
    }
    assert s4[..4] == s3;
  }

  /** The first 6 iterations for `SinglePopTokens`. */
  lemma SinglePopTokensUpTo6(ss: string)
    requires ss == "1-2*3+4"
    ensures ConvertToArray(ss).Success? && ConvertToArray(ss).value == [Num("1"), Operator(Sub), Num("2"), Operator(Mul), Num("3"), Operator(Add), Num("4")]
  {
    var s4 := ss[..5];
    var s5 := ss[..6];
    var s6 := ss;
    SinglePopTokensUpTo4(s4);
    assert ConvertToArray(s5).Success? && ConvertToArray(s5).value == [Num("1"), Operator(Sub), Num("2"), Operator(Mul), Num("3"), Operator(Add)] by {
      assert s5[..5] == s4;
    }
    assert s6[..6] == s5;
  }

  /** The tokens of `1-2*3+4`. */
  lemma SinglePopTokens()
    ensures ConvertToArray("1-2*3+4") == Success([Num("1"), Operator(Sub), Num("2"), Operator(Mul), Num("3"), Operator(Add), Num("4")])
  {
    SinglePopTokensUpTo6("1-2*3+4");
  }

  /** The first 2 iterations for `SinglePopRpn`. */
  lemma SinglePopRpnUpTo2(ts: seq<Token>)
    requires ts == [Num("1"), Operator(Sub)]
    ensures Shunt(ts).Success? && Shunt(ts).value.output == [Num("1")] && Shunt(ts).value.stack == [Operator(Sub)] && Shunt(ts).value.closeBracketFound == false
  {
    var t0 := ts[..0];
    var t1 := ts[..1];
    var t2 := ts;
    assert Shunt(t0).Success? && Shunt(t0).value.output == [] && Shunt(t0).value.stack == [] && !Shunt(t0).value.closeBracketFound;
    assert Shunt(t1).Success? && Shunt(t1).value.output == [Num("1")] && Shunt(t1).value.stack == [] && Shunt(t1).value.closeBracketFound == false by {
      assert t1[..0] == t0;
    }
    assert t2[..1] == t1;
  }

  /** The first 4 iterations for `SinglePopRpn`. */
  lemma SinglePopRpnUpTo4(ts: seq<Token>)
    requires ts == [Num("1"), Operator(Sub), Num("2"), Operator(Mul)]
    ensures Shunt(ts).Success? && Shunt(ts).value.output == [Num("1"), Num("2")] && Shunt(ts).value.stack == [Operator(Mul), Operator(Sub)] && Shunt(ts).value.closeBracketFound == false
  {
    var t2 := ts[..2];
    var t3 := ts[..3];
    var t4 := ts;
    SinglePopRpnUpTo2(t2);
    assert Shunt(t3).Success? && Shunt(t3).value.output == [Num("1"), Num("2")] && Shunt(t3).value.stack == [Operator(Sub)] && Shunt(t3).value.closeBracketFound == false by {
      assert t3[..2] == t2;
    }
    assert t4[..3] == t3;
  }

  /** The first 6 iterations for `SinglePopRpn`. */
  lemma SinglePopRpnUpTo6(ts: seq<Token>)
    requires ts == [Num("1"), Operator(Sub), Num("2"), Operator(Mul), Num("3"), Operator(Add)]
    ensures Shunt(ts).Success? && Shunt(ts).value.output == [Num("1"), Num("2"), Num("3"), Operator(Mul)] && Shunt(ts).value.stack == [Operator(Add), Operator(Sub)] && Shunt(ts).value.closeBracketFound == false
  {
    var t4 := ts[..4];
    var t5 := ts[..5];
    var t6 := ts;
    SinglePopRpnUpTo4(t4);
    assert Shunt(t5).Success? && Shunt(t5).value.output == [Num("1"), Num("2"), Num("3")] && Shunt(t5).value.stack == [Operator(Mul), Operator(Sub)] && Shunt(t5).value.closeBracketFound == false by {
      assert t5[..4] == t4;
    }
    assert t6[..5] == t5;
    assert [Operator(Mul), Operator(Sub)][1..] == [Operator(Sub)];
    assert [Num("1"), Num("2"), Num("3")] + [Operator(Mul)] == [Num("1"), Num("2"), Num("3"), Operator(Mul)];
  }

  /** The first 7 iterations for `SinglePopRpn`. */
  lemma SinglePopRpnUpTo7(ts: seq<Token>)
    requires ts == [Num("1"), Operator(Sub), Num("2"), Operator(Mul), Num("3"), Operator(Add), Num("4")]
    ensures Shunt(ts).Success? && Shunt(ts).value.output == [Num("1"), Num("2"), Num("3"), Operator(Mul), Num("4")] && Shunt(ts).value.stack == [Operator(Add), Operator(Sub)] && Shunt(ts).value.closeBracketFound == false
  {
    var t6 := ts[..6];
    var t7 := ts;
    SinglePopRpnUpTo6(t6);
    assert t7[..6] == t6;
  }

  /** The reverse Polish form of `1-2*3+4`. */
  lemma SinglePopRpn()
    ensures CreateStack([Num("1"), Operator(Sub), Num("2"), Operator(Mul), Num("3"), Operator(Add), Num("4")]) == Success([Num("1"), Num("2"), Num("3"), Operator(Mul), Num("4"), Operator(Add), Operator(Sub)])
  {
    SinglePopRpnUpTo7([Num("1"), Operator(Sub), Num("2"), Operator(Mul), Num("3"), Operator(Add), Num("4")]);
    assert Drain([Num("1"), Num("2"), Num("3"), Operator(Mul), Num("4"), Operator(Add), Operator(Sub)], []).Success? && Drain([Num("1"), Num("2"), Num("3"), Operator(Mul), Num("4"), Operator(Add), Operator(Sub)], []).value == [Num("1"), Num("2"), Num("3"), Operator(Mul), Num("4"), Operator(Add), Operator(Sub)];
    assert [Num("1"), Num("2"), Num("3"), Operator(Mul), Num("4"), Operator(Add)] + [Operator(Sub)] == [Num("1"), Num("2"), Num("3"), Operator(Mul), Num("4"), Operator(Add), Operator(Sub)];
    assert [Operator(Sub)][1..] == [];
    assert Drain([Num("1"), Num("2"), Num("3"), Operator(Mul), Num("4"), Operator(Add)], [Operator(Sub)]).Success? && Drain([Num("1"), Num("2"), Num("3"), Operator(Mul), Num("4"), Operator(Add)], [Operator(Sub)]).value == [Num("1"), Num("2"), Num("3"), Operator(Mul), Num("4"), Operator(Add), Operator(Sub)];
    assert [Num("1"), Num("2"), Num("3"), Operator(Mul), Num("4")] + [Operator(Add)] == [Num("1"), Num("2"), Num("3"), Operator(Mul), Num("4"), Operator(Add)];
    assert [Operator(Add), Operator(Sub)][1..] == [Operator(Sub)];
    assert Drain([Num("1"), Num("2"), Num("3"), Operator(Mul), Num("4")], [Operator(Add), Operator(Sub)]).Success? && Drain([Num("1"), Num("2"), Num("3"), Operator(Mul), Num("4")], [Operator(Add), Operator(Sub)]).value == [Num("1"), Num("2"), Num("3"), Operator(Mul), Num("4"), Operator(Add), Operator(Sub)];
  }

  /** The first 3 iterations for `SinglePopValue`. */
  lemma SinglePopValueUpTo3(rs: seq<Token>)
    requires rs == [Num("1"), Num("2"), Num("3")]
    ensures Run([], rs).Success? && Run([], rs).value == [1.0, 2.0, 3.0]
  {
    var r0 := rs[..0];
    var r1 := rs[..1];
    var r2 := rs[..2];
    var r3 := rs;
    assert Run([], r0) == Success([]);
    assert Run([], r1).Success? && Run([], r1).value == [1.0] by {
      assert r1[..0] == r0;
      assert DigitsValue("1") == 1;
    }
    assert Run([], r2).Success? && Run([], r2).value == [1.0, 2.0] by {
      assert r2[..1] == r1;
      assert DigitsValue("2") == 2;
    }
    assert r3[..2] == r2;
    assert DigitsValue("3") == 3;
  }

  /** The first 6 iterations for `SinglePopValue`. */
  lemma SinglePopValueUpTo6(rs: seq<Token>)
    requires rs == [Num("1"), Num("2"), Num("3"), Operator(Mul), Num("4"), Operator(Add)]
    ensures Run([], rs).Success? && Run([], rs).value == [1.0, 10.0]
  {
    var r3 := rs[..3];
    var r4 := rs[..4];
    var r5 := rs[..5];
    var r6 := rs;
    SinglePopValueUpTo3(r3);
    assert Run([], r4).Success? && Run([], r4).value == [1.0, 6.0] by {
      assert r4[..3] == r3;
      assert [1.0, 2.0, 3.0][..1] == [1.0];
    }
    assert Run([], r5).Success? && Run([], r5).value == [1.0, 6.0, 4.0] by {
      assert r5[..4] == r4;
      assert DigitsValue("4") == 4;
    }
    assert r6[..5] == r5;
    assert [1.0, 6.0, 4.0][..1] == [1.0];
  }

  /** The first 7 iterations for `SinglePopValue`. */
  lemma SinglePopValueUpTo7(rs: seq<Token>)
    requires rs == [Num("1"), Num("2"), Num("3"), Operator(Mul), Num("4"), Operator(Add), Operator(Sub)]
    ensures Run([], rs).Success? && Run([], rs).value == [-9.0]
  {
    var r6 := rs[..6];
    var r7 := rs;
    SinglePopValueUpTo6(r6);
    assert r7[..6] == r6;
    assert [1.0, 10.0][..0] == [];
  }

  /** The value of the reverse Polish form of `1-2*3+4`. */
  lemma SinglePopValue()
    ensures CalculateStack([Num("1"), Num("2"), Num("3"), Operator(Mul), Num("4"), Operator(Add), Operator(Sub)]) == Success(-9.0)
  {
    SinglePopValueUpTo7([Num("1"), Num("2"), Num("3"), Operator(Mul), Num("4"), Operator(Add), Operator(Sub)]);
  }

  /** Only one operator leaves the stack per incoming operator: the `+` moves `*` to the output but leaves `-` below it, so the result is 1 - (6 + 4) rather than (1 - 6) + 4. */
  lemma SinglePop()
    ensures Calculate("1-2*3+4") == Success(-9.0)
  {
    SinglePopTokens();
    SinglePopRpn();
    SinglePopValue();
  }
}
