/** Worked inputs for the calculator of compiler.py: precedence through the
    pushback slot, a parenthesised sum, the single additive step of
    term_rest, a closing parenthesis that term_rest does not expect, and a
    character the lexer refuses. Each parse is taken one token at a time. */
module CalculatorScenarios {
  import opened Text
  import opened Compiler

  const Precedence := "3 * 4 + 5"
  const PrecedenceTree := Sum(Product(Const(3), Const(4)), Const(5))

  lemma PrecedenceText()
    ensures IsFlat(PrecedenceTree) && Inorder(PrecedenceTree) == Precedence
    ensures Evaluate(PrecedenceTree) == 17
  {
    assert NatToString(3) == "3" && NatToString(4) == "4" && NatToString(5) == "5";
  }

  /** "3 * 4 + 5": the product binds tighter, and eval() gives 17. */
  lemma PrecedenceExample()
    ensures ParseExpr(Precedence, Cursor(0, false, None)) == (Ok(PrecedenceTree), Cursor(9, true, None))
    ensures Calculate(Precedence, Cursor(0, false, None)).0 == Ok(17)
  {
    PrecedenceText();
    ExprReadsBack(Precedence, PrecedenceTree);
    CalculateInorder(PrecedenceTree);
  }

  // "(1 + 2) * 3"

  const Paren := "(1 + 2) * 3"
  const ParenSum := Sum(Const(1), Const(2))

  lemma ParenText()
    ensures Paren == "(" + Inorder(ParenSum) + ") * " + Inorder(Const(3))
    ensures IsFlat(ParenSum) && Evaluate(ParenSum) == 3
  {
    assert NatToString(1) == "1" && NatToString(2) == "2" && NatToString(3) == "3";
  }

  /** "(1 + 2) * 3": parentheses override precedence, and eval() gives 9. */
  lemma ParenthesesExample()
    ensures ParseExpr(Paren, Cursor(0, false, None)) ==
            (Ok(Product(ParenSum, Const(3))), Cursor(11, true, None))
    ensures Calculate(Paren, Cursor(0, false, None)) == (Ok(9), Cursor(11, true, None))
  {
    ParenText();
    ParenProduct(ParenSum, Const(3));
  }

  // "1 + 2 + 3"

  const Chain := "1 + 2 + 3"

  lemma ScanChain0() ensures Scan(Chain, 0) == (Tok(Number(1)), 1, false) {
    assert DigitRunEnd(Chain, 0) == 1 && Chain[0..1] == "1";
  }
  lemma ScanChain1() ensures Scan(Chain, 1) == (Tok(Operator('+')), 3, false) {}
  lemma ScanChain3() ensures Scan(Chain, 3) == (Tok(Number(2)), 5, false) {
    assert DigitRunEnd(Chain, 4) == 5 && Chain[4..5] == "2";
  }
  lemma ScanChain5() ensures Scan(Chain, 5) == (Tok(Operator('+')), 7, false) {}

  lemma ChainOne()
    ensures ParseTerm(Chain, Cursor(0, false, None)) == (Ok(Const(1)), Cursor(3, false, Some(Operator('+'))))
  {
    ScanChain0(); ScanChain1();
    assert ParseFactor(Chain, Cursor(0, false, None)) == (Ok(Const(1)), Cursor(1, false, None));
  }

  lemma ChainTwo()
    ensures ParseTerm(Chain, Cursor(3, false, None)) == (Ok(Const(2)), Cursor(7, false, Some(Operator('+'))))
  {
    ScanChain3(); ScanChain5();
    assert ParseFactor(Chain, Cursor(3, false, None)) == (Ok(Const(2)), Cursor(5, false, None));
  }

  lemma ChainExpr()
    ensures ParseExpr(Chain, Cursor(0, false, None)) ==
            (Ok(Sum(Const(1), Const(2))), Cursor(7, false, Some(Operator('+'))))
  {
    ChainOne(); ChainTwo();
    assert ParseTermRest(Chain, Const(1), Cursor(3, false, Some(Operator('+')))) ==
           (Ok(Sum(Const(1), Const(2))), Cursor(7, false, Some(Operator('+'))));
  }

  /** "1 + 2 + 3": term_rest takes one additive step, so the parse is
      1 + 2, eval() gives 3, and the second '+' is left in the slot with
      "3" unread. */
  lemma SingleStepExample()
    ensures Calculate(Chain, Cursor(0, false, None)) == (Ok(3), Cursor(7, false, Some(Operator('+'))))
  {
    ChainExpr();
  }

  // "(4)"

  const Single := "(4)"

  /** "(4)": factor_rest swallows the ')' it does not expect and puts it
      back, but term_rest does not, so the inner expr() raises
      UnexpectedToken and so does the whole parse. */
  lemma ClosingExample()
    ensures ParseExpr(Single, Cursor(0, false, None)) ==
            (Fail(UnexpectedToken(Some(ClosingParens))), Cursor(3, false, Some(Closing)))
  {
    assert NatToString(4) == "4" && Single == "(" + Inorder(Const(4)) + ")";
    ParenTermFails(Const(4));
  }

  // "6 / 3"

  const Divide := "6 / 3"

  lemma ScanDivide()
    ensures Scan(Divide, 0) == (Tok(Number(6)), 1, false)
    ensures Scan(Divide, 1) == (Unknown("Unknow token /"), 3, false)
  {
    assert DigitRunEnd(Divide, 0) == 1 && Divide[0..1] == "6";
    assert SkipSpaces(Divide, 1) == 2 && Divide[2] == '/';
    assert "Unknow token " + ['/'] == "Unknow token /";
  }

  /** "6 / 3": the lexer has no '/' token, so factor_rest meets
      UnknownToken, does not catch it, and the parse fails with it. */
  lemma DivisionExample()
    ensures ParseExpr(Divide, Cursor(0, false, None)) ==
            (Fail(UnknownToken("Unknow token /")), Cursor(3, false, None))
  {
    ScanDivide();
    assert ParseFactor(Divide, Cursor(0, false, None)) == (Ok(Const(6)), Cursor(1, false, None));
  }
}
