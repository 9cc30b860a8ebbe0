/** Worked inputs for the parser of parser.py: an assignment whose right
    side needs the pushback slot between factor_rest, term_rest and
    arith_rest; a chain of two additions, which term_rest cannot take; and
    an assignment to a number, which check_semantic refuses. Each parse is
    taken one token at a time. */
module ParserScenarios {
  import opened Text
  import opened Lexing
  import opened Parsing

  // "x = 3 * 4 + 5"

  /** An integer constant. */
  function N(n: nat): Expression { Const(Int(n)) }

  const Eq := Token(Op, Chars("="))
  const Plus := Token(Op, Chars("+"))
  const X := Expression.Symbol("x")

  const Assign := "x = 3 * 4 + 5"

  lemma ScanAssign0() ensures Scan(Assign, 0) == (Tok(Token(Kind.Symbol, Chars("x"))), 2) {
    assert WordRunEnd(Assign, 0) == 1 && Assign[0..1] == "x" && Assign[1] == ' ';
    assert ScanWord(Assign, 0) == (Tok(Token(Kind.Symbol, Chars("x"))), 2);
  }

  lemma ScanAssign2() ensures Scan(Assign, 2) == (Tok(Token(Op, Chars("="))), 4) {}

  lemma ScanAssign4() ensures Scan(Assign, 4) == (Tok(Token(Num, Int(3))), 6) {
    assert DigitRunEnd(Assign, 4) == 5 && Assign[4..5] == "3";
  }

  lemma ScanAssign6() ensures Scan(Assign, 6) == (Tok(Token(Op, Chars("*"))), 7) {}

  lemma ScanAssign7() ensures Scan(Assign, 7) == (Tok(Token(Num, Int(4))), 10) {
    assert DigitRunEnd(Assign, 8) == 9 && Assign[8..9] == "4";
  }

  lemma ScanAssign10() ensures Scan(Assign, 10) == (Tok(Token(Op, Chars("+"))), 11) {}

  lemma ScanAssign11() ensures Scan(Assign, 11) == (Tok(Token(Num, Int(5))), 13) {
    assert DigitRunEnd(Assign, 12) == 13 && Assign[12..13] == "5";
  }

  lemma ScanAssign13() ensures Scan(Assign, 13) == (End, 13) {}

  /** The target: 'x', then '=' read by factor_rest and pushed back. */
  lemma ParseLeft()
    ensures ParseArith(Assign, Cursor(0, None)) == (Ok(X), Cursor(4, Some(Eq)))
  {
    ScanAssign0(); ScanAssign2();
    assert ParseFactor(Assign, Cursor(0, None)) == (Ok(X), Cursor(2, None));
    assert ParseFactorRest(Assign, X, Cursor(2, None)) == (Ok(X), Cursor(4, Some(Eq)));
    assert ParseTerm(Assign, Cursor(0, None)) == (Ok(X), Cursor(4, Some(Eq)));
    assert ParseTermRest(Assign, X, Cursor(4, Some(Eq))) == (Ok(X), Cursor(4, Some(Eq)));
  }

  lemma ParseFive()
    ensures ParseTerm(Assign, Cursor(11, None)) == (Ok(N(5)), Cursor(13, None))
  {
    ScanAssign11(); ScanAssign13();
    assert ParseFactor(Assign, Cursor(11, None)) == (Ok(N(5)), Cursor(13, None));
    assert ParseFactorRest(Assign, N(5), Cursor(13, None)) == (Ok(N(5)), Cursor(13, None));
  }

  lemma ParseFour()
    ensures ParseTerm(Assign, Cursor(7, None)) == (Ok(N(4)), Cursor(11, Some(Plus)))
  {
    ScanAssign7(); ScanAssign10();
    assert ParseFactor(Assign, Cursor(7, None)) == (Ok(N(4)), Cursor(10, None));
    assert ParseFactorRest(Assign, N(4), Cursor(10, None)) == (Ok(N(4)), Cursor(11, Some(Plus)));
  }

  lemma ParseProduct()
    ensures ParseTerm(Assign, Cursor(4, None)) == (Ok(Product(N(3), N(4))), Cursor(11, Some(Plus)))
  {
    ScanAssign4(); ScanAssign6(); ParseFour();
    assert ParseFactor(Assign, Cursor(4, None)) == (Ok(N(3)), Cursor(6, None));
    assert ParseFactorRest(Assign, N(3), Cursor(6, None)) == (Ok(Product(N(3), N(4))), Cursor(11, Some(Plus)));
  }

  lemma ParseRight()
    ensures ParseArith(Assign, Cursor(4, None)) == (Ok(Sum(Product(N(3), N(4)), N(5))), Cursor(13, None))
  {
    ParseProduct(); ParseFive();
    assert ParseTermRest(Assign, Product(N(3), N(4)), Cursor(11, Some(Plus))) == (Ok(Sum(Product(N(3), N(4)), N(5))), Cursor(13, None));
  }

  /** The whole statement parses as x = (3 * 4) + 5. */
  lemma ParseExample()
    ensures ParseS(Assign, Cursor(0, None)) == (Ok(Assignment(X, Sum(Product(N(3), N(4)), N(5)))), Cursor(13, None))
  {
    ParseLeft(); ParseRight();
    assert ParseArithRest(Assign, X, Cursor(4, Some(Eq))) == (Ok(Assignment(X, Sum(Product(N(3), N(4)), N(5)))), Cursor(13, None));
  }

  /** The right side's value in an empty context. */
  lemma ValueExample()
    ensures Value(Sum(Product(N(3), N(4)), N(5)), map[]) == Ok(Integer(17))
  {
  }

  /** "x = 3 * 4 + 5" passes the semantic check and compiles to itself. */
  lemma CompileExample()
    ensures Compile(Assign, Cursor(0, None)) == (Ok(Assignment(X, Sum(Product(N(3), N(4)), N(5)))), Cursor(13, None))
  {
    ParseExample();
  }

  /** "x = 3 * 4 + 5" in an empty context: the value is 17 and x is bound to it. */
  lemma AssignmentExample()
    ensures Interpret(Assign, Cursor(0, None), map[]) == (Ok(Integer(17)), Cursor(13, None), map["x" := Integer(17)])
  {
    var e := Assignment(X, Sum(Product(N(3), N(4)), N(5)));
    CompileExample();
    EvaluateExample();
    InterpretCompiled(Assign, Cursor(0, None), map[], e, Cursor(13, None));
  }

  /** x = 3 * 4 + 5 evaluated in an empty context. */
  lemma EvaluateExample()
    ensures Evaluate(Assignment(X, Sum(Product(N(3), N(4)), N(5))), map[]) == (Ok(Integer(17)), map["x" := Integer(17)])
  {
    ValueExample();
    EvaluateAssignment("x", Sum(Product(N(3), N(4)), N(5)), map[]);
  }

  /** eval() of a program that compiles evaluates the compiled tree. */
  lemma InterpretCompiled(p: string, c: Cursor, ctx: Context, e: Expression, c1: Cursor)
    requires c.pos <= |p| && Compile(p, c) == (Ok(e), c1)
    ensures Interpret(p, c, ctx) == (Evaluate(e, ctx).0, c1, Evaluate(e, ctx).1)
  {
  }

  // "1 + 2 + 3"

  const Chain := "1 + 2 + 3"

  lemma ScanChain0() ensures Scan(Chain, 0) == (Tok(Token(Num, Int(1))), 2) {
    assert DigitRunEnd(Chain, 0) == 1 && Chain[0..1] == "1";
  }

  lemma ScanChain2() ensures Scan(Chain, 2) == (Tok(Plus), 3) {}

  lemma ScanChain3() ensures Scan(Chain, 3) == (Tok(Token(Num, Int(2))), 6) {
    assert DigitRunEnd(Chain, 4) == 5 && Chain[4..5] == "2";
  }

  lemma ScanChain6() ensures Scan(Chain, 6) == (Tok(Plus), 7) {}

  lemma ChainArith()
    ensures ParseArith(Chain, Cursor(0, None)) == (Ok(Sum(N(1), N(2))), Cursor(7, Some(Plus)))
  {
    ChainFirstTerm(); ChainSecondTerm();
  }

  lemma ChainFirstTerm()
    ensures ParseTerm(Chain, Cursor(0, None)) == (Ok(N(1)), Cursor(3, Some(Plus)))
  {
    ScanChain0(); ScanChain2();
  }

  lemma ChainSecondTerm()
    ensures ParseTerm(Chain, Cursor(3, None)) == (Ok(N(2)), Cursor(7, Some(Plus)))
  {
    ScanChain3(); ScanChain6();
  }

  /** "1 + 2 + 3": term_rest takes one additive step, and the '+' left in
      the slot reaches arith_rest, which accepts only '='. */
  lemma NotAnAssignmentExample()
    ensures ParseS(Chain, Cursor(0, None)) == (Fail(NotAnAssignment), Cursor(7, None))
  {
    ChainArith();
  }

  // "3 = x"

  const Reversed := "3 = x"

  lemma ScanReversed()
    ensures Scan(Reversed, 0) == (Tok(Token(Num, Int(3))), 2)
    ensures Scan(Reversed, 2) == (Tok(Eq), 4)
    ensures Scan(Reversed, 4) == (Tok(Token(Kind.Symbol, Chars("x"))), 5)
    ensures Scan(Reversed, 5) == (End, 5)
  {
    assert DigitRunEnd(Reversed, 0) == 1 && Reversed[0..1] == "3";
    assert WordRunEnd(Reversed, 4) == 5 && Reversed[4..5] == "x";
  }

  lemma ReversedLeft()
    ensures ParseArith(Reversed, Cursor(0, None)) == (Ok(N(3)), Cursor(4, Some(Eq)))
  {
    ScanReversed();
    assert ParseTerm(Reversed, Cursor(0, None)) == (Ok(N(3)), Cursor(4, Some(Eq)));
  }

  lemma ReversedRight()
    ensures ParseArith(Reversed, Cursor(4, None)) == (Ok(X), Cursor(5, None))
  {
    ScanReversed();
    assert ParseTerm(Reversed, Cursor(4, None)) == (Ok(X), Cursor(5, None));
  }

  /** "3 = x" parses as an assignment, but check_semantic refuses it: its
      left side is not a variable. */
  lemma AssignmentErrorExample()
    ensures ParseS(Reversed, Cursor(0, None)) == (Ok(Assignment(N(3), X)), Cursor(5, None))
    ensures Compile(Reversed, Cursor(0, None)) == (Fail(AssignmentError), Cursor(5, None))
  {
    ReversedLeft(); ReversedRight();
    assert ParseArithRest(Reversed, N(3), Cursor(4, Some(Eq))) == (Ok(Assignment(N(3), X)), Cursor(5, None));
  }

  // "6 / 3"

  const Divide := "6 / 3"

  lemma ScanDivide()
    ensures Scan(Divide, 0) == (Tok(Token(Num, Int(6))), 2)
    ensures Scan(Divide, 2) == (Tok(Token(Op, Chars("/"))), 3)
    ensures Scan(Divide, 3) == (Tok(Token(Num, Int(3))), 5)
    ensures Scan(Divide, 5) == (End, 5)
  {
    assert DigitRunEnd(Divide, 0) == 1 && Divide[0..1] == "6";
    assert DigitRunEnd(Divide, 4) == 5 && Divide[4..5] == "3";
  }

  lemma DivideTerm()
    ensures ParseTerm(Divide, Cursor(0, None)) == (Ok(Difference(N(6), N(3))), Cursor(5, None))
  {
    ScanDivide();
    assert ParseTerm(Divide, Cursor(3, None)) == (Ok(N(3)), Cursor(5, None));
    assert ParseFactor(Divide, Cursor(0, None)) == (Ok(N(6)), Cursor(2, None));
  }

  lemma DivideStatement()
    ensures ParseS(Divide, Cursor(0, None)) == (Ok(Difference(N(6), N(3))), Cursor(5, None))
  {
    DivideTerm(); ScanDivide();
    assert ParseArith(Divide, Cursor(0, None)) == (Ok(Difference(N(6), N(3))), Cursor(5, None));
  }

  /** "6 / 3": factor_rest builds a Difference for '/', ... */
  lemma DivisionExample()
    ensures Compile(Divide, Cursor(0, None)) == (Ok(Difference(N(6), N(3))), Cursor(5, None))
  {
    DivideStatement();
  }

  /** ... so the value is 3. */
  lemma DivisionValue()
    ensures Value(Difference(N(6), N(3)), map[]) == Ok(Integer(3))
  {
  }

  // "( 1 )"

  /** "( 1 )": the '(' branch of factor calls a method the parser lacks. */
  lemma ParenthesesExample()
    ensures ParseS("( 1 )", Cursor(0, None)) == (Fail(NoExprMethod), Cursor(1, None))
  {
    assert Scan("( 1 )", 0) == (Tok(Token(OpenParens, Chars("("))), 1);
  }
}
