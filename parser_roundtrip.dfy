/** Reading back a written-out statement with the parser of parser.py: the
    trees its grammar builds from a statement without parentheses, written
    with one space around each operator, parse back to themselves, and the
    whole text is read. */
module ParserRoundTrip {
  import opened Text
  import opened Lexing
  import opened Parsing

  /** The operator character written between the two sides. */
  function OpChar(e: Expression): char
    requires e.Assignment? || e.Sum? || e.Difference? || e.Product?
  {
    if e.Assignment? then '=' else if e.Sum? then '+' else if e.Difference? then '-' else '*'
  }

  /** A statement written out: integers in decimal, variables by name, and
      each operator with one space on both sides. */
  function Render(e: Expression): (r: string)
    ensures FlatFactor(e) ==> |r| > 0 && IsAlphanumeric(r[0]) && IsAlphanumeric(r[|r| - 1])
  {
    match e
    case Const(l) => if l.Int? then NatToString(l.n) else if l.Float? then l.whole + "." + l.frac else l.s
    case Symbol(x) => x
    case Assignment(a, b) => Render(a) + " = " + Render(b)
    case Sum(a, b) => Render(a) + " + " + Render(b)
    case Difference(a, b) => Render(a) + " - " + Render(b)
    case Product(a, b) => Render(a) + " * " + Render(b)
  }

  /** An integer constant, or a variable whose name the lexer reads as a
      SYMBOL (a word other than the keyword "if"). */
  predicate FlatFactor(e: Expression) {
    (e.Const? && e.number.Int?) || (e.Symbol? && IsWord(e.variable) && e.variable != "if")
  }

  /** factor, or factor '*' term: '/' is left out, since its tree is a
      Difference that reads back as a subtraction. */
  predicate FlatTerm(e: Expression) {
    FlatFactor(e) || (e.Product? && FlatFactor(e.left) && FlatTerm(e.right))
  }

  /** term, or term ('+' | '-') term: term_rest takes one step. */
  predicate FlatArith(e: Expression) {
    FlatTerm(e) || ((e.Sum? || e.Difference?) && FlatTerm(e.left) && FlatTerm(e.right))
  }

  /** arith, or arith '=' arith. */
  predicate FlatStatement(e: Expression) {
    FlatArith(e) || (e.Assignment? && FlatArith(e.left) && FlatArith(e.right))
  }

  lemma {:induction false} RenderEnds(e: Expression)
    requires FlatStatement(e)
    ensures var r := Render(e); |r| > 0 && IsAlphanumeric(r[0]) && IsAlphanumeric(r[|r| - 1])
  {
    if !FlatFactor(e) {
      RenderEndsBinary(e);
    }
  }

  lemma {:induction false} RenderEndsBinary(e: Expression)
    requires FlatStatement(e) && !FlatFactor(e)
    ensures var r := Render(e); |r| > 0 && IsAlphanumeric(r[0]) && IsAlphanumeric(r[|r| - 1])
    decreases e
  {
    var a, b := Render(e.left), Render(e.right);
    if !FlatFactor(e.left) {
      RenderEndsBinary(e.left);
    }
    if !FlatFactor(e.right) {
      RenderEndsBinary(e.right);
    }
    var r := Render(e);
    assert r == a + [' ', OpChar(e), ' '] + b;
    assert r[0] == a[0] && r[|r| - 1] == b[|b| - 1];
  }

  /** Where the two sides and the operator of a written binary node lie. */
  lemma Layout(p: string, s: nat, end: nat, e: Expression) returns (k: nat)
    requires e.Assignment? || e.Sum? || e.Difference? || e.Product?
    requires end == s + |Render(e)| && end <= |p| && p[s..end] == Render(e)
    ensures k == s + |Render(e.left)| && k + 3 + |Render(e.right)| == end
    ensures p[s..k] == Render(e.left) && p[k + 3..end] == Render(e.right)
    ensures p[k] == ' ' && p[k + 1] == OpChar(e) && p[k + 2] == ' '
  {
    var l, r := Render(e.left), Render(e.right);
    k := s + |l|;
    var w := Render(e);
    assert w == l + [' ', OpChar(e), ' '] + r;
    assert p[s..k] == p[s..end][..|l|] == w[..|l|] == l;
    assert p[k + 3..end] == p[s..end][|l| + 3..] == w[|l| + 3..] == r;
    assert p[k] == p[s..end][|l|] == w[|l|];
    assert p[k + 1] == p[s..end][|l| + 1] == w[|l| + 1];
    assert p[k + 2] == p[s..end][|l| + 2] == w[|l| + 2];
  }

  // ---------------------------------------------------------------------
  // Tokens.
  // ---------------------------------------------------------------------

  /** The token a factor is read as. */
  function FactorToken(e: Expression): Token
    requires FlatFactor(e)
  {
    if e.Const? then Token(Num, e.number) else Token(Kind.Symbol, Chars(e.variable))
  }

  /** A written factor after spaces, finished by a space or the end, is one token. */
  lemma ScanFactor(p: string, c: nat, s: nat, e: Expression, k: nat)
    requires FlatFactor(e) && k == s + |Render(e)|
    requires c <= s && k <= |p| && p[s..k] == Render(e) && Ends(p, k)
    requires forall m :: c <= m < s ==> IsSpace(p[m])
    ensures Scan(p, c) == (Tok(FactorToken(e)), After(p, k))
  {
    assert p[s] == Render(e)[0];
    SkipSpacesUpTo(p, c, s);
    ScanFrom(p, c, s);
    if e.Const? {
      NatToStringRoundTrip(e.number.n);
      IntAccept(p, s, k, After(p, k));
    } else {
      WordAccept(p, s, k, After(p, k));
    }
  }

  /** An operator written as " op " right after a finished token. */
  lemma ScanOperator(p: string, k: nat)
    requires k + 2 < |p| && p[k] == ' ' && p[k + 2] == ' '
    requires p[k + 1] == '+' || p[k + 1] == '-' || p[k + 1] == '*' || p[k + 1] == '='
    ensures Scan(p, k + 1) ==
              (Tok(Token(Op, Chars([p[k + 1]]))), if p[k + 1] == '=' then k + 3 else k + 2)
  {
    SkipSpacesUpTo(p, k + 1, k + 1);
    ScanFrom(p, k + 1, k + 1);
  }

  // ---------------------------------------------------------------------
  // Where a term stops, and where the parser then stands.
  // ---------------------------------------------------------------------

  /** After a term: the end, or " + ", " - " or " = ". */
  predicate TermStop(p: string, k: nat) {
    k == |p| || (k + 2 < |p| && p[k] == ' ' && p[k + 2] == ' ' && (p[k + 1] == '+' || p[k + 1] == '-' || p[k + 1] == '='))
  }

  /** The operator read and pushed back, and the cursor after it. */
  function StopCursor(p: string, k: nat): Cursor
    requires TermStop(p, k)
  {
    if k == |p| then Cursor(|p|, None)
    else Cursor(if p[k + 1] == '=' then k + 3 else k + 2, Some(Token(Op, Chars([p[k + 1]]))))
  }

  /** A written factor after spaces is read as itself. */
  lemma FactorReadsBack(p: string, c: nat, s: nat, e: Expression, k: nat)
    requires FlatFactor(e) && k == s + |Render(e)|
    requires c <= s && k <= |p| && p[s..k] == Render(e) && Ends(p, k)
    requires forall m :: c <= m < s ==> IsSpace(p[m])
    ensures ParseFactor(p, Cursor(c, None)) == (Ok(e), Cursor(After(p, k), None))
  {
    ScanFactor(p, c, s, e, k);
  }

  /** factor_rest before the end, " + ", " - " or " = " leaves the factor
      alone and pushes the operator back. */
  lemma FactorRestStops(p: string, left: Expression, k: nat)
    requires k <= |p| && TermStop(p, k)
    ensures ParseFactorRest(p, left, Cursor(After(p, k), None)) == (Ok(left), StopCursor(p, k))
  {
    if k < |p| {
      ScanOperator(p, k);
    }
  }

  /** " * " right after a finished factor is read as the operator '*'. */
  lemma ScanTimes(p: string, k: nat)
    requires k + 2 < |p| && p[k] == ' ' && p[k + 1] == '*' && p[k + 2] == ' '
    ensures Scan(p, k + 1) == (Tok(Token(Op, Chars("*"))), k + 2)
  {
    ScanOperator(p, k);
    assert [p[k + 1]] == "*";
  }

  /** term() reading a factor, '*' and then a term builds the product. */
  lemma ProductStep(p: string, c: nat, k: nat, left: Expression, right: Expression, after: Cursor)
    requires c <= k && k + 2 <= |p| && ParseFactor(p, Cursor(c, None)) == (Ok(left), Cursor(k + 1, None))
    requires Scan(p, k + 1) == (Tok(Token(Op, Chars("*"))), k + 2)
    requires ParseTerm(p, Cursor(k + 2, None)) == (Ok(right), after)
    ensures ParseTerm(p, Cursor(c, None)) == (Ok(Product(left, right)), after)
  {
    FactorRestProduct(p, left, k, right, after);
  }

  /** factor_rest reading '*' and then a term builds the product. */
  lemma FactorRestProduct(p: string, left: Expression, k: nat, right: Expression, after: Cursor)
    requires k + 2 <= |p| && Scan(p, k + 1) == (Tok(Token(Op, Chars("*"))), k + 2)
    requires ParseTerm(p, Cursor(k + 2, None)) == (Ok(right), after)
    ensures ParseFactorRest(p, left, Cursor(k + 1, None)) == (Ok(Product(left, right)), after)
  {
  }

  /** term() over a written flat term after spaces, stopped where a term may
      stop, gives the term. */
  lemma {:induction false} TermReadsBack(p: string, c: nat, s: nat, e: Expression, end: nat)
    requires FlatTerm(e) && end == s + |Render(e)|
    requires c <= s && end <= |p| && p[s..end] == Render(e) && TermStop(p, end)
    requires forall m :: c <= m < s ==> IsSpace(p[m])
    ensures ParseTerm(p, Cursor(c, None)) == (Ok(e), StopCursor(p, end))
    decreases e, 2
  {
    if FlatFactor(e) {
      FactorReadsBack(p, c, s, e, end);
      FactorRestStops(p, e, end);
    } else {
      var k := Layout(p, s, end, e);
      ProductReadsBack(p, c, s, e.left, k, e.right, end);
    }
  }

  /** The same for a product: its factor, " * ", and the rest of the term. */
  lemma {:induction false} ProductReadsBack(p: string, c: nat, s: nat, left: Expression, k: nat, right: Expression, end: nat)
    requires FlatFactor(left) && FlatTerm(right)
    requires k == s + |Render(left)| && end == k + 3 + |Render(right)|
    requires c <= s && end <= |p| && p[s..k] == Render(left) && p[k + 3..end] == Render(right)
    requires p[k] == ' ' && p[k + 1] == '*' && p[k + 2] == ' ' && TermStop(p, end)
    requires forall m :: c <= m < s ==> IsSpace(p[m])
    ensures ParseTerm(p, Cursor(c, None)) == (Ok(Product(left, right)), StopCursor(p, end))
    decreases Product(left, right), 1
  {
    ProductOperands(p, c, s, left, k, right, end);
    ScanTimes(p, k);
    ProductStep(p, c, k, left, right, StopCursor(p, end));
  }

  /** The factor before " * " and the term after it read back on their own. */
  lemma {:induction false} ProductOperands(p: string, c: nat, s: nat, left: Expression, k: nat, right: Expression, end: nat)
    requires FlatFactor(left) && FlatTerm(right)
    requires k == s + |Render(left)| && end == k + 3 + |Render(right)|
    requires c <= s && end <= |p| && p[s..k] == Render(left) && p[k + 3..end] == Render(right)
    requires p[k] == ' ' && p[k + 2] == ' ' && TermStop(p, end)
    requires forall m :: c <= m < s ==> IsSpace(p[m])
    ensures ParseFactor(p, Cursor(c, None)) == (Ok(left), Cursor(k + 1, None))
    ensures ParseTerm(p, Cursor(k + 2, None)) == (Ok(right), StopCursor(p, end))
    decreases Product(left, right), 0
  {
    RightTermReadsBack(p, right, k + 2, end);
    FactorReadsBack(p, c, s, left, k);
  }

  /** The term after " * ", behind its one space, reads up to where it ends. */
  lemma {:induction false} RightTermReadsBack(p: string, right: Expression, c: nat, end: nat)
    requires FlatTerm(right) && end == c + 1 + |Render(right)| && end <= |p|
    requires p[c] == ' ' && p[c + 1..end] == Render(right) && TermStop(p, end)
    ensures ParseTerm(p, Cursor(c, None)) == (Ok(right), StopCursor(p, end))
    decreases right, 3
  {
    OneSpace(p, c);
    TermReadsBack(p, c, c + 1, right, end);
  }

  // ---------------------------------------------------------------------
  // arith() and S().
  // ---------------------------------------------------------------------

  /** After an arith: the end, or " = ". */
  predicate ArithStop(p: string, k: nat) {
    k == |p| || (k + 2 < |p| && p[k] == ' ' && p[k + 1] == '=' && p[k + 2] == ' ')
  }

  /** term_rest at an arith's stop leaves the term alone. */
  lemma TermRestStops(p: string, left: Expression, k: nat)
    requires k <= |p| && ArithStop(p, k)
    ensures ParseTermRest(p, left, StopCursor(p, k)) == (Ok(left), StopCursor(p, k))
  {
  }

  /** arith() reading a term that term_rest leaves alone gives the term. */
  lemma ArithTerm(p: string, s: nat, e: Expression, k: nat)
    requires s <= k <= |p| && ArithStop(p, k) && TermStop(p, k)
    requires ParseTerm(p, Cursor(s, None)) == (Ok(e), StopCursor(p, k))
    ensures ParseArith(p, Cursor(s, None)) == (Ok(e), StopCursor(p, k))
  {
    TermRestStops(p, e, k);
  }

  /** arith() reading a term, '+' or '-' pushed back, and a term builds the
      sum or the difference. */
  lemma ArithStep(p: string, s: nat, e: Expression, k: nat, after: Cursor)
    requires (e.Sum? || e.Difference?) && s <= k && k + 2 <= |p|
    requires ParseTerm(p, Cursor(s, None)) == (Ok(e.left), Cursor(k + 2, Some(Token(Op, Chars([OpChar(e)])))))
    requires ParseTerm(p, Cursor(k + 2, None)) == (Ok(e.right), after)
    ensures ParseArith(p, Cursor(s, None)) == (Ok(e), after)
  {
    TermRestStep(p, e, k, after);
  }

  /** term_rest with '+' or '-' in the slot reads the term after it. */
  lemma TermRestStep(p: string, e: Expression, k: nat, after: Cursor)
    requires (e.Sum? || e.Difference?) && k + 2 <= |p|
    requires ParseTerm(p, Cursor(k + 2, None)) == (Ok(e.right), after)
    ensures ParseTermRest(p, e.left, Cursor(k + 2, Some(Token(Op, Chars([OpChar(e)]))))) == (Ok(e), after)
  {
  }

  /** arith() over a written flat arith, stopped at the end or " = ". */
  lemma ArithReadsBack(p: string, s: nat, e: Expression, end: nat)
    requires FlatArith(e) && end == s + |Render(e)|
    requires end <= |p| && p[s..end] == Render(e) && ArithStop(p, end)
    ensures ParseArith(p, Cursor(s, None)) == (Ok(e), StopCursor(p, end))
  {
    if FlatTerm(e) {
      TermReadsBack(p, s, s, e, end);
      ArithTerm(p, s, e, end);
    } else {
      var k := Layout(p, s, end, e);
      TermReadsBack(p, s, s, e.left, k);
      assert StopCursor(p, k) == Cursor(k + 2, Some(Token(Op, Chars([OpChar(e)]))));
      OneSpace(p, k + 2);
      TermReadsBack(p, k + 2, k + 3, e.right, end);
      ArithStep(p, s, e, k, StopCursor(p, end));
    }
  }

  /** S() reading an arith up to the end gives the arith. */
  lemma StatementArith(p: string, e: Expression)
    requires ParseArith(p, Cursor(0, None)) == (Ok(e), Cursor(|p|, None))
    ensures ParseS(p, Cursor(0, None)) == (Ok(e), Cursor(|p|, None))
  {
  }

  /** S() reading an arith, '=' pushed back, and an arith up to the end
      builds the assignment. */
  lemma StatementStep(p: string, e: Expression, k: nat)
    requires e.Assignment? && k + 3 <= |p|
    requires ParseArith(p, Cursor(0, None)) == (Ok(e.left), Cursor(k + 3, Some(Token(Op, Chars("=")))))
    requires ParseArith(p, Cursor(k + 3, None)) == (Ok(e.right), Cursor(|p|, None))
    ensures ParseS(p, Cursor(0, None)) == (Ok(e), Cursor(|p|, None))
  {
    ArithRestAssign(p, e, k);
  }

  /** arith_rest with '=' in the slot reads the arith after it. */
  lemma ArithRestAssign(p: string, e: Expression, k: nat)
    requires e.Assignment? && k + 3 <= |p|
    requires ParseArith(p, Cursor(k + 3, None)) == (Ok(e.right), Cursor(|p|, None))
    ensures ParseArithRest(p, e.left, Cursor(k + 3, Some(Token(Op, Chars("="))))) == (Ok(e), Cursor(|p|, None))
  {
  }

  /** S() over a written assignment: the arith, " = ", and the arith. */
  lemma AssignmentReadsBack(p: string, left: Expression, k: nat, right: Expression)
    requires FlatArith(left) && FlatArith(right)
    requires k == |Render(left)| && |p| == k + 3 + |Render(right)|
    requires p[0..k] == Render(left) && p[k + 3..|p|] == Render(right)
    requires p[k] == ' ' && p[k + 1] == '=' && p[k + 2] == ' '
    ensures ParseS(p, Cursor(0, None)) == (Ok(Assignment(left, right)), Cursor(|p|, None))
  {
    assert ParseArith(p, Cursor(0, None)) == (Ok(left), Cursor(k + 3, Some(Token(Op, Chars("="))))) by {
      ArithReadsBack(p, 0, left, k);
      assert StopCursor(p, k) == Cursor(k + 3, Some(Token(Op, Chars("="))));
    }
    assert ParseArith(p, Cursor(k + 3, None)) == (Ok(right), Cursor(|p|, None)) by {
      ArithReadsBack(p, k + 3, right, |p|);
    }
    StatementStep(p, Assignment(left, right), k);
  }

  /** S() over a written flat statement reads all of it and gives it back. */
  lemma StatementReadsBack(p: string, e: Expression)
    requires FlatStatement(e) && p == Render(e)
    ensures ParseS(p, Cursor(0, None)) == (Ok(e), Cursor(|p|, None))
  {
    assert p[0..|p|] == p;
    if FlatArith(e) {
      ArithReadsBack(p, 0, e, |p|);
      StatementArith(p, e);
    } else {
      var k := Layout(p, 0, |p|, e);
      AssignmentReadsBack(p, e.left, k, e.right);
    }
  }

  /** strip() leaves the written form of a flat statement as it is. */
  lemma RenderStripped(e: Expression)
    requires FlatStatement(e)
    ensures Strip(Render(e)) == Render(e)
  {
    RenderEnds(e);
    StripToken(Render(e), Render(e));
  }

  /** compile_ast() after a successful parse is check_semantic of the tree. */
  lemma CompileParsed(p: string, e: Expression, c1: Cursor)
    requires ParseS(p, Cursor(0, None)) == (Ok(e), c1)
    ensures Compile(p, Cursor(0, None)).0 == CheckSemantic(e)
  {
  }

  /** The written form of a flat statement is what strip() leaves, S()
      reads it back to the same tree, and compile_ast() accepts it exactly
      when check_semantic does. */
  lemma RoundTrip(e: Expression)
    requires FlatStatement(e)
    ensures Strip(Render(e)) == Render(e)
    ensures ParseS(Render(e), Cursor(0, None)) == (Ok(e), Cursor(|Render(e)|, None))
    ensures Compile(Render(e), Cursor(0, None)).0 == CheckSemantic(e)
  {
    RenderStripped(e);
    StatementReadsBack(Render(e), e);
    CompileParsed(Render(e), e, Cursor(|Render(e)|, None));
  }
}
