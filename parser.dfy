/** The recursive-descent parser of parser.py with its one-token pushback
    slot, the semantic check on assignments, and the evaluation of the
    expression tree over a dictionary of variables.

    The parser draws its tokens from the lexer of lexer.py: as functions, by
    Scan at the lexer's cursor; as a class, by calling Lexer.GetNextToken. */
module Parsing {
  import opened Text
  import opened Lexing

  /** The expression classes of parser.py. DivisionOperation is never built. */
  datatype Expression =
    | Assignment(left: Expression, right: Expression)
    | Sum(left: Expression, right: Expression)
    | Difference(left: Expression, right: Expression)
    | Product(left: Expression, right: Expression)
    | Const(number: Lexeme)
    | Symbol(variable: string)

  /** The exceptions parsing and evaluation can end in. */
  datatype Failure =
    | LexError(text: string)            // UnknownToken raised by get_next_token, with the slice
    | Unexpected(found: Option<Kind>)   // UnknownToken raised by match; None is "(empty)"
    | NotAnAssignment                   // ValueError from arith_rest on an operator other than '='
    | NoExprMethod                      // factor's '(' branch calls a method Parser does not have
    | AssignmentError                   // check_semantic: the target is not a variable
    | UnknownVariable(name: string)     // a symbol with no binding in the context
    | NotAVariable                      // assigning to something that has no variable name
    | NotANumber                        // a constant whose lexeme is text (the lexer never makes one)

  datatype Outcome<T> = Ok(value: T) | Fail(failure: Failure)

  // ---------------------------------------------------------------------
  // Evaluation: the eval methods of the expression classes.
  // ---------------------------------------------------------------------

  /** A value in the context: a Python int, or a Python float whose digits
      are not modelled (float arithmetic is left out). */
  datatype Number = Integer(n: int) | Floating

  type Context = map<string, Number>

  /** The number a NUM lexeme stands for. */
  function ConstValue(l: Lexeme): (r: Outcome<Number>)
    ensures r.Ok? <==> !l.Chars?
    ensures l.Int? ==> r == Ok(Integer(l.n))
  {
    match l
    case Int(n) => Ok(Integer(n))
    case Float(_, _) => Ok(Floating)
    case Chars(_) => Fail(NotANumber)
  }

  /** +, - and * of Python: exact on two ints, a float as soon as one side is one. */
  function Arithmetic(e: Expression, a: Number, b: Number): (r: Number)
    requires e.Sum? || e.Difference? || e.Product?
    ensures r.Integer? <==> a.Integer? && b.Integer?
  {
    if a.Floating? || b.Floating? then Floating
    else if e.Sum? then Integer(a.n + b.n)
    else if e.Difference? then Integer(a.n - b.n)
    else Integer(a.n * b.n)
  }

  /** e.eval(context): the left operand first, then the right, each seeing
      the bindings the other made; an assignment evaluates its right side
      and binds the result to the name on its left. The result and the
      context afterwards: it keeps every binding it had and gains only names
      assigned to; a failure is a text constant, an assignment to something
      other than a variable, or a variable of e with no binding. */
  function Evaluate(e: Expression, ctx: Context): (r: (Outcome<Number>, Context))
    ensures ctx.Keys <= r.1.Keys <= ctx.Keys + Targets(e)
    ensures r.0.Fail? ==>
              r.0.failure == NotANumber || r.0.failure == NotAVariable ||
              (r.0.failure.UnknownVariable? && r.0.failure.name in FreeVars(e))
    decreases e
  {
    match e
    case Const(l) => (ConstValue(l), ctx)
    case Symbol(x) => (if x in ctx then Ok(ctx[x]) else Fail(UnknownVariable(x)), ctx)
    case Assignment(target, source) =>
      var (v, ctx1) := Evaluate(source, ctx);
      if v.Fail? then (v, ctx1)
      else if !target.Symbol? then (Fail(NotAVariable), ctx1)
      else (v, ctx1[target.variable := v.value])
    case _ =>
      var (a, ctx1) := Evaluate(e.left, ctx);
      if a.Fail? then (a, ctx1)
      else
        var (b, ctx2) := Evaluate(e.right, ctx1);
        if b.Fail? then (b, ctx2) else (Ok(Arithmetic(e, a.value, b.value)), ctx2)
  }

  /** The value of an expression without assignments, as a pure function of
      the context: the first failing operand, left to right, decides, and
      a failure is a text constant or a variable of e with no binding. */
  function Value(e: Expression, ctx: Context): (r: Outcome<Number>)
    requires NoAssignment(e)
    ensures r.Fail? ==>
              r.failure == NotANumber ||
              (r.failure.UnknownVariable? && r.failure.name in FreeVars(e) - ctx.Keys)
  {
    match e
    case Const(l) => ConstValue(l)
    case Symbol(x) => if x in ctx then Ok(ctx[x]) else Fail(UnknownVariable(x))
    case Sum(l, r) => Combine(e, Value(l, ctx), Value(r, ctx))
    case Difference(l, r) => Combine(e, Value(l, ctx), Value(r, ctx))
    case Product(l, r) => Combine(e, Value(l, ctx), Value(r, ctx))
  }

  /** The outcome of an operator on the outcomes of its operands. */
  function Combine(e: Expression, a: Outcome<Number>, b: Outcome<Number>): (r: Outcome<Number>)
    requires e.Sum? || e.Difference? || e.Product?
    ensures r.Ok? <==> a.Ok? && b.Ok?
    ensures a.Fail? ==> r == a
  {
    if a.Fail? then a else if b.Fail? then b else Ok(Arithmetic(e, a.value, b.value))
  }

  /** The variables an expression reads. */
  function FreeVars(e: Expression): set<string> {
    match e
    case Const(_) => {}
    case Symbol(x) => {x}
    case Assignment(_, r) => FreeVars(r)
    case Sum(l, r) => FreeVars(l) + FreeVars(r)
    case Difference(l, r) => FreeVars(l) + FreeVars(r)
    case Product(l, r) => FreeVars(l) + FreeVars(r)
  }

  /** The names an expression assigns to. */
  function Targets(e: Expression): set<string> {
    match e
    case Assignment(t, r) => (if t.Symbol? then {t.variable} else {}) + Targets(r)
    case Sum(l, r) => Targets(l) + Targets(r)
    case Difference(l, r) => Targets(l) + Targets(r)
    case Product(l, r) => Targets(l) + Targets(r)
    case _ => {}
  }

  /** Every constant's lexeme is a number. */
  predicate Numeric(e: Expression) {
    match e
    case Const(l) => !l.Chars?
    case Symbol(_) => true
    case Assignment(_, r) => Numeric(r)
    case Sum(l, r) => Numeric(l) && Numeric(r)
    case Difference(l, r) => Numeric(l) && Numeric(r)
    case Product(l, r) => Numeric(l) && Numeric(r)
  }

  /** Without assignments, evaluating leaves the context alone and gives Value. */
  lemma {:induction false} EvaluatePure(e: Expression, ctx: Context)
    requires NoAssignment(e)
    ensures Evaluate(e, ctx) == (Value(e, ctx), ctx)
  {
    if e.Sum? || e.Difference? || e.Product? {
      EvaluatePure(e.left, ctx);
      EvaluatePure(e.right, ctx);
    }
  }

  /** An assignment to a variable of an assignment-free expression binds the
      variable to the value and returns it; on failure nothing is bound. */
  lemma EvaluateAssignment(x: string, source: Expression, ctx: Context)
    requires NoAssignment(source)
    ensures var (r, ctx1) := Evaluate(Assignment(Expression.Symbol(x), source), ctx);
            r == Value(source, ctx) &&
            ctx1 == (if r.Ok? then ctx[x := r.value] else ctx)
  {
    EvaluatePure(source, ctx);
  }

  /** Evaluation binds no name other than the targets of its assignments. */
  lemma {:induction false} EvaluateFrame(e: Expression, ctx: Context, k: string)
    requires k !in Targets(e)
    ensures (k in Evaluate(e, ctx).1) <==> (k in ctx)
    ensures k in ctx ==> Evaluate(e, ctx).1[k] == ctx[k]
  {
    match e
    case Assignment(_, r) => EvaluateFrame(r, ctx, k);
    case Const(_) =>
    case Symbol(_) =>
    case _ =>
      EvaluateFrame(e.left, ctx, k);
      EvaluateFrame(e.right, Evaluate(e.left, ctx).1, k);
  }

  /** Value reads only the free variables: contexts that agree on them agree
      on the value. */
  lemma {:induction false} ValueLocal(e: Expression, ctx1: Context, ctx2: Context)
    requires NoAssignment(e)
    requires forall x :: x in FreeVars(e) ==> (x in ctx1 <==> x in ctx2)
    requires forall x :: x in FreeVars(e) && x in ctx1 ==> ctx1[x] == ctx2[x]
    ensures Value(e, ctx1) == Value(e, ctx2)
  {
    if e.Sum? || e.Difference? || e.Product? {
      ValueLocal(e.left, ctx1, ctx2);
      ValueLocal(e.right, ctx1, ctx2);
    }
  }

  /** Value succeeds exactly when every variable is bound and every constant
      is a number. */
  lemma {:induction false} ValueDefined(e: Expression, ctx: Context)
    requires NoAssignment(e)
    ensures Value(e, ctx).Ok? <==> FreeVars(e) <= ctx.Keys && Numeric(e)
  {
    if e.Sum? || e.Difference? || e.Product? {
      ValueDefined(e.left, ctx);
      ValueDefined(e.right, ctx);
    }
  }

  /** Where the parser stands: the lexer's cursor into the program, and the
      pushback slot _fallback. */
  datatype Cursor = Cursor(pos: nat, slot: Option<Token>)

  /** Unread characters count twice and a full slot once: every token match
      consumes makes this smaller, and pushing one back never undoes more
      than that. */
  function Measure(p: string, c: Cursor): nat
    requires c.pos <= |p|
  {
    2 * (|p| - c.pos) + (if c.slot.Some? then 1 else 0)
  }

  /** The text of a SYMBOL token: its lexeme. */
  function Name(l: Lexeme): string {
    if l.Chars? then l.s else ""
  }

  // ---------------------------------------------------------------------
  // The parser as functions of the cursor.
  // ---------------------------------------------------------------------

  /** The token match looks at next: the one in the slot, else the lexer's. */
  function Peek(p: string, c: Cursor): LexResult
    requires c.pos <= |p|
  {
    if c.slot.Some? then Tok(c.slot.value) else Scan(p, c.pos).0
  }

  /** Where the input stands once that token is consumed. */
  function Past(p: string, c: Cursor): nat
    requires c.pos <= |p|
  {
    if c.slot.Some? then c.pos else Scan(p, c.pos).1
  }

  /** match(types, allow_empty): take the token in the slot if there is one,
      else ask the lexer (Scan); None is accepted only when allowEmpty holds;
      a token of another kind is put back in the slot and UnknownToken raised.
      An UnknownToken raised by the lexer itself passes through. */
  function Matched(p: string, c: Cursor, kinds: seq<Kind>, allowEmpty: bool)
    : (r: (Outcome<Option<Token>>, Cursor))
    requires c.pos <= |p|
    ensures r.1.pos <= |p| && Measure(p, r.1) <= Measure(p, c)
    ensures c.slot.Some? ==> r.1.pos == c.pos
    ensures r.0.Ok? && r.0.value.Some? ==>
              r.0.value.value.kind in kinds && r.1.slot.None? && Measure(p, r.1) < Measure(p, c)
    ensures (r.0.Ok? && r.0.value.None?) <==> (allowEmpty && c.slot.None? && c.pos == |p|)
    ensures r.0.Fail? && r.1.slot.Some? ==>
              r.0.failure == Unexpected(Some(r.1.slot.value.kind)) && r.1.slot.value.kind !in kinds
    // The token in the slot is taken first; a mismatching one stays there.
    ensures c.slot.Some? ==>
              r == if c.slot.value.kind in kinds then (Ok(c.slot), Cursor(c.pos, None))
                   else (Fail(Unexpected(Some(c.slot.value.kind))), c)
    // Otherwise the lexer's next token is returned, or put in the slot when
    // its kind does not match; a lexical error passes through.
    ensures c.slot.None? ==> r.1.pos == Scan(p, c.pos).1
    ensures c.slot.None? && Scan(p, c.pos).0.Tok? ==>
              var t := Scan(p, c.pos).0.token;
              r == if t.kind in kinds then (Ok(Some(t)), Cursor(Scan(p, c.pos).1, None))
                   else (Fail(Unexpected(Some(t.kind))), Cursor(Scan(p, c.pos).1, Some(t)))
    ensures c.slot.None? && Scan(p, c.pos).0.Unknown? ==>
              r == (Fail(LexError(Scan(p, c.pos).0.text)), Cursor(Scan(p, c.pos).1, None))
  {
    var (item, c1) :=
      if c.slot.Some? then (Tok(c.slot.value), Cursor(c.pos, None))
      else var (it, next) := Scan(p, c.pos); (it, Cursor(next, None));
    if item.Unknown? then (Fail(LexError(item.text)), c1)
    else if item.End? && allowEmpty then (Ok(None), c1)
    else if item.End? then (Fail(Unexpected(None)), c1)
    else if item.token.kind !in kinds then
      (Fail(Unexpected(Some(item.token.kind))), Cursor(c1.pos, Some(item.token)))
    else (Ok(Some(item.token)), c1)
  }

  /** S -> arith arith_rest */
  function ParseS(p: string, c: Cursor): (r: (Outcome<Expression>, Cursor))
    requires c.pos <= |p|
    ensures r.1.pos <= |p| && Measure(p, r.1) <= Measure(p, c)
    ensures r.0.Ok? ==> IsStatement(r.0.value)
    // The statement is the arith read first, or an assignment to it.
    ensures r.0.Ok? ==>
              var a := ParseArith(p, c).0;
              a.Ok? && (r.0.value == a.value || (r.0.value.Assignment? && r.0.value.left == a.value))
  {
    var (a, c1) := ParseArith(p, c);
    if a.Fail? then (a, c1) else ParseArithRest(p, a.value, c1)
  }

  /** arith_rest -> '=' arith | epsilon; any other operator is an error. */
  function ParseArithRest(p: string, left: Expression, c: Cursor): (r: (Outcome<Expression>, Cursor))
    requires c.pos <= |p|
    ensures r.1.pos <= |p| && Measure(p, r.1) <= Measure(p, c)
    ensures r.0.Ok? && IsArith(left) ==> IsStatement(r.0.value)
    // Either nothing follows, or '=' and an arith that becomes the right side.
    ensures r.0.Ok? ==>
              (r.0.value == left && r.1 == Cursor(|p|, None)) ||
              (r.0.value.Assignment? && r.0.value.left == left && IsArith(r.0.value.right) &&
               Peek(p, c).Tok? && Peek(p, c).token.lexeme == Chars("="))
    // Another operator is not an assignment; a token of another kind is unexpected.
    ensures Peek(p, c).Tok? && Peek(p, c).token.kind == Op && Peek(p, c).token.lexeme != Chars("=") ==>
              r == (Fail(NotAnAssignment), Cursor(Past(p, c), None))
    ensures Peek(p, c).Tok? && Peek(p, c).token.kind != Op ==>
              r.0 == Fail(Unexpected(Some(Peek(p, c).token.kind)))
  {
    var (m, c1) := Matched(p, c, [Op], true);
    if m.Fail? then (Fail(m.failure), c1)
    else if m.value.None? then (Ok(left), c1)
    else if m.value.value.lexeme == Chars("=") then
      var (right, c2) := ParseArith(p, c1);
      if right.Fail? then (right, c2) else (Ok(Assignment(left, right.value)), c2)
    else (Fail(NotAnAssignment), c1)
  }

  /** arith -> term term_rest */
  function ParseArith(p: string, c: Cursor): (r: (Outcome<Expression>, Cursor))
    requires c.pos <= |p|
    ensures r.1.pos <= |p| && Measure(p, r.1) <= Measure(p, c)
    ensures r.0.Ok? ==> IsArith(r.0.value)
    // The arith is the term read first, or a sum or difference starting with it.
    ensures r.0.Ok? ==>
              var t := ParseTerm(p, c).0;
              t.Ok? && (r.0.value == t.value ||
                        ((r.0.value.Sum? || r.0.value.Difference?) && r.0.value.left == t.value))
    decreases Measure(p, c), 3
  {
    var (t, c1) := ParseTerm(p, c);
    if t.Fail? then (t, c1) else ParseTermRest(p, t.value, c1)
  }

  /** term_rest -> '+' term | '-' term | epsilon: one additive step at most;
      another operator is put back. Errors from match propagate. */
  function ParseTermRest(p: string, left: Expression, c: Cursor): (r: (Outcome<Expression>, Cursor))
    requires c.pos <= |p|
    ensures r.1.pos <= |p| && Measure(p, r.1) <= Measure(p, c)
    ensures r.0.Ok? && IsTerm(left) ==> IsArith(r.0.value)
    // '+' builds a sum and '-' a difference with a term on the right; otherwise
    // the input has ended or a non-additive operator is put back.
    ensures r.0.Ok? ==>
              (r.0.value == left &&
               (r.1 == Cursor(|p|, None) ||
                (r.1.slot.Some? && r.1.slot.value.kind == Op &&
                 r.1.slot.value.lexeme != Chars("+") && r.1.slot.value.lexeme != Chars("-")))) ||
              ((r.0.value.Sum? || r.0.value.Difference?) && r.0.value.left == left && IsTerm(r.0.value.right) &&
               Peek(p, c).Tok? && Peek(p, c).token.lexeme == (if r.0.value.Sum? then Chars("+") else Chars("-")))
    ensures Peek(p, c).Tok? && Peek(p, c).token.kind != Op ==>
              r.0 == Fail(Unexpected(Some(Peek(p, c).token.kind)))
    decreases Measure(p, c), 2
  {
    var (m, c1) := Matched(p, c, [Op], true);
    if m.Fail? then (Fail(m.failure), c1)
    else if m.value.None? then (Ok(left), c1)
    else
      var token := m.value.value;
      if token.lexeme == Chars("+") || token.lexeme == Chars("-") then
        var (right, c2) := ParseTerm(p, c1);
        if right.Fail? then (right, c2)
        else if token.lexeme == Chars("+") then (Ok(Sum(left, right.value)), c2)
        else (Ok(Difference(left, right.value)), c2)
      else (Ok(left), Cursor(c1.pos, Some(token)))
  }

  /** term -> factor factor_rest */
  function ParseTerm(p: string, c: Cursor): (r: (Outcome<Expression>, Cursor))
    requires c.pos <= |p|
    ensures r.1.pos <= |p| && Measure(p, r.1) <= Measure(p, c)
    ensures r.0.Ok? ==> IsTerm(r.0.value)
    // The term is the factor read first, or a product or quotient starting with it.
    ensures r.0.Ok? ==>
              var f := ParseFactor(p, c).0;
              f.Ok? && (r.0.value == f.value ||
                        ((r.0.value.Product? || r.0.value.Difference?) && r.0.value.left == f.value))
    decreases Measure(p, c), 1
  {
    var (f, c1) := ParseFactor(p, c);
    if f.Fail? then (f, c1) else ParseFactorRest(p, f.value, c1)
  }

  /** factor -> num | sym | '(' ...; the last calls a method Parser lacks. */
  function ParseFactor(p: string, c: Cursor): (r: (Outcome<Expression>, Cursor))
    requires c.pos <= |p|
    ensures r.1.pos <= |p| && Measure(p, r.1) <= Measure(p, c)
    ensures r.0.Ok? ==> IsFactor(r.0.value)
    // A number becomes a constant and a symbol a variable, and is consumed.
    ensures r.0.Ok? <==> Peek(p, c).Tok? && (Peek(p, c).token.kind == Num || Peek(p, c).token.kind == Kind.Symbol)
    ensures r.0.Ok? ==>
              var t := Peek(p, c).token;
              r == (Ok(if t.kind == Num then Const(t.lexeme) else Expression.Symbol(Name(t.lexeme))),
                    Cursor(Past(p, c), None))
    ensures Peek(p, c).Tok? && Peek(p, c).token.kind == OpenParens ==> r.0 == Fail(NoExprMethod)
  {
    var (m, c1) := Matched(p, c, [Num, OpenParens, Kind.Symbol], false);
    if m.Fail? then (Fail(m.failure), c1)
    else if m.value.None? then (Fail(Unexpected(None)), c1)
    else if m.value.value.kind == OpenParens then (Fail(NoExprMethod), c1)
    else if m.value.value.kind == Kind.Symbol then (Ok(Expression.Symbol(Name(m.value.value.lexeme))), c1)
    else (Ok(Const(m.value.value.lexeme)), c1)
  }

  /** factor_rest -> '*' term | '/' term | epsilon. An UnknownToken from
      match, whether from the lexer or a kind mismatch, is swallowed and
      ends the term; another operator is put back. '/' builds a Difference. */
  function ParseFactorRest(p: string, left: Expression, c: Cursor): (r: (Outcome<Expression>, Cursor))
    requires c.pos <= |p|
    ensures r.1.pos <= |p| && Measure(p, r.1) <= Measure(p, c)
    ensures r.0.Ok? && IsFactor(left) ==> IsTerm(r.0.value)
    // '*' builds a product and '/' a difference with a term on the right;
    // anything else ends the term, and only the term can fail.
    ensures r.0.Ok? ==>
              (r.0.value == left &&
               (r.1.slot.None? || r.1.slot.value.kind != Op ||
                (r.1.slot.value.lexeme != Chars("*") && r.1.slot.value.lexeme != Chars("/")))) ||
              ((r.0.value.Product? || r.0.value.Difference?) && r.0.value.left == left && IsTerm(r.0.value.right) &&
               Peek(p, c).Tok? && Peek(p, c).token.lexeme == (if r.0.value.Product? then Chars("*") else Chars("/")))
    ensures !(Peek(p, c).Tok? && Peek(p, c).token.kind == Op &&
              (Peek(p, c).token.lexeme == Chars("*") || Peek(p, c).token.lexeme == Chars("/"))) ==>
              r.0 == Ok(left)
    decreases Measure(p, c), 0
  {
    var (m, c1) := Matched(p, c, [Op], true);
    if m.Fail? || m.value.None? then (Ok(left), c1)
    else
      var token := m.value.value;
      if token.lexeme == Chars("*") || token.lexeme == Chars("/") then
        var (right, c2) := ParseTerm(p, c1);
        if right.Fail? then (right, c2)
        else if token.lexeme == Chars("*") then (Ok(Product(left, right.value)), c2)
        else (Ok(Difference(left, right.value)), c2)
      else (Ok(left), Cursor(c1.pos, Some(token)))
  }

  // ---------------------------------------------------------------------
  // The shapes the grammar gives.
  // ---------------------------------------------------------------------

  predicate IsFactor(e: Expression) {
    e.Const? || e.Symbol?
  }

  /** A factor, or factor ('*' | '/') term: right-nested products. */
  predicate IsTerm(e: Expression) {
    IsFactor(e) || ((e.Product? || e.Difference?) && IsFactor(e.left) && IsTerm(e.right))
  }

  /** A term, or term ('+' | '-') term. */
  predicate IsArith(e: Expression) {
    IsTerm(e) || ((e.Sum? || e.Difference?) && IsTerm(e.left) && IsTerm(e.right))
  }

  /** An arith, or arith '=' arith. */
  predicate IsStatement(e: Expression) {
    IsArith(e) || (e.Assignment? && IsArith(e.left) && IsArith(e.right))
  }

  /** The expression contains no assignment. */
  predicate NoAssignment(e: Expression) {
    match e
    case Assignment(_, _) => false
    case Sum(l, r) => NoAssignment(l) && NoAssignment(r)
    case Difference(l, r) => NoAssignment(l) && NoAssignment(r)
    case Product(l, r) => NoAssignment(l) && NoAssignment(r)
    case _ => true
  }

  /** check_semantic: an assignment must have a variable on its left. */
  function CheckSemantic(ast: Expression): (r: Outcome<Expression>)
    ensures r.Ok? <==> !(ast.Assignment? && !ast.left.Symbol?)
    ensures r.Ok? ==> r.value == ast
    ensures r.Fail? ==> r.failure == AssignmentError
  {
    if ast.Assignment? && !ast.left.Symbol? then Fail(AssignmentError) else Ok(ast)
  }

  /** compile_ast: parse, then check. */
  function Compile(p: string, c: Cursor): (r: (Outcome<Expression>, Cursor))
    requires c.pos <= |p|
    ensures r.1.pos <= |p|
    ensures r.0.Ok? ==> IsStatement(r.0.value) && (r.0.value.Assignment? ==> r.0.value.left.Symbol?)
    ensures r.0.Ok? ==> ParseS(p, c) == (r.0, r.1)
  {
    var (ast, c1) := ParseS(p, c);
    if ast.Fail? then (ast, c1) else (CheckSemantic(ast.value), c1)
  }

  /** Parser.eval(ctx): compile, then evaluate the tree in the context. The
      result, the parser's cursor and the context afterwards. */
  function Interpret(p: string, c: Cursor, ctx: Context): (r: (Outcome<Number>, Cursor, Context))
    requires c.pos <= |p|
    ensures r.1 == Compile(p, c).1
    ensures Compile(p, c).0.Fail? ==> r.0 == Fail(Compile(p, c).0.failure) && r.2 == ctx
  {
    var (ast, c1) := Compile(p, c);
    if ast.Fail? then (Fail(ast.failure), c1, ctx)
    else var (v, ctx1) := Evaluate(ast.value, ctx); (v, c1, ctx1)
  }

  /** The grammar builds assignments only at the top. */
  lemma {:induction false} TermPure(e: Expression)
    requires IsTerm(e)
    ensures NoAssignment(e)
  {
    if !IsFactor(e) {
      TermPure(e.right);
    }
  }

  lemma ArithPure(e: Expression)
    requires IsArith(e)
    ensures NoAssignment(e)
  {
    if IsTerm(e) {
      TermPure(e);
    } else {
      TermPure(e.left);
      TermPure(e.right);
    }
  }

  /** What eval does with a statement that passed check_semantic: an
      assignment binds its variable to the value of the right side, anything
      else leaves the context as it was and gives its value. */
  lemma EvaluateStatement(e: Expression, ctx: Context)
    requires IsStatement(e) && CheckSemantic(e).Ok?
    ensures if e.Assignment? then NoAssignment(e.right) else NoAssignment(e)
    ensures var (r, ctx1) := Evaluate(e, ctx);
            if e.Assignment? then
              r == Value(e.right, ctx) && ctx1 == (if r.Ok? then ctx[e.left.variable := r.value] else ctx)
            else r == Value(e, ctx) && ctx1 == ctx
  {
    if e.Assignment? {
      ArithPure(e.right);
      EvaluateAssignment(e.left.variable, e.right, ctx);
    } else {
      ArithPure(e);
      EvaluatePure(e, ctx);
    }
  }

  // ---------------------------------------------------------------------
  // The classes: the context dictionary, and Parser over a Lexer.
  // ---------------------------------------------------------------------

  /** The context dictionary the eval methods read and assign into. */
  class Env {
    var vars: Context

    constructor (vars: Context)
      ensures this.vars == vars
    {
      this.vars := vars;
    }

    /** e.eval(context). */
    method Eval(e: Expression) returns (r: Outcome<Number>)
      modifies this
      ensures (r, vars) == Evaluate(e, old(vars))
      decreases e
    {
      match e
      case Const(l) =>
        r := ConstValue(l);
      case Symbol(x) =>
        if x !in vars {
          return Fail(UnknownVariable(x));
        }
        r := Ok(vars[x]);
      case Assignment(target, source) =>
        r := Eval(source);
        if r.Fail? {
          return;
        }
        if !target.Symbol? {
          return Fail(NotAVariable);
        }
        vars := vars[target.variable := r.value];
      case _ =>
        var a := Eval(e.left);
        if a.Fail? {
          return a;
        }
        var b := Eval(e.right);
        if b.Fail? {
          return b;
        }
        r := Ok(Arithmetic(e, a.value, b.value));
    }
  }

  class Parser {
    const lexer: Lexer
    var slot: Option<Token>   // _fallback

    ghost predicate Valid()
      reads this, lexer
    {
      lexer.Valid()
    }

    /** The lexer's cursor and the pushback slot. */
    function State(): Cursor
      reads this, lexer
    {
      Cursor(lexer.current, slot)
    }

    constructor (lexer: Lexer)
      requires lexer.Valid()
      ensures Valid() && this.lexer == lexer && slot.None?
    {
      this.lexer := lexer;
      slot := None;
    }

    method Fallback(token: Token)
      modifies this
      ensures slot == Some(token)
    {
      slot := Some(token);
    }

    method Match(kinds: seq<Kind>, allowEmpty: bool) returns (r: Outcome<Option<Token>>)
      requires Valid()
      modifies this, lexer
      ensures Valid()
      ensures (r, State()) == Matched(lexer.program, old(State()), kinds, allowEmpty)
    {
      var item;
      if slot.Some? {
        item := Tok(slot.value);
        slot := None;
      } else {
        item := lexer.GetNextToken();
      }
      if item.Unknown? {
        return Fail(LexError(item.text));
      }
      if item.End? && allowEmpty {
        return Ok(None);
      }
      if item.End? {
        // fallback(None) leaves the slot empty.
        return Fail(Unexpected(None));
      }
      if item.token.kind !in kinds {
        Fallback(item.token);
        return Fail(Unexpected(Some(item.token.kind)));
      }
      r := Ok(Some(item.token));
    }

    /** parse() and S(). */
    method S() returns (r: Outcome<Expression>)
      requires Valid()
      modifies this, lexer
      ensures Valid()
      ensures (r, State()) == ParseS(lexer.program, old(State()))
    {
      r := Arith();
      if r.Ok? {
        r := ArithRest(r.value);
      }
    }

    method ArithRest(left: Expression) returns (r: Outcome<Expression>)
      requires Valid()
      modifies this, lexer
      ensures Valid()
      ensures (r, State()) == ParseArithRest(lexer.program, left, old(State()))
    {
      var m := Match([Op], true);
      if m.Fail? {
        return Fail(m.failure);
      }
      if m.value.None? {
        return Ok(left);
      }
      if m.value.value.lexeme != Chars("=") {
        return Fail(NotAnAssignment);
      }
      r := Arith();
      if r.Ok? {
        r := Ok(Assignment(left, r.value));
      }
    }

    method Arith() returns (r: Outcome<Expression>)
      requires Valid()
      modifies this, lexer
      ensures Valid()
      ensures (r, State()) == ParseArith(lexer.program, old(State()))
      decreases Measure(lexer.program, State()), 3
    {
      r := Term();
      if r.Ok? {
        r := TermRest(r.value);
      }
    }

    method TermRest(left: Expression) returns (r: Outcome<Expression>)
      requires Valid()
      modifies this, lexer
      ensures Valid()
      ensures (r, State()) == ParseTermRest(lexer.program, left, old(State()))
      decreases Measure(lexer.program, State()), 2
    {
      var m := Match([Op], true);
      if m.Fail? {
        return Fail(m.failure);
      }
      if m.value.None? {
        return Ok(left);
      }
      var token := m.value.value;
      if token.lexeme != Chars("+") && token.lexeme != Chars("-") {
        Fallback(token);
        return Ok(left);
      }
      r := Term();
      if r.Ok? {
        r := Ok(if token.lexeme == Chars("+") then Sum(left, r.value) else Difference(left, r.value));
      }
    }

    method Term() returns (r: Outcome<Expression>)
      requires Valid()
      modifies this, lexer
      ensures Valid()
      ensures (r, State()) == ParseTerm(lexer.program, old(State()))
      decreases Measure(lexer.program, State()), 1
    {
      r := Factor();
      if r.Ok? {
        r := FactorRest(r.value);
      }
    }

    method Factor() returns (r: Outcome<Expression>)
      requires Valid()
      modifies this, lexer
      ensures Valid()
      ensures (r, State()) == ParseFactor(lexer.program, old(State()))
    {
      var m := Match([Num, OpenParens, Kind.Symbol], false);
      if m.Fail? {
        return Fail(m.failure);
      }
      if m.value.None? {
        // match without allow_empty never gives None.
        assert false;
        return Fail(Unexpected(None));
      }
      var token := m.value.value;
      if token.kind == OpenParens {
        return Fail(NoExprMethod);
      }
      if token.kind == Kind.Symbol {
        return Ok(Expression.Symbol(Name(token.lexeme)));
      }
      r := Ok(Const(token.lexeme));
    }

    method FactorRest(left: Expression) returns (r: Outcome<Expression>)
      requires Valid()
      modifies this, lexer
      ensures Valid()
      ensures (r, State()) == ParseFactorRest(lexer.program, left, old(State()))
      decreases Measure(lexer.program, State()), 0
    {
      var m := Match([Op], true);
      if m.Fail? || m.value.None? {
        // UnknownToken is caught: the factor stands alone.
        return Ok(left);
      }
      var token := m.value.value;
      if token.lexeme != Chars("*") && token.lexeme != Chars("/") {
        Fallback(token);
        return Ok(left);
      }
      r := Term();
      if r.Ok? {
        r := Ok(if token.lexeme == Chars("*") then Product(left, r.value) else Difference(left, r.value));
      }
    }

    method CompileAst() returns (r: Outcome<Expression>)
      requires Valid()
      modifies this, lexer
      ensures Valid()
      ensures (r, State()) == Compile(lexer.program, old(State()))
    {
      r := S();
      if r.Ok? {
        r := CheckSemantic(r.value);
      }
    }

    /** eval(ctx): compile_ast().eval(ctx). */
    method Eval(env: Env) returns (r: Outcome<Number>)
      requires Valid()
      modifies this, lexer, env
      ensures Valid()
      ensures (r, State(), env.vars) == Interpret(lexer.program, old(State()), old(env.vars))
    {
      var ast := CompileAst();
      if ast.Fail? {
        return Fail(ast.failure);
      }
      r := env.Eval(ast.value);
    }
  }
}
