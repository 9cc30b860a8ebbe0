/** compiler.py, the earlier self-contained calculator: a lexer for
    integers, '+', '-', '*' and parentheses that keeps a finished flag; a
    recursive-descent parser with a one-token pushback slot; and the
    integer evaluation and the in-order and post-order renderings of the
    expression tree. */
module Compiler {
  import opened Text

  datatype Kind = Num | Op | OpenParens | ClosingParens

  /** NUM carries its integer, OP its character; parentheses carry nothing. */
  datatype Token = Number(value: nat) | Operator(op: char) | Open | Closing

  function KindOf(t: Token): Kind {
    match t
    case Number(_) => Num
    case Operator(_) => Op
    case Open => OpenParens
    case Closing => ClosingParens
  }

  /** What one call of get_next_token gives: a token, None at the end, or
      the UnknownToken exception with its message. */
  datatype LexResult = Tok(token: Token) | End | Unknown(message: string)

  /** The characters that make an OP token. */
  predicate IsOperatorChar(ch: char) {
    ch == '+' || ch == '-' || ch == '*'
  }

  // ---------------------------------------------------------------------
  // The lexer.
  // ---------------------------------------------------------------------

  /** get_next_token from cursor c: the result, the cursor it leaves and
      whether it read past the end (which sets the finished flag). Spaces
      are skipped; a digit run is read whole and the character after it
      un-read; any character other than a digit, '+', '-', '*' or a
      parenthesis is an error. */
  function Scan(p: string, c: nat): (r: (LexResult, nat, bool))
    requires c <= |p|
    ensures c <= r.1 <= |p|
    ensures r.0.End? <==> SkipSpaces(p, c) == |p|
    ensures r.0.End? ==> r.1 == |p| && r.2
    ensures r.0.Tok? ==> c < r.1
    ensures r.2 ==> r.1 == |p|
  {
    var s := SkipSpaces(p, c);
    if s == |p| then (End, |p|, true)
    else
      var ch := p[s];
      if ch == '(' then (Tok(Open), s + 1, false)
      else if ch == ')' then (Tok(Closing), s + 1, false)
      else if IsDigit(ch) then
        var j := DigitRunEnd(p, s);
        (Tok(Number(DigitsValue(p[s..j]))), j, j == |p|)
      else if IsOperatorChar(ch) then (Tok(Operator(ch)), s + 1, false)
      else (Unknown("Unknow token " + [ch]), s + 1, false)
  }

  /** Once the input is exhausted, get_next_token keeps answering None from
      where it stopped, with the finished flag set. */
  lemma EndRepeats(p: string, c: nat)
    requires c <= |p| && Scan(p, c).0.End?
    ensures Scan(p, Scan(p, c).1) == (End, |p|, true) == Scan(p, c)
  {
  }

  /** After spaces, the decimal rendering of n followed by a non-digit or
      the end is read back as one NUM token carrying n. */
  lemma ScanNumeral(p: string, c: nat, s: nat, n: nat)
    requires c <= s && s + |NatToString(n)| <= |p| && p[s..s + |NatToString(n)|] == NatToString(n)
    requires forall m :: c <= m < s ==> IsSpace(p[m])
    requires s + |NatToString(n)| < |p| ==> !IsDigit(p[s + |NatToString(n)|])
    ensures var j := s + |NatToString(n)|;
            Scan(p, c) == (Tok(Number(n)), j, j == |p|)
  {
    var w := NatToString(n);
    var j := s + |w|;
    assert p[s] == w[0];
    SkipSpacesUpTo(p, c, s);
    assert forall m :: s <= m < j ==> p[m] == w[m - s];
    DigitRunEndAt(p, s, j);
    assert p[s..j] == w;
    NatToStringRoundTrip(n);
  }

  /** After spaces, '+', '-' or '*' is one OP token, and nothing after it is read. */
  lemma ScanOperator(p: string, c: nat, s: nat)
    requires c <= s < |p| && IsOperatorChar(p[s])
    requires forall m :: c <= m < s ==> IsSpace(p[m])
    ensures Scan(p, c) == (Tok(Operator(p[s])), s + 1, false)
  {
    SkipSpacesUpTo(p, c, s);
  }

  class Lexer {
    const program: string
    var current: int
    var finished: bool

    /** The cursor is inside the program, and the flag is set only at its end. */
    ghost predicate Valid()
      reads this
    {
      0 <= current <= |program| && (finished ==> current == |program|)
    }

    /** The program is stored stripped of surrounding whitespace. */
    constructor (text: string)
      ensures Valid()
      ensures program == Strip(text) && current == 0 && !finished
    {
      program := Strip(text);
      current := 0;
      finished := false;
    }

    method Reset()
      modifies this
      ensures Valid()
      ensures current == 0 && !finished
    {
      current := 0;
      finished := false;
    }

    /** The character at the cursor, advancing past it; at the end, None and
        the finished flag set. */
    method Next() returns (ch: Option<char>)
      requires Valid()
      modifies this
      ensures Valid()
      ensures old(current) < |program| ==>
                ch == Some(program[old(current)]) && current == old(current) + 1 && finished == old(finished)
      ensures old(current) == |program| ==> ch == None && current == old(current) && finished
    {
      if current < |program| {
        ch := Some(program[current]);
        current := current + 1;
      } else {
        finished := true;
        ch := None;
      }
    }

    /** Steps back by one unless the input is exhausted (or the cursor negative). */
    method Unread()
      modifies this
      ensures finished == old(finished)
      ensures current == if old(current) >= 0 && !old(finished) then old(current) - 1 else old(current)
    {
      if current >= 0 && !finished {
        current := current - 1;
      }
    }

    method GetNextToken() returns (r: LexResult)
      requires Valid()
      modifies this
      ensures Valid()
      ensures (r, current, finished) == Scan(program, old(current))
    {
      var lookAhead := SkipWhitespace();
      if lookAhead.Some? && lookAhead.value == '(' {
        return Tok(Open);
      }
      if lookAhead.Some? && lookAhead.value == ')' {
        return Tok(Closing);
      }
      if lookAhead.Some? && IsDigit(lookAhead.value) {
        r := ReadNumber(lookAhead.value);
        return;
      }
      if lookAhead.Some? && IsOperatorChar(lookAhead.value) {
        return Tok(Operator(lookAhead.value));
      }
      if lookAhead.None? {
        return End;
      }
      r := Unknown("Unknow token " + [lookAhead.value]);
    }

    /** The loop of get_next_token that reads past spaces: None when the
        input is exhausted, otherwise the first other character, just read. */
    method SkipWhitespace() returns (lookAhead: Option<char>)
      requires Valid()
      modifies this
      ensures Valid()
      ensures lookAhead.None? ==> SkipSpaces(program, old(current)) == |program| && current == |program| && finished
      ensures lookAhead.Some? ==>
                current - 1 == SkipSpaces(program, old(current)) < |program| &&
                lookAhead.value == program[current - 1] && !finished
    {
      ghost var c0 := current;
      lookAhead := Next();
      // k: the index of the character in lookAhead, |program| for None.
      ghost var k := if lookAhead.Some? then current - 1 else |program|;
      while lookAhead.Some? && IsSpace(lookAhead.value)
        invariant Valid() && c0 <= k <= |program|
        invariant lookAhead.Some? ==> k == current - 1 && lookAhead.value == program[k] && !finished
        invariant lookAhead.None? ==> k == |program| == current && finished
        invariant forall m :: c0 <= m < k ==> IsSpace(program[m])
        decreases |program| - current, lookAhead.Some?
      {
        lookAhead := Next();
        k := if lookAhead.Some? then current - 1 else |program|;
      }
      SkipSpacesUpTo(program, c0, k);
    }

    /** The digit loop: number * 10 + digit until a non-digit, which is un-read. */
    method ReadNumber(first: char) returns (r: LexResult)
      requires Valid() && 0 < current <= |program| && !finished
      requires IsDigit(first) && first == program[current - 1]
      modifies this
      ensures Valid()
      ensures var s := old(current) - 1;
              var j := DigitRunEnd(program, s);
              r == Tok(Number(DigitsValue(program[s..j]))) && current == j && finished == (j == |program|)
    {
      ghost var s := current - 1;
      var number := DigitValue(first);
      DigitsValueExtend(program, s, s);
      var lookAhead := Next();
      ghost var k := if lookAhead.Some? then current - 1 else |program|;
      while lookAhead.Some? && IsDigit(lookAhead.value)
        invariant Valid() && s < k <= |program|
        invariant lookAhead.Some? ==> k == current - 1 && lookAhead.value == program[k] && !finished
        invariant lookAhead.None? ==> k == |program| == current && finished
        invariant forall m :: s <= m < k ==> IsDigit(program[m])
        invariant AllDigits(program[s..k]) && number == DigitsValue(program[s..k])
        decreases |program| - current, lookAhead.Some?
      {
        DigitsValueExtend(program, s, k);
        number := number * 10 + DigitValue(lookAhead.value);
        lookAhead := Next();
        k := if lookAhead.Some? then current - 1 else |program|;
      }
      Unread();
      DigitRunEndAt(program, s, k);
      r := Tok(Number(number));
    }
  }

  // ---------------------------------------------------------------------
  // The expression tree: eval, inorder and postorder.
  // ---------------------------------------------------------------------

  /** The expression classes the parser builds. DivisionOperation is never built. */
  datatype Expression =
    | Sum(left: Expression, right: Expression)
    | Difference(left: Expression, right: Expression)
    | Product(left: Expression, right: Expression)
    | Const(number: nat)

  /** A tree with a subtraction somewhere in it. */
  predicate HasDifference(e: Expression) {
    match e
    case Sum(l, r) => HasDifference(l) || HasDifference(r)
    case Difference(_, _) => true
    case Product(l, r) => HasDifference(l) || HasDifference(r)
    case Const(_) => false
  }

  /** eval(): integer arithmetic; without a subtraction the value is never negative. */
  function Evaluate(e: Expression): (v: int)
    ensures !HasDifference(e) ==> v >= 0
  {
    match e
    case Sum(l, r) => Evaluate(l) + Evaluate(r)
    case Difference(l, r) => Evaluate(l) - Evaluate(r)
    case Product(l, r) => Evaluate(l) * Evaluate(r)
    case Const(n) => n
  }

  /** The character that stands for a binary node's operator. */
  function OpChar(e: Expression): char
    requires !e.Const?
  {
    if e.Sum? then '+' else if e.Difference? then '-' else '*'
  }

  /** inorder(): left, the operator between spaces, right; no parentheses.
      It starts and ends with a digit. */
  function Inorder(e: Expression): (s: string)
    ensures |s| > 0 && IsDigit(s[0]) && IsDigit(s[|s| - 1])
  {
    if e.Const? then NatToString(e.number)
    else Inorder(e.left) + [' ', OpChar(e), ' '] + Inorder(e.right)
  }

  /** postorder(): left, a space, right, a space and the operator. It is as
      long as inorder() and starts with a digit. */
  function Postorder(e: Expression): (s: string)
    ensures |s| == |Inorder(e)| && IsDigit(s[0])
  {
    if e.Const? then NatToString(e.number)
    else Postorder(e.left) + " " + Postorder(e.right) + [' ', OpChar(e)]
  }

  // ---------------------------------------------------------------------
  // What the renderings mean: the items they list, and reverse Polish
  // evaluation of the post-order one.
  // ---------------------------------------------------------------------

  /** One word of a rendering: a number, or an operator character. */
  datatype Item = Push(n: nat) | Apply(op: char)

  function Word(x: Item): string {
    if x.Push? then NatToString(x.n) else [x.op]
  }

  /** Items written one after another, separated by single spaces. */
  function Render(items: seq<Item>): string
    decreases |items|
  {
    if items == [] then ""
    else if |items| == 1 then Word(items[0])
    else Word(items[0]) + " " + Render(items[1..])
  }

  function InfixItems(e: Expression): (items: seq<Item>)
    ensures |items| > 0
  {
    if e.Const? then [Push(e.number)]
    else InfixItems(e.left) + [Apply(OpChar(e))] + InfixItems(e.right)
  }

  function PostfixItems(e: Expression): (items: seq<Item>)
    ensures |items| > 0
  {
    if e.Const? then [Push(e.number)]
    else PostfixItems(e.left) + PostfixItems(e.right) + [Apply(OpChar(e))]
  }

  lemma {:induction false} RenderAppend(a: seq<Item>, b: seq<Item>)
    requires |a| > 0 && |b| > 0
    ensures Render(a + b) == Render(a) + " " + Render(b)
    decreases |a|
  {
    var ab := a + b;
    assert ab[0] == a[0] && |ab| > 1;
    if |a| > 1 {
      assert ab[1..] == a[1..] + b;
      RenderAppend(a[1..], b);
      calc {
        Render(ab);
        Word(a[0]) + " " + Render(a[1..] + b);
        Word(a[0]) + " " + (Render(a[1..]) + " " + Render(b));
        (Word(a[0]) + " " + Render(a[1..])) + " " + Render(b);
      }
    } else {
      assert ab[1..] == b;
    }
  }

  lemma RenderThree(a: seq<Item>, b: seq<Item>, c: seq<Item>)
    requires |a| > 0 && |b| > 0 && |c| > 0
    ensures Render(a + b + c) == Render(a) + " " + Render(b) + " " + Render(c)
  {
    RenderAppend(a, b);
    RenderAppend(a + b, c);
  }

  /** inorder() writes the infix items. */
  lemma {:induction false} InorderRenders(e: Expression)
    ensures Inorder(e) == Render(InfixItems(e))
  {
    if !e.Const? {
      InorderRenders(e.left);
      InorderRenders(e.right);
      InorderStep(e);
    }
  }

  lemma InorderStep(e: Expression)
    requires !e.Const? && Inorder(e.left) == Render(InfixItems(e.left)) && Inorder(e.right) == Render(InfixItems(e.right))
    ensures Inorder(e) == Render(InfixItems(e))
  {
    var o := OpChar(e);
    var L, R := InfixItems(e.left), InfixItems(e.right);
    RenderThree(L, [Apply(o)], R);
    assert Render([Apply(o)]) == [o];
    Spaced(Render(L), o, Render(R));
  }

  lemma Spaced(a: string, o: char, b: string)
    ensures a + " " + [o] + " " + b == a + [' ', o, ' '] + b
  {
    assert " " + [o] + " " == [' ', o, ' '];
  }

  /** postorder() writes the postfix items. */
  lemma {:induction false} PostorderRenders(e: Expression)
    ensures Postorder(e) == Render(PostfixItems(e))
  {
    if !e.Const? {
      PostorderRenders(e.left);
      PostorderRenders(e.right);
      var l, r, o := Postorder(e.left), Postorder(e.right), OpChar(e);
      RenderThree(PostfixItems(e.left), PostfixItems(e.right), [Apply(o)]);
      assert Render([Apply(o)]) == [o];
      assert l + " " + r + " " + [o] == l + " " + r + [' ', o];
    }
  }

  /** Splits a string at every space. */
  function Words(s: string): seq<string>
    decreases |s|
  {
    if s == [] then []
    else
      var i := IndexOf(s, ' ');
      if i == |s| then [s] else [s[..i]] + Words(s[i + 1..])
  }

  /** A number for a word of digits, an operator for any other word. */
  function ReadWord(w: string): Item {
    if w != [] && AllDigits(w) then Push(DigitsValue(w))
    else if w == [] then Apply(' ')
    else Apply(w[0])
  }

  function ReadItems(ws: seq<string>): (items: seq<Item>)
    ensures |items| == |ws|
  {
    if ws == [] then [] else [ReadWord(ws[0])] + ReadItems(ws[1..])
  }

  /** The operator characters a rendering uses are neither digits nor spaces. */
  predicate Readable(items: seq<Item>) {
    forall i :: 0 <= i < |items| && items[i].Apply? ==> !IsDigit(items[i].op) && items[i].op != ' '
  }

  lemma WordReadsBack(x: Item)
    requires x.Apply? ==> !IsDigit(x.op) && x.op != ' '
    ensures ' ' !in Word(x) && Word(x) != []
    ensures ReadWord(Word(x)) == x
  {
    if x.Push? {
      NatToStringRoundTrip(x.n);
      var w := NatToString(x.n);
      assert forall k :: 0 <= k < |w| ==> w[k] != ' ' by {
        forall k | 0 <= k < |w| ensures w[k] != ' ' {
          assert IsDigit(w[k]);
        }
      }
    }
  }

  lemma WordsOne(w: string)
    requires w != [] && ' ' !in w
    ensures Words(w) == [w]
  {
    IndexOfAbsent(w, ' ');
  }

  lemma WordsCons(w: string, rest: string)
    requires w != [] && ' ' !in w
    ensures Words(w + " " + rest) == [w] + Words(rest)
  {
    var s := w + " " + rest;
    IndexOfPrefix(s, |w|, ' ');
    assert s[..|w|] == w && s[|w| + 1..] == rest;
  }

  /** The words of a rendering of two or more items are the first item's
      word and the words of the rest. */
  lemma ReadRenderCons(items: seq<Item>)
    requires |items| > 1 && Readable(items)
    requires Readable(items[1..]) ==> ReadItems(Words(Render(items[1..]))) == items[1..]
    ensures ReadItems(Words(Render(items))) == items
  {
    var w, rest := Word(items[0]), items[1..];
    WordReadsBack(items[0]);
    assert Readable(rest) by {
      forall i | 0 <= i < |rest| && rest[i].Apply?
        ensures !IsDigit(rest[i].op) && rest[i].op != ' '
      {
        assert rest[i] == items[i + 1];
      }
    }
    assert Render(items) == w + " " + Render(rest);
    WordsCons(w, Render(rest));
    var ws := [w] + Words(Render(rest));
    assert ws[0] == w && ws[1..] == Words(Render(rest));
    assert ReadItems(ws) == [ReadWord(w)] + ReadItems(ws[1..]);
    assert items == [items[0]] + rest;
  }

  /** Splitting a rendering at its spaces and reading each word gives the
      items back. */
  lemma {:induction false} ReadRender(items: seq<Item>)
    requires Readable(items)
    ensures ReadItems(Words(Render(items))) == items
    decreases |items|
  {
    if |items| == 1 {
      WordReadsBack(items[0]);
      WordsOne(Word(items[0]));
    } else if |items| > 1 {
      ReadRender(items[1..]);
      ReadRenderCons(items);
    }
  }

  /** Reverse Polish evaluation: numbers are pushed, an operator pops the
      right operand and then the left one and pushes the result. None when
      the stack runs short or the operator is unknown. */
  function RunRPN(items: seq<Item>, stack: seq<int>): Option<seq<int>>
    decreases |items|
  {
    if items == [] then Some(stack)
    else if items[0].Push? then RunRPN(items[1..], stack + [items[0].n])
    else if |stack| < 2 then None
    else
      var a, b := stack[|stack| - 2], stack[|stack| - 1];
      var rest := stack[..|stack| - 2];
      var op := items[0].op;
      if op == '+' then RunRPN(items[1..], rest + [a + b])
      else if op == '-' then RunRPN(items[1..], rest + [a - b])
      else if op == '*' then RunRPN(items[1..], rest + [a * b])
      else None
  }

  /** Running the postfix items of e pushes exactly eval() of e. */
  lemma {:induction false} RunPostfix(e: Expression, rest: seq<Item>, stack: seq<int>)
    ensures RunRPN(PostfixItems(e) + rest, stack) == RunRPN(rest, stack + [Evaluate(e)])
  {
    if e.Const? {
      assert ([Push(e.number)] + rest)[1..] == rest;
    } else {
      var op := [Apply(OpChar(e))];
      var l, r := PostfixItems(e.left), PostfixItems(e.right);
      assert PostfixItems(e) + rest == l + (r + (op + rest));
      RunPostfix(e.left, r + (op + rest), stack);
      RunPostfix(e.right, op + rest, stack + [Evaluate(e.left)]);
      ApplyOperator(e, rest, stack);
    }
  }

  /** The operator of e, over eval() of its operands on the stack, leaves
      eval() of e. */
  lemma ApplyOperator(e: Expression, rest: seq<Item>, stack: seq<int>)
    requires !e.Const?
    ensures RunRPN([Apply(OpChar(e))] + rest, stack + [Evaluate(e.left)] + [Evaluate(e.right)])
            == RunRPN(rest, stack + [Evaluate(e)])
  {
    var s := stack + [Evaluate(e.left)] + [Evaluate(e.right)];
    assert s[..|s| - 2] == stack && s[|s| - 2] == Evaluate(e.left) && s[|s| - 1] == Evaluate(e.right);
    assert ([Apply(OpChar(e))] + rest)[1..] == rest;
  }

  /** Reading the post-order rendering as reverse Polish notation and running
      it on an empty stack leaves eval() of the tree, and nothing else. */
  lemma PostorderEvaluates(e: Expression)
    ensures RunRPN(ReadItems(Words(Postorder(e))), []) == Some([Evaluate(e)])
  {
    PostorderRenders(e);
    PostfixReadable(e);
    ReadRender(PostfixItems(e));
    RunPostfix(e, [], []);
    assert PostfixItems(e) + [] == PostfixItems(e);
    assert [] + [Evaluate(e)] == [Evaluate(e)];
  }

  lemma {:induction false} PostfixReadable(e: Expression)
    ensures Readable(PostfixItems(e))
    ensures Readable(InfixItems(e))
  {
    if !e.Const? {
      PostfixReadable(e.left);
      PostfixReadable(e.right);
    }
  }

  /** The in-order and post-order renderings list the same numbers and the
      same operators, in different orders. */
  lemma {:induction false} SameItems(e: Expression)
    ensures multiset(InfixItems(e)) == multiset(PostfixItems(e))
  {
    if !e.Const? {
      SameItems(e.left);
      SameItems(e.right);
    }
  }

  // ---------------------------------------------------------------------
  // The parser as functions of the lexer's state and the slot.
  // ---------------------------------------------------------------------

  /** The parser's exceptions: the lexer's UnknownToken, match's
      UnexpectedToken (None is "(empty)"), and term_rest's ValueError. */
  datatype Failure = UnknownToken(message: string) | UnexpectedToken(found: Option<Kind>) | NotAdditive

  datatype Outcome<T> = Ok(value: T) | Fail(failure: Failure)

  /** The lexer's cursor and finished flag, and the pushback slot _fallback. */
  datatype Cursor = Cursor(pos: nat, finished: bool, slot: Option<Token>)

  /** Unread characters count twice and a full slot once. */
  function Measure(p: string, c: Cursor): nat
    requires c.pos <= |p|
  {
    2 * (|p| - c.pos) + (if c.slot.Some? then 1 else 0)
  }

  /** The token match looks at next: the one in the slot, else the lexer's. */
  function Peek(p: string, c: Cursor): LexResult
    requires c.pos <= |p|
  {
    if c.slot.Some? then Tok(c.slot.value) else Scan(p, c.pos).0
  }

  /** Where the parser stands once that token is consumed. */
  function Advance(p: string, c: Cursor): (r: Cursor)
    requires c.pos <= |p|
    ensures r.pos <= |p| && r.slot.None?
    ensures Peek(p, c).Tok? ==> Measure(p, r) < Measure(p, c)
  {
    if c.slot.Some? then Cursor(c.pos, c.finished, None)
    else Cursor(Scan(p, c.pos).1, Scan(p, c.pos).2, None)
  }

  /** match(types, allow_empty), as in the later parser but raising
      UnexpectedToken; the lexer's UnknownToken passes through. */
  function Matched(p: string, c: Cursor, kinds: seq<Kind>, allowEmpty: bool)
    : (r: (Outcome<Option<Token>>, Cursor))
    requires c.pos <= |p|
    ensures r.1.pos <= |p| && Measure(p, r.1) <= Measure(p, c)
    ensures c.slot.Some? ==> r.1.pos == c.pos && r.1.finished == c.finished
    ensures r.0.Ok? && r.0.value.Some? ==>
              KindOf(r.0.value.value) in kinds && r.1.slot.None? && Measure(p, r.1) < Measure(p, c)
    ensures (r.0.Ok? && r.0.value.None?) <==> (allowEmpty && c.slot.None? && SkipSpaces(p, c.pos) == |p|)
    // A token of a wanted kind is consumed; one of another kind is put in
    // the slot; the lexer's UnknownToken passes through; the end is allowed
    // only when asked for.
    ensures Peek(p, c).Tok? && KindOf(Peek(p, c).token) in kinds ==>
              r == (Ok(Some(Peek(p, c).token)), Advance(p, c))
    ensures Peek(p, c).Tok? && KindOf(Peek(p, c).token) !in kinds ==>
              r == (Fail(UnexpectedToken(Some(KindOf(Peek(p, c).token)))), Advance(p, c).(slot := Some(Peek(p, c).token)))
    ensures Peek(p, c).Unknown? ==> r == (Fail(UnknownToken(Peek(p, c).message)), Advance(p, c))
    ensures Peek(p, c).End? ==> r == (if allowEmpty then Ok(None) else Fail(UnexpectedToken(None)), Advance(p, c))
  {
    var (item, c1) :=
      if c.slot.Some? then (Tok(c.slot.value), Cursor(c.pos, c.finished, None))
      else var (it, next, fin) := Scan(p, c.pos); (it, Cursor(next, fin, None));
    if item.Unknown? then (Fail(UnknownToken(item.message)), c1)
    else if item.End? && allowEmpty then (Ok(None), c1)
    else if item.End? then (Fail(UnexpectedToken(None)), c1)
    else if KindOf(item.token) !in kinds then
      (Fail(UnexpectedToken(Some(KindOf(item.token)))), c1.(slot := Some(item.token)))
    else (Ok(Some(item.token)), c1)
  }

  /** expr -> term term_rest (parse() is expr()). */
  function ParseExpr(p: string, c: Cursor): (r: (Outcome<Expression>, Cursor))
    requires c.pos <= |p|
    ensures r.1.pos <= |p| && Measure(p, r.1) <= Measure(p, c)
    // The expression is the term read first, or a sum or difference starting with it.
    ensures r.0.Ok? ==>
              var t := ParseTerm(p, c).0;
              t.Ok? && (r.0.value == t.value ||
                        ((r.0.value.Sum? || r.0.value.Difference?) && r.0.value.left == t.value))
    decreases Measure(p, c), 3
  {
    var (t, c1) := ParseTerm(p, c);
    if t.Fail? then (t, c1) else ParseTermRest(p, t.value, c1)
  }

  /** term_rest -> '+' term | '-' term | epsilon; another operator is a ValueError. */
  function ParseTermRest(p: string, left: Expression, c: Cursor): (r: (Outcome<Expression>, Cursor))
    requires c.pos <= |p|
    ensures r.1.pos <= |p| && Measure(p, r.1) <= Measure(p, c)
    // Only the end of the input leaves the term alone; '+' builds a sum and
    // '-' a difference with a term on the right.
    ensures r.0.Ok? ==>
              (r.0.value == left && c.slot.None? && SkipSpaces(p, c.pos) == |p|) ||
              ((r.0.value.Sum? || r.0.value.Difference?) && r.0.value.left == left &&
               Peek(p, c) == Tok(Operator(if r.0.value.Sum? then '+' else '-')) &&
               ParseTerm(p, Advance(p, c)).0 == Ok(r.0.value.right))
    // Another operator is a ValueError; a token of another kind is unexpected.
    ensures (Peek(p, c).Tok? && Peek(p, c).token.Operator? &&
             Peek(p, c).token != Operator('+') && Peek(p, c).token != Operator('-')) ==>
              r == (Fail(NotAdditive), Advance(p, c))
    ensures Peek(p, c).Tok? && !Peek(p, c).token.Operator? ==>
              r.0 == Fail(UnexpectedToken(Some(KindOf(Peek(p, c).token))))
    decreases Measure(p, c), 2
  {
    var (m, c1) := Matched(p, c, [Op], true);
    if m.Fail? then (Fail(m.failure), c1)
    else if m.value.None? then (Ok(left), c1)
    else if m.value.value != Operator('+') && m.value.value != Operator('-') then (Fail(NotAdditive), c1)
    else
      var (right, c2) := ParseTerm(p, c1);
      if right.Fail? then (right, c2)
      else if m.value.value == Operator('+') then (Ok(Sum(left, right.value)), c2)
      else (Ok(Difference(left, right.value)), c2)
  }

  /** term -> factor factor_rest */
  function ParseTerm(p: string, c: Cursor): (r: (Outcome<Expression>, Cursor))
    requires c.pos <= |p|
    ensures r.1.pos <= |p| && Measure(p, r.1) <= Measure(p, c)
    // The term is the factor read first, or a product or quotient starting with it.
    ensures r.0.Ok? ==>
              var f := ParseFactor(p, c).0;
              f.Ok? && (r.0.value == f.value ||
                        ((r.0.value.Product? || r.0.value.Difference?) && r.0.value.left == f.value))
    decreases Measure(p, c), 2
  {
    var (f, c1) := ParseFactor(p, c);
    if f.Fail? then (f, c1) else ParseFactorRest(p, f.value, c1)
  }

  /** factor -> num | '(' expr ')' */
  function ParseFactor(p: string, c: Cursor): (r: (Outcome<Expression>, Cursor))
    requires c.pos <= |p|
    ensures r.1.pos <= |p| && Measure(p, r.1) <= Measure(p, c)
    // A number is a constant, '(' starts a parenthesised expression (see
    // ParenFactor), and any other token is unexpected.
    ensures Peek(p, c).Tok? && Peek(p, c).token.Number? ==>
              r == (Ok(Const(Peek(p, c).token.value)), Advance(p, c))
    ensures Peek(p, c).Tok? && (Peek(p, c).token.Operator? || Peek(p, c).token.Closing?) ==>
              r.0 == Fail(UnexpectedToken(Some(KindOf(Peek(p, c).token))))
    decreases Measure(p, c), 1
  {
    var (m, c1) := Matched(p, c, [Num, OpenParens], false);
    if m.Fail? then (Fail(m.failure), c1)
    else if m.value.None? then (Fail(UnexpectedToken(None)), c1)
    else if m.value.value.Open? then
      var (e, c2) := ParseExpr(p, c1);
      if e.Fail? then (e, c2)
      else
        var (close, c3) := Matched(p, c2, [ClosingParens], false);
        if close.Fail? then (Fail(close.failure), c3)
        else
          (e, c3)
    else (Ok(Const(m.value.value.value)), c1)
  }

  /** factor_rest -> '*' term | '/' term | epsilon. UnexpectedToken from
      match is caught and ends the term (the token stays in the slot); the
      lexer's UnknownToken is not caught. Another operator is put back. */
  function ParseFactorRest(p: string, left: Expression, c: Cursor): (r: (Outcome<Expression>, Cursor))
    requires c.pos <= |p|
    ensures r.1.pos <= |p| && Measure(p, r.1) <= Measure(p, c)
    // '*' builds a product and '/' a difference with a term on the right;
    // any other token ends the term, and only a lexical error fails it.
    ensures r.0.Ok? ==>
              r.0.value == left ||
              ((r.0.value.Product? || r.0.value.Difference?) && r.0.value.left == left &&
               Peek(p, c) == Tok(Operator(if r.0.value.Product? then '*' else '/')) &&
               ParseTerm(p, Advance(p, c)).0 == Ok(r.0.value.right))
    ensures Peek(p, c).Unknown? ==> r == (Fail(UnknownToken(Peek(p, c).message)), Advance(p, c))
    ensures !Peek(p, c).Unknown? && Peek(p, c) != Tok(Operator('*')) && Peek(p, c) != Tok(Operator('/')) ==>
              r.0 == Ok(left) && (Peek(p, c).Tok? ==> r.1 == Advance(p, c).(slot := Some(Peek(p, c).token)))
    decreases Measure(p, c), 0
  {
    var (m, c1) := Matched(p, c, [Op], true);
    if m.Fail? && m.failure.UnknownToken? then (Fail(m.failure), c1)
    else if m.Fail? || m.value.None? then (Ok(left), c1)
    else
      var token := m.value.value;
      if token == Operator('*') || token == Operator('/') then
        var (right, c2) := ParseTerm(p, c1);
        if right.Fail? then (right, c2)
        else if token == Operator('*') then (Ok(Product(left, right.value)), c2)
        else (Ok(Difference(left, right.value)), c2)
      else (Ok(left), c1.(slot := Some(token)))
  }

  /** After '(' the factor is the expression read next, and it succeeds
      exactly when that expression does and a ')' follows it. */
  lemma ParenFactor(p: string, c: Cursor)
    requires c.pos <= |p| && Peek(p, c) == Tok(Open)
    ensures var inner := ParseExpr(p, Advance(p, c));
            ParseFactor(p, c).0.Ok? <==> inner.0.Ok? && Peek(p, inner.1) == Tok(Closing)
    ensures var inner := ParseExpr(p, Advance(p, c));
            ParseFactor(p, c).0.Ok? ==> ParseFactor(p, c) == (inner.0, Advance(p, inner.1))
  {
    var c1 := Advance(p, c);
    var inner := ParseExpr(p, c1);
    var close := Matched(p, inner.1, [ClosingParens], false);
    assert ParseFactor(p, c) ==
             (if inner.0.Fail? then inner
              else if close.0.Fail? then (Fail(close.0.failure), close.1)
              else (inner.0, close.1)) by {
      assert Matched(p, c, [Num, OpenParens], false) == (Ok(Some(Open)), c1);
    }
    assert close.0.Ok? <==> Peek(p, inner.1) == Tok(Closing) by {
      if Peek(p, inner.1).Tok? && Peek(p, inner.1).token == Closing {
        assert KindOf(Closing) in [ClosingParens];
      }
    }
    assert close.0.Ok? ==> close.1 == Advance(p, inner.1);
  }

  /** Parser.eval(): parse, then evaluate. */
  function Calculate(p: string, c: Cursor): (r: (Outcome<int>, Cursor))
    requires c.pos <= |p|
    ensures r.1 == ParseExpr(p, c).1
    ensures r.0.Ok? <==> ParseExpr(p, c).0.Ok?
  {
    var (e, c1) := ParseExpr(p, c);
    if e.Fail? then (Fail(e.failure), c1) else (Ok(Evaluate(e.value)), c1)
  }

  // ---------------------------------------------------------------------
  // inorder() is read back by the parser.
  // ---------------------------------------------------------------------

  /** The trees the parser builds from text without parentheses: a term is
      a number or number '*' term; an expression is a term, or a term '+'
      or '-' a term (term_rest takes one step). */
  predicate IsFlatTerm(e: Expression) {
    e.Const? || (e.Product? && e.left.Const? && IsFlatTerm(e.right))
  }

  predicate IsFlat(e: Expression) {
    IsFlatTerm(e) || ((e.Sum? || e.Difference?) && IsFlatTerm(e.left) && IsFlatTerm(e.right))
  }

  /** What may follow a term: the end, a space and an additive operator,
      or a closing parenthesis. */
  predicate TermEnds(p: string, k: nat) {
    k == |p| || (k + 1 < |p| && p[k] == ' ' && (p[k + 1] == '+' || p[k + 1] == '-')) ||
    (k < |p| && p[k] == ')')
  }

  /** Where the parser stands after such a term: at the end, or with the
      operator or the ')' read and pushed back. */
  function AfterTerm(p: string, k: nat): Cursor
    requires TermEnds(p, k)
  {
    if k == |p| then Cursor(|p|, true, None)
    else if p[k] == ')' then Cursor(k + 1, false, Some(Closing))
    else Cursor(k + 2, false, Some(Operator(p[k + 1])))
  }

  /** A numeral after spaces, ending at k, is one factor. */
  lemma FactorReadsBack(p: string, c: nat, s: nat, n: nat, k: nat)
    requires k == s + |NatToString(n)|
    requires c <= s && k <= |p| && p[s..k] == NatToString(n)
    requires forall m :: c <= m < s ==> IsSpace(p[m])
    requires k < |p| ==> !IsDigit(p[k])
    ensures ParseFactor(p, Cursor(c, false, None)) == (Ok(Const(n)), Cursor(k, k == |p|, None))
  {
    ScanNumeral(p, c, s, n);
  }

  /** factor_rest before the end, an additive operator or a ')' leaves the
      factor alone (pushing the operator or the ')' back). */
  lemma FactorRestStops(p: string, left: Expression, k: nat)
    requires k <= |p| && TermEnds(p, k)
    ensures ParseFactorRest(p, left, Cursor(k, k == |p|, None)) == (Ok(left), AfterTerm(p, k))
  {
    if k < |p| && p[k] == ')' {
      assert Scan(p, k) == (Tok(Closing), k + 1, false);
    } else if k < |p| {
      ScanOperator(p, k, k + 1);
    }
  }

  /** After a space, an operator character is matched as one OP token. */
  lemma MatchedOperator(p: string, k: nat)
    requires k + 1 < |p| && p[k] == ' ' && IsOperatorChar(p[k + 1])
    ensures Matched(p, Cursor(k, false, None), [Op], true) == (Ok(Some(Operator(p[k + 1]))), Cursor(k + 2, false, None))
  {
    ScanOperator(p, k, k + 1);
  }

  /** factor_rest reading " *" and then a term builds the product. */
  lemma FactorRestProduct(p: string, left: Expression, k: nat, right: Expression, after: Cursor)
    requires k + 1 < |p| && p[k] == ' ' && p[k + 1] == '*'
    requires ParseTerm(p, Cursor(k + 2, false, None)) == (Ok(right), after)
    ensures ParseFactorRest(p, left, Cursor(k, false, None)) == (Ok(Product(left, right)), after)
  {
    MatchedOperator(p, k);
  }

  /** A factor followed by " *" and a term is a product. */
  lemma ProductReadsBack(p: string, c: nat, k: nat, e: Expression, after: Cursor)
    requires e.Product?
    requires c <= |p| && k + 1 < |p| && p[k] == ' ' && p[k + 1] == '*'
    requires ParseFactor(p, Cursor(c, false, None)) == (Ok(e.left), Cursor(k, k == |p|, None))
    requires ParseTerm(p, Cursor(k + 2, false, None)) == (Ok(e.right), after)
    ensures ParseTerm(p, Cursor(c, false, None)) == (Ok(e), after)
  {
    FactorRestProduct(p, e.left, k, e.right, after);
  }

  /** Where the parts of a rendered binary expression lie in the text. */
  lemma InorderSplit(p: string, s: nat, end: nat, e: Expression) returns (k: nat)
    requires !e.Const? && end == s + |Inorder(e)| && end <= |p| && p[s..end] == Inorder(e)
    ensures k == s + |Inorder(e.left)| && k + 3 + |Inorder(e.right)| == end
    ensures p[s..k] == Inorder(e.left) && p[k + 3..end] == Inorder(e.right)
    ensures p[k] == ' ' && p[k + 1] == OpChar(e) && p[k + 2] == ' '
  {
    var l, r := Inorder(e.left), Inorder(e.right);
    k := s + |l|;
    var I := Inorder(e);
    assert I == l + [' ', OpChar(e), ' '] + r;
    assert p[s..k] == p[s..end][..|l|] == I[..|l|] == l;
    assert p[k + 3..end] == p[s..end][|l| + 3..] == I[|l| + 3..] == r;
    assert p[k] == p[s..end][|l|] == I[|l|];
    assert p[k + 1] == p[s..end][|l| + 1] == I[|l| + 1];
    assert p[k + 2] == p[s..end][|l| + 2] == I[|l| + 2];
  }

  /** Where the numeral, the " * " and the rest of a rendered flat product lie. */
  lemma ProductLayout(p: string, c: nat, s: nat, e: Expression, end: nat) returns (k: nat)
    requires e.Product? && IsFlatTerm(e) && end == s + |Inorder(e)|
    requires c <= s && end <= |p| && p[s..end] == Inorder(e)
    ensures e.left.Const? && IsFlatTerm(e.right)
    ensures k == s + |NatToString(e.left.number)| && c <= s && k <= |p| && p[s..k] == NatToString(e.left.number)
    ensures k < |p| ==> !IsDigit(p[k])
    ensures k + 1 < |p| && p[k] == ' ' && p[k + 1] == '*'
    ensures end == k + 3 + |Inorder(e.right)| && k + 2 <= k + 3 && p[k + 3..end] == Inorder(e.right)
    ensures forall m :: k + 2 <= m < k + 3 ==> IsSpace(p[m])
  {
    k := InorderSplit(p, s, end, e);
  }

  /** The in-order rendering of a flat term, after spaces and ending at end,
      parses back to the term. */
  lemma {:induction false} TermReadsBack(p: string, c: nat, s: nat, e: Expression, end: nat)
    requires IsFlatTerm(e) && end == s + |Inorder(e)|
    requires c <= s && end <= |p| && p[s..end] == Inorder(e)
    requires forall m :: c <= m < s ==> IsSpace(p[m])
    requires TermEnds(p, end)
    ensures ParseTerm(p, Cursor(c, false, None)) == (Ok(e), AfterTerm(p, end))
    decreases e, 1
  {
    if e.Const? {
      FactorReadsBack(p, c, s, e.number, end);
      FactorRestStops(p, e, end);
    } else {
      ProductTermReadsBack(p, c, s, e, end);
    }
  }

  /** The same for a product: its numeral, " * ", and the rest of the term. */
  lemma {:induction false} ProductTermReadsBack(p: string, c: nat, s: nat, e: Expression, end: nat)
    requires e.Product? && IsFlatTerm(e) && end == s + |Inorder(e)|
    requires c <= s && end <= |p| && p[s..end] == Inorder(e)
    requires forall m :: c <= m < s ==> IsSpace(p[m])
    requires TermEnds(p, end)
    ensures ParseTerm(p, Cursor(c, false, None)) == (Ok(e), AfterTerm(p, end))
    decreases e, 0
  {
    var k := ProductLayout(p, c, s, e, end);
    FactorReadsBack(p, c, s, e.left.number, k);
    TermReadsBack(p, k + 2, k + 3, e.right, end);
    ProductReadsBack(p, c, k, e, AfterTerm(p, end));
  }

  lemma TermRestAtEnd(p: string, left: Expression)
    ensures ParseTermRest(p, left, Cursor(|p|, true, None)) == (Ok(left), Cursor(|p|, true, None))
  {
  }

  /** term_rest with '+' or '-' in the slot (read just before k + 2) reads
      the term after it. */
  lemma TermRestStep(p: string, e: Expression, k: nat, after: Cursor)
    requires (e.Sum? || e.Difference?) && k + 2 <= |p|
    requires ParseTerm(p, Cursor(k + 2, false, None)) == (Ok(e.right), after)
    ensures ParseTermRest(p, e.left, Cursor(k + 2, false, Some(Operator(OpChar(e))))) == (Ok(e), after)
  {
  }

  /** term_rest with the ')' in the slot: match wants an operator and raises. */
  lemma TermRestClosing(p: string, left: Expression, c: Cursor)
    requires c.pos <= |p| && c.slot == Some(Closing)
    ensures ParseTermRest(p, left, c) == (Fail(UnexpectedToken(Some(ClosingParens))), c)
  {
    assert Matched(p, c, [Op], true) == (Fail(UnexpectedToken(Some(ClosingParens))), c);
  }

  /** expr() is a term followed by term_rest. */
  lemma ExprAfterTerm(p: string, c: Cursor, left: Expression, c1: Cursor, r: (Outcome<Expression>, Cursor))
    requires c.pos <= |p| && c1.pos <= |p|
    requires ParseTerm(p, c) == (Ok(left), c1) && ParseTermRest(p, left, c1) == r
    ensures ParseExpr(p, c) == r
  {
  }

  /** expr() over "left op right" from c: the left term, then term_rest
      with the operator in the slot. */
  lemma BinaryReadsBack(p: string, c: nat, e: Expression, k: nat, after: Cursor)
    requires (e.Sum? || e.Difference?) && c <= |p| && k + 2 <= |p|
    requires ParseTerm(p, Cursor(c, false, None)) == (Ok(e.left), Cursor(k + 2, false, Some(Operator(OpChar(e)))))
    requires ParseTerm(p, Cursor(k + 2, false, None)) == (Ok(e.right), after)
    ensures ParseExpr(p, Cursor(c, false, None)) == (Ok(e), after)
  {
    TermRestStep(p, e, k, after);
    ExprAfterTerm(p, Cursor(c, false, None), e.left, Cursor(k + 2, false, Some(Operator(OpChar(e)))), (Ok(e), after));
  }

  /** The left term of "left op right" stops before the operator and
      leaves it in the slot. */
  lemma LeftTermReadsBack(p: string, c: nat, left: Expression, op: char, k: nat)
    requires IsFlatTerm(left) && k == c + |Inorder(left)| && k + 2 < |p|
    requires p[c..k] == Inorder(left) && p[k] == ' ' && p[k + 1] == op && (op == '+' || op == '-')
    ensures ParseTerm(p, Cursor(c, false, None)) == (Ok(left), Cursor(k + 2, false, Some(Operator(op))))
  {
    assert AfterTerm(p, k) == Cursor(k + 2, false, Some(Operator(op)));
    TermReadsBack(p, c, c, left, k);
  }

  /** The right term of "left op right", after its one space, reads up to
      where it ends. */
  lemma RightTermReadsBack(p: string, right: Expression, c: nat, end: nat)
    requires IsFlatTerm(right) && c + 1 + |Inorder(right)| == end <= |p| && TermEnds(p, end)
    requires p[c] == ' ' && p[c + 1..end] == Inorder(right)
    ensures ParseTerm(p, Cursor(c, false, None)) == (Ok(right), AfterTerm(p, end))
  {
    OneSpace(p, c);
    TermReadsBack(p, c, c + 1, right, end);
  }

  /** expr() over the in-order rendering of a flat sum or difference that
      starts at c and ends where a term may end. */
  lemma SplitReadsBack(p: string, c: nat, e: Expression, end: nat)
    requires (e.Sum? || e.Difference?) && IsFlat(e)
    requires end == c + |Inorder(e)| && end <= |p| && p[c..end] == Inorder(e) && TermEnds(p, end)
    ensures ParseExpr(p, Cursor(c, false, None)) == (Ok(e), AfterTerm(p, end))
  {
    var k := InorderSplit(p, c, end, e);
    RightTermReadsBack(p, e.right, k + 2, end);
    LeftTermReadsBack(p, c, e.left, OpChar(e), k);
    BinaryReadsBack(p, c, e, k, AfterTerm(p, end));
  }

  /** expr() over the in-order rendering of a flat term. */
  lemma FlatTermReadsBack(p: string, e: Expression)
    requires IsFlatTerm(e) && p[0..|p|] == Inorder(e)
    ensures ParseExpr(p, Cursor(0, false, None)) == (Ok(e), Cursor(|p|, true, None))
  {
    TermReadsBack(p, 0, 0, e, |p|);
    TermRestAtEnd(p, e);
  }

  /** expr() over the in-order rendering of a flat tree returns the tree
      and reads all of the text. */
  lemma ExprReadsBack(p: string, e: Expression)
    requires IsFlat(e) && p == Inorder(e)
    ensures ParseExpr(p, Cursor(0, false, None)) == (Ok(e), Cursor(|p|, true, None))
  {
    assert p[0..|p|] == p;
    if IsFlatTerm(e) {
      FlatTermReadsBack(p, e);
    } else {
      SplitReadsBack(p, 0, e, |p|);
    }
  }

  /** Where "(", a rendering and ")" lie in the text, and the '(' token. */
  lemma ParenLayout(p: string, e: Expression)
    requires p == "(" + Inorder(e) + ")"
    ensures p[0] == '(' && p[|p| - 1] == ')' && p[1..|p| - 1] == Inorder(e)
    ensures Peek(p, Cursor(0, false, None)) == Tok(Open) && Advance(p, Cursor(0, false, None)) == Cursor(1, false, None)
  {
    assert Scan(p, 0) == (Tok(Open), 1, false);
  }

  /** A flat sum or difference written in parentheses from s to end is
      read back as one factor: term_rest takes its one step, the ')' ends
      the right term and is pushed back, and factor() matches it. */
  lemma ParenFactorAt(p: string, s: nat, e: Expression, end: nat)
    requires (e.Sum? || e.Difference?) && IsFlat(e)
    requires s + |Inorder(e)| + 2 == end <= |p|
    requires p[s] == '(' && p[s + 1..end - 1] == Inorder(e) && p[end - 1] == ')'
    ensures ParseFactor(p, Cursor(s, false, None)) == (Ok(e), Cursor(end, false, None))
  {
    assert Scan(p, s) == (Tok(Open), s + 1, false);
    SplitReadsBack(p, s + 1, e, end - 1);
    assert AfterTerm(p, end - 1) == Cursor(end, false, Some(Closing));
    ParenFactor(p, Cursor(s, false, None));
  }

  /** So "(" + inorder() + ")" of a flat sum or difference is one factor,
      and all of the text is read. */
  lemma ParenReadsBack(e: Expression)
    requires (e.Sum? || e.Difference?) && IsFlat(e)
    ensures var p := "(" + Inorder(e) + ")";
            ParseFactor(p, Cursor(0, false, None)) == (Ok(e), Cursor(|p|, false, None))
  {
    var p := "(" + Inorder(e) + ")";
    ParenLayout(p, e);
    ParenFactorAt(p, 0, e, |p|);
  }

  /** A flat term in parentheses is not: term_rest meets the pushed-back ')'
      where it wants an operator, and match raises UnexpectedToken. */
  lemma ParenTermFails(e: Expression)
    requires IsFlatTerm(e)
    ensures var p := "(" + Inorder(e) + ")";
            ParseFactor(p, Cursor(0, false, None)) ==
              (Fail(UnexpectedToken(Some(ClosingParens))), Cursor(|p|, false, Some(Closing)))
  {
    var p := "(" + Inorder(e) + ")";
    ParenLayout(p, e);
    var after := Cursor(|p|, false, Some(Closing));
    TermReadsBack(p, 1, 1, e, |p| - 1);
    assert AfterTerm(p, |p| - 1) == after;
    TermRestClosing(p, e, after);
    ExprAfterTerm(p, Cursor(1, false, None), e, after, (Fail(UnexpectedToken(Some(ClosingParens))), after));
    ParenFactor(p, Cursor(0, false, None));
  }

  /** Where the parts of "(a) * b" lie in the text. */
  lemma ParenProductLayout(p: string, a: Expression, b: Expression) returns (end: nat)
    requires p == "(" + Inorder(a) + ") * " + Inorder(b)
    ensures end == |Inorder(a)| + 2 && end + 3 + |Inorder(b)| == |p|
    ensures p[0] == '(' && p[1..end - 1] == Inorder(a) && p[end - 1] == ')'
    ensures p[end] == ' ' && p[end + 1] == '*' && p[end + 2] == ' ' && p[end + 3..|p|] == Inorder(b)
  {
    end := |Inorder(a)| + 2;
    assert p[1..end - 1] == (p[..end])[1..end - 1];
  }

  /** "(a) * b", laid out as ParenProductLayout says, parses to the product. */
  lemma ParenProductReadsBack(p: string, a: Expression, b: Expression, end: nat)
    requires (a.Sum? || a.Difference?) && IsFlat(a) && IsFlatTerm(b)
    requires end == |Inorder(a)| + 2 && end + 3 + |Inorder(b)| == |p|
    requires p[0] == '(' && p[1..end - 1] == Inorder(a) && p[end - 1] == ')'
    requires p[end] == ' ' && p[end + 1] == '*' && p[end + 2] == ' ' && p[end + 3..|p|] == Inorder(b)
    ensures ParseExpr(p, Cursor(0, false, None)) == (Ok(Product(a, b)), Cursor(|p|, true, None))
  {
    var after := Cursor(|p|, true, None);
    assert ParseFactor(p, Cursor(0, false, None)) == (Ok(a), Cursor(end, false, None)) by {
      ParenFactorAt(p, 0, a, end);
    }
    assert ParseTerm(p, Cursor(end + 2, false, None)) == (Ok(b), after) by {
      OneSpace(p, end + 2);
      TermReadsBack(p, end + 2, end + 3, b, |p|);
    }
    assert ParseTerm(p, Cursor(0, false, None)) == (Ok(Product(a, b)), after) by {
      ProductReadsBack(p, 0, end, Product(a, b), after);
    }
    TermRestAtEnd(p, Product(a, b));
    ExprAfterTerm(p, Cursor(0, false, None), Product(a, b), after, (Ok(Product(a, b)), after));
  }

  /** A parenthesised sum or difference times a flat term: the product is
      read back, and eval() multiplies the two values. */
  lemma ParenProduct(a: Expression, b: Expression)
    requires (a.Sum? || a.Difference?) && IsFlat(a) && IsFlatTerm(b)
    ensures var p := "(" + Inorder(a) + ") * " + Inorder(b);
            ParseExpr(p, Cursor(0, false, None)) == (Ok(Product(a, b)), Cursor(|p|, true, None)) &&
            Calculate(p, Cursor(0, false, None)).0 == Ok(Evaluate(a) * Evaluate(b))
  {
    var p := "(" + Inorder(a) + ") * " + Inorder(b);
    var end := ParenProductLayout(p, a, b);
    ParenProductReadsBack(p, a, b, end);
  }

  /** The lexer's strip() leaves an in-order rendering as it is: it starts
      and ends with a digit. */
  lemma InorderStripped(e: Expression)
    ensures Strip(Inorder(e)) == Inorder(e)
  {
    StripToken(Inorder(e), Inorder(e));
  }

  /** So eval() of the parse of the in-order rendering of a flat tree is
      eval() of the tree, and the whole text is read. */
  lemma CalculateInorder(e: Expression)
    requires IsFlat(e)
    ensures Calculate(Inorder(e), Cursor(0, false, None)) == (Ok(Evaluate(e)), Cursor(|Inorder(e)|, true, None))
  {
    ExprReadsBack(Inorder(e), e);
  }

  class Parser {
    const lexer: Lexer
    var slot: Option<Token>   // _fallback

    ghost predicate Valid()
      reads this, lexer
    {
      lexer.Valid()
    }

    function State(): Cursor
      reads this, lexer
      requires lexer.current >= 0
    {
      Cursor(lexer.current as nat, lexer.finished, slot)
    }

    constructor (lexer: Lexer)
      requires lexer.Valid()
      ensures Valid() && this.lexer == lexer && slot.None?
    {
      this.lexer := lexer;
      slot := None;
    }

    method Fallback(token: Option<Token>)
      modifies this
      ensures slot == token
    {
      slot := token;
    }

    method Match(kinds: seq<Kind>, allowEmpty: bool) returns (r: Outcome<Option<Token>>)
      requires Valid()
      modifies this, lexer
      ensures Valid()
      ensures (r, State()) == Matched(lexer.program, old(State()), kinds, allowEmpty)
    {
      var item;
      if slot.Some? {
        item := Tok(slot.value);
        slot := None;
      } else {
        item := lexer.GetNextToken();
      }
      if item.Unknown? {
        return Fail(UnknownToken(item.message));
      }
      if item.End? && allowEmpty {
        return Ok(None);
      }
      if item.End? {
        Fallback(None);
        return Fail(UnexpectedToken(None));
      }
      if KindOf(item.token) !in kinds {
        Fallback(Some(item.token));
        return Fail(UnexpectedToken(Some(KindOf(item.token))));
      }
      r := Ok(Some(item.token));
    }

    method Expr() returns (r: Outcome<Expression>)
      requires Valid()
      modifies this, lexer
      ensures Valid()
      ensures (r, State()) == ParseExpr(lexer.program, old(State()))
      decreases Measure(lexer.program, State()), 3
    {
      r := Term();
      if r.Ok? {
        r := TermRest(r.value);
      }
    }

    method TermRest(left: Expression) returns (r: Outcome<Expression>)
      requires Valid()
      modifies this, lexer
      ensures Valid()
      ensures (r, State()) == ParseTermRest(lexer.program, left, old(State()))
      decreases Measure(lexer.program, State()), 2
    {
      var m := Match([Op], true);
      if m.Fail? {
        return Fail(m.failure);
      }
      if m.value.None? {
        return Ok(left);
      }
      var token := m.value.value;
      if token != Operator('+') && token != Operator('-') {
        return Fail(NotAdditive);
      }
      r := Term();
      if r.Ok? {
        r := Ok(if token == Operator('+') then Sum(left, r.value) else Difference(left, r.value));
      }
    }

    method Term() returns (r: Outcome<Expression>)
      requires Valid()
      modifies this, lexer
      ensures Valid()
      ensures (r, State()) == ParseTerm(lexer.program, old(State()))
      decreases Measure(lexer.program, State()), 2
    {
      r := Factor();
      if r.Ok? {
        r := FactorRest(r.value);
      }
    }

    method Factor() returns (r: Outcome<Expression>)
      requires Valid()
      modifies this, lexer
      ensures Valid()
      ensures (r, State()) == ParseFactor(lexer.program, old(State()))
      decreases Measure(lexer.program, State()), 1
    {
      var m := Match([Num, OpenParens], false);
      if m.Fail? {
        return Fail(m.failure);
      }
      if m.value.None? {
        // match without allow_empty never gives None.
        assert false;
        return Fail(UnexpectedToken(None));
      }
      if m.value.value.Open? {
        r := Expr();
        if r.Fail? {
          return;
        }
        var close := Match([ClosingParens], false);
        if close.Fail? {
          return Fail(close.failure);
        }
        return;
      }
      r := Ok(Const(m.value.value.value));
    }

    method FactorRest(left: Expression) returns (r: Outcome<Expression>)
      requires Valid()
      modifies this, lexer
      ensures Valid()
      ensures (r, State()) == ParseFactorRest(lexer.program, left, old(State()))
      decreases Measure(lexer.program, State()), 0
    {
      var m := Match([Op], true);
      if m.Fail? && m.failure.UnknownToken? {
        return Fail(m.failure);
      }
      if m.Fail? || m.value.None? {
        // UnexpectedToken is caught: the factor stands alone.
        return Ok(left);
      }
      var token := m.value.value;
      if token != Operator('*') && token != Operator('/') {
        Fallback(Some(token));
        return Ok(left);
      }
      r := Term();
      if r.Ok? {
        r := Ok(if token == Operator('*') then Product(left, r.value) else Difference(left, r.value));
      }
    }

    /** reset(): the lexer starts over; the slot is left as it is. */
    method Reset()
      requires Valid()
      modifies lexer
      ensures Valid() && lexer.current == 0 && !lexer.finished
    {
      lexer.Reset();
    }

    /** eval(): parse and evaluate. */
    method Eval() returns (r: Outcome<int>)
      requires Valid()
      modifies this, lexer
      ensures Valid()
      ensures (r, State()) == Calculate(lexer.program, old(State()))
    {
      var e := Expr();
      if e.Fail? {
        return Fail(e.failure);
      }
      r := Ok(Evaluate(e.value));
    }
  }
}
