/** The finite-state lexer of lexer.py: token vocabulary, a declarative
    description of the token found at a cursor (Scan), and the Lexer class
    whose state machine is proved to compute it. */
module Lexing {
  import opened Text

  datatype Kind = If | Symbol | Num | Op | OpenParens | CloseParens | OpenBraces | CloseBraces

  /** A NUM token carries an integer, or a float kept as its two digit strings. */
  datatype Lexeme = Chars(s: string) | Int(n: nat) | Float(whole: string, frac: string)

  datatype Token = Token(kind: Kind, lexeme: Lexeme)

  /** What one call of get_next_token gives: a token, None at the end of the
      input, or the UnknownToken exception with the offending slice. */
  datatype LexResult = Tok(token: Token) | End | Unknown(text: string)

  /** A number or word ending at j is finished: the input ends or a space follows. */
  predicate Ends(p: string, j: nat)
    requires j <= |p|
  {
    j == |p| || IsSpace(p[j])
  }

  /** The cursor after a finished number or word: the terminating space is consumed. */
  function After(p: string, j: nat): nat
    requires j <= |p|
  {
    if j == |p| then j else j + 1
  }

  /** The one-character arithmetic operators. */
  predicate IsArithOp(ch: char) {
    ch == '+' || ch == '-' || ch == '/' || ch == '*'
  }

  /** The characters that start a comparison operator. */
  predicate IsCompareStart(ch: char) {
    ch == '<' || ch == '>' || ch == '='
  }

  // ---------------------------------------------------------------------
  // The token found at cursor c, stated by token class.
  // ---------------------------------------------------------------------

  /** The first character of a token of the given kind. */
  predicate StartsKind(kind: Kind, ch: char) {
    match kind
    case If => IsAlpha(ch)
    case Symbol => IsAlpha(ch)
    case Num => IsDigit(ch)
    case Op => IsArithOp(ch) || IsCompareStart(ch) || ch == '!'
    case OpenParens => ch == '('
    case CloseParens => ch == ')'
    case OpenBraces => ch == '{'
    case CloseBraces => ch == '}'
  }

  /** A character some token may start with. */
  predicate StartsToken(ch: char) {
    IsDigit(ch) || IsArithOp(ch) || ch == '(' || ch == ')' || ch == '{' || ch == '}'
      || IsCompareStart(ch) || ch == '!' || IsAlpha(ch)
  }

  /** The result of get_next_token at cursor c and the cursor it leaves:
      None exactly at the end of the input; otherwise the cursor moves
      forward, a token's lexeme matches its kind, and the text of an
      UnknownToken is the input just before the new cursor. */
  function Scan(p: string, c: nat): (r: (LexResult, nat))
    requires c <= |p|
    ensures r.1 <= |p| && (r.0.End? <==> c == |p|)
    ensures c < |p| ==> c < r.1
    ensures r.0.Tok? ==> WellFormed(r.0.token)
    ensures r.0.Unknown? ==> 0 < |r.0.text| <= r.1 && r.0.text == p[r.1 - |r.0.text|..r.1]
  {
    if c == |p| then (End, c)
    else
      var s := SkipSpaces(p, c);
      // Only whitespace is left: the last character is classified on its own.
      if s == |p| then (Unknown([p[|p| - 1]]), |p|)
      else ScanAt(p, s)
  }

  /** The token starting at the non-space character s: its kind is one the
      character may start, a textual lexeme is the input at s, and a
      character that starts no token is an UnknownToken of its own. */
  function ScanAt(p: string, s: nat): (r: (LexResult, nat))
    requires s < |p|
    ensures s < r.1 <= |p| && !r.0.End?
    ensures r.0.Tok? ==> WellFormed(r.0.token) && StartsKind(r.0.token.kind, p[s])
    ensures r.0.Tok? && r.0.token.lexeme.Chars? ==>
              var w := r.0.token.lexeme.s; s + |w| <= r.1 && p[s..s + |w|] == w
    ensures r.0.Unknown? ==> r.0.text == p[s..r.1]
    ensures !StartsToken(p[s]) ==> r == (Unknown([p[s]]), s + 1)
  {
    var ch := p[s];
    if IsDigit(ch) then ScanNumber(p, s)
    else if IsArithOp(ch) then (Tok(Token(Op, Chars([ch]))), s + 1)
    else if ch == '(' then (Tok(Token(OpenParens, Chars("("))), s + 1)
    else if ch == ')' then (Tok(Token(CloseParens, Chars(")"))), s + 1)
    else if ch == '{' then (Tok(Token(OpenBraces, Chars("{"))), s + 1)
    else if ch == '}' then (Tok(Token(CloseBraces, Chars("}"))), s + 1)
    else if IsCompareStart(ch) then ScanCompare(p, s)
    else if ch == '!' then ScanBang(p, s)
    else if IsAlpha(ch) then ScanWord(p, s)
    else (Unknown([ch]), s + 1)
  }

  /** digits, or digits '.' digits, finished by a space or the end. */
  function ScanNumber(p: string, s: nat): (r: (LexResult, nat))
    requires s < |p| && IsDigit(p[s])
    ensures s < r.1 <= |p| && !r.0.End?
    ensures r.0.Tok? ==> r.0.token.kind == Num && !r.0.token.lexeme.Chars? && (r.1 == |p| || IsSpace(p[r.1 - 1]))
    ensures r.0.Unknown? ==> r.0.text == p[s..r.1]
  {
    var j := DigitRunEnd(p, s);
    if Ends(p, j) then (Tok(Token(Num, Int(DigitsValue(p[s..j])))), After(p, j))
    else if p[j] != '.' then (Unknown(p[s..j + 1]), j + 1)
    else ScanFraction(p, s, j)
  }

  /** The part of a number after its point at j: one or more digits,
      finished by a space or the end. */
  function ScanFraction(p: string, s: nat, j: nat): (r: (LexResult, nat))
    requires s < j < |p| && p[j] == '.'
    ensures j < r.1 <= |p| && !r.0.End?
    ensures r.0.Tok? ==>
              r.0.token.kind == Num && r.0.token.lexeme.Float? && r.0.token.lexeme.whole == p[s..j] &&
              |r.0.token.lexeme.frac| > 0 && AllDigits(r.0.token.lexeme.frac) && (r.1 == |p| || IsSpace(p[r.1 - 1]))
    ensures r.0.Unknown? ==> r.0.text == p[s..r.1]
  {
    if j + 1 == |p| then (Unknown(p[s..]), |p|)
    else if !IsDigit(p[j + 1]) then (Unknown(p[s..j + 2]), j + 2)
    else
      var m := DigitRunEnd(p, j + 1);
      if Ends(p, m) then (Tok(Token(Num, Float(p[s..j], p[j + 1..m]))), After(p, m))
      else (Unknown(p[s..m + 1]), m + 1)
  }

  /** A letter or underscore followed by letters, digits and underscores;
      exactly "if" is the keyword. */
  function ScanWord(p: string, s: nat): (r: (LexResult, nat))
    requires s < |p| && IsAlpha(p[s])
    ensures s < r.1 <= |p| && !r.0.End?
    ensures r.0.Tok? ==>
              var w := r.0.token.lexeme;
              w.Chars? && IsWord(w.s) && s + |w.s| <= r.1 && p[s..s + |w.s|] == w.s &&
              (r.0.token.kind == If || r.0.token.kind == Symbol) && (r.0.token.kind == If <==> w.s == "if") &&
              (r.1 == |p| || IsSpace(p[r.1 - 1]))
    ensures r.0.Unknown? ==> r.0.text == p[s..r.1]
  {
    var j := WordRunEnd(p, s);
    if Ends(p, j) then
      (Tok(if p[s..j] == "if" then Token(If, Chars("if")) else Token(Symbol, Chars(p[s..j]))), After(p, j))
    else (Unknown(p[s..j + 1]), j + 1)
  }

  /** '<', '>' or '=', optionally followed by '='. */
  function ScanCompare(p: string, s: nat): (r: (LexResult, nat))
    requires s < |p| && IsCompareStart(p[s])
    ensures s < r.1 <= s + 2 && r.1 <= |p|
    ensures r.0.Tok? && r.0.token.kind == Op
    ensures r.0.token.lexeme == Chars(if s + 1 < |p| && p[s + 1] == '=' then [p[s], '='] else [p[s]])
  {
    if s + 1 == |p| then (Tok(Token(Op, Chars([p[s]]))), |p|)
    else if IsSpace(p[s + 1]) then (Tok(Token(Op, Chars([p[s]]))), s + 2)
    else if p[s + 1] == '=' then (Tok(Token(Op, Chars([p[s], '=']))), s + 2)
    else (Tok(Token(Op, Chars([p[s]]))), s + 1)
  }

  /** '!' must be followed by '='. */
  function ScanBang(p: string, s: nat): (r: (LexResult, nat))
    requires s < |p| && p[s] == '!'
    ensures s < r.1 <= s + 2 && r.1 <= |p| && !r.0.End?
    ensures r.0.Tok? <==> s + 1 < |p| && p[s + 1] == '='
    ensures r.0.Tok? ==> r.0.token == Token(Op, Chars("!="))
    ensures r.0.Unknown? ==> r.0.text == p[s..r.1]
  {
    if s + 1 == |p| then (Unknown("!"), |p|)
    else if p[s + 1] == '=' then (Tok(Token(Op, Chars("!="))), s + 2)
    else (Unknown(p[s..s + 2]), s + 2)
  }

  /** The lexeme a token carries matches its kind: a number for NUM, text otherwise. */
  predicate WellFormed(t: Token) {
    (t.kind == Num) == !t.lexeme.Chars?
  }

  // ---------------------------------------------------------------------
  // The transition function of the state machine (handle_state1..16).
  // ---------------------------------------------------------------------

  /** States 9-13, 15 and 17 finish a token without reading further. */
  predicate IsFinal(state: int) {
    state == 9 || state == 10 || state == 11 || state == 12 || state == 13
      || state == 15 || state == 17
  }

  /** The first character of a token: the error state exactly when it
      starts no token, a number state for a digit, a word state for a letter,
      and a finishing state for a one-character operator or bracket. */
  function HandleState1(ch: char): (next: int)
    ensures next == 5 <==> !StartsToken(ch)
    ensures next == 6 <==> IsDigit(ch)
    ensures next == 2 || next == 4 <==> IsAlpha(ch)
    ensures IsFinal(next) <==> IsArithOp(ch) || ch == '(' || ch == ')' || ch == '{' || ch == '}'
  {
    if IsDigit(ch) then 6
    else if IsArithOp(ch) then 9
    else if ch == '(' then 10
    else if ch == ')' then 11
    else if ch == '{' then 12
    else if ch == '}' then 13
    else if IsCompareStart(ch) then 14
    else if ch == '!' then 16
    else if !IsAlpha(ch) then 5
    else if ch == 'i' then 2
    else 4
  }

  /** After "i": 'f' may give the keyword, other word characters a symbol. */
  function HandleState2(ch: char): (next: int)
    ensures next != 5 <==> IsAlphanumeric(ch)
    ensures next == 3 <==> ch == 'f'
  {
    if ch == 'f' then 3
    else if IsAlpha(ch) || IsDigit(ch) then 4
    else 5
  }

  /** After "if" (state 3) and inside any other word (state 4). */
  function HandleWord(ch: char): (next: int)
    ensures next == 4 || next == 5
    ensures next == 4 <==> IsAlphanumeric(ch)
  {
    if IsAlphanumeric(ch) then 4 else 5
  }

  /** Inside the integer part of a number. */
  function HandleState6(ch: char): (next: int)
    ensures next == 5 || next == 6 || next == 7
    ensures next == 6 <==> IsDigit(ch)
    ensures next == 7 <==> ch == '.'
  {
    if ch == '.' then 7 else if IsDigit(ch) then 6 else 5
  }

  /** After the decimal point (7) and inside the fraction (8): only digits. */
  function HandleFraction(ch: char): (next: int)
    ensures next == 5 || next == 8
    ensures next == 8 <==> IsDigit(ch)
  {
    if IsDigit(ch) then 8 else 5
  }

  /** After '<', '>' or '=': true (and state 15) when '=' follows. */
  predicate HandleState14(ch: char) {
    ch == '='
  }

  /** After '!': only '=' may follow. */
  function HandleState16(ch: char): (next: int)
    ensures next == 5 || next == 17
    ensures next == 17 <==> ch == '='
  {
    if ch == '=' then 17 else 5
  }

  /** The machine as one transition function. A state that get_next_token
      leaves by finishing a token (9-13, 15, 17, and 14 on anything but '=')
      and the error state 5 go to 5 here, so that Run below describes exactly
      the text the machine has accepted so far. */
  function Delta(state: int, ch: char): (next: int)
    ensures 2 <= next <= 17
    ensures state == 5 || IsFinal(state) || !(1 <= state <= 17) ==> next == 5
    ensures state == 14 ==> (next == 15 <==> ch == '=') && (next == 15 || next == 5)
  {
    if state == 1 then HandleState1(ch)
    else if state == 2 then HandleState2(ch)
    else if state == 3 || state == 4 then HandleWord(ch)
    else if state == 6 then HandleState6(ch)
    else if state == 7 || state == 8 then HandleFraction(ch)
    else if state == 14 then (if HandleState14(ch) then 15 else 5)
    else if state == 16 then HandleState16(ch)
    else 5
  }

  /** The state the machine reaches from state 1 on the characters of w. */
  ghost function Run(w: string): (state: int)
    ensures (state == 1) == (|w| == 0)
    ensures 1 <= state <= 17
  {
    if w == [] then 1 else Delta(Run(w[..|w| - 1]), w[|w| - 1])
  }

  /** A letter or underscore followed by letters, digits and underscores. */
  predicate IsWord(w: string) {
    |w| > 0 && IsAlpha(w[0]) && forall i :: 0 <= i < |w| ==> IsAlphanumeric(w[i])
  }

  /** digits '.' digits, with both digit strings non-empty. */
  predicate IsFloat(t: string) {
    var d := IndexOf(t, '.');
    0 < d && d + 1 < |t| && AllDigits(t[..d]) && AllDigits(t[d + 1..])
  }

  /** The states get_next_token returns a token from when the loop stops. */
  predicate Emits(exitState: int) {
    exitState == 2 || exitState == 3 || exitState == 4 || exitState == 6 || exitState == 8
      || (9 <= exitState <= 15) || exitState == 17
  }

  /** The token for the state the machine stopped in and the text it read. */
  function Emit(exitState: int, text: string): (r: LexResult)
    requires exitState == 6 ==> AllDigits(Strip(text))
    requires exitState == 8 ==> IsFloat(Strip(text))
    ensures !r.End?
    ensures r.Tok? ==> WellFormed(r.token)
    ensures r.Unknown? <==> !Emits(exitState)
    ensures r.Unknown? ==> r.text == text
    ensures exitState in {2, 4, 9, 14, 15, 17} ==> r.token.lexeme == Chars(Strip(text))
    ensures exitState == 8 ==> var t := Strip(text); r.token.lexeme.Float? && t == r.token.lexeme.whole + "." + r.token.lexeme.frac
  {
    if exitState == 3 then Tok(Token(If, Chars("if")))
    else if exitState == 6 then Tok(Token(Num, Int(DigitsValue(Strip(text)))))
    else if exitState == 8 then
      var t := Strip(text);
      var d := IndexOf(t, '.');
      Tok(Token(Num, Float(t[..d], t[d + 1..])))
    else if (exitState == 9 || exitState == 14 || exitState == 15 || exitState == 17) then Tok(Token(Op, Chars(Strip(text))))
    else if exitState == 10 then Tok(Token(OpenParens, Chars("(")))
    else if exitState == 11 then Tok(Token(CloseParens, Chars(")")))
    else if exitState == 12 then Tok(Token(OpenBraces, Chars("{")))
    else if exitState == 13 then Tok(Token(CloseBraces, Chars("}")))
    else if (exitState == 2 || exitState == 4) then Tok(Token(Symbol, Chars(Strip(text))))
    else Unknown(text)
  }

  /** Operator and bracket states: the text read is the operator itself. */
  lemma {:induction false} RunOperatorShape(w: string)
    ensures 1 <= Run(w) <= 17
    ensures Run(w) == 1 <==> w == []
    ensures Run(w) == 9 ==> |w| == 1 && IsArithOp(w[0])
    ensures Run(w) == 10 ==> w == "("
    ensures Run(w) == 11 ==> w == ")"
    ensures Run(w) == 12 ==> w == "{"
    ensures Run(w) == 13 ==> w == "}"
    ensures Run(w) == 14 ==> |w| == 1 && IsCompareStart(w[0])
    ensures Run(w) == 15 ==> |w| == 2 && IsCompareStart(w[0]) && w[1] == '='
    ensures Run(w) == 16 ==> w == "!"
    ensures Run(w) == 17 ==> w == "!="
    decreases |w|
  {
    if w != [] {
      var v := w[..|w| - 1];
      RunOperatorShape(v);
      assert w == v + [w[|w| - 1]];
    }
  }

  /** Word states: "i", "if", or another word. */
  lemma {:induction false} RunWordShape(w: string)
    ensures Run(w) == 2 ==> w == "i"
    ensures Run(w) == 3 ==> w == "if"
    ensures Run(w) == 4 ==> IsWord(w) && w != "i" && w != "if"
    decreases |w|
  {
    if w != [] {
      var v := w[..|w| - 1];
      RunWordShape(v);
      RunOperatorShape(v);
      assert w == v + [w[|w| - 1]];
    }
  }

  /** Number states: digits, digits '.', digits '.' digits. */
  lemma {:induction false} RunNumberShape(w: string)
    ensures Run(w) == 6 ==> |w| > 0 && AllDigits(w)
    ensures Run(w) == 7 ==> |w| > 1 && AllDigits(w[..|w| - 1]) && w[|w| - 1] == '.'
    ensures Run(w) == 8 ==> IsFloat(w)
    decreases |w|
  {
    if w != [] {
      var v, ch := w[..|w| - 1], w[|w| - 1];
      RunNumberShape(v);
      RunOperatorShape(v);
      assert w == v + [ch];
      if Run(w) == 8 {
        if Run(v) == 7 {
          PointDigit(v, ch);
        } else {
          FloatDigit(v, ch);
        }
      }
    }
  }

  /** digits '.' followed by a digit is a float. */
  lemma PointDigit(v: string, ch: char)
    requires |v| > 1 && AllDigits(v[..|v| - 1]) && v[|v| - 1] == '.' && IsDigit(ch)
    ensures IsFloat(v + [ch])
  {
    var w := v + [ch];
    IndexOfPrefix(w, |v| - 1, '.');
    assert w[..|v| - 1] == v[..|v| - 1];
  }

  /** A float followed by a digit is a float. */
  lemma FloatDigit(v: string, ch: char)
    requires IsFloat(v) && IsDigit(ch)
    ensures IsFloat(v + [ch])
  {
    var w := v + [ch];
    var d := IndexOf(v, '.');
    assert IndexOf(w, '.') == d by {
      IndexOfPrefix(w, d, '.');
      assert forall k :: 0 <= k < |v| ==> w[k] == v[k];
    }
    assert w[..d] == v[..d];
    assert w[d + 1..] == v[d + 1..] + [ch];
  }

  /** Past the leading spaces, Scan is the token starting there. */
  lemma ScanFrom(p: string, c0: nat, start: nat)
    requires c0 <= start < |p| && start == SkipSpaces(p, c0)
    ensures Scan(p, c0) == ScanAt(p, start)
  {
  }

  /** The characters p[start..e] as a prefix-aligned copy. */
  lemma SliceAt(p: string, start: nat, e: nat)
    requires start <= e <= |p|
    ensures forall m :: start <= m < e ==> p[m] == p[start..e][m - start]
  {
  }

  /** A word finished by a space or the end of the input. */
  lemma WordAccept(p: string, start: nat, e: nat, cur: nat)
    requires start < e <= cur <= |p|
    requires IsWord(p[start..e])
    requires cur == e == |p| || (cur == e + 1 && IsSpace(p[e]))
    ensures ScanWord(p, start)
            == (Tok(if p[start..e] == "if" then Token(If, Chars("if")) else Token(Symbol, Chars(p[start..e]))), cur)
  {
    SliceAt(p, start, e);
    WordRunEndAt(p, start, e);
  }

  /** A word followed by a character that is neither a word character nor a space. */
  lemma WordReject(p: string, start: nat, k: nat)
    requires start < k < |p|
    requires IsWord(p[start..k]) && !IsAlphanumeric(p[k]) && !IsSpace(p[k])
    ensures ScanWord(p, start) == (Unknown(p[start..k + 1]), k + 1)
  {
    SliceAt(p, start, k);
    WordRunEndAt(p, start, k);
  }

  /** An integer finished by a space or the end of the input. */
  lemma IntAccept(p: string, start: nat, e: nat, cur: nat)
    requires start < e <= cur <= |p|
    requires AllDigits(p[start..e])
    requires cur == e == |p| || (cur == e + 1 && IsSpace(p[e]))
    ensures ScanNumber(p, start) == (Tok(Token(Num, Int(DigitsValue(p[start..e])))), cur)
  {
    SliceAt(p, start, e);
    DigitRunEndAt(p, start, e);
  }

  /** digits '.' at e - 1: rejected whatever follows. */
  lemma PointReject(p: string, start: nat, e: nat, cur: nat)
    requires start + 1 < e <= cur <= |p|
    requires AllDigits(p[start..e - 1]) && p[e - 1] == '.'
    requires cur == e == |p| || (cur == e + 1 && !IsDigit(p[e]))
    ensures ScanNumber(p, start) == (Unknown(p[start..cur]), cur)
  {
    SliceAt(p, start, e - 1);
    DigitRunEndAt(p, start, e - 1);
    assert p[start..] == p[start..|p|];
    assert !Ends(p, e - 1);
  }

  /** A float p[start..start + d] '.' p[start + d + 1..e]. */
  lemma FloatAt(p: string, start: nat, e: nat) returns (d: nat)
    requires start < e <= |p| && IsFloat(p[start..e])
    ensures d == IndexOf(p[start..e], '.') && start + d + 1 < e
    ensures DigitRunEnd(p, start) == start + d && p[start + d] == '.' && IsDigit(p[start + d + 1])
    ensures IsDigit(p[start]) && IsDigit(p[e - 1])
    ensures forall m :: start + d + 1 <= m < e ==> IsDigit(p[m])
    ensures p[start..e][..d] == p[start..start + d] && p[start..e][d + 1..] == p[start + d + 1..e]
  {
    var w := p[start..e];
    d := IndexOf(w, '.');
    SliceAt(p, start, e);
    assert forall m :: start <= m < start + d ==> p[m] == w[..d][m - start];
    assert forall m :: start + d + 1 <= m < e ==> p[m] == w[d + 1..][m - start - d - 1];
    DigitRunEndAt(p, start, start + d);
  }

  /** A float finished by a space or the end of the input. */
  lemma FloatAccept(p: string, start: nat, j: nat, e: nat, cur: nat)
    requires start < j && j + 1 < e <= cur <= |p| && IsDigit(p[start]) && p[j] == '.'
    requires DigitRunEnd(p, start) == j
    requires forall m :: j + 1 <= m < e ==> IsDigit(p[m])
    requires cur == e == |p| || (cur == e + 1 && IsSpace(p[e]))
    ensures ScanNumber(p, start) == (Tok(Token(Num, Float(p[start..j], p[j + 1..e]))), cur)
  {
    assert ScanNumber(p, start) == ScanFraction(p, start, j);
    DigitRunEndAt(p, j + 1, e);
  }

  /** A number followed by a character outside its class. */
  lemma NumberReject(p: string, start: nat, k: nat)
    requires start < k < |p| && !IsSpace(p[k]) && !IsDigit(p[k])
    requires (AllDigits(p[start..k]) && p[k] != '.') || IsFloat(p[start..k])
    ensures ScanNumber(p, start) == (Unknown(p[start..k + 1]), k + 1)
  {
    if IsFloat(p[start..k]) {
      FloatReject(p, start, k);
    } else {
      SliceAt(p, start, k);
      DigitRunEndAt(p, start, k);
    }
  }

  lemma FloatReject(p: string, start: nat, k: nat)
    requires start < k < |p| && !IsSpace(p[k]) && !IsDigit(p[k]) && IsFloat(p[start..k])
    ensures ScanNumber(p, start) == (Unknown(p[start..k + 1]), k + 1)
  {
    var j := DigitRunEnd(p, start);
    assert start < j && j + 1 < k && p[j] == '.' && IsDigit(p[j + 1]) && DigitRunEnd(p, j + 1) == k by {
      var d := FloatAt(p, start, k);
      DigitRunEndAt(p, start + d + 1, k);
    }
    FractionReject(p, start, j, k);
  }

  /** A fraction whose digits stop at a character that is not a space. */
  lemma FractionReject(p: string, s: nat, j: nat, k: nat)
    requires s < j && j + 1 < k < |p| && p[j] == '.' && IsDigit(p[j + 1])
    requires DigitRunEnd(p, j + 1) == k && !IsSpace(p[k])
    ensures ScanFraction(p, s, j) == (Unknown(p[s..k + 1]), k + 1)
  {
  }

  /** One more character is one more transition. */
  lemma RunStep(p: string, start: nat, k: nat)
    requires start <= k < |p|
    ensures Run(p[start..k + 1]) == Delta(Run(p[start..k]), p[k])
  {
    assert p[start..k + 1][..k - start] == p[start..k];
  }

  /** RunStep, stated for the slice that ends at j. */
  lemma RunStepTo(p: string, start: nat, j: nat)
    requires start < j <= |p|
    ensures Run(p[start..j]) == Delta(Run(p[start..j - 1]), p[j - 1])
  {
    RunStep(p, start, j - 1);
  }

  /** When the machine first reaches the error state on p[k], the token
      starting at start is rejected with the slice through p[k]. */
  lemma RunReject(p: string, c0: nat, start: nat, k: nat)
    requires c0 <= start < |p| && start == SkipSpaces(p, c0)
    requires start <= k < |p|
    requires Run(p[start..k]) != 5 && Run(p[start..k]) != 14 && !IsFinal(Run(p[start..k]))
    requires Run(p[start..k + 1]) == 5
    requires k > start ==> !IsSpace(p[k])
    ensures Scan(p, c0) == (Unknown(p[start..k + 1]), k + 1)
  {
    ScanFrom(p, c0, start);
    RunStep(p, start, k);
    RunOperatorShape(p[start..k]);
    var st := Run(p[start..k]);
    if st == 1 {
      assert k == start && p[start..k + 1] == [p[k]];
      assert HandleState1(p[k]) == 5;
    } else if 2 <= st <= 4 {
      WordStateReject(p, start, k);
    } else if 6 <= st <= 8 {
      NumberStateReject(p, start, k);
    } else {
      assert st == 16 && p[start..k] == "!";
      assert p[start] == '!' && k == start + 1;
    }
  }

  /** A word followed by a character that is neither a word character nor a space. */
  lemma WordStateReject(p: string, start: nat, k: nat)
    requires start <= k < |p| && (k > start ==> !IsSpace(p[k]))
    requires 2 <= Run(p[start..k]) <= 4 && Delta(Run(p[start..k]), p[k]) == 5
    ensures ScanAt(p, start) == (Unknown(p[start..k + 1]), k + 1)
  {
    var w := p[start..k];
    RunWordShape(w);
    assert p[start] == w[0];
    WordReject(p, start, k);
  }

  /** A number, or a number and its point, followed by a character it cannot take. */
  lemma NumberStateReject(p: string, start: nat, k: nat)
    requires start <= k < |p| && (k > start ==> !IsSpace(p[k]))
    requires 6 <= Run(p[start..k]) <= 8 && Delta(Run(p[start..k]), p[k]) == 5
    ensures ScanAt(p, start) == (Unknown(p[start..k + 1]), k + 1)
  {
    var w := p[start..k];
    RunNumberShape(w);
    assert p[start] == w[0];
    if Run(w) == 7 {
      assert w[..|w| - 1] == p[start..k - 1];
      PointReject(p, start, k, k + 1);
    } else {
      NumberReject(p, start, k);
    }
  }

  /** Stopping conditions of the loop of get_next_token, for the text
      p[start..e] the machine has accepted and the cursor cur. */
  predicate Stopped(p: string, e: nat, cur: nat, st: int)
    requires e <= cur <= |p|
  {
    (!IsFinal(st) && (cur == e == |p| || (cur == e + 1 && IsSpace(p[e]))))
    || (cur == e && IsFinal(st))
    || (cur == e < |p| && st == 14 && p[e] != '=' && !IsSpace(p[e]))
  }

  lemma OperatorAccept(p: string, start: nat, e: nat, cur: nat)
    requires start < e <= cur <= |p| && Stopped(p, e, cur, Run(p[start..e]))
    requires 9 <= Run(p[start..e]) <= 17
    ensures ScanAt(p, start) == (Emit(Run(p[start..e]), p[start..cur]), cur)
  {
    RunOperatorShape(p[start..e]);
    if Run(p[start..e]) == 14 || Run(p[start..e]) == 15 {
      CompareAccept(p, start, e, cur);
    } else if Run(p[start..e]) == 16 || Run(p[start..e]) == 17 {
      BangAccept(p, start, e, cur);
    } else {
      SingleAccept(p, start, e, cur);
    }
  }

  /** The one-character operators and brackets (states 9-13). */
  lemma SingleAccept(p: string, start: nat, e: nat, cur: nat)
    requires start < e <= cur <= |p| && Stopped(p, e, cur, Run(p[start..e]))
    requires 9 <= Run(p[start..e]) <= 13
    ensures ScanAt(p, start) == (Emit(Run(p[start..e]), p[start..cur]), cur)
  {
    var w, text := p[start..e], p[start..cur];
    RunOperatorShape(w);
    assert p[start] == w[0] && cur == e == start + 1;
    StripToken(w, text);
    assert Strip(text) == [p[start]];
  }

  /** '<', '>', '=' alone (state 14) or followed by '=' (state 15). */
  lemma CompareAccept(p: string, start: nat, e: nat, cur: nat)
    requires start < e <= cur <= |p| && Stopped(p, e, cur, Run(p[start..e]))
    requires Run(p[start..e]) == 14 || Run(p[start..e]) == 15
    ensures ScanAt(p, start) == (Emit(Run(p[start..e]), p[start..cur]), cur)
  {
    var w, text := p[start..e], p[start..cur];
    RunOperatorShape(w);
    assert p[start] == w[0];
    assert text[..|w|] == w;
    StripToken(w, text);
    if Run(w) == 14 {
      assert Strip(text) == [p[start]];
    } else {
      assert e == start + 2 && p[start + 1] == w[1] == '=';
      assert Strip(text) == [p[start], '='];
    }
  }

  /** '!' alone is rejected (state 16); "!=" is an operator (state 17). */
  lemma BangAccept(p: string, start: nat, e: nat, cur: nat)
    requires start < e <= cur <= |p| && Stopped(p, e, cur, Run(p[start..e]))
    requires Run(p[start..e]) == 16 || Run(p[start..e]) == 17
    ensures ScanAt(p, start) == (Emit(Run(p[start..e]), p[start..cur]), cur)
  {
    var w := p[start..e];
    RunOperatorShape(w);
    assert p[start] == w[0] == '!';
    assert ScanAt(p, start) == ScanBang(p, start);
    if Run(w) == 17 {
      assert p[start + 1] == w[1] && p[start..cur] == w;
      StripToken(w, w);
    }
  }

  /** A number or word that ends the input or is followed by a space: the
      text read is the token and at most that space. */
  lemma TextAfter(p: string, start: nat, e: nat, cur: nat)
    requires start < e <= cur <= |p|
    requires cur == e == |p| || (cur == e + 1 && IsSpace(p[e]))
    ensures var w, text := p[start..e], p[start..cur];
      text == w || (|text| == |w| + 1 && text[..|w|] == w && IsSpace(text[|w|]))
  {
    assert p[start..cur][..e - start] == p[start..e];
  }

  /** strip() of a token's text and the space that finished it is the token. */
  lemma StripAfter(p: string, start: nat, e: nat, cur: nat)
    requires start < e <= cur <= |p| && !IsStripSpace(p[start]) && !IsStripSpace(p[e - 1])
    requires cur == e == |p| || (cur == e + 1 && IsSpace(p[e]))
    ensures Strip(p[start..cur]) == p[start..e]
  {
    var w := p[start..e];
    assert w[0] == p[start] && w[|w| - 1] == p[e - 1];
    TextAfter(p, start, e, cur);
    StripToken(w, p[start..cur]);
  }

  /** Word states 2-4: "if" is the keyword, any other word a symbol. */
  lemma WordStateAccept(p: string, start: nat, e: nat, cur: nat, st: int)
    requires start < e <= cur <= |p| && IsWord(p[start..e])
    requires cur == e == |p| || (cur == e + 1 && IsSpace(p[e]))
    requires 2 <= st <= 4 && (st == 3 <==> p[start..e] == "if")
    ensures ScanAt(p, start) == (Emit(st, p[start..cur]), cur)
  {
    var w := p[start..e];
    assert p[start] == w[0] && p[e - 1] == w[|w| - 1];
    StripAfter(p, start, e, cur);
    WordAccept(p, start, e, cur);
  }

  /** State 6: an integer. */
  lemma IntStateAccept(p: string, start: nat, e: nat, cur: nat)
    requires start < e <= cur <= |p| && AllDigits(p[start..e])
    requires cur == e == |p| || (cur == e + 1 && IsSpace(p[e]))
    ensures AllDigits(Strip(p[start..cur]))
    ensures ScanAt(p, start) == (Emit(6, p[start..cur]), cur)
  {
    var w := p[start..e];
    assert p[start] == w[0] && p[e - 1] == w[|w| - 1];
    StripAfter(p, start, e, cur);
    IntAccept(p, start, e, cur);
  }

  /** State 7: digits and a point with nothing after them are rejected. */
  lemma PointStateAccept(p: string, start: nat, e: nat, cur: nat)
    requires start + 1 < e <= cur <= |p| && AllDigits(p[start..e - 1]) && p[e - 1] == '.'
    requires cur == e == |p| || (cur == e + 1 && IsSpace(p[e]))
    ensures ScanAt(p, start) == (Emit(7, p[start..cur]), cur)
  {
    assert p[start] == p[start..e - 1][0];
    assert ScanAt(p, start) == ScanNumber(p, start);
    PointReject(p, start, e, cur);
  }

  /** State 8: a float. */
  lemma FloatStateAccept(p: string, start: nat, e: nat, cur: nat)
    requires start < e <= cur <= |p| && IsFloat(p[start..e])
    requires cur == e == |p| || (cur == e + 1 && IsSpace(p[e]))
    ensures IsFloat(Strip(p[start..cur]))
    ensures ScanAt(p, start) == (Emit(8, p[start..cur]), cur)
  {
    var w := p[start..e];
    var d := FloatScan(p, start, e, cur);
    StripAfter(p, start, e, cur);
    FloatToken(p, start, cur, w, d);
  }

  /** Scan reads the float p[start..e] as its two digit strings. */
  lemma FloatScan(p: string, start: nat, e: nat, cur: nat) returns (d: nat)
    requires start < e <= cur <= |p| && IsFloat(p[start..e])
    requires cur == e == |p| || (cur == e + 1 && IsSpace(p[e]))
    ensures d == IndexOf(p[start..e], '.') && IsDigit(p[start]) && IsDigit(p[e - 1])
    ensures ScanNumber(p, start) == (Tok(Token(Num, Float(p[start..e][..d], p[start..e][d + 1..]))), cur)
  {
    d := FloatAt(p, start, e);
    FloatAccept(p, start, start + d, e, cur);
  }

  /** Scan's float token is the one the machine emits in state 8. */
  lemma FloatToken(p: string, start: nat, cur: nat, w: string, d: nat)
    requires start < cur <= |p| && IsDigit(p[start])
    requires Strip(p[start..cur]) == w && IsFloat(w) && d == IndexOf(w, '.')
    requires ScanNumber(p, start) == (Tok(Token(Num, Float(w[..d], w[d + 1..]))), cur)
    ensures ScanAt(p, start) == (Emit(8, p[start..cur]), cur)
  {
  }

  /** Where the machine stops, the token it emits is the one Scan describes. */
  lemma RunAccept(p: string, c0: nat, start: nat, e: nat, cur: nat)
    requires c0 <= start < |p| && start == SkipSpaces(p, c0)
    requires start < e <= cur <= |p| && Stopped(p, e, cur, Run(p[start..e]))
    requires Run(p[start..e]) != 1 && Run(p[start..e]) != 5
    ensures Run(p[start..e]) == 6 ==> AllDigits(Strip(p[start..cur]))
    ensures Run(p[start..e]) == 8 ==> IsFloat(Strip(p[start..cur]))
    ensures Scan(p, c0) == (Emit(Run(p[start..e]), p[start..cur]), cur)
  {
    ScanFrom(p, c0, start);
    var w, st := p[start..e], Run(p[start..e]);
    RunOperatorShape(w);
    if 2 <= st <= 4 {
      RunWordShape(w);
      WordStateAccept(p, start, e, cur, st);
    } else if 6 <= st <= 8 {
      RunNumberShape(w);
      if st == 6 {
        IntStateAccept(p, start, e, cur);
      } else if st == 7 {
        assert w[..|w| - 1] == p[start..e - 1];
        PointStateAccept(p, start, e, cur);
      } else {
        FloatStateAccept(p, start, e, cur);
      }
    } else {
      OperatorAccept(p, start, e, cur);
    }
  }

  // ---------------------------------------------------------------------
  // The loop of get_next_token, one character at a time.
  // ---------------------------------------------------------------------

  /** The loop is about to feed p[cur - 1] to the machine, which has
      accepted p[start..cur - 1] and is in the non-final state st. */
  ghost predicate Reading(p: string, start: nat, cur: nat, st: int) {
    start < cur <= |p| && st == Run(p[start..cur - 1]) && st != 5 && !IsFinal(st)
    && (st == 1 <==> cur - 1 == start)
    && (cur - 1 > start ==> !IsSpace(p[start]) && !IsSpace(p[cur - 1]))
  }

  /** The machine reached the error state on p[e], after accepting p[start..e]. */
  ghost predicate Failing(p: string, start: nat, e: nat, cur: nat) {
    start <= e && e + 1 == cur <= |p| && Run(p[start..cur]) == 5
    && Run(p[start..e]) != 5 && Run(p[start..e]) != 14 && !IsFinal(Run(p[start..e]))
    && (e > start ==> !IsSpace(p[e]))
    && (IsSpace(p[start]) ==> e == start)
  }

  /** The machine stopped in state st after accepting p[start..e], with the cursor at cur. */
  ghost predicate Accepted(p: string, start: nat, e: nat, cur: nat, st: int) {
    start < e <= cur <= |p| && st == Run(p[start..e]) && st != 1 && st != 5
    && Stopped(p, e, cur, st) && !IsSpace(p[start])
  }

  /** One pass of the loop: feed p[cur - 1], then stop, fail or read on. */
  lemma Step(p: string, start: nat, cur: nat, st: int)
    requires Reading(p, start, cur, st) && !(st == 14 && p[cur - 1] != '=')
    ensures var next := Delta(st, p[cur - 1]);
      && (next == 5 ==> Failing(p, start, cur - 1, cur))
      && (next != 5 && IsFinal(next) ==> Accepted(p, start, cur, cur, next))
      && (next != 5 && !IsFinal(next) && cur == |p| ==> Accepted(p, start, cur, cur, next))
      && (next != 5 && !IsFinal(next) && cur < |p| && IsSpace(p[cur]) ==> Accepted(p, start, cur, cur + 1, next))
      && (next != 5 && !IsFinal(next) && cur < |p| && !IsSpace(p[cur]) ==> Reading(p, start, cur + 1, next))
  {
    RunStepTo(p, start, cur);
    RunOperatorShape(p[start..cur]);
  }

  /** In state 14 a character other than '=' ends the operator and is left unread. */
  lemma StopCompare(p: string, start: nat, cur: nat)
    requires Reading(p, start, cur, 14) && p[cur - 1] != '='
    ensures Accepted(p, start, cur - 1, cur - 1, 14)
  {
  }

  class Lexer {
    const program: string
    var current: nat
    var state: int

    /** Between calls the cursor is inside the program and the machine is at rest. */
    ghost predicate Valid()
      reads this
    {
      current <= |program| && state == 1
    }

    /** The program is stored stripped of surrounding whitespace. */
    constructor (text: string)
      ensures Valid()
      ensures program == Strip(text) && current == 0
    {
      program := Strip(text);
      current := 0;
      state := 1;
    }

    /** The character at the cursor, advancing past it; None at the end. */
    method Next() returns (ch: Option<char>)
      requires current <= |program|
      modifies this`current
      ensures old(current) < |program| ==> ch == Some(program[old(current)]) && current == old(current) + 1
      ensures old(current) == |program| ==> ch == None && current == old(current)
    {
      if current >= |program| {
        return None;
      }
      ch := Some(program[current]);
      current := current + 1;
    }

    /** Steps the cursor back by one, unless it is already at the start. */
    method Unread()
      modifies this`current
      ensures current == if old(current) > 0 then old(current) - 1 else old(current)
    {
      if current > 0 {
        current := current - 1;
      }
    }

    /** The next token, None at the end, or UnknownToken with the offending
        slice; whatever the outcome the machine is back at state 1. */
    method GetNextToken() returns (r: LexResult)
      requires Valid()
      modifies this`current, this`state
      ensures Valid()
      ensures (r, current) == Scan(program, old(current))
    {
      ghost var p, c0 := program, current;
      var first := SkipWhitespace();
      if first.None? {
        return End;
      }
      var start := first.value;
      // special: only whitespace was left, and its last character is classified.
      ghost var special := IsSpace(p[start]);
      var rejected, exitState, e := RunMachine(start);
      if rejected {
        if special {
          assert p[start..current] == [p[|p| - 1]];
        } else {
          RunReject(p, c0, start, e);
        }
        return Unknown(program[start..current]);
      }
      RunAccept(p, c0, start, e, current);
      r := Emit(exitState, program[start..current]);
    }

    /** The first loop of get_next_token: read characters while they are
        spaces. None when there is nothing left to read; otherwise the
        position of the last character read: the first non-space or, when
        only spaces are left, the last character. */
    method SkipWhitespace() returns (first: Option<nat>)
      requires current <= |program|
      modifies this`current
      ensures first.None? <==> old(current) == |program|
      ensures first.None? ==> current == old(current)
      ensures first.Some? ==> old(current) <= first.value < |program| && current == first.value + 1
      ensures first.Some? ==> SkipSpaces(program, old(current))
                                == if IsSpace(program[first.value]) then |program| else first.value
      ensures first.Some? && IsSpace(program[first.value]) ==> first.value == |program| - 1
    {
      ghost var c0 := current;
      var c := Next();
      if c.None? {
        return None;
      }
      while c.Some? && IsSpace(c.value)
        invariant c0 < current <= |program|
        invariant forall m :: c0 <= m < current - 1 ==> IsSpace(program[m])
        invariant c.Some? ==> c.value == program[current - 1]
        invariant c.None? ==> current == |program| && IsSpace(program[current - 1])
        decreases |program| - current, c.Some?
      {
        c := Next();
      }
      first := Some(current - 1);
      SkipSpacesUpTo(program, c0, if c.None? then |program| else current - 1);
    }

    /** The main loop of get_next_token: starting on the character just read
        at start, feed characters to the handlers until a token is finished
        (a final state, or the end of the program or a space after a
        non-final state) or the error state is reached. e is the end of the
        text the machine accepted. */
    method RunMachine(start: nat) returns (rejected: bool, exitState: int, ghost e: nat)
      requires start < |program| && current == start + 1 && state == 1
      modifies this`current, this`state
      ensures state == 1
      ensures rejected ==> Failing(program, start, e, current)
      ensures !rejected ==> Accepted(program, start, e, current, exitState)
    {
      e := start;
      var st := state;  // the machine state, mirrored in the field state
      var shouldContinue := true;
      while shouldContinue
        invariant start < current <= |program| && state == st
        invariant shouldContinue && st != 5 ==> Reading(program, start, current, st)
        invariant shouldContinue && st == 5 ==> Failing(program, start, e, current)
        invariant !shouldContinue ==> Accepted(program, start, e, current, st)
        decreases shouldContinue, 2 * (|program| - current) + (if st == 5 then 0 else 1)
      {
        var ch := program[current - 1];
        if st == 5 {
          state := 1;
          return true, 5, e;
        } else if st == 14 && !HandleState14(ch) {
          StopCompare(program, start, current);
          Unread();
          e := current;
          break;
        }
        Step(program, start, current, st);
        st := Delta(st, ch);
        state := st;
        e := if st == 5 then current - 1 else current;
        if IsFinal(st) {
          shouldContinue := false;
        } else if st != 5 {
          var next := Next();
          if next.None? || IsSpace(next.value) {
            shouldContinue := false;
          }
        }
      }
      rejected, exitState := false, st;
      state := 1;
    }
  }
}
