# simple-interpreter, modelled in Dafny

simple-interpreter is a small expression language written in Python. This project models its front end and proves properties of that model. The front end has two generations.

- **lexer.py** (module `Lexing`, file `lexer.dfy`) is a finite-state lexer.
  - Its `get_next_token` skips spaces, tabs and newlines. It then runs a machine of numbered states (1-17) over the characters. From the state it stops in, it emits a token: `IF`, `SYMBOL`, `NUM` (an int, or a float written as `digits.digits`), `OP` (`+ - * /`, `< > =`, `<= >= ==`, `!=`), or a parenthesis or brace. If it cannot, it raises `UnknownToken` with the slice it read.
  - `Scan` states declaratively which token is found at a cursor. The class `Lexer` keeps the program, the cursor and the machine state as fields. Its `GetNextToken` runs the loop of the source, state by state, and is proved to compute `Scan`. Lemmas connect each stopping state of the machine to `Scan`: the `Run*Shape` lemmas, `RunAccept` and `RunReject`.
- **parser.py** (module `Parsing`, file `parser.dfy`) is a recursive-descent parser over that lexer.
  - Its grammar is `S -> arith arith_rest`, `arith_rest -> '=' arith | ε`, `arith -> term term_rest`, `term -> factor factor_rest`, and `factor -> num | sym | '(' …`. It has a one-token pushback slot (`_fallback`).
  - `check_semantic` rejects an assignment whose left side is not a variable.
  - The `eval` methods of the expression classes work over a context dictionary that assignments write into.
  - The parser exists twice: as functions of a cursor (the lexer's position plus the slot), and as the class `Parser` over a `Lexer` object. Each method of the class is proved to return the same result as the matching function and to leave the same cursor.
  - `Evaluate` is the evaluation over the context, and `Env.Eval` is the same evaluation as a method on the dictionary. Evaluation is related to a pure `Value` for expressions without assignments.
- **compiler.py** (module `Compiler`, file `compiler.dfy`) is the earlier calculator.
  - Its lexer knows integers, `+ - *` and parentheses, and keeps a `finished` flag. Its parser has the grammar `expr -> term term_rest` and `factor -> num | '(' expr ')'`. The expression tree has integer `eval`, `inorder` and `postorder`.
  - The properties proved are:
    - the lexer class computes `Scan`;
    - the parser class computes the parser functions;
    - `postorder` is reverse Polish notation, and running it gives `eval`;
    - `inorder` and `postorder` list the same items;
    - parsing the `inorder` rendering of a tree the grammar builds from text without parentheses gives the tree back.
- `parser_roundtrip.dfy` (module `ParserRoundTrip`) writes out a statement of parser.py's grammar without parentheses, with one space around each operator. It proves that `S` reads the text back to the same tree and that `compile_ast` accepts it exactly when `check_semantic` does.
- `calculator_scenarios.dfy` and `parser_scenarios.dfy` work through concrete inputs, one token at a time. They cover precedence, parentheses, the single additive step of `term_rest`, rejected characters, and the behaviours noted below.

`text.dfy` (module `Text`) holds what both lexers share:
- the character classes;
- `str.strip()`;
- decimal digit strings and their values;
- the decimal rendering of a natural number.

Behaviours of the code that the model keeps as written:
- In both parsers `factor_rest` turns `/` into a `DifferenceOperation`, not a division. In parser.py, `6 / 3` compiles to a difference and evaluates to 3 (`ParserScenarios.DivisionExample`, `DivisionValue`). compiler.py's lexer has no `/` token, so that input fails with `UnknownToken` there (`CalculatorScenarios.DivisionExample`).
- `term_rest` takes at most one additive step. In `1 + 2 + 3` the parser stops after `1 + 2`: in compiler.py it evaluates to 3 and leaves the second `+` in the slot, and in parser.py `arith_rest` then meets `+` and raises `ValueError`.
- parser.py's `factor` calls a method `expr` that its `Parser` does not have, so any `(` fails (`NoExprMethod`).
- parser.py's `factor_rest` catches `UnknownToken`, the class that both `match` and the lexer raise. So a lexical error after a factor silently ends the term. compiler.py's `factor_rest` catches only `UnexpectedToken`.
- In compiler.py, a `)` that `factor_rest` meets is pushed back, but `term_rest` raises `UnexpectedToken` on it. So `(4)` fails to parse (`CalculatorScenarios.ClosingExample`).

## Model

| member | source | states |
|---|---|---|
| Text.Strip | lexer.py:30 | the stored program has no strippable whitespace at either end and is no longer than the input |
| Text.StripSlice | lexer.py:30 | strip() returns a contiguous slice of its input with only whitespace outside it |
| Text.SkipSpaces | lexer.py:146-150 | the first position at or after the cursor that is not a space, tab or newline: all before it are spaces |
| Text.DigitsValueExtend | compiler.py:69-77 | reading one more digit multiplies the value so far by 10 and adds the digit |
| Text.NatToString | compiler.py:183-187 | str() of a constant is a non-empty string of digits without a leading zero |
| Text.NatToStringRoundTrip | compiler.py:183-187 | reading back the decimal rendering of a number gives the number |
| Lexing.Scan | lexer.py:145-223 | get_next_token returns None exactly at the end of the input; otherwise it moves the cursor forward, any token has a lexeme of its kind (a number for NUM, text otherwise), and UnknownToken carries the input just before the new cursor |
| Lexing.ScanAt | lexer.py:60-83 | from the first non-space character: a token of a kind that character may start, whose textual lexeme is the input there; a character that starts no token is an UnknownToken of its own |
| Lexing.ScanNumber | lexer.py:94-115 | a number token carries a number, not text, and ends at a space (consumed) or the end; a rejected number is the slice read |
| Lexing.ScanFraction | lexer.py:103-115 | after the point, a float whose whole part is the digits before it and whose fraction is one or more digits, ending at a space or the end; otherwise UnknownToken with the slice read |
| Lexing.ScanWord | lexer.py:85-129 | a word of letters, digits and underscores read from the input, the keyword IF exactly for "if" and SYMBOL otherwise, ending at a space or the end |
| Lexing.ScanCompare | lexer.py:131-136 | '<', '>' or '=' is an OP, with '=' appended exactly when '=' follows it; at most two characters are consumed |
| Lexing.ScanBang | lexer.py:138-143 | '!' gives the OP "!=" exactly when '=' follows; otherwise UnknownToken with the slice read |
| Lexing.HandleState1 | lexer.py:60-83 | the error state exactly for a character that starts no token; state 6 exactly for a digit; a word state exactly for a letter or underscore; a finishing state exactly for a one-character operator or bracket |
| Lexing.HandleState2 | lexer.py:85-92 | after "i", any word character keeps the word going, and state 3 exactly on 'f' |
| Lexing.HandleWord | lexer.py:117-129 | in states 3 and 4, state 4 exactly on a word character, and the error state otherwise |
| Lexing.HandleState6 | lexer.py:94-101 | in the integer part, a digit stays, '.' moves to state 7, anything else is an error |
| Lexing.HandleFraction | lexer.py:103-115 | after the point, state 8 exactly on a digit, and the error state otherwise |
| Lexing.HandleState16 | lexer.py:138-143 | after '!', state 17 exactly on '=', and the error state otherwise |
| Lexing.Delta | lexer.py:154-182 | the state after one more character, always one of 2-17; from state 14, state 15 exactly on '=', and otherwise 5, as the token ends before that character; the error state and the finishing states lead only to 5 |
| Lexing.Run | lexer.py:154-186 | the machine is in state 1 exactly before any character is read, and always in one of the states 1-17 |
| Lexing.Emit | lexer.py:188-223 | the token for the exit state: UnknownToken with the slice read exactly for a state that emits nothing; SYMBOL and OP carry the stripped slice; state 8 a float whose digits are the stripped slice |
| Lexing.RunOperatorShape | lexer.py:60-143 | the machine is in state 1 only before reading; states 9-13 are one arithmetic operator or bracket; 14/15 a comparison character without or with '='; 16/17 "!" and "!=" |
| Lexing.RunWordShape | lexer.py:85-129 | states 2, 3 and 4 have read "i", "if", and any other word of letters, digits and underscores |
| Lexing.RunNumberShape | lexer.py:94-115 | states 6, 7 and 8 have read digits, digits and a point, and digits.digits |
| Lexing.RunAccept | lexer.py:188-223 | where the machine stops in an accepting state, the token it emits from the text read is the token Scan describes, and the cursor is the same |
| Lexing.RunReject | lexer.py:163-167 | when the machine first reaches error state 5 on a character, Scan is UnknownToken with the slice through that character |
| Lexing.Step | lexer.py:154-186 | one pass of the loop: feeding the next character either fails, finishes the token (final state, end of input or a space), or keeps reading |
| Lexing.StopCompare | lexer.py:174-177 | in state 14 a character other than '=' ends the operator and is un-read |
| Lexing.Lexer.constructor | lexer.py:29-32 | the program is stored stripped, the cursor at 0, the machine at state 1 |
| Lexing.Lexer.Next | lexer.py:34-39 | the character at the cursor and the cursor one further; None and no move at the end |
| Lexing.Lexer.Unread | lexer.py:41-43 | the cursor steps back by one unless it is at 0 |
| Lexing.Lexer.GetNextToken | lexer.py:145-223 | the result and the new cursor are Scan at the old cursor, and the machine is back at state 1 |
| Lexing.Lexer.SkipWhitespace | lexer.py:146-150 | None exactly at the end; otherwise the position of the first non-space (or of the last character when only spaces are left), with the cursor just past it |
| Lexing.Lexer.RunMachine | lexer.py:152-186 | the state loop ends either in the error state, having read a rejected slice, or in an accepting state with the cursor where the token ends (and a following space consumed) |
| Parsing.Evaluate | parser.py:39-109 | evaluation keeps every binding of the context and adds only names assigned to; a failure is a text constant, an assignment to a non-variable, or a variable the expression reads |
| Parsing.Value | parser.py:52-109 | without assignments, a failure is a text constant or a variable the expression reads that the context does not bind |
| Parsing.ConstValue | parser.py:97-98 | a constant evaluates to its number; it fails only for a lexeme that is text, and an int lexeme gives that int |
| Parsing.Arithmetic | parser.py:52-77 | +, - and * give an int exactly when both operands are ints |
| Parsing.Combine | parser.py:52-53 | an operator succeeds exactly when both operands do; a failing left operand decides the outcome |
| Parsing.EvaluatePure | parser.py:52-109 | evaluating an expression without assignments leaves the context unchanged and gives its pure value |
| Parsing.EvaluateAssignment | parser.py:39-42 | an assignment to a variable binds it to the value of the right side and returns that value; on failure nothing is bound |
| Parsing.EvaluateFrame | parser.py:39-42 | evaluation adds or changes no binding other than the variables it assigns |
| Parsing.ValueLocal | parser.py:106-109 | the value depends only on the variables the expression reads |
| Parsing.ValueDefined | parser.py:97-109 | evaluation succeeds exactly when every variable read is bound and every constant is a number |
| Parsing.Matched | parser.py:134-151 | match takes the token in the slot first, else the lexer's next token; a token of a requested kind is returned and empties the slot; one of another kind is put in the slot and reported by its kind; None only when empty input is allowed and the input is exhausted; a lexical error passes through |
| Parsing.ParseS | parser.py:156-158 | S consumes no more than the input and yields a statement: the arith read first, or an assignment whose left side is that arith |
| Parsing.ParseArithRest | parser.py:160-170 | arith_rest yields the arith itself only at the end of the input, or an assignment of it after '=' with an arith on the right; another operator fails with the ValueError, a token of another kind is unexpected |
| Parsing.ParseArith | parser.py:172-174 | arith yields the term read first, or a sum or difference whose left side is that term |
| Parsing.ParseTermRest | parser.py:217-233 | term_rest yields a sum after '+' and a difference after '-', with a term on the right; otherwise the term itself, at the end or with a non-additive operator put back; a token that is not an operator is unexpected |
| Parsing.ParseTerm | parser.py:176-178 | term yields the factor read first, or a product or difference whose left side is that factor |
| Parsing.ParseFactor | parser.py:180-192 | factor succeeds exactly on a NUM or SYMBOL token, which becomes a constant or a variable and is consumed; '(' fails with NoExprMethod |
| Parsing.ParseFactorRest | parser.py:194-215 | factor_rest yields a product after '*' and a difference after '/', with a term on the right; on anything else the factor itself, with no '*' or '/' left in the slot |
| Parsing.CheckSemantic | parser.py:241-247 | check_semantic fails exactly for an assignment whose left side is not a variable, with AssignmentError, and otherwise returns the tree unchanged |
| Parsing.Compile | parser.py:238-239 | compile_ast yields a statement whose assignment target is a variable, and a successful compile is exactly the parse |
| Parsing.Interpret | parser.py:249-250 | eval leaves the parser where compile_ast does, and a failed compile leaves the context untouched |
| Parsing.TermPure | parser.py:176-215 | a term contains no assignment |
| Parsing.ArithPure | parser.py:172-233 | an arith contains no assignment |
| Parsing.EvaluateStatement | parser.py:249-250 | evaluating a compiled statement either binds the target to the value of the right side, or gives the value and leaves the context unchanged |
| Parsing.Env.Eval | parser.py:39-109 | the eval methods on the context dictionary give the result and the new context of Evaluate |
| Parsing.Parser.constructor | parser.py:126-129 | the parser starts over the given lexer with an empty slot |
| Parsing.Parser.Fallback | parser.py:131-132 | the token is put in the slot |
| Parsing.Parser.Match | parser.py:134-151 | the result, the lexer's cursor and the slot afterwards are those of Matched |
| Parsing.Parser.S | parser.py:153-158 | parse() gives ParseS's result and cursor |
| Parsing.Parser.ArithRest | parser.py:160-170 | gives ParseArithRest's result and cursor |
| Parsing.Parser.Arith | parser.py:172-174 | gives ParseArith's result and cursor |
| Parsing.Parser.TermRest | parser.py:217-233 | gives ParseTermRest's result and cursor |
| Parsing.Parser.Term | parser.py:176-178 | gives ParseTerm's result and cursor |
| Parsing.Parser.Factor | parser.py:180-192 | gives ParseFactor's result and cursor |
| Parsing.Parser.FactorRest | parser.py:194-215 | gives ParseFactorRest's result and cursor |
| Parsing.Parser.CompileAst | parser.py:238-239 | gives Compile's result and cursor |
| Parsing.Parser.Eval | parser.py:249-250 | gives Interpret's result, cursor and new context |
| Compiler.Evaluate | compiler.py:110-181 | eval() of a tree without a subtraction is never negative |
| Compiler.Inorder | compiler.py:113-184 | inorder() starts and ends with a digit |
| Compiler.Postorder | compiler.py:116-187 | postorder() is as long as inorder() and starts with a digit |
| Compiler.Scan | compiler.py:60-83 | get_next_token never moves backwards or past the end; it returns None exactly when only spaces are left, and then sets finished at the end; a token moves the cursor; finished is set only at the end |
| Compiler.EndRepeats | compiler.py:46-53 | once the input is exhausted, further calls keep returning None from the same place |
| Compiler.ScanNumeral | compiler.py:69-77 | a decimal rendering of n followed by a non-digit or the end is read as one NUM token carrying n, and the cursor stops just after it |
| Compiler.ScanOperator | compiler.py:78-79 | after spaces, '+', '-' or '*' is one OP token |
| Compiler.Lexer.constructor | compiler.py:33-35 | the program is stored stripped, the cursor at 0, not finished |
| Compiler.Lexer.Reset | compiler.py:37-39 | the cursor goes back to 0 and finished is cleared |
| Compiler.Lexer.Next | compiler.py:46-53 | the character at the cursor and the cursor one further; at the end None and finished set |
| Compiler.Lexer.Unread | compiler.py:55-57 | the cursor steps back unless the input is exhausted; finished is unchanged |
| Compiler.Lexer.GetNextToken | compiler.py:60-83 | the result, the new cursor and the finished flag are Scan at the old cursor |
| Compiler.Lexer.SkipWhitespace | compiler.py:61-63 | the first character after the spaces, just read, or None with the input exhausted and finished set |
| Compiler.Lexer.ReadNumber | compiler.py:69-77 | the digit loop yields the value of the whole digit run and leaves the cursor just after it |
| Compiler.InorderRenders | compiler.py:113-114 | inorder() writes the numbers and operators of the tree in infix order, separated by single spaces |
| Compiler.PostorderRenders | compiler.py:116-117 | postorder() writes them in postfix order, separated by single spaces |
| Compiler.ReadRender | compiler.py:116-117 | splitting such a rendering at its spaces and reading each word gives the items back |
| Compiler.RunPostfix | compiler.py:110-117 | running the postfix items of a tree as reverse Polish notation pushes exactly eval() of the tree |
| Compiler.PostorderEvaluates | compiler.py:116-117 | reading postorder() as reverse Polish notation and running it on an empty stack leaves exactly eval() |
| Compiler.SameItems | compiler.py:113-117 | inorder() and postorder() list the same numbers and operators |
| Compiler.Matched | compiler.py:210-227 | match never advances past the input; a returned token is of a requested kind and empties the slot; None exactly when empty input is allowed and only spaces are left; a mismatching token is put in the slot and reported by its kind |
| Compiler.ParseExpr | compiler.py:232-234 | expr consumes no more than the input and yields the term read first, or a sum or difference whose left side is that term |
| Compiler.ParseTermRest | compiler.py:271-286 | term_rest leaves the term alone only at the end of the input; '+' gives a sum and '-' a difference with the term that follows on the right; another operator is the ValueError; a token of another kind is unexpected |
| Compiler.ParseTerm | compiler.py:236-238 | term yields the factor read first, or a product or difference whose left side is that factor |
| Compiler.ParseFactor | compiler.py:240-246 | a NUM token is a constant and is consumed; an operator or ')' is unexpected |
| Compiler.ParseFactorRest | compiler.py:248-269 | '*' gives a product and '/' a difference with the term that follows on the right; the lexer's UnknownToken passes through; any other token ends the term and is put back |
| Compiler.ParenFactor | compiler.py:240-246 | after '(', the factor succeeds exactly when the expr read next does and a ')' follows it, and then it is that expr |
| Compiler.ParenReadsBack | compiler.py:240-246 | a flat sum or difference written in parentheses is read back as one factor, through the ')' |
| Compiler.ParenTermFails | compiler.py:271-286 | a flat term written in parentheses fails: term_rest meets the pushed-back ')' and raises UnexpectedToken |
| Compiler.ParenProduct | compiler.py:236-269 | a parenthesised sum or difference times a flat term reads back as that product, and eval() multiplies the two values |
| Compiler.Calculate | compiler.py:292-294 | eval() leaves the parser where parse() does, and succeeds exactly when parse() does |
| Compiler.TermReadsBack | compiler.py:236-269 | the inorder() text of a number or a number '*' term, followed by the end or an additive operator, parses back to that term |
| Compiler.ExprReadsBack | compiler.py:229-286 | expr() over the inorder() text of a tree the grammar builds from text without parentheses returns the tree and reads all of the text |
| Compiler.InorderStripped | compiler.py:33-35 | the lexer's strip() leaves any inorder() text as it is |
| Compiler.CalculateInorder | compiler.py:292-294 | eval() over the inorder() text of a tree the grammar builds from text without parentheses gives eval() of the tree and reads all of the text |
| Compiler.Parser.constructor | compiler.py:203-205 | the parser starts over the given lexer with an empty slot |
| Compiler.Parser.Fallback | compiler.py:207-208 | the token, or None, is put in the slot |
| Compiler.Parser.Match | compiler.py:210-227 | the result, the lexer's cursor, finished flag and the slot afterwards are those of Matched |
| Compiler.Parser.Expr | compiler.py:229-234 | gives ParseExpr's result and cursor |
| Compiler.Parser.TermRest | compiler.py:271-286 | gives ParseTermRest's result and cursor |
| Compiler.Parser.Term | compiler.py:236-238 | gives ParseTerm's result and cursor |
| Compiler.Parser.Factor | compiler.py:240-246 | gives ParseFactor's result and cursor |
| Compiler.Parser.FactorRest | compiler.py:248-269 | gives ParseFactorRest's result and cursor |
| Compiler.Parser.Reset | compiler.py:289-290 | the lexer starts over: cursor 0, not finished |
| Compiler.Parser.Eval | compiler.py:292-294 | gives Calculate's result and cursor |
| CalculatorScenarios.PrecedenceExample | compiler.py:236-269 | "3 * 4 + 5" parses as (3 * 4) + 5 and evaluates to 17 |
| CalculatorScenarios.ParenthesesExample | compiler.py:240-246 | "(1 + 2) * 3" evaluates to 9 and reads the whole text |
| CalculatorScenarios.SingleStepExample | compiler.py:271-286 | "1 + 2 + 3" evaluates to 3, with the second '+' left in the slot |
| CalculatorScenarios.ClosingExample | compiler.py:271-286 | "(4)" fails with UnexpectedToken for the ')' that term_rest meets |
| CalculatorScenarios.DivisionExample | compiler.py:82-83 | "6 / 3" fails with UnknownToken("Unknow token /") |
| ParserScenarios.AssignmentExample | parser.py:249-250 | "x = 3 * 4 + 5" in an empty context gives 17 and binds x to 17 |
| ParserScenarios.NotAnAssignmentExample | parser.py:160-170 | "1 + 2 + 3" fails in arith_rest, which meets the second '+' |
| ParserScenarios.AssignmentErrorExample | parser.py:241-247 | "3 = x" parses but compile_ast fails with AssignmentError |
| ParserScenarios.DivisionExample | parser.py:207-211 | "6 / 3" compiles to a difference |
| ParserScenarios.DivisionValue | parser.py:64-65 | and that difference evaluates to 3 |
| ParserRoundTrip.FactorReadsBack | parser.py:180-192 | a written integer or variable after spaces is read as itself by factor |
| ParserRoundTrip.TermReadsBack | parser.py:176-215 | a written factor, or factor '*' term, followed by the end or " + ", " - " or " = ", is read back by term, with the operator left in the slot |
| ParserRoundTrip.ProductReadsBack | parser.py:194-215 | factor_rest reads " * " and the term after it into the product |
| ParserRoundTrip.ArithReadsBack | parser.py:172-233 | a written term, or term '+'/'-' term, is read back by arith up to the end or " = " |
| ParserRoundTrip.AssignmentReadsBack | parser.py:156-170 | arith " = " arith is read back by S as the assignment, through the end of the text |
| ParserRoundTrip.StatementReadsBack | parser.py:153-170 | S reads any written flat statement back to the same tree and stops at the end of the text |
| ParserRoundTrip.RenderStripped | lexer.py:30 | strip() leaves a written flat statement as it is |
| ParserRoundTrip.CompileParsed | parser.py:238-247 | after a successful parse, compile_ast is check_semantic of the tree |
| ParserRoundTrip.RoundTrip | parser.py:153-247 | a written flat statement is what strip() leaves, S reads it back to the same tree, and compile_ast accepts it exactly when check_semantic does |
| ParserScenarios.ParenthesesExample | parser.py:186-189 | "( 1 )" fails because factor calls a method the parser lacks |

## Left out

- interpreter.py (the REPL, reading files, the initial context with pi, e and g, and printing) is not part of this model. Console and file I/O are not modelled.
- Float values: a float constant evaluates to `Floating`, which carries no digits. Float arithmetic and the float result of `/` on ints are not modelled.
- `DivisionOperation` (parser.py:80-89, compiler.py:155-170) is never built by either parser, so it is not modelled.
- `__str__` and `__repr__` of the exception classes are not modelled; exceptions become `Failure` values.
- Python's own `AttributeError` and `TypeError` are not modelled as such. Where the code would raise one, the model gives a `Failure` value: `NoExprMethod` for the missing `expr`, `NotAVariable` for assigning to something without a variable name (which check_semantic rules out), and `NotANumber` for a constant whose lexeme is text (the lexer never makes one).
- Parsing.Parser.constructor: parser.py:129 calls `reset()`, and `reset()` (parser.py:235-236) calls a `reset` method that lexer.py's `Lexer` does not define. The constructor leaves that call out and starts from the lexer as given, and `reset` is not modelled.
- Parsing.ParseFactor: the `'('` branch calls `self.expr`, which this `Parser` lacks, so the branch is modelled as the failure `NoExprMethod`. It then never reaches its `match` of `CLOSING_PARENS`, a token type lexer.py does not have.
- The `IF` token and the braces are lexed but no parser consumes them.
- Parsing.Matched: the message of `UnknownToken` raised by `match` is the numeric token type; the model keeps the token kind instead.
- Compiler.ParseExpr: the ensures of the parser functions give the tree one level down (the first term or factor and the operator read). The whole tree for a given text is stated by the read-back lemmas for inorder() text and by the scenarios.
- Compiler.ParseTermRest: which failure the term after the operator passes on is not named by the ensures; the scenarios show it.
- Compiler.ParseFactor: the '(' branch is stated by ParenFactor, not by ParseFactor's own ensures.
- Parsing.ParseTermRest: as in compiler.py, the failure of the term after '+' or '-' is passed on unnamed; the ensures state the shapes of success and the failure of a non-operator token.
- Parsing.ParseFactorRest: a failure of the term after '*' or '/' is passed on unnamed.
- ParserRoundTrip.RoundTrip: '/' is left out of the written statements. parser.py builds a Difference for it, which is written back as a subtraction, so it does not read back as itself. Floats and text constants are left out too: only integers and variables are written.
- Compiler.ExprReadsBack: the read-back is proved only for the trees the grammar itself builds from text without parentheses. `inorder()` writes no parentheses, so other trees do not read back as themselves.
- Programs are character sequences, not the byte strings of Python 2. For input outside ASCII the error text and cursor positions differ: é is two bytes in UTF-8 (C3 A9), and lexer.py raises UnknownToken('\xc3') and moves one byte, where the model reads one character.
- Compiler.Lexer.Unread: the source also steps back from cursor 0 to -1. The model's cursor is an int, so that step is expressible, but no caller reaches it: `unread` is called only after a character has been read.
