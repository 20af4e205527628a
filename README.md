# NovaScript interpreter core in Dafny

This project models the language pipeline of NovaScript, a small scripting language implemented in `novascriptx/interpreter.py`:

- **Lexer.** Turns source text into a token stream tagged with line numbers.
- **Parser.** A recursive-descent parser that turns the tokens into statement and expression nodes.
- **Executor.** A tree walker over a global scope, an optional local scope for the active call and an output sink.
- **`run_code`.** Composes the three stages on a fresh executor and converts selected exception kinds to `RuntimeError`.

Each of the three classes of the interpreter has two parts:

- **Specification.** Pure functions describe what the class computes. `Lex` and `ScanFrom` cover the lexer, `ParseStatement` through `ParsePrimary` the parser, and `Eval` and `ExecStmt` the executor.
- **Imperative class.** `Lexing.Lexer`, `ParserClass.Parser` and `ExecutorClass.Executor` keep the same mutable fields as the interpreter. Their methods are loops and in-place updates. Each method is proved to leave exactly the result and state the specification function gives.

The properties of the language are lemmas about the specification functions:

| kind | lemmas |
|---|---|
| round trips | tokens rendered as text lex back to themselves; printed expressions parse back to themselves |
| invariants | the output only grows; a call restores the caller's local scope |
| fuel | more fuel never changes a finished result |
| scope rules | lookup, declaration, assignment and function lookup |
| control flow | `if`, loops, `return` inside loops |
| values | truthiness, floor division, string order and the `require()` checks |

Modelling choices:

- **Host.** What the interpreter gets from outside is a `Values.Host` parameter:
  - loading a standard-library module;
  - calling one of its native functions;
  - Python's `str()` of a float;
  - `str()` of a dict or a function object.
- **Fuel.** Python's own recursion limit is replaced by a fuel argument. Each loop iteration and each user-function call spends one unit, and running out gives a distinct outcome (`Exhausted`, `OutOfFuel`).
- **Error messages.** They are those of the interpreter's own `raise` statements. Python's own exceptions (`TypeError` of `+`, `ZeroDivisionError`, the `UnboundLocalError` of `tokenize()`) use CPython 3.11 phrasing.

Modules:

| module | file | contents |
|---|---|---|
| `Wrappers` | `wrappers.dfy` | `Option`, `Result` |
| `Errors` | `errors.dfy` | exception kinds and which ones `run_code` converts |
| `Decimal` | `decimal.dfy` | `int()` of digit text and `str()` of an int |
| `Tokens` | `tokens.dfy` | token kinds, keyword table |
| `Lexing` | `lexer.dfy` | lexer functions and class `Lexer` |
| `LexerProperties` | `lexer_props.dfy` | token-stream shape, error cases, render/lex round trip |
| `Syntax` | `ast.dfy` | statement and expression nodes |
| `Parsing` | `parser.dfy` | parser functions |
| `ParserClass` | `parser_class.dfy` | class `Parser` |
| `ParserProperties` | `parser_props.dfy` | print/parse round trip for expressions (precedence, associativity) |
| `StatementParsing` | `parser_statements.dfy` | blocks, `else`, `return`, number literals, concrete precedence cases |
| `Values` | `values.dfy` | runtime values, truthiness, `to_string`, operators, `builtin_require` |
| `ValueProperties` | `values_props.dfy` | properties of the above |
| `Semantics` | `semantics.dfy` | executor state and the evaluation functions |
| `ExecutorClass` | `executor.dfy` | class `Executor` |
| `ExecutorProperties` | `executor_props.dfy` | properties of the executor |
| `Running` | `run.dfy` | `run_code` |
| `SamplePrograms` | `sample_programs.dfy` | small programs run on the semantics |

## Model

| member | source | states |
|---|---|---|
| Tokens.WordKind | novascriptx/interpreter.py:48-60 | a word gets a keyword kind exactly when it is in the keyword table, and then the table's kind; otherwise IDENTIFIER |
| Tokens.AndOrAreIdentifiers | novascriptx/interpreter.py:48-60 | `and` and `or` are not keywords; they lex as IDENTIFIER |
| Decimal.NatToString | novascriptx/interpreter.py:951 | `str()` of a natural number is a non-empty digit string without a leading zero |
| Decimal.IntToString | novascriptx/interpreter.py:951 | `str()` of a non-negative int is a digit string that reads back as the int; of a negative int, `-` followed by the digits of its magnitude; never a leading zero |
| Decimal.DigitsValueOfNatToString | novascriptx/interpreter.py:558 | `int()` of the decimal text of n is n |
| Decimal.NatToStringInjective | novascriptx/interpreter.py:951 | different naturals have different decimal texts |
| Lexing.StepTracks | novascriptx/interpreter.py:79-87 | after a consumed character, moving one position and counting it when it is a newline, the line counter is still one more than the number of newlines before the position |
| Lexing.SkipBlanks | novascriptx/interpreter.py:89-92 | skipping blanks stops at the first character other than space, tab, newline or carriage return (or at the end), having passed only blanks |
| Lexing.SkipToNewline | novascriptx/interpreter.py:97-98 | the comment loop stops at the first newline or the end, passing no newline |
| Lexing.SkipComment | novascriptx/interpreter.py:94-100 | a comment is consumed up to and including its first newline, or to the end of the source when there is none; no newline lies inside it, and the line counter goes up by one exactly when a newline ends it |
| Lexing.StringBody | novascriptx/interpreter.py:106-126 | a successful string body moves forward and ends just after a closing quote character |
| Lexing.ScanString | novascriptx/interpreter.py:102-126 | a successful string literal consumes at least its two quotes |
| Lexing.NumberEnd | novascriptx/interpreter.py:128-133 | reading a number takes the longest run of digits and dots |
| Lexing.WordEnd | novascriptx/interpreter.py:135-140 | reading an identifier takes the longest run of letters, digits and underscores |
| Lexing.ScanToken | novascriptx/interpreter.py:155-246 | each token consumes at least one character, is never EOF and is tagged with the line on which it starts |
| Lexing.ScanFromAtEnd | novascriptx/interpreter.py:144-249 | one-step unfolding of the token-loop function: when only blanks remain, the scan is the EOF token |
| Lexing.ScanFromComment | novascriptx/interpreter.py:150-153 | one-step unfolding of the token-loop function: at a `#` after the blanks, the scan is the scan from after the comment |
| Lexing.ScanFromToken | novascriptx/interpreter.py:155-246 | one-step unfolding of the token-loop function: a scanned token is followed by the scan from after it; a failing token fails the whole scan |
| Lexing.ScanFromStep | novascriptx/interpreter.py:144-246 | one-step unfolding of the token-loop function: blanks, then one token, then the scan of the rest |
| Lexing.Lexer.constructor | novascriptx/interpreter.py:62-66 | a new lexer is at position 0, line 1, with no tokens |
| Lexing.Lexer.Advance | novascriptx/interpreter.py:72-87 | returns the character `peek()` shows and moves by one step, counting a newline; does nothing at the end |
| Lexing.Lexer.SkipWhitespace | novascriptx/interpreter.py:89-92 | the loop ends where the blank-skipping function says |
| Lexing.Lexer.SkipCommentIfAny | novascriptx/interpreter.py:94-100 | at a `#` the cursor ends where the comment function says; elsewhere nothing moves |
| Lexing.Lexer.ReadString | novascriptx/interpreter.py:102-126 | the decoded text, the final cursor and the error are those of the string function |
| Lexing.Lexer.ReadNumber | novascriptx/interpreter.py:128-133 | returns the text of the longest digit-and-dot run and stops after it |
| Lexing.Lexer.ReadIdentifier | novascriptx/interpreter.py:135-140 | returns the text of the longest identifier-character run and stops after it |
| Lexing.Lexer.ReadToken | novascriptx/interpreter.py:155-246 | the token, the cursor and the error are those of the token function, and the token is appended to the list |
| Lexing.Lexer.Tokenize | novascriptx/interpreter.py:142-249 | the result is the lexer function's result on the whole source |
| LexerProperties.LexShape | novascriptx/interpreter.py:142-249 | a successful scan ends with exactly one EOF token, which has empty text and the line of the last real token; there is at least one real token; lines start at 1 and never decrease |
| LexerProperties.ScanFromShape | novascriptx/interpreter.py:142-249 | the inductive form of the token-stream shape, from any cursor |
| LexerProperties.LexNumbers | novascriptx/interpreter.py:128-166 | every NUMBER token is a digit followed by digits and dots |
| LexerProperties.ScanTokenNumber | novascriptx/interpreter.py:164-166 | only the number branch yields NUMBER, and its text starts with a digit |
| LexerProperties.BlankSourceFails | novascriptx/interpreter.py:142-249 | text made only of blanks (the empty text included) fails with the `UnboundLocalError` of the never-assigned `line` |
| LexerProperties.CommentOnlySourceFails | novascriptx/interpreter.py:142-249 | a text that is a single comment fails in the same way |
| LexerProperties.CommentProducesNoToken | novascriptx/interpreter.py:150-153 | a comment and its newline produce no token; scanning resumes on the next line |
| LexerProperties.UnterminatedStringLine | novascriptx/interpreter.py:106-124 | an open string literal that reaches the end fails with "Unterminated string" and the line reached there |
| LexerProperties.TrailingBackslash | novascriptx/interpreter.py:107-119 | a backslash as the last character of an open literal is a TypeError, because the escaped character is None |
| LexerProperties.UnexpectedCharacter | novascriptx/interpreter.py:245-246 | a character that starts no token fails with "Lexer error at line N: Unexpected character:" and its repr (in quotes, with `\t`, `\n`, `\r`, `\\` and `\xhh` escapes below U+0100), at the current line |
| LexerProperties.TwoCharacterOperators | novascriptx/interpreter.py:190-217 | `=`, `!`, `<` and `>` followed by `=` give the two-character token; otherwise the one-character one |
| LexerProperties.EscapeCharDecodes | novascriptx/interpreter.py:107-119 | each escape decodes to its character: `\n`, `\t`, `\r` and `\\` are translated, and any other escaped character is kept as itself |
| LexerProperties.StringLiteralDecodes | novascriptx/interpreter.py:102-126 | the body of a rendered string literal decodes to its text and ends after the closing quote |
| LexerProperties.StringBodyOfEscape | novascriptx/interpreter.py:106-122 | the inductive form of the decoding, one escaped character at a time |
| LexerProperties.ScanStringOfRendered | novascriptx/interpreter.py:102-126 | a rendered string literal reads back as its text |
| LexerProperties.ScanRenderedToken | novascriptx/interpreter.py:155-246 | every token the lexer can produce, written out and followed by a blank, scans back to itself |
| LexerProperties.ScanRender | novascriptx/interpreter.py:142-249 | the inductive form of the round trip, from any cursor |
| LexerProperties.LexRender | novascriptx/interpreter.py:142-249 | lexing a rendering of producible tokens with non-decreasing lines gives exactly those tokens with their lines, then EOF |
| LexerProperties.NewlineCountConcat | novascriptx/interpreter.py:83-84 | the newlines of a concatenation add up |
| Parsing.Advance | novascriptx/interpreter.py:281-286 | advancing moves one token except at EOF, which is never passed |
| Parsing.Expect | novascriptx/interpreter.py:288-293 | succeeds exactly on a token of the expected kind and returns it, moving past it (except at EOF); otherwise a SyntaxError "Parser error at line N: Expected X, got Y" with the current token's line |
| Parsing.DotIndex | novascriptx/interpreter.py:558 | finds the first `.` of a text, or reports that there is none |
| Parsing.NumberLiteral | novascriptx/interpreter.py:556-559 | a NUMBER without `.` is the int literal of its digits; with a `.` it is a float literal; it fails exactly when the text holds two dots, and then with the ValueError "could not convert string to float: '...'" |
| Parsing.ParseExpression | novascriptx/interpreter.py:469-471 | a parsed expression consumes at least one token and never passes EOF |
| Parsing.ParseLevel | novascriptx/interpreter.py:473-537 | each binary precedence level consumes at least one token |
| Parsing.ParseLevelRest | novascriptx/interpreter.py:473-537 | the left-associative operator loop of a level only moves forward |
| Parsing.ParseOperand | novascriptx/interpreter.py:473-537 | the operand of a level consumes at least one token |
| Parsing.ParseUnary | novascriptx/interpreter.py:539-550 | a unary expression consumes at least one token |
| Parsing.ParsePrimary | novascriptx/interpreter.py:552-618 | a primary consumes at least one token |
| Parsing.ParseNamed | novascriptx/interpreter.py:573-609 | a name, call or member chain consumes at least the name |
| Parsing.ParseMembers | novascriptx/interpreter.py:577-595 | the member loop only moves forward |
| Parsing.ParseMember | novascriptx/interpreter.py:578-595 | one member step consumes at least the `.` |
| Parsing.ParseArgList | novascriptx/interpreter.py:599-606 | an argument list consumes its parentheses |
| Parsing.ParseArgs | novascriptx/interpreter.py:582-607 | the argument loop stops at the `)` |
| Parsing.SkipComma | novascriptx/interpreter.py:342-346 | a comma moves the position one token on; any other token leaves it where it was |
| Parsing.ParseStatement | novascriptx/interpreter.py:304-325 | each statement consumes at least one token and never passes EOF |
| Parsing.ParseVarDecl | novascriptx/interpreter.py:327-333 | a `var` declaration moves forward |
| Parsing.ParseParams | novascriptx/interpreter.py:342-346 | the parameter loop stops at the `)` |
| Parsing.ParseFunctionDecl | novascriptx/interpreter.py:335-354 | a function declaration moves forward |
| Parsing.ParseBlock | novascriptx/interpreter.py:356-374 | a block consumes at least one token |
| Parsing.ParseBlockRest | novascriptx/interpreter.py:363-366 | the statement loop of a brace block stops at a `}` |
| Parsing.ParsePrint | novascriptx/interpreter.py:376-382 | a print statement moves forward |
| Parsing.ParseCondition | novascriptx/interpreter.py:386-390 | the `(condition):` header moves forward |
| Parsing.CloseCondition | novascriptx/interpreter.py:389-390 | finishing the header consumes `)` and `:` |
| Parsing.ParseIf | novascriptx/interpreter.py:384-400 | an `if` statement moves forward |
| Parsing.ParseElse | novascriptx/interpreter.py:394-398 | the optional else part never moves back |
| Parsing.ParseWhile | novascriptx/interpreter.py:402-412 | a `while` statement moves forward |
| Parsing.ParseForInit | novascriptx/interpreter.py:420-422 | the optional init clause is a `var` declaration when present |
| Parsing.ParseForHeader | novascriptx/interpreter.py:420-429 | the init and condition clauses move forward, and the init is a declaration |
| Parsing.ParseFor | novascriptx/interpreter.py:414-445 | a `for` statement moves forward |
| Parsing.ParseClosedBlock | novascriptx/interpreter.py:348-352 | the `):` block moves forward |
| Parsing.ParseReturn | novascriptx/interpreter.py:447-456 | a `return` statement moves forward |
| Parsing.ParseAssignmentOrCall | novascriptx/interpreter.py:458-467 | an assignment or expression statement moves forward |
| ParserClass.Parser.constructor | novascriptx/interpreter.py:259-261 | a new parser is at position 0 of the tokens |
| ParserClass.Parser.PeekToken | novascriptx/interpreter.py:274-279 | the token `offset` ahead, or EOF beyond the end |
| ParserClass.Parser.Advance | novascriptx/interpreter.py:281-286 | returns the current token and moves as the advance function says |
| ParserClass.Parser.Expect | novascriptx/interpreter.py:268-293 | result and final position are those of the expect function, reading the token `current_token()` gives; a failure leaves the position where it was |
| ParserClass.Parser.Parse | novascriptx/interpreter.py:295-302 | the statements are those the statement-loop function gives |
| ParserClass.Parser.ParseStatement | novascriptx/interpreter.py:304-325 | result and final position are those of the statement function |
| ParserClass.Parser.ParseVarDecl | novascriptx/interpreter.py:327-333 | same, for `var` declarations |
| ParserClass.Parser.ParseFunctionDecl | novascriptx/interpreter.py:335-354 | same, for function declarations |
| ParserClass.Parser.ParseParams | novascriptx/interpreter.py:342-346 | same, for the parameter loop |
| ParserClass.Parser.ParseClosedBlock | novascriptx/interpreter.py:348-352 | same, for the `):` block |
| ParserClass.Parser.ParseBlock | novascriptx/interpreter.py:356-374 | same, for blocks |
| ParserClass.Parser.ParsePrint | novascriptx/interpreter.py:376-382 | same, for print statements |
| ParserClass.Parser.ParseCondition | novascriptx/interpreter.py:386-390 | same, for the condition header |
| ParserClass.Parser.ParseIf | novascriptx/interpreter.py:384-400 | same, for `if` |
| ParserClass.Parser.ParseElse | novascriptx/interpreter.py:394-398 | same, for the else part |
| ParserClass.Parser.ParseWhile | novascriptx/interpreter.py:402-412 | same, for `while` |
| ParserClass.Parser.ParseFor | novascriptx/interpreter.py:414-445 | same, for `for` |
| ParserClass.Parser.ParseForHeader | novascriptx/interpreter.py:420-429 | same, for the init and condition clauses |
| ParserClass.Parser.ParseReturn | novascriptx/interpreter.py:447-456 | same, for `return` |
| ParserClass.Parser.ParseAssignmentOrCall | novascriptx/interpreter.py:458-467 | same, for assignments and expression statements |
| ParserClass.Parser.ParseExpression | novascriptx/interpreter.py:469-471 | same, for expressions |
| ParserClass.Parser.ParseLevel | novascriptx/interpreter.py:473-537 | same, for each binary precedence level and its loop |
| ParserClass.Parser.ParseUnary | novascriptx/interpreter.py:539-550 | same, for unary expressions |
| ParserClass.Parser.ParseArgList | novascriptx/interpreter.py:599-606 | same, for argument lists |
| ParserClass.Parser.ParsePrimary | novascriptx/interpreter.py:552-618 | same, for primaries |
| ParserClass.Parser.ParseNamed | novascriptx/interpreter.py:573-609 | same, for names, calls and member chains |
| ParserClass.Parser.ParseMembers | novascriptx/interpreter.py:577-595 | same, for the member loop |
| ParserClass.Parser.ParseMember | novascriptx/interpreter.py:578-595 | same, for one member step |
| ParserProperties.ExpressionRoundTrip | novascriptx/interpreter.py:469-618 | every expression with a token form, printed with parentheses only where precedence needs them and followed by EOF, parses back to itself and consumes exactly its tokens; this is left associativity and the precedence or < and < equality < comparison < additive < multiplicative < unary < primary |
| ParserProperties.PrintedTokens | novascriptx/interpreter.py:259-302 | a printed expression followed by EOF meets the parser's precondition on token lists (EOF last, every NUMBER text a digit followed by digits and dots), with the expression laid out up to the EOF |
| ParserProperties.ExprPrinted | novascriptx/interpreter.py:469-471 | an expression laid out in a token list, followed by a token that cannot continue it, is read back exactly |
| ParserProperties.LevelPrinted | novascriptx/interpreter.py:473-537 | a level reads an expression binding at least as tightly as itself, then goes on with its own operators |
| ParserProperties.BinaryPrinted | novascriptx/interpreter.py:473-537 | the level of an operator reads a laid-out binary expression with both operands |
| ParserProperties.Climb | novascriptx/interpreter.py:473-537 | once a tighter level has read an expression, every looser level reads the same expression |
| ParserProperties.UnaryPrinted | novascriptx/interpreter.py:539-550 | the unary parser reads a laid-out unary expression or primary |
| ParserProperties.PrimaryPrinted | novascriptx/interpreter.py:552-618 | the primary parser reads a laid-out literal, name, call or member chain |
| ParserProperties.ParenPrinted | novascriptx/interpreter.py:611-615 | a parenthesised expression is read as the expression inside |
| ParserProperties.ArgListPrinted | novascriptx/interpreter.py:582-607 | a comma-separated argument list is read back argument by argument |
| ParserProperties.MembersPrinted | novascriptx/interpreter.py:577-595 | a member chain is read one member at a time from the name it starts with |
| ParserProperties.NumberOfNat | novascriptx/interpreter.py:556-559 | the decimal text of a natural number reads back as that int literal |
| ParserProperties.OpTokenLevel | novascriptx/interpreter.py:473-537 | each binary operator's token is recognised at the operator's own level |
| StatementParsing.SingleStatementBlock | novascriptx/interpreter.py:368-372 | a block not opened by `{` is exactly one statement, with that statement's error if it fails |
| StatementParsing.BraceBlock | novascriptx/interpreter.py:361-367 | a brace block is the statement loop's statements, ending just after a `}` |
| StatementParsing.BlockStopsAtBrace | novascriptx/interpreter.py:363 | the statement loop of a brace block stops at `}` |
| StatementParsing.ElseIsOptional | novascriptx/interpreter.py:394-398 | without `else` the else branch is empty and nothing is consumed; with it, `else` and `:` come before the block; a non-empty else branch needs `else` |
| StatementParsing.ReturnValue | novascriptx/interpreter.py:447-456 | `return` has no value exactly when EOF or `}` follows it; otherwise its value is the following expression |
| StatementParsing.NumberKinds | novascriptx/interpreter.py:558 | a NUMBER becomes an int literal exactly when its text has no `.` |
| StatementParsing.MultiplicationBindsTighter | tests_novascriptx.py:124-133 | `2 + 3 * 4` parses as `2 + (3 * 4)` |
| StatementParsing.SubtractionIsLeftAssociative | novascriptx/interpreter.py:517-526 | `1 - 2 - 3` parses as `(1 - 2) - 3` |
| Values.Lookup | novascriptx/interpreter.py:739-769 | a key is found exactly when some entry has it, and the value found belongs to such an entry |
| Values.Repeat | novascriptx/interpreter.py:796 | a string repeated n times is n times as long, and empty for n <= 0 |
| ValueProperties.FalsyValues | novascriptx/interpreter.py:937-943 | the false values are exactly None, False, 0, 0.0 and "" |
| ValueProperties.LogicalOperators | novascriptx/interpreter.py:815-832 | `!` negates truthiness; `and` always gives a bool, true exactly when both operands are truthy; `or` gives a truthy result exactly when an operand is truthy, and that result is the left operand when it is truthy, else the right one, unconverted |
| ValueProperties.BoolsAreInts | novascriptx/interpreter.py:789-804 | examples: `True + True` is 2, and `True == 1 == 1.0`; 0.0 is falsy and an empty dict truthy |
| ValueProperties.BoolEqualsItsInt | novascriptx/interpreter.py:803-806 | for every bool b and value v, b equals its int 0 or 1, and compares equal to v exactly when that int does, on either side; its truthiness is that int's |
| ValueProperties.BoolOperandIsItsInt | novascriptx/interpreter.py:789-818 | for every bool, operator other than `or`, and number on the other side, either side: the result is that of the int 0 or 1 |
| ValueProperties.BoolSum | novascriptx/interpreter.py:789-792 | `+` of a bool and a number, either side, is `+` of its int |
| ValueProperties.BoolDifference | novascriptx/interpreter.py:793-794 | `-` of a bool and a number, either side, is `-` of its int |
| ValueProperties.BoolProduct | novascriptx/interpreter.py:795-796 | `*` of a bool and a number, either side, is `*` of its int |
| ValueProperties.BoolQuotient | novascriptx/interpreter.py:797-800 | `/` of a bool and a number, either side, is `/` of its int, zero division included |
| ValueProperties.BoolRemainder | novascriptx/interpreter.py:801-802 | `%` of a bool and a number, either side, is `%` of its int, zero division included |
| ValueProperties.BoolComparison | novascriptx/interpreter.py:807-814 | `<`, `>`, `<=`, `>=` of a bool and a number, either side, compare its int |
| ValueProperties.BoolCountIsItsInt | novascriptx/interpreter.py:795-796 | a bool repeats a string, on either side, as its int does |
| ValueProperties.BoolConcatenatesAsWord | novascriptx/interpreter.py:789-791 | string `+` is where a bool differs from its int: `to_string` writes `true` where the int gives `1` |
| ValueProperties.FloorDivision | novascriptx/interpreter.py:798-802 | int `/` rounds toward negative infinity; `%` is the matching remainder, with the divisor's sign and smaller than it |
| ValueProperties.DivisionOfInts | novascriptx/interpreter.py:797-802 | int `/` by zero is "integer division or modulo by zero"; otherwise it is floor division and `%` the floor remainder |
| ValueProperties.FloorDivisionExamples | novascriptx/interpreter.py:798-802 | -7 / 2 is -4, -7 % 2 is 1, 7 / -2 is -4, 7 % -2 is -1 |
| ValueProperties.StrLessIrreflexive | novascriptx/interpreter.py:807-814 | no string is less than itself |
| ValueProperties.StrLessTrans | novascriptx/interpreter.py:807-814 | string order is transitive |
| ValueProperties.StrLessTotal | novascriptx/interpreter.py:807-814 | any two strings are equal or ordered one way |
| ValueProperties.StrLessAsymmetric | novascriptx/interpreter.py:807-814 | string order is asymmetric |
| ValueProperties.StringComparison | novascriptx/interpreter.py:803-814 | on strings exactly one of `<`, `==` and `>` holds, and `<=` is `<` or `==` |
| ValueProperties.RepeatAdd | novascriptx/interpreter.py:796 | a string repeated m + n times is its m-fold repetition followed by its n-fold one |
| ValueProperties.StringRepetition | novascriptx/interpreter.py:795-796 | a string repeats from either side, only by an int or bool count, and otherwise fails with the repetition TypeError |
| ValueProperties.PlusConcatenates | novascriptx/interpreter.py:789-791 | `+` with a string on either side concatenates the `to_string` texts of both operands |
| ValueProperties.DisplayText | novascriptx/interpreter.py:945-951 | `to_string` gives true, false and null, a string as itself, and an int as decimal text that reads back as the int |
| ValueProperties.RequireSucceeds | novascriptx/interpreter.py:896-932 | `require()` yields a module exactly when given one string that names a known module the host loads, and then it is that module |
| ValueProperties.RequireFails | novascriptx/interpreter.py:896-935 | a bad argument count or type is a TypeError; an unknown name, or any ImportError while loading, is a ModuleNotFoundError; other host errors pass unchanged |
| ExecutorClass.Executor.constructor | novascriptx/interpreter.py:634-639 | a new executor has empty globals, no local scope and no output |
| ExecutorClass.Executor.StoreInScope | novascriptx/interpreter.py:641-662 | a store into the scope `get_scope()` names, the local one inside a call and the global one outside, as a declaration |
| ExecutorClass.Executor.Execute | novascriptx/interpreter.py:645-650 | completion and new state are those of running the statement list from the old state |
| ExecutorClass.Executor.ExecuteStatement | novascriptx/interpreter.py:652-720 | completion and new state are those of the statement semantics |
| ExecutorClass.Executor.ExecuteWhile | novascriptx/interpreter.py:675-680 | the loop ends with the completion and state of the while semantics |
| ExecutorClass.Executor.ExecuteFor | novascriptx/interpreter.py:688-695 | the loop ends with the completion and state of the for semantics |
| ExecutorClass.Executor.EvaluateExpression | novascriptx/interpreter.py:722-781 | value or error, and new state, are those of expression evaluation |
| ExecutorClass.Executor.EvaluateBinaryOp | novascriptx/interpreter.py:783-820 | same, for binary operators: both operands first, then the operator |
| ExecutorClass.Executor.EvaluateUnaryOp | novascriptx/interpreter.py:822-832 | same, for unary operators |
| ExecutorClass.Executor.EvaluateArgs | novascriptx/interpreter.py:834-837 | the arguments are evaluated in order; the first failure stops the list |
| ExecutorClass.Executor.EvaluateCall | novascriptx/interpreter.py:834-876 | same, for calls, including parameter binding and restoring the caller's local scope |
| ExecutorProperties.EvalGrows | novascriptx/interpreter.py:722-781 | evaluation only appends to the output, never removes a global or local name and never opens or closes the local scope |
| ExecutorProperties.EvalBinaryGrows | novascriptx/interpreter.py:783-820 | the same for binary operators |
| ExecutorProperties.EvalArgsGrows | novascriptx/interpreter.py:837 | the same for argument lists |
| ExecutorProperties.EvalCallGrows | novascriptx/interpreter.py:834-876 | the same for calls |
| ExecutorProperties.ExecStmtGrows | novascriptx/interpreter.py:652-720 | the same for statements |
| ExecutorProperties.ExecBlockGrows | novascriptx/interpreter.py:645-650 | the same for statement lists |
| ExecutorProperties.ExecWhileGrows | novascriptx/interpreter.py:675-680 | the same for while loops |
| ExecutorProperties.ExecForGrows | novascriptx/interpreter.py:688-695 | the same for for loops |
| ExecutorProperties.GrowsTrans | novascriptx/interpreter.py:645-650 | the growth relation is transitive |
| ExecutorProperties.DeclareGrows | novascriptx/interpreter.py:656-715 | declaring and assigning only add or update names |
| ExecutorProperties.EvalKeepsLocals | novascriptx/interpreter.py:859-874 | after any expression, a call included, the local scope is what it was before, on every exit path |
| ExecutorProperties.EvalArgsKeepLocals | novascriptx/interpreter.py:837 | the same for argument lists |
| ExecutorProperties.ExecBlockAppend | novascriptx/interpreter.py:645-650 | running two statement lists in a row is running the first and, if it completes, the second after it |
| ExecutorProperties.ExecBlockValue | novascriptx/interpreter.py:645-720 | a statement list whose last statement is not an expression statement has no value |
| ExecutorProperties.NonExpressionValue | novascriptx/interpreter.py:717-720 | only an expression statement has a value |
| ExecutorProperties.WhileValue | novascriptx/interpreter.py:675-680 | a while loop that completes has no value |
| ExecutorProperties.ForValue | novascriptx/interpreter.py:682-695 | a for loop that completes has no value |
| ExecutorProperties.EvalFuel | novascriptx/interpreter.py:722-781 | an evaluation that finishes with some fuel finishes the same way with more |
| ExecutorProperties.EvalBinaryFuel | novascriptx/interpreter.py:783-820 | the same for binary operators |
| ExecutorProperties.EvalArgsFuel | novascriptx/interpreter.py:837 | the same for argument lists |
| ExecutorProperties.EvalCallFuel | novascriptx/interpreter.py:834-876 | the same for calls |
| ExecutorProperties.ExecBlockFuel | novascriptx/interpreter.py:645-650 | the same for statement lists |
| ExecutorProperties.ExecStmtFuel | novascriptx/interpreter.py:652-720 | the same for statements |
| ExecutorProperties.ExecWhileFuel | novascriptx/interpreter.py:675-680 | the same for while loops |
| ExecutorProperties.ExecForFuel | novascriptx/interpreter.py:688-695 | the same for for loops |
| ExecutorProperties.DeclareBindsCurrentScope | novascriptx/interpreter.py:656-662 | `var` binds in the current scope only, and the name then reads back as the value |
| ExecutorProperties.LocalsShadowGlobals | novascriptx/interpreter.py:729-737 | a local binding hides a global one of the same name |
| ExecutorProperties.AssignmentInCall | novascriptx/interpreter.py:701-713 | in a call, assigning to a name that is only global updates the global; a name bound nowhere becomes local |
| ExecutorProperties.InvalidAssignmentTarget | novascriptx/interpreter.py:701-715 | assigning to anything but a name raises "Invalid assignment target" before evaluating the value, changing nothing |
| ExecutorProperties.CallsSeeOnlyGlobals | novascriptx/interpreter.py:834-845 | for any arguments that evaluate, calling a name (other than `require`) missing from the global scope after them is the NameError "Undefined function", even when the name is bound locally; the arguments' effects are kept and the local scope stays |
| ExecutorProperties.ArgumentsFirst | novascriptx/interpreter.py:834-842 | a failing argument fails the call with its own error, before `require` or any look-up of the name |
| ExecutorProperties.MemberCallArgumentsFirst | novascriptx/interpreter.py:750-756 | in a method call, a failing argument wins over the check that the object is a dict |
| ExecutorProperties.CallResult | novascriptx/interpreter.py:859-876 | a call of a user function runs its body at one less fuel in a fresh scope of its parameters; its value is that of the `return`, or null when the body ends normally; a failure inside is the call's failure; the caller's local scope comes back while globals and output keep the body's changes |
| ExecutorProperties.NestedFunctionIsLocal | novascriptx/interpreter.py:660-662 | a function declared inside a call goes into the local scope, leaving the globals alone |
| ExecutorProperties.CalleeChecks | novascriptx/interpreter.py:847-857 | a global can be called exactly when it is a function whose parameter count equals the argument count; otherwise a TypeError |
| ExecutorProperties.BindParamsLastWins | novascriptx/interpreter.py:864-865 | each parameter is bound to the argument at its last occurrence |
| ExecutorProperties.BindParamsKeeps | novascriptx/interpreter.py:864-865 | a name that is not a parameter keeps its binding |
| ExecutorProperties.BindParamsKeys | novascriptx/interpreter.py:861-865 | the new local scope binds exactly the parameter names |
| ExecutorProperties.IfRunsOneBranch | novascriptx/interpreter.py:668-673 | `if` runs the then branch when the condition is truthy and the else branch (possibly empty) otherwise, and has no value |
| ExecutorProperties.NoShortCircuit | novascriptx/interpreter.py:783-818 | `and` and `or` evaluate both operands, so an error in the right operand surfaces even when the left one decides |
| ExecutorProperties.ForIsWhile | novascriptx/interpreter.py:682-695 | after its init clause, a for loop is a while loop whose body is followed by the update |
| ExecutorProperties.PrintAppends | novascriptx/interpreter.py:664-666 | `print` appends the `to_string` text of its value and a newline to the output |
| ExecutorProperties.ReturnLeavesLoop | novascriptx/interpreter.py:675-695 | a `return` in a loop body leaves the loop at once, with its value |
| Running.Converted | novascriptx/interpreter.py:983-984 | the message is kept; SyntaxError, NameError, TypeError and RuntimeError (and their subclasses) come out as RuntimeError, and no other kind is changed |
| Running.ConvertedIdempotent | novascriptx/interpreter.py:983-984 | converting twice is converting once, and a converted error is a RuntimeError exactly when its kind is one that is converted |
| Running.LexedTokensValid | novascriptx/interpreter.py:970-974 | what the lexer produces is a token list the parser accepts |
| Running.RunCode | novascriptx/interpreter.py:954-984 | a failure is a RuntimeError or an unconverted kind; a lexer failure is reported converted |
| Running.Run | novascriptx/interpreter.py:954-984 | a fresh lexer, parser and executor, used in turn, give the outcome of the run function |
| Running.EmptySource | novascriptx/interpreter.py:954-984 | an empty source fails with the RuntimeError made from the unbound-`line` error |
| SamplePrograms.PrintSum | tests_novascriptx.py:139-151 | the arithmetic test: `print(2 + 3)` prints `5` |
| SamplePrograms.VariablesTest | tests_novascriptx.py:153-165 | the variables test: `var x = 10` then `print(x)` prints `10` |
| SamplePrograms.PrintConcatenation | novascriptx/interpreter.py:789-791 | `print("n=" + 5)` prints `n=5`: the int is written by `to_string` |
| SamplePrograms.StringConcatenationTest | tests_novascriptx.py:271-286 | the string concatenation test: `var name = "World"` then `print("Hello, " + name)` prints `Hello, World` |
| SamplePrograms.CallReturns | tests_novascriptx.py:167-185 | the functions test: declaring `add(a, b)` and printing `add(3, 5)` prints `8` |
| SamplePrograms.AddArguments | tests_novascriptx.py:177 | the arguments `3, 5` evaluate in order to 3 and 5, changing nothing |
| SamplePrograms.AddBodyReturns | tests_novascriptx.py:175 | `return a + b` with a = 3 and b = 5 returns 8 |
| SamplePrograms.AddCall | novascriptx/interpreter.py:834-876 | the call `add(3, 5)` yields 8 and leaves the state as it was |
| SamplePrograms.NestedFunctionNotCallable | novascriptx/interpreter.py:834-876 | a function declared inside another function cannot be called from there |
| SamplePrograms.TopLevelReturn | novascriptx/interpreter.py:954-984 | a top-level `return` escapes run_code |
| SamplePrograms.DivisionByZero | novascriptx/interpreter.py:954-984 | division by zero is not converted by run_code |
| SamplePrograms.UndefinedVariable | tests_novascriptx.py:393-398 | an undefined variable is a NameError, which run_code turns into RuntimeError |
| SamplePrograms.IntOperators | novascriptx/interpreter.py:789-811 | on two ints, `<=` compares them and `+`, `-` and `*` are the integer operations |
| SamplePrograms.IntBinary | novascriptx/interpreter.py:783-787 | a binary expression whose operands evaluate to ints without side effects is the operator applied to those ints |
| SamplePrograms.IntLeaves | novascriptx/interpreter.py:724-737 | a number literal evaluates to its int and a bound name to its value, changing nothing |
| SamplePrograms.FactorialTest | tests_novascriptx.py:256-258 | the `if (n <= 1)` of factorial returns 1 exactly when n <= 1 and otherwise falls through |
| SamplePrograms.FactorialArgument | tests_novascriptx.py:259 | the argument `n - 1` of the recursive call evaluates to n - 1 |
| SamplePrograms.FactorialReturn | tests_novascriptx.py:259 | `return n * factorial(n - 1)` returns n times what the recursive call yields |
| SamplePrograms.FactorialComputes | tests_novascriptx.py:254-260 | the body of factorial, run in a scope binding n, returns n! and changes nothing |
| SamplePrograms.FactorialCallOf | novascriptx/interpreter.py:834-876 | factorial called with arguments that evaluate to n yields n! and leaves the state as it was |
| SamplePrograms.FactorialCall | tests_novascriptx.py:261 | `factorial(n)` yields n! and leaves the state as it was |
| SamplePrograms.FactorialOfFive | tests_novascriptx.py:248-269 | the recursion test prints `120` |
| SamplePrograms.CountingCondition | tests_novascriptx.py:215 | the condition `i <= n` is true exactly when i is at most n |
| SamplePrograms.PrintIStep | tests_novascriptx.py:216 | `print(i)` appends the decimal text of i and a newline |
| SamplePrograms.IncrementStep | tests_novascriptx.py:217 | `i = i + 1` adds one to the global i |
| SamplePrograms.CountingBody | tests_novascriptx.py:215-218 | one pass of the loop body prints i and adds one to it |
| SamplePrograms.CountingExit | novascriptx/interpreter.py:675-680 | the counting loop stops at once when i is past n |
| SamplePrograms.CountingIteration | novascriptx/interpreter.py:675-680 | when i is at most n the counting loop runs its body once and starts over with one less fuel |
| SamplePrograms.CountingWhilePrints | tests_novascriptx.py:215-218 | the while loop prints i, i + 1, ..., n, one per line, and leaves i at n + 1 |
| SamplePrograms.LinesStep | tests_novascriptx.py:227 | the printed lines from k are line k followed by the lines from k + 1 |
| SamplePrograms.CountingForPrints | tests_novascriptx.py:235-237 | the for loop prints the same lines as the while loop and leaves i at n + 1 |
| SamplePrograms.OneToThree | tests_novascriptx.py:227 | the lines from 1 to 3 are `1`, `2` and `3` |
| SamplePrograms.WhileLoopTest | tests_novascriptx.py:208-227 | the while-loop test prints `1`, `2` and `3` |
| SamplePrograms.ForLoopTest | tests_novascriptx.py:229-246 | the for-loop test prints `1`, `2` and `3` |

## Left out

- Floats are exact reals, with no NaN, infinities or rounding. The text `str()` gives for a float comes from the host.
- Python's recursion limit and `RecursionError` are not modelled. Every loop iteration and user call spends one unit of fuel, and running out gives the `Exhausted` / `OutOfFuel` outcome.
- There is no list value, since the language has no list syntax. Three consequences:
  - the `value == []` test of `is_truthy` has no case;
  - reading `params` or `body` of a function object gives the `Unmodelled` error kind;
  - so does a host dict that poses as a function (its `type` entry is `"function"`).
- `%` with a string left operand is printf-style formatting in Python. It gives the `Unmodelled` error kind.
- The standard-library modules (`fs`, `console`, `math`, `random`, `date`, `http`), their imports and their native functions are not modelled. There are host parameters instead:
  - `load` returns a module or an error;
  - `invoke` runs a native function.

  Their effects (files, clocks, randomness, network, stdout) go outside the output sink.
- `str()` of a dict or a function object is given by the host, not by Python's repr rules.
- Character classes are ASCII: `isdigit`, `isalpha` and `isalnum` accept only ASCII digits and letters.
- There is no limit on the number of digits in a conversion between int and text, and no `MemoryError`. CPython 3.11 (and the 3.7–3.10 security releases) raise ValueError "Exceeds the limit (4300 digits) for integer string conversion" both for `str()` of such an int and for `int()` of a dot-free NUMBER longer than 4300 digits (interpreter.py:558); run_code does not convert that error. The model reads any number of digits. The members this affects are on the next four lines.
- Decimal.DigitsValueOfNatToString: it states that `int()` reads back the decimal text of every natural number. In CPython that holds only for numbers of at most 4300 digits.
- Parsing.NumberLiteral: a dot-free NUMBER of more than 4300 digits is an int literal here, where the source raises ValueError. So the clause "fails exactly when the text holds two dots" covers only texts within the limit.
- ParserProperties.NumberOfNat: the read-back of a natural number's decimal text as an int literal holds in the source only within the 4300-digit limit.
- StatementParsing.NumberKinds: "an int literal exactly when the text has no `.`" holds in the source only for texts within the 4300-digit limit; beyond it a dot-free text raises ValueError.
- A dict is a list of entries; equality and lookup assume the distinct keys a Python dict always has.
- Two stored functions compare equal when their declarations are the same node. The model does not equate the literal 1 in one with the literal 1.0 in another.
- `Token.__repr__` is not modelled; it only serves debugging.
- The `debug` flag, `run_file` and `run_repl` are not modelled: the flag is unused, and the other two are file I/O and an interactive loop.
- The text printed before a failure is lost, as in the code: the `StringIO` of `run_code` is dropped when the exception leaves.
- LexerProperties.UnexpectedCharacter: the repr of a character above U+00FF is written as the character itself. Python's `repr` escapes such a character as `\uhhhh` when the Unicode database calls it non-printable (U+2028 or U+FEFF, say); the model carries no Unicode character database.
- Running.RunCode: the outcome's own contract says only how failures are classified. The full outcome is stated by the function itself and, for sample programs, by the `SamplePrograms` lemmas. End-to-end results on source text are not stated, because lexing and parsing concrete text is too expensive for the verifier.

