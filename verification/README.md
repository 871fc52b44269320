# lox_rs expression pipeline in Dafny

A model of the three pure stages of the `lox_lib` crate of lox_rs, a Rust implementation
of the Lox language from *Crafting Interpreters*:

- **the lexer** (`Lexer::lex` and its per-character scanners): physical lines of source
  text become a token sequence closed by one end-of-file marker, or the first lexical
  error of any line;
- **the recursive-descent parser** (`expression` down to `primary`, `statement`, `parse`):
  the token vector, which the source mutates by removing its head, is a queue passed in
  and handed back, so every parse function maps a queue to a result and the queue left;
- **the tree-walking evaluator** (`add_impl`, `error`/`report` and the `Visitor` impl):
  an expression tree reduces to a literal value, a runtime error, or an abort.

Every stage returns an `Outcome`: `Ok`, `Err` for a Rust `Err`, and `Panic` for an abort
of the program (an `unwrap` of an `Err`, `tokens[0]` on an empty vector, an `expect` that
fails, a `todo!`). Errors are structured datatypes (`LexError`, `SyntaxError`,
`RuntimeError`) with functions that render the texts the source formats.

Modules, one per file:

| file | module | contents |
|---|---|---|
| outcomes.dfy | Outcomes | `Option`, `Outcome` |
| text.dfy | Text | ASCII digits, decimal rendering of a `nat`, `Span` |
| lexer.dfy | Lexer | `TokenKind`, `Token`, the keyword table, the scanners, `Lex` |
| lexer_properties.dfy | LexerProperties | the lexer's properties |
| ast.dfy | Ast | `Literal`, `Operator`, `ExprNode`, `StmtNode`, `SyntaxError` |
| parser.dfy | Parser | operator conversion, the parse functions, the `parse` loop with fuel |
| parser_properties.dfy | ParserProperties | progress, outcomes, the loop, the corrected `parse` |
| printer.dfy | Printer | a printer from trees to tokens and the parse round trip |
| interpreter.dfy | Interpreter | error texts, `add_impl`, the operator tables, `Eval` |
| interpreter_properties.dfy | InterpreterProperties | evaluation order, string order, error texts |
| typing.dfy | Typing | a reference definition of every evaluation's outcome |
| examples.dfy | Examples | the repository's unit-test vectors |

The AST is reconstructed from how the parser and evaluator use it: `ExprNode` is
`Literal | Grouping | UnaryExpr | BinaryExpr`, `StmtNode` is `PrintStmt | ExprStmt | ErrStmt`,
and an `Operator` carries the line of its token.

Three helpers are called but defined nowhere in `lox_lib`: `ast.rs`, which both
`parser.rs` and `interpreter.rs` import (`use crate::ast::…`), declares the enums and no
methods at all:
- `Operator::try_from` is `Parser.TryFrom`. It is total on the operator tokens. The
  images of `>=` and `<=` are a `Conversion` parameter. `Collapse` maps them to `>` and
  `<`, which is what the evaluator tests need (`1 >= 2` is false, `1 <= 2` is true).
- `Literal::is_equal` is structural equality.
- `Literal::is_falsy`: the tests fix only that a number is falsy (`!5` is `false`). The
  rest of its table is a choice of this model: every string is falsy too, a boolean is
  falsy when it is true, and `nil` is not.

## Model

| member | source | states |
|---|---|---|
| Lexer.ParsesAsNumber | lox_lib/src/lexer.rs:277-294 | a digit-and-dot text that parses starts with a digit |
| Lexer.NumberValue | lox_lib/src/lexer.rs:280-289 | the value of a number literal is never negative |
| Lexer.KindDebug | lox_lib/src/parser.rs:176-180 | the `{:?}` text of a token kind is never empty and starts with a capital letter; a string kind's text is `String(` … `)` |
| Lexer.SkipComment | lox_lib/src/lexer.rs:162-170 | a comment drops a suffix of the line, and on a line without a line break it drops the whole rest |
| Lexer.ScanString | lox_lib/src/lexer.rs:247-267 | a scanned string consumes a prefix of the line, yields a `String` token whose lexeme is exactly what it consumed, and never aborts |
| Lexer.ScanNumber | lox_lib/src/lexer.rs:269-296 | a scanned number consumes a prefix of the line and yields a `Number` token whose lexeme is exactly what it consumed |
| Lexer.KeywordOrIdentifier | lox_lib/src/lexer.rs:306-315 | a text in the keyword table lexes to its table kind, every other text to `Identifier` |
| Lexer.ScanIdentifier | lox_lib/src/lexer.rs:298-329 | an identifier always yields a token, consuming a prefix of the line that is exactly its lexeme |
| Lexer.ScanToken | lox_lib/src/lexer.rs:147-240 | one dispatch step consumes at least one character, and any token it yields is a real token of that line whose lexeme is the characters consumed |
| Lexer.LexLine | lox_lib/src/lexer.rs:137-242 | a line's tokens contain no end-of-file marker and are all numbered with that line |
| Lexer.LineOutcomes | lox_lib/src/lexer.rs:117-120 | line `j` of the input is scanned on its own and numbered `j + 1` |
| Lexer.JoinLines | lox_lib/src/lexer.rs:121-122 | the joined tokens contain no end-of-file marker and carry line numbers of the lines joined |
| Lexer.JoinLinesInLineOrder | lox_lib/src/lexer.rs:117-122 | the joined tokens' line numbers never go down |
| Lexer.Lex | lox_lib/src/lexer.rs:116-130 | a successful `lex` ends in exactly one end-of-file marker, on the last token's line or line 0 when there is no other token; the other tokens are in line order, on lines 1 to the number of lines; `lex` fails exactly when some line fails |
| LexerProperties.LexTokensByLine | lox_lib/src/lexer.rs:117-122 | the tokens of the output numbered `k + 1` are exactly, in order, the tokens of line `k` lexed on its own |
| LexerProperties.JoinFailsAtFirstFailure | lox_lib/src/lexer.rs:121 | joining succeeds exactly when no line failed, and otherwise its outcome is that of the first line that failed |
| LexerProperties.LexFailsFast | lox_lib/src/lexer.rs:116-121 | one failing line makes `lex` fail, with the error or abort of the first failing line, and no tokens |
| LexerProperties.LexFailureIsJoinFailure | lox_lib/src/lexer.rs:121 | a failed join is returned unchanged by `lex` |
| LexerProperties.CommentLineIsEmpty | lox_lib/src/lexer.rs:162-170 | a line that starts with `//` yields no token |
| LexerProperties.CommentOnlyInput | lox_lib/src/lexer.rs:123-128 | input whose lines are all comments lexes to the lone end-of-file marker on line 0 |
| LexerProperties.SingleCharacter | lox_lib/src/lexer.rs:152-161 | each of the ten one-character tokens consumes exactly its character |
| LexerProperties.MaximalMunch | lox_lib/src/lexer.rs:175-222 | `!`, `=`, `>` and `<` followed by `=` yield the two-character kind and consume both characters; otherwise they yield the one-character kind and consume one |
| LexerProperties.BlanksAndSlashes | lox_lib/src/lexer.rs:162-174 | space, `\r` and `\t` are skipped, `//` skips the rest of the line, and a lone `/` is a `Slash` |
| LexerProperties.StringLiteral | lox_lib/src/lexer.rs:247-267 | a string runs from its quote to the first quote of either kind; the payload excludes both quotes, the lexeme is the quotes with the payload, and a line that ends first is an unterminated-string error |
| LexerProperties.IdentifierLiteral | lox_lib/src/lexer.rs:298-329 | an identifier takes the longest run of letters, digits and `_` after its first letter, and is a keyword kind exactly when that run is a reserved word |
| LexerProperties.UnexpectedCharacterFails | lox_lib/src/lexer.rs:234-237 | a character no branch handles (such as `_`) fails the step and the whole line with an unexpected-character error |
| LexerProperties.NumberLiteral | lox_lib/src/lexer.rs:269-296 | a number takes the longest run of digits and dots; a text that parses becomes a `Number` of its value, one that does not is an error at the end of the line and an abort before any other character |
| LexerProperties.NumberAcceptance | lox_lib/src/lexer.rs:277-294 | a digit-and-dot text that starts with a digit parses as a number exactly when it holds at most one dot |
| LexerProperties.KeywordTableRoundTrip | lox_lib/src/lexer.rs:5-25 | the keyword table and the keyword spellings are inverse: a word maps to a kind exactly when the kind is spelled as that word |
| LexerProperties.LexOneLine | lox_lib/src/lexer.rs:122-129 | a one-line input's tokens are its line's tokens, then the end-of-file marker on the last token's line |
| LexerProperties.LexTwoLines | lox_lib/src/lexer.rs:116-129 | a two-line input's tokens are the first line's, then the second's, then the end-of-file marker on the second line's last token's line |
| LexerProperties.LexNumberLine | lox_lib/src/lexer.rs:269-296 | a line that is one number literal and nothing else lexes to that single `Number` token of its value |
| Parser.TryFrom | lox_lib/src/parser.rs:210-213 | exactly the operator tokens convert to an operator, and the operator keeps the token's line |
| Parser.OperatorToken | lox_lib/src/parser.rs:210-213 | every operator is written as an operator token on its own line |
| Parser.TryFromLevel | lox_lib/src/parser.rs:72-102 | every token a binary level matches converts, and under a level-keeping conversion into an operator of that level |
| Parser.LevelKinds | lox_lib/src/parser.rs:72-102 | the tokens each binary level matches are operator tokens |
| Parser.MatchOperatorTokens | lox_lib/src/parser.rs:203-225 | the head token is removed and converted exactly when its kind is in the set; otherwise the queue is unchanged |
| Parser.Expression | lox_lib/src/parser.rs:64-66 | an expression only removes tokens from the front, removes at least one when it succeeds, and builds a tree of the equality level's shape |
| Parser.Binary | lox_lib/src/parser.rs:45-62 | a binary level only removes tokens from the front, removes at least one when it succeeds, and builds a left-leaning tree of that level's shape |
| Parser.Operand | lox_lib/src/parser.rs:72-102 | the operand of a binary level is parsed one level down, so its tree has the next level's shape |
| Parser.BinaryLoop | lox_lib/src/parser.rs:53-61 | folding further operators keeps the level's shape and only removes tokens from the front |
| Parser.Unary | lox_lib/src/parser.rs:104-116 | a unary only removes tokens from the front, removes at least one when it succeeds, and builds a right-nested unary or a primary |
| Parser.Primary | lox_lib/src/parser.rs:227-275 | a primary only removes tokens from the front, removes at least one when it succeeds, and yields a literal or a grouping |
| Parser.Consume | lox_lib/src/parser.rs:163-182 | `consume` succeeds and removes the head exactly when the head has the expected kind, fails with an expected-token error otherwise, and aborts on an empty queue |
| Parser.PrintStatement | lox_lib/src/parser.rs:123-130 | a print statement always removes its `print` token and yields a `PrintStmt`, or the missing-`;` error when the expression parsed |
| Parser.SyntaxMessage | lox_lib/src/parser.rs:123-275 | no syntax error has an empty text |
| Parser.Statement | lox_lib/src/parser.rs:133-154 | a statement only removes tokens from the front; on a queue that ends in the end-of-file marker it never aborts and leaves the marker in place |
| Parser.StatementStepBehaves | lox_lib/src/parser.rs:133-154 | `statement` as a step function only shrinks the queue and never removes the end-of-file marker |
| Parser.Loop | lox_lib/src/parser.rs:185-193 | a finished run emitted at most one statement per iteration, and a run out of fuel emitted one statement per iteration |
| Parser.ParseLoop | lox_lib/src/parser.rs:185-193 | the same bounds for the loop of `parse` |
| Parser.EmitThen | lox_lib/src/parser.rs:189-190 | emitting a statement before a run puts it first in what the run emitted and keeps how the run ended |
| ParserProperties.OperatorRoundTrip | lox_lib/src/parser.rs:212 | converting an operator's token gives the operator back, and any other token that converts to it has its kind (`>=` and `<=` aside) |
| ParserProperties.LevelsDisjoint | lox_lib/src/parser.rs:72-106 | no operator token belongs to two binary levels, and no level matches the end-of-file marker or `!` |
| ParserProperties.SyntaxMessageIdentifiesError | lox_lib/src/parser.rs:123-275 | two syntax errors with the same text are the same kind of error, and an unsupported-token text holds the debug text of the offending kind right after its fixed prefix |
| ParserProperties.PrimaryLiteral | lox_lib/src/parser.rs:230-250 | a `Number`, `String`, `True`, `False` or `Nil` head becomes its literal and consumes exactly that token |
| ParserProperties.PrimaryGroupingConsumes | lox_lib/src/parser.rs:252-257 | a `(` head is consumed before anything else |
| ParserProperties.PrimaryGrouping | lox_lib/src/parser.rs:252-274 | after `(` and its expression, a `)` closes the grouping and is consumed; any other head is an unsupported-token error naming that head, with nothing more consumed; a failing expression is the grouping's failure where it stopped |
| ParserProperties.PrimaryRejects | lox_lib/src/parser.rs:265-274 | any other head is an unsupported-token error and consumes nothing |
| ParserProperties.PrimaryProgress | lox_lib/src/parser.rs:227-275 | `primary` consumes nothing exactly when its head cannot start an expression or is a unary operator |
| ParserProperties.UnaryPrimaryStep | lox_lib/src/parser.rs:104-116 | without a unary operator at the head, `unary` is `primary` |
| ParserProperties.UnaryOperatorConsumes | lox_lib/src/parser.rs:105-108 | a unary operator at the head is consumed before its operand |
| ParserProperties.UnaryProgress | lox_lib/src/parser.rs:104-116 | `unary` consumes nothing exactly when its head cannot start an expression, and then fails with an unsupported-token error |
| ParserProperties.BinaryProgress | lox_lib/src/parser.rs:45-62 | every binary level, and so `expression`, consumes nothing exactly when its head cannot start an expression, and then fails with that head's unsupported-token error |
| ParserProperties.PrintStatementConsumes | lox_lib/src/parser.rs:123-124 | a print statement always consumes its `print` token |
| ParserProperties.ExpressionStatementStep | lox_lib/src/parser.rs:144-152 | an expression statement leaves a suffix of what its expression leaves, and an expression that fails becomes the `ErrStmt` of that error where the expression stopped |
| ParserProperties.StatementProgress | lox_lib/src/parser.rs:133-154 | a statement consumes nothing exactly when its head starts neither an expression nor a print statement, and then it is that head's unsupported-token `ErrStmt` |
| ParserProperties.StatementOutcomes | lox_lib/src/parser.rs:123-154 | on a queue ending in the end-of-file marker a statement is the print or expression statement when its expression parses and is followed by `;`, the matching missing-`;` error when it is not, and the expression's own error when the expression fails |
| ParserProperties.LoopRepeats | lox_lib/src/parser.rs:188-191 | a step that consumes nothing is emitted again on every later iteration |
| ParserProperties.LoopNeverFinishes | lox_lib/src/parser.rs:188-191 | a step that keeps the end-of-file marker never lets the loop finish |
| ParserProperties.LoopFinishedIsBounded | lox_lib/src/parser.rs:188-191 | a finished run of a shrinking step emitted at most one statement per token |
| ParserProperties.LoopFuelMonotone | lox_lib/src/parser.rs:188-191 | more fuel does not change a run that finished |
| ParserProperties.NoProgressRepeats | lox_lib/src/parser.rs:185-193 | a statement that consumes nothing makes `parse` emit it forever |
| ParserProperties.EofQueueNeverFinishes | lox_lib/src/parser.rs:185-193 | `parse` never finishes on a queue that ends in the end-of-file marker |
| ParserProperties.LexerOutputNeverParses | lox_lib/src/parser.rs:185-193 | `parse` never finishes on anything `lex` returns |
| ParserProperties.FinishedRunIsBounded | lox_lib/src/parser.rs:185-193 | a run of `parse` that finished emitted at most one statement per token |
| ParserProperties.FuelMonotone | lox_lib/src/parser.rs:185-193 | more fuel does not change a run of `parse` that finished |
| ParserProperties.Program | lox_lib/src/parser.rs:185-193 | the corrected loop never needs fuel, emits at most one statement per token, and finishes on every queue ending in the end-of-file marker |
| ParserProperties.ProgramAgreesWithLoop | lox_lib/src/parser.rs:185-193 | the corrected loop's statements are exactly, in order, the first statements the loop emits |
| ParserProperties.ParseProgram | lox_lib/src/parser.rs:185-193 | the corrected `parse` never needs fuel, emits at most one statement per token, and finishes on every queue ending in the end-of-file marker |
| ParserProperties.ParseProgramAgreesWithParse | lox_lib/src/parser.rs:185-193 | the corrected `parse` finishes on lexer-shaped queues, and its statements are the first ones `parse` emits |
| Printer.LiteralToken | lox_lib/src/parser.rs:230-240 | the token a literal is printed as is read back as that literal |
| Printer.Unparse | lox_lib/src/parser.rs:104-121 | a printed tree is never empty and starts with a literal, `(` or an operator token; a literal prints as its own token, a unary node starts with its operator |
| Printer.UnparseStarts | lox_lib/src/parser.rs:104-121 | a printed tree of the parser's shape starts with a token that can start an expression: a literal, `(`, `!` or `-` |
| Printer.KindsFrom | lox_lib/src/parser.rs:72-102 | the operator tokens from one level down include each of those levels' tokens |
| Printer.KindsFromExcludes | lox_lib/src/parser.rs:72-102 | a token matched at some level is an operator token of that level or a deeper one |
| Printer.PrimaryRoundTrip | lox_lib/src/parser.rs:227-275 | a printed literal or grouping parses back as a primary, leaving what followed |
| Printer.UnaryRoundTrip | lox_lib/src/parser.rs:104-116 | a printed unary-level tree parses back as a unary, leaving what followed |
| Printer.BinaryRoundTrip | lox_lib/src/parser.rs:45-62 | a printed tree of a binary level parses back at that level, leaving what followed when it cannot extend the tree |
| Printer.ExpressionRoundTrip | lox_lib/src/parser.rs:45-121 | every tree of the parser's shape parses back from its printed tokens, under any conversion of `>=` and `<=`, leaving exactly what followed when it cannot extend the tree |
| Printer.ExprStatementRoundTrip | lox_lib/src/parser.rs:144-146 | a printed expression and `;` parse back as that expression statement, leaving what followed |
| Printer.PrintStatementRoundTrip | lox_lib/src/parser.rs:123-142 | `print`, a printed expression and `;` parse back as that print statement, leaving what followed |
| Interpreter.RuntimeMessage | lox_lib/src/interpreter.rs:82-214 | no runtime error has an empty text, and the errors raised through `error` start with `[line ` |
| Interpreter.IsFalsy | lox_lib/src/interpreter.rs:200 | every number counts as falsy, so `!` on a number is `false` |
| Interpreter.StrLess | lox_lib/src/interpreter.rs:163-182 | a string is never less than itself, and nothing is less than the empty string |
| Interpreter.Eval | lox_lib/src/interpreter.rs:114-216 | an evaluation aborts only with the `todo!` message of `=`, `and` and `or` |
| Interpreter.Report | lox_lib/src/interpreter.rs:71-73 | a report starts `[line ` and ends with its message |
| Interpreter.Error | lox_lib/src/interpreter.rs:67-69 | an error report starts `[line ` and ends with its message |
| Interpreter.AddImpl | lox_lib/src/interpreter.rs:82-111 | `+` succeeds exactly on two numbers (their sum) or two strings (left then right), is an error on every other pairing, and never aborts |
| Interpreter.FloatDivide | lox_lib/src/interpreter.rs:155 | a quotient by a nonzero divisor times the divisor is the dividend |
| Interpreter.Arithmetic | lox_lib/src/interpreter.rs:136-162 | `-`, `*` and `/` yield a number exactly on two numbers, and the two-numbers error at the operator's line otherwise |
| Interpreter.Compare | lox_lib/src/interpreter.rs:163-182 | `>` and `<` yield a boolean exactly on two numbers or two strings, and the numbers-or-strings error at the operator's line otherwise |
| Interpreter.ApplyBinary | lox_lib/src/interpreter.rs:134-193 | a binary operator aborts exactly when it is `=`, `and` or `or` |
| Interpreter.ApplyUnary | lox_lib/src/interpreter.rs:196-216 | `!` always yields the boolean negation of falsiness, `-` negates a number and is an error on any other value, and every other operator is an error |
| InterpreterProperties.StrLessIrreflexive | lox_lib/src/interpreter.rs:163-182 | no string is less than itself |
| InterpreterProperties.StrLessTrichotomy | lox_lib/src/interpreter.rs:163-182 | of two strings exactly one is less, or they are equal |
| InterpreterProperties.StrLessTransitive | lox_lib/src/interpreter.rs:163-182 | the string order is transitive |
| InterpreterProperties.StrLessPrefix | lox_lib/src/interpreter.rs:163-182 | a proper prefix comes before the longer string |
| InterpreterProperties.StringComparisonIsStrictOrder | lox_lib/src/interpreter.rs:163-182 | `>` on strings is `<` with the operands swapped; at most one of `>` and `<` holds, and neither holds exactly when the strings are equal |
| InterpreterProperties.IsEqualIsEquality | lox_lib/src/interpreter.rs:185 | `is_equal` holds exactly for equal values; different variants are never equal |
| InterpreterProperties.NotEqualNegatesEqualEqual | lox_lib/src/interpreter.rs:184-189 | on operands that evaluate, `==` and `!=` both yield booleans, `==` holds exactly when the two values are equal, and `!=` is its negation |
| InterpreterProperties.EvalOrder | lox_lib/src/interpreter.rs:131-132 | a failing left operand decides a binary node's result, then a failing right operand, and otherwise the operator is applied to the two values |
| InterpreterProperties.EvalNodes | lox_lib/src/interpreter.rs:117-210 | a literal evaluates to itself, a grouping to its child's outcome, and a unary node to its operand's failure unchanged or to its operator applied to the operand's value |
| InterpreterProperties.GroupingTransparent | lox_lib/src/interpreter.rs:117-123 | any number of groupings (built by the helper `Parenthesize`) around an expression leave its outcome unchanged |
| InterpreterProperties.ErrorAfterPrefix | lox_lib/src/interpreter.rs:67-73 | after `[line ` an error report is the line's digits, `] Error : ` and the message |
| InterpreterProperties.ErrorDetermines | lox_lib/src/interpreter.rs:67-73 | an error report determines its line and its message |
| InterpreterProperties.RuntimeMessageNamesLine | lox_lib/src/interpreter.rs:82-182 | the runtime errors that go through `error` start with `[line `, and two with the same text are at the same line |
| Typing.ApplyBinaryFollowsTable | lox_lib/src/interpreter.rs:134-193 | every binary operator's outcome is the operator table's verdict for its operands' types |
| Typing.ApplyUnaryFollowsTable | lox_lib/src/interpreter.rs:196-216 | every unary operator's outcome is the unary table's verdict for its operand's type |
| Typing.CheckPredictsEval | lox_lib/src/interpreter.rs:114-216 | for every tree, evaluation yields a value of the type the reference computes, a runtime error exactly when it predicts one, or an abort exactly when it predicts one |
| Typing.UnaryAndEqualityTotal | lox_lib/src/interpreter.rs:184-210 | on an operand that evaluates, `!` always yields a boolean, `-` succeeds exactly on numbers, and `==` never fails |
| Ast.OpKindNameInjective | lox_lib/src/interpreter.rs:211-214 | different operator variants have different debug names |
| Examples.LexIdentifierB | lox_lib/src/lexer.rs:389-397 | the `b` at the end of `a+b` lexes to one identifier |
| Examples.LexPlusB | lox_lib/src/lexer.rs:389-397 | the `+b` of `a+b` lexes to a plus and an identifier |
| Examples.LexNoWhitespace | lox_lib/src/lexer.rs:388-405 | `a+b` lexes to two identifiers around a plus, then the end-of-file marker |
| Examples.LexEqualEqual | lox_lib/src/lexer.rs:407-422 | `a==b` lexes to two identifiers around one `==` |
| Examples.LexComment | lox_lib/src/lexer.rs:505-513 | a comment-only line lexes to the lone end-of-file marker on line 0 |
| Examples.LexNoWhitespaceAgainstTest | lox_lib/src/lexer.rs:388-405 | `lex` of `a+b` has as many tokens as the test's expected vector and agrees with it on the first three, but its end-of-file marker is on line 1 where the test expects line 0 |
| Examples.LexDecimal | lox_lib/src/lexer.rs:460-476 | `123.456` lexes to one `Number` token of value 123.456 |
| Examples.LexInteger | lox_lib/src/lexer.rs:460-476 | `123` on line 2 lexes to one `Number` token of value 123 |
| Examples.LexNumberLines | lox_lib/src/lexer.rs:460-476 | `123.456\n123` lexes to the two numbers on lines 1 and 2, then the end-of-file marker on line 2 |
| Examples.ParseUnaryBinary | lox_lib/src/parser.rs:321-350 | `1 + 2 * -3` parses as `Add(1, Multiply(2, Subtract(3)))` |
| Examples.ParseLeftAssociative | lox_lib/src/parser.rs:353-378 | `6 / 3 - 1` parses as `Subtract(Divide(6, 3), 1)` |
| Examples.ParseEquality | lox_lib/src/parser.rs:381-397 | `'a' == 'b'` parses as `EqualEqual` of the two strings |
| Examples.ParsePrintStatement | lox_lib/src/parser.rs:297-318 | `print("hello world");` parses as a print of a grouping of the string, leaving the end-of-file marker |
| Examples.EvalUnary | lox_lib/src/interpreter.rs:229-237 | `!5` is false and `-2` is -2 |
| Examples.EvalAddSubtract | lox_lib/src/interpreter.rs:240-252 | `1 + 2` is 3, `1 - 2` is -1 and `1 + 2 - 3` is 0 |
| Examples.EvalMultiplyDivide | lox_lib/src/interpreter.rs:255-267 | `1 * 2` is 2, `1 / 2` is 0.5 and `1 * 2 / 3` is 2/3 |
| Examples.EvalGrouping | lox_lib/src/interpreter.rs:270-286 | the four grouped expressions evaluate to 7, 9, 21 and 9 |
| Examples.EvalComparison | lox_lib/src/interpreter.rs:290-306 | `1 > 2` is false, `1 < 2` is true, and `>=`/`<=` convert to `>`/`<` under `Collapse` |
| Examples.EvalEquality | lox_lib/src/interpreter.rs:310-326 | `1 == 1` and `1 != 2` are true, `1 == 2` and `1 != 1` are false |

## Left out

- Floating point: numbers are exact `real`s and number texts are read as exact decimals.
  `f32` rounding, NaN and infinity are not modelled, and how a number is displayed or
  debug-printed is a function parameter (`display`, `debug`).
- Interpreter.FloatDivide: a zero divisor gives 0 instead of an IEEE infinity or NaN. It
  still gives a number, never an error, as `f32` division does.
- Line numbers are unbounded `nat`s, not `u32`.
- Unicode character classes: `is_numeric`, `is_alphabetic` and `is_alphanumeric` are their
  ASCII cases.
- The text of lexical errors (`lexical_error`, `{:#?}`): `LexError` records the kind of
  error, the text at fault and the line.
- Lexer.KindDebug: the string payload is not escaped as `Debug` would escape it.
- The parser's side state: `panic_mode`, the `errors` vector and `send_err` are written and
  never read.
- The driver: `Interpreter::run`, `run_script`, `run_on_string`, `run_repl`, the `src/`
  crate and the benchmarks are I/O.
- `check_type` returns `Ok(())` and is never called.
- The `VarStmt` statement: the parser never builds it.
- `lox_lib/src/ast.rs` is an older snapshot that the parser and evaluator do not match; the
  AST here follows their use of it.
- Parser.ParseLoop: `parse` is run for a bounded number of iterations (`fuel`). A run that
  uses up its fuel ends as `OutOfFuel` with what it emitted.
- The Eof line: `lex` puts the end-of-file marker on the last token's line, and the model
  follows the code. The lexer tests that expect line 0 disagree with it (see Findings).
- Examples.ParseUnaryBinary, Examples.ParseLeftAssociative, Examples.ParseEquality and
  Examples.ParsePrintStatement: the tokens carry each token's own spelling as their
  lexeme, not the test's placeholder lexemes (`"1"` for every token, say). The parser
  reads only kinds.
- The evaluator tests build their trees through `lex` and `parse`, and `parse` never
  finishes on lexer output (see Findings). The evaluator examples therefore evaluate the
  trees the parser builds for those expressions.
- Interpreter.RuntimeMessage and Interpreter.Eval state only partial facts in their own
  contracts. Their properties are InterpreterProperties.RuntimeMessageNamesLine,
  InterpreterProperties.EvalNodes, InterpreterProperties.EvalOrder and
  Typing.CheckPredictsEval.
- Interpreter.IsFalsy: only the number case is fixed by the repository. The string,
  boolean and nil cases are a choice, and so is what `!` yields on them.
- ParserProperties.ParseProgram: the corrected `parse` stops at the end-of-file marker,
  and it also stops for good after a statement that consumed nothing. The source has no
  error recovery (the `// TODO Synchronize` in `primary`), so the model does not invent
  one. For `) 1 ; Eof` the corrected `parse` gives only the `ErrStmt` for `)` and drops
  `1;`.

## Findings

| source | as written | input that shows it | evidently intended | confidence | as-written member | corrected member |
|---|---|---|---|---|---|---|
| lox_lib/src/parser.rs:185-193 | `parse` loops while tokens remain. No statement removes the end-of-file marker, and a statement at the marker consumes nothing, so `parse` emits an unsupported-token `ErrStmt` forever. | the tokens `lex` gives for `1;` (`Number`, `Semicolon`, `Eof`): after `ExprStmt(1)` the queue is `[Eof]` for good | stop at the end-of-file marker; since the source has no error recovery, the corrected loop also stops after a statement that consumed nothing, instead of emitting it forever | not executed | ParserProperties.LexerOutputNeverParses | ParserProperties.ParseProgram |
| lox_lib/src/lexer.rs:122-128 | `lex` puts the end-of-file marker on the last token's line, but the unit tests at lines 351-526 expect it on line 0. `Token` compares every field, line included, and in each of those tests the produced and expected vectors have the same length, so `zip` pairs the two markers and `assert_eq!` compares line 1 (or 2) with line 0 | `a+b` (`lex_no_whitespace_test`): `lex` gives the marker on line 1, the test expects line 0; likewise `123.456\n123` gives line 2 | unclear: `final_line` is computed on purpose, so the model keeps the code and reads the tests' `0` as the stale half; the corrected expectation puts the marker on the last token's line | not executed; plausible, since the tests and the code disagree and neither clearly wins | Examples.LexNoWhitespaceAgainstTest | Examples.LexNoWhitespace |
