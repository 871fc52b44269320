/** Concrete instances of the model's properties on the repository's unit-test inputs. */
module Examples {
  import opened Outcomes
  import opened Text
  import opened Lexer
  import opened Ast
  import opened Parser
  import opened Interpreter
  import LexerProperties
  import ParserProperties
  import Printer

  function Tok(k: TokenKind, lexeme: string): Token {
    Token(k, lexeme, 1)
  }

  const Eof1 := Token(Eof, "", 1)

  function Num(n: real): ExprNode {
    ExprNode.Literal(Literal.Number(n))
  }

  // ---------------------------------------------------------------------------------
  // Lexer

  /** A lone `b` is an identifier. */
  lemma LexIdentifierB(r: string)
    requires r == "b"
    ensures LexLine(r, 1) == Ok([Tok(Identifier, "b")])
  {
    assert r[..1] == "b" && r[1..] == [] && "b" !in ReservedKeywords;
    LexerProperties.IdentifierLiteral(r, 1, 1);
    LexerProperties.LexLineEmit(r, 1, Tok(Identifier, "b"), [], []);
    assert [Tok(Identifier, "b")] + [] == [Tok(Identifier, "b")];
  }

  /** An `a` before an operator is an identifier token. */
  lemma ScanIdentifierA(l: string)
    requires |l| > 1 && l[0] == 'a' && !IsIdentifierChar(l[1])
    ensures ScanToken(l, 1) == Ok(Emit(Tok(Identifier, "a"), l[1..]))
  {
    assert l[..1] == "a" && "a" !in ReservedKeywords;
    LexerProperties.IdentifierLiteral(l, 1, 1);
  }

  lemma LexPlusB(r: string)
    requires r == "+b"
    ensures LexLine(r, 1) == Ok([Tok(Plus, "+"), Tok(Identifier, "b")])
  {
    assert r[0] == '+' && r[..1] == "+" && r[1..] == "b";
    LexIdentifierB(r[1..]);
    LexerProperties.SingleCharacter(r, 1);
    LexerProperties.LexLineEmit(r, 1, Tok(Plus, "+"), r[1..], [Tok(Identifier, "b")]);
    assert [Tok(Plus, "+")] + [Tok(Identifier, "b")] == [Tok(Plus, "+"), Tok(Identifier, "b")];
  }

  lemma LexEqualB(r: string)
    requires r == "==b"
    ensures LexLine(r, 1) == Ok([Tok(TokenKind.EqualEqual, "=="), Tok(Identifier, "b")])
  {
    var eq := Tok(TokenKind.EqualEqual, "==");
    assert r[..2] == "==" && r[2..] == "b";
    LexIdentifierB(r[2..]);
    LexerProperties.MaximalMunch(r, 1);
    LexerProperties.LexLineEmit(r, 1, eq, r[2..], [Tok(Identifier, "b")]);
    assert [eq] + [Tok(Identifier, "b")] == [eq, Tok(Identifier, "b")];
  }

  /** `a+b`: two identifiers around a plus, the end-of-file marker on the last token's
      line. */
  lemma LexNoWhitespace(l: string)
    requires l == "a+b"
    ensures Lex([l]) == Ok([Tok(Identifier, "a"), Tok(Plus, "+"), Tok(Identifier, "b"), Eof1])
  {
    var a, plus, b := Tok(Identifier, "a"), Tok(Plus, "+"), Tok(Identifier, "b");
    ScanIdentifierA(l);
    LexPlusB(l[1..]);
    LexerProperties.LexLineEmit(l, 1, a, l[1..], [plus, b]);
    assert [a] + [plus, b] == [a, plus, b];
    LexerProperties.LexOneLine(l, [a, plus, b]);
    assert [a, plus, b] + [Eof1] == [a, plus, b, Eof1];
  }

  lemma LexLineAEqualEqualB(l: string)
    requires l == "a==b"
    ensures LexLine(l, 1) == Ok([Tok(Identifier, "a"), Tok(TokenKind.EqualEqual, "=="), Tok(Identifier, "b")])
  {
    var a, eq, b := Tok(Identifier, "a"), Tok(TokenKind.EqualEqual, "=="), Tok(Identifier, "b");
    ScanIdentifierA(l);
    assert l[1..] == "==b";
    LexEqualB(l[1..]);
    LexerProperties.LexLineEmit(l, 1, a, l[1..], [eq, b]);
    assert [a] + [eq, b] == [a, eq, b];
  }

  /** `a==b`: `==` is one token. */
  lemma LexEqualEqual(l: string)
    requires l == "a==b"
    ensures Lex([l]) == Ok([Tok(Identifier, "a"), Tok(TokenKind.EqualEqual, "=="), Tok(Identifier, "b"), Eof1])
  {
    var a, eq, b := Tok(Identifier, "a"), Tok(TokenKind.EqualEqual, "=="), Tok(Identifier, "b");
    LexLineAEqualEqualB(l);
    LexerProperties.LexOneLine(l, [a, eq, b]);
    assert [a, eq, b] + [Eof1] == [a, eq, b, Eof1];
  }

  /** `lex_no_whitespace_test` expects the marker of `a+b` on line 0. The vectors have
      the same length, so `zip` pairs every token: the first three agree and the
      end-of-file markers differ in their line. */
  lemma LexNoWhitespaceAgainstTest(l: string)
    requires l == "a+b"
    ensures var expected := [Tok(Identifier, "a"), Tok(Plus, "+"), Tok(Identifier, "b"), Token(Eof, "", 0)];
      && Lex([l]).Ok? && |Lex([l]).value| == |expected|
      && Lex([l]).value[..3] == expected[..3] && Lex([l]).value[3] != expected[3]
  {
    LexNoWhitespace(l);
  }

  /** The value of a three-digit text, digit by digit. */
  lemma ThreeDigits(s: string)
    requires |s| == 3 && AllDigits(s)
    ensures DigitsValue(s) == 100 * DigitValue(s[0]) + 10 * DigitValue(s[1]) + DigitValue(s[2])
  {
    assert s[..2][..1] == s[..1] && s[..1][..0] == [];
    assert DigitsValue(s[..1]) == DigitValue(s[0]);
    assert DigitsValue(s[..2]) == 10 * DigitValue(s[0]) + DigitValue(s[1]);
  }

  /** `123.456` is one number literal of that value. */
  lemma LexDecimal(l: string)
    requires l == "123.456"
    ensures LexLine(l, 1) == Ok([Token(TokenKind.Number(123.456), "123.456", 1)])
  {
    SpanIs(l, IsDigit, 3);
    assert l[..3] == "123" && l[4..] == "456";
    ThreeDigits(l[..3]);
    ThreeDigits(l[4..]);
    assert ParsesAsNumber(l) && NumberValue(l) == 123.456;
    LexerProperties.LexNumberLine(l, 1);
  }

  /** `123` on line 2 is one number literal of value 123. */
  lemma LexInteger(l: string)
    requires l == "123"
    ensures LexLine(l, 2) == Ok([Token(TokenKind.Number(123.0), "123", 2)])
  {
    SpanIs(l, IsDigit, 3);
    assert l[..3] == l;
    ThreeDigits(l);
    assert ParsesAsNumber(l) && NumberValue(l) == 123.0;
    LexerProperties.LexNumberLine(l, 2);
  }

  /** `123.456\n123`: one number per line, the end-of-file marker on line 2. */
  lemma LexNumberLines(l1: string, l2: string)
    requires l1 == "123.456" && l2 == "123"
    ensures Lex([l1, l2]) == Ok([Token(TokenKind.Number(123.456), "123.456", 1), Token(TokenKind.Number(123.0), "123", 2), Token(Eof, "", 2)])
  {
    var a, b := Token(TokenKind.Number(123.456), "123.456", 1), Token(TokenKind.Number(123.0), "123", 2);
    LexDecimal(l1);
    LexInteger(l2);
    LexerProperties.LexTwoLines(l1, l2, [a], [b]);
    assert [a] + [b] + [Token(Eof, "", 2)] == [a, b, Token(Eof, "", 2)];
  }

  /** A line holding only a comment lexes to the lone end-of-file marker on line 0. */
  lemma LexComment(l: string)
    requires l == "// this is a comment"
    ensures Lex([l]) == Ok([Token(Eof, "", 0)])
  {
    LexerProperties.CommentOnlyInput([l]);
  }

  // ---------------------------------------------------------------------------------
  // Parser

  function Op(k: OpKind): Operator {
    Operator(k, 1)
  }

  /** The lexemes the lexer gives the test's numbers. */
  function Digits(n: real): string {
    if n == 1.0 then "1" else if n == 2.0 then "2" else if n == 3.0 then "3"
    else if n == 6.0 then "6" else "0"
  }

  /** `1 + 2 * -3`: `*` binds tighter than `+`, and unary minus tighter than `*`. */
  lemma ParseUnaryBinary(t: seq<Token>)
    requires t == [Tok(TokenKind.Number(1.0), "1"), Tok(Plus, "+"), Tok(TokenKind.Number(2.0), "2"),
                   Tok(Star, "*"), Tok(Minus, "-"), Tok(TokenKind.Number(3.0), "3")]
    ensures Expression(Collapse, t) ==
      Parsed(Ok(BinaryExpr(Num(1.0), Op(Add), BinaryExpr(Num(2.0), Op(Multiply), UnaryExpr(Op(Subtract), Num(3.0))))), [])
  {
    var e := BinaryExpr(Num(1.0), Op(Add), BinaryExpr(Num(2.0), Op(Multiply), UnaryExpr(Op(Subtract), Num(3.0))));
    assert Printer.Unparse(e, Digits) + [] == t;
    Printer.ExpressionRoundTrip(Collapse, e, [], Digits);
  }

  /** `6 / 3 - 1`: operators of one level associate to the left. */
  lemma ParseLeftAssociative(t: seq<Token>)
    requires t == [Tok(TokenKind.Number(6.0), "6"), Tok(Slash, "/"), Tok(TokenKind.Number(3.0), "3"),
                   Tok(Minus, "-"), Tok(TokenKind.Number(1.0), "1")]
    ensures Expression(Collapse, t) ==
      Parsed(Ok(BinaryExpr(BinaryExpr(Num(6.0), Op(Divide), Num(3.0)), Op(Subtract), Num(1.0))), [])
  {
    var e := BinaryExpr(BinaryExpr(Num(6.0), Op(Divide), Num(3.0)), Op(Subtract), Num(1.0));
    assert Printer.Unparse(e, Digits) + [] == t;
    Printer.ExpressionRoundTrip(Collapse, e, [], Digits);
  }

  /** `'a' == 'b'`: an equality of two string literals. */
  lemma ParseEquality(t: seq<Token>)
    requires t == [Token(TokenKind.String("a"), "\"a\"", 1), Tok(TokenKind.EqualEqual, "=="),
                   Token(TokenKind.String("b"), "\"b\"", 1)]
    ensures Expression(Collapse, t) ==
      Parsed(Ok(BinaryExpr(ExprNode.Literal(Literal.String("a")), Op(OpKind.EqualEqual),
                           ExprNode.Literal(Literal.String("b")))), [])
  {
    var e := BinaryExpr(ExprNode.Literal(Literal.String("a")), Op(OpKind.EqualEqual), ExprNode.Literal(Literal.String("b")));
    assert "\"" + "a" + "\"" == "\"a\"" && "\"" + "b" + "\"" == "\"b\"";
    assert Printer.Unparse(e, Digits) + [] == t;
    Printer.ExpressionRoundTrip(Collapse, e, [], Digits);
  }

  /** `print("hello world");` followed by the end-of-file marker: a print statement of a
      grouping, the marker left in the queue. */
  lemma ParsePrintStatement(t: seq<Token>)
    requires t == [Tok(Print, "print"), Tok(LeftParen, "("),
                   Tok(TokenKind.String("\"hello world\""), "\"\"hello world\"\""),
                   Tok(RightParen, ")"), Tok(Semicolon, ";"), Eof1]
    ensures Statement(Collapse, t) ==
      StmtParsed(PrintStmt(Grouping(ExprNode.Literal(Literal.String("\"hello world\"")))), [Eof1])
  {
    var e := Grouping(ExprNode.Literal(Literal.String("\"hello world\"")));
    assert "\"" + "\"hello world\"" + "\"" == "\"\"hello world\"\"";
    assert [t[0]] + (Printer.Unparse(e, Digits) + ([t[4]] + [Eof1])) == t;
    Printer.PrintStatementRoundTrip(Collapse, e, t[0], t[4], [Eof1], Digits);
  }

  // ---------------------------------------------------------------------------------
  // Evaluator, on the trees the parser builds for the test expressions

  function Bin(a: ExprNode, k: OpKind, b: ExprNode): ExprNode {
    BinaryExpr(a, Op(k), b)
  }

  /** `!5` and `-2`. */
  lemma EvalUnary()
    ensures Eval(UnaryExpr(Op(OpKind.Bang), Num(5.0))) == Ok(Boolean(false))
    ensures Eval(UnaryExpr(Op(Subtract), Num(2.0))) == Ok(Literal.Number(-2.0))
  {
  }

  /** `1 + 2`, `1 - 2` and `1 + 2 - 3`. */
  lemma EvalAddSubtract()
    ensures Eval(Bin(Num(1.0), Add, Num(2.0))) == Ok(Literal.Number(3.0))
    ensures Eval(Bin(Num(1.0), Subtract, Num(2.0))) == Ok(Literal.Number(-1.0))
    ensures Eval(Bin(Bin(Num(1.0), Add, Num(2.0)), Subtract, Num(3.0))) == Ok(Literal.Number(0.0))
  {
  }

  /** `1 * 2`, `1 / 2` and `1 * 2 / 3`. */
  lemma EvalMultiplyDivide()
    ensures Eval(Bin(Num(1.0), Multiply, Num(2.0))) == Ok(Literal.Number(2.0))
    ensures Eval(Bin(Num(1.0), Divide, Num(2.0))) == Ok(Literal.Number(0.5))
    ensures Eval(Bin(Bin(Num(1.0), Multiply, Num(2.0)), Divide, Num(3.0))) == Ok(Literal.Number(2.0 / 3.0))
  {
  }

  /** `1 +(2 * 3)`, `(1 + 2) * 3`, `(1 + 2) * (3 + 4)` and `3 * (1 + 2)`. */
  lemma EvalGrouping()
    ensures Eval(Bin(Num(1.0), Add, Grouping(Bin(Num(2.0), Multiply, Num(3.0))))) == Ok(Literal.Number(7.0))
    ensures Eval(Bin(Grouping(Bin(Num(1.0), Add, Num(2.0))), Multiply, Num(3.0))) == Ok(Literal.Number(9.0))
    ensures Eval(Bin(Grouping(Bin(Num(1.0), Add, Num(2.0))), Multiply, Grouping(Bin(Num(3.0), Add, Num(4.0)))))
      == Ok(Literal.Number(21.0))
    ensures Eval(Bin(Num(3.0), Multiply, Grouping(Bin(Num(1.0), Add, Num(2.0))))) == Ok(Literal.Number(9.0))
  {
  }

  /** `1 > 2`, `1 < 2`, and `1 >= 2`, `1 <= 2` as the parser converts them under
      `Collapse`. */
  lemma EvalComparison()
    ensures Eval(Bin(Num(1.0), GreaterThan, Num(2.0))) == Ok(Boolean(false))
    ensures Eval(Bin(Num(1.0), LessThan, Num(2.0))) == Ok(Boolean(true))
    ensures TryFrom(Collapse, Tok(GreaterEqual, ">=")) == Some(Op(GreaterThan))
    ensures TryFrom(Collapse, Tok(LessEqual, "<=")) == Some(Op(LessThan))
  {
  }

  /** `1 == 1`, `1 == 2`, `1 != 2` and `1 != 1`. */
  lemma EvalEquality()
    ensures Eval(Bin(Num(1.0), OpKind.EqualEqual, Num(1.0))) == Ok(Boolean(true))
    ensures Eval(Bin(Num(1.0), OpKind.EqualEqual, Num(2.0))) == Ok(Boolean(false))
    ensures Eval(Bin(Num(1.0), NotEqual, Num(2.0))) == Ok(Boolean(true))
    ensures Eval(Bin(Num(1.0), NotEqual, Num(1.0))) == Ok(Boolean(false))
  {
  }
}
