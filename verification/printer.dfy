/** A printer from trees to token queues, and the round trip it completes with the parser:
    every tree of the shape the parser builds is parsed back from its printed tokens,
    whatever follows them, provided what follows cannot extend the expression. */
module Printer {
  import opened Outcomes
  import opened Lexer
  import opened Ast
  import opened Parser
  import ParserProperties

  /** The token a literal is written as. A tree does not record where its literals were,
      so literal and bracket tokens are written on line 1; how a number is spelled is
      passed in as `display`. */
  function LiteralToken(v: Literal, display: real -> string): (t: Token)
    ensures LiteralOf(t.kind) == Some(v)
  {
    match v
    case Number(n) => Token(TokenKind.Number(n), display(n), 1)
    case String(s) => Token(TokenKind.String(s), "\"" + s + "\"", 1)
    case Boolean(b) => if b then Token(True, "true", 1) else Token(False, "false", 1)
    case Nil => Token(TokenKind.Nil, "nil", 1)
  }

  /** The tokens of a tree in source order: a grouping in brackets, a unary operator
      before its operand, a binary operator between its operands. */
  function Unparse(e: ExprNode, display: real -> string): (t: seq<Token>)
    ensures |t| > 0
    ensures LiteralOf(t[0].kind).Some? || t[0].kind == LeftParen || t[0].kind in OperatorKinds
    ensures e.Literal? ==> t == [LiteralToken(e.value, display)]
    ensures e.Grouping? ==> t[0].kind == LeftParen
    ensures e.UnaryExpr? ==> t[0] == OperatorToken(e.op)
  {
    match e
    case Literal(v) => [LiteralToken(v, display)]
    case Grouping(child) => [Token(LeftParen, "(", 1)] + Unparse(child, display) + [Token(RightParen, ")", 1)]
    case UnaryExpr(op, right) => [OperatorToken(op)] + Unparse(right, display)
    case BinaryExpr(left, op, right) => Unparse(left, display) + [OperatorToken(op)] + Unparse(right, display)
  }

  /** A printed tree of the parser's shape starts with a token that can start an
      expression: the leftmost leaf of a binary chain is a literal, a grouping or a unary
      `!`/`-` node. */
  lemma {:induction false} UnparseStarts(level: nat, e: ExprNode, display: real -> string)
    requires level <= 5 && Shaped(level, e)
    ensures ParserProperties.StartsExpression(Unparse(e, display)[0].kind)
    decreases e, 5 - level
  {
    if level < 4 {
      if e.BinaryExpr? && OpLevel(e.op.kind) == Some(level) && Shaped(level, e.left) {
        UnparseStarts(level, e.left, display);
        assert Unparse(e, display)[0] == Unparse(e.left, display)[0];
      } else {
        UnparseStarts(level + 1, e, display);
      }
    } else if level == 4 && !Shaped(5, e) {
      assert Unparse(e, display)[0] == OperatorToken(e.op);
    }
  }

  /** The operator tokens of binary levels `level` to 3. */
  function KindsFrom(level: nat): (ks: set<TokenKind>)
    requires level <= 4
    ensures level < 4 ==> LevelKinds(level) <= ks
    decreases 4 - level
  {
    if level == 4 then {} else LevelKinds(level) + KindsFrom(level + 1)
  }

  /** What follows a printed expression of `level` cannot extend it: the queue is empty
      or its head is no operator of that level or a deeper one. */
  predicate Stops(level: nat, s: seq<Token>)
    requires level <= 4
  {
    |s| == 0 || s[0].kind !in KindsFrom(level)
  }

  /** No deeper level matches a level's own operators, nor a bracket. */
  lemma {:induction false} KindsFromExcludes(level: nat, k: TokenKind)
    requires level <= 4
    ensures k in KindsFrom(level) ==> k in OperatorKinds && (exists j :: level <= j < 4 && k in LevelKinds(j))
    ensures level < 4 && k in LevelKinds(level) ==> k !in KindsFrom(level + 1)
    ensures RightParen !in KindsFrom(level)
    decreases 4 - level
  {
    if level < 4 {
      KindsFromExcludes(level + 1, k);
    }
  }

  /** An operator of a binary level is written as a token of that level. */
  lemma OperatorTokenLevel(op: Operator, level: nat)
    requires level < 4 && OpLevel(op.kind) == Some(level)
    ensures OperatorToken(op).kind in LevelKinds(level)
  {
  }

  lemma StopsDeeper(level: nat, s: seq<Token>)
    requires level < 4 && Stops(level, s)
    ensures Stops(level + 1, s)
  {
  }

  /** The head of a queue and what follows it. */
  lemma Uncons(x: Token, s: seq<Token>)
    ensures ([x] + s)[0] == x && ([x] + s)[1..] == s
  {
  }

  // ---------------------------------------------------------------------------------
  // Single steps of the parser

  lemma UnaryOperatorStep(conv: Conversion, tok: Token, rest: seq<Token>, r: ExprNode, s: seq<Token>)
    requires tok.kind in UnaryKinds && Unary(conv, rest) == Parsed(Ok(r), s)
    ensures Unary(conv, [tok] + rest) == Parsed(Ok(UnaryExpr(TryFrom(conv, tok).value, r)), s)
  {
    Uncons(tok, rest);
  }

  lemma BinaryStep(conv: Conversion, level: nat, t: seq<Token>, x: ExprNode, rest: seq<Token>)
    requires level < 4 && Operand(conv, level, t) == Parsed(Ok(x), rest)
    ensures Binary(conv, level, t) == BinaryLoop(conv, level, x, rest)
  {
  }

  lemma LoopOperatorStep(conv: Conversion, level: nat, node: ExprNode, tok: Token, rest: seq<Token>,
                         r: ExprNode, s: seq<Token>)
    requires level < 4 && tok.kind in LevelKinds(level) && Operand(conv, level, rest) == Parsed(Ok(r), s)
    ensures BinaryLoop(conv, level, node, [tok] + rest)
      == BinaryLoop(conv, level, BinaryExpr(node, TryFrom(conv, tok).value, r), s)
  {
    Uncons(tok, rest);
  }

  lemma LoopStopStep(conv: Conversion, level: nat, node: ExprNode, t: seq<Token>)
    requires level < 4 && (|t| == 0 || t[0].kind !in LevelKinds(level))
    ensures BinaryLoop(conv, level, node, t) == Parsed(Ok(node), t)
  {
  }

  lemma ExprStatementStep(conv: Conversion, t: seq<Token>, x: ExprNode, semi: Token, s: seq<Token>)
    requires |t| > 0 && t[0].kind != Print && semi.kind == Semicolon
    requires Expression(conv, t) == Parsed(Ok(x), [semi] + s)
    ensures Statement(conv, t) == StmtParsed(ExprStmt(x), s)
  {
    Uncons(semi, s);
  }

  lemma PrintStatementStep(conv: Conversion, pr: Token, t: seq<Token>, x: ExprNode, semi: Token, s: seq<Token>)
    requires pr.kind == Print && semi.kind == Semicolon
    requires Expression(conv, t) == Parsed(Ok(x), [semi] + s)
    ensures Statement(conv, [pr] + t) == StmtParsed(PrintStmt(x), s)
  {
    Uncons(pr, t);
    Uncons(semi, s);
  }

  // ---------------------------------------------------------------------------------
  // Parsing back

  /** A printed primary parses back to itself; `primary` never looks past it. */
  lemma {:induction false} PrimaryRoundTrip(conv: Conversion, e: ExprNode, s: seq<Token>, display: real -> string)
    requires Shaped(5, e)
    ensures Primary(conv, Unparse(e, display) + s) == Parsed(Ok(e), s)
    decreases e, 1
  {
    var t := Unparse(e, display) + s;
    if e.Literal? {
      Uncons(LiteralToken(e.value, display), s);
    } else {
      var open, close := Token(LeftParen, "(", 1), Token(RightParen, ")", 1);
      var after := [close] + s;
      assert t == [open] + (Unparse(e.child, display) + after);
      Uncons(open, Unparse(e.child, display) + after);
      KindsFromExcludes(0, RightParen);
      BinaryRoundTrip(conv, 0, e.child, after, display);
      Uncons(close, s);
    }
  }

  /** The tokens of a unary tree, then `s`. */
  lemma UnparseUnaryThen(e: ExprNode, s: seq<Token>, display: real -> string)
    requires e.UnaryExpr?
    ensures Unparse(e, display) + s == [OperatorToken(e.op)] + (Unparse(e.right, display) + s)
  {
    var tok, r := OperatorToken(e.op), Unparse(e.right, display);
    assert Unparse(e, display) == [tok] + r;
    assert ([tok] + r) + s == [tok] + (r + s);
  }

  /** The tokens of a binary tree, then `s`. */
  lemma UnparseBinaryThen(e: ExprNode, s: seq<Token>, display: real -> string)
    requires e.BinaryExpr?
    ensures Unparse(e, display) + s ==
      Unparse(e.left, display) + ([OperatorToken(e.op)] + (Unparse(e.right, display) + s))
  {
    var l, tok, r := Unparse(e.left, display), OperatorToken(e.op), Unparse(e.right, display);
    assert Unparse(e, display) == l + [tok] + r;
    Regroup(l, [tok], r, s);
  }

  lemma Regroup(a: seq<Token>, b: seq<Token>, c: seq<Token>, d: seq<Token>)
    ensures (a + b + c) + d == a + (b + (c + d))
  {
  }

  /** A tree of the unary level is a unary operator applied to one, or a primary. */
  lemma UnaryLevelCases(e: ExprNode)
    requires Shaped(4, e)
    ensures IsUnaryOfShape(e) || Shaped(5, e)
  {
  }

  predicate IsUnaryOfShape(e: ExprNode) {
    e.UnaryExpr? && (e.op.kind == OpKind.Bang || e.op.kind == Subtract) && Shaped(4, e.right)
  }

  /** A printed primary does not start with a unary operator. */
  lemma PrimaryHead(e: ExprNode, s: seq<Token>, display: real -> string)
    requires Shaped(5, e)
    ensures |Unparse(e, display) + s| > 0 && (Unparse(e, display) + s)[0].kind !in UnaryKinds
  {
    assert (Unparse(e, display) + s)[0] == Unparse(e, display)[0];
  }

  /** A printed unary operator is taken back with its printed operand. */
  lemma UnaryOperatorBack(conv: Conversion, e: ExprNode, s: seq<Token>, display: real -> string)
    requires IsUnaryOfShape(e)
    requires Unary(conv, Unparse(e.right, display) + s) == Parsed(Ok(e.right), s)
    ensures Unary(conv, Unparse(e, display) + s) == Parsed(Ok(e), s)
  {
    var tok := OperatorToken(e.op);
    UnparseUnaryThen(e, s, display);
    ParserProperties.OperatorRoundTrip(conv, e.op, tok);
    UnaryOperatorStep(conv, tok, Unparse(e.right, display) + s, e.right, s);
  }

  /** A printed primary is taken back by `unary` as `primary` takes it. */
  lemma UnaryPrimaryBack(conv: Conversion, e: ExprNode, s: seq<Token>, display: real -> string)
    requires Shaped(5, e)
    requires Primary(conv, Unparse(e, display) + s) == Parsed(Ok(e), s)
    ensures Unary(conv, Unparse(e, display) + s) == Parsed(Ok(e), s)
  {
    PrimaryHead(e, s, display);
    ParserProperties.UnaryPrimaryStep(conv, Unparse(e, display) + s);
  }

  /** A printed unary parses back to itself; `unary` never looks past it. */
  lemma {:induction false} UnaryRoundTrip(conv: Conversion, e: ExprNode, s: seq<Token>, display: real -> string)
    requires Shaped(4, e)
    ensures Unary(conv, Unparse(e, display) + s) == Parsed(Ok(e), s)
    decreases e, 2
  {
    UnaryLevelCases(e);
    if IsUnaryOfShape(e) {
      UnaryRoundTrip(conv, e.right, s, display);
      UnaryOperatorBack(conv, e, s, display);
    } else {
      PrimaryRoundTrip(conv, e, s, display);
      UnaryPrimaryBack(conv, e, s, display);
    }
  }

  /** A printed operand of `level` parses back to itself when what follows cannot extend
      it. */
  lemma {:induction false} OperandRoundTrip(conv: Conversion, level: nat, e: ExprNode, s: seq<Token>, display: real -> string)
    requires level < 4 && Shaped(level + 1, e) && Stops(level + 1, s)
    ensures Operand(conv, level, Unparse(e, display) + s) == Parsed(Ok(e), s)
    decreases e, 12 - 3 * level
  {
    if level < 3 {
      BinaryRoundTrip(conv, level + 1, e, s, display);
    } else {
      UnaryRoundTrip(conv, e, s, display);
    }
  }

  /** A printed chain of `level` parses as the chain itself handed to the operator loop
      of that level, whatever follows, provided no deeper level can take it. */
  lemma {:induction false} ChainRoundTrip(conv: Conversion, level: nat, e: ExprNode, s: seq<Token>, display: real -> string)
    requires level < 4 && Shaped(level, e) && Stops(level + 1, s)
    ensures Binary(conv, level, Unparse(e, display) + s) == BinaryLoop(conv, level, e, s)
    decreases e, 13 - 3 * level
  {
    if e.BinaryExpr? && OpLevel(e.op.kind) == Some(level) && Shaped(level, e.left) && Shaped(level + 1, e.right) {
      var tok := OperatorToken(e.op);
      var after := [tok] + (Unparse(e.right, display) + s);
      UnparseBinaryThen(e, s, display);
      OperatorTokenLevel(e.op, level);
      KindsFromExcludes(level, tok.kind);
      ChainRoundTrip(conv, level, e.left, after, display);
      OperandRoundTrip(conv, level, e.right, s, display);
      ParserProperties.OperatorRoundTrip(conv, e.op, tok);
      LoopOperatorStep(conv, level, e.left, tok, Unparse(e.right, display) + s, e.right, s);
    } else {
      OperandRoundTrip(conv, level, e, s, display);
      BinaryStep(conv, level, Unparse(e, display) + s, e, s);
    }
  }

  /** A printed expression of `level` parses back to itself when what follows cannot
      extend it. */
  lemma {:induction false} BinaryRoundTrip(conv: Conversion, level: nat, e: ExprNode, s: seq<Token>, display: real -> string)
    requires level < 4 && Shaped(level, e) && Stops(level, s)
    ensures Binary(conv, level, Unparse(e, display) + s) == Parsed(Ok(e), s)
    decreases e, 14 - 3 * level
  {
    StopsDeeper(level, s);
    ChainRoundTrip(conv, level, e, s, display);
    LoopStopStep(conv, level, e, s);
  }

  /** The round trip: every tree of the parser's shape is parsed back from its printed
      tokens, leaving exactly what followed them, under any conversion of `>=` and `<=`
      (the printer never writes those tokens). */
  lemma ExpressionRoundTrip(conv: Conversion, e: ExprNode, s: seq<Token>, display: real -> string)
    requires Shaped(0, e) && Stops(0, s)
    ensures Expression(conv, Unparse(e, display) + s) == Parsed(Ok(e), s)
  {
    BinaryRoundTrip(conv, 0, e, s, display);
  }

  /** A printed expression followed by `;` parses back, leaving the `;`; its first token
      is no `print`. */
  lemma ExpressionThenSemicolon(conv: Conversion, e: ExprNode, semi: Token, s: seq<Token>, display: real -> string)
    requires Shaped(0, e) && semi.kind == Semicolon
    ensures var t := Unparse(e, display) + ([semi] + s);
      Expression(conv, t) == Parsed(Ok(e), [semi] + s) && t[0].kind != Print
  {
    assert Stops(0, [semi] + s) by {
      KindsFromExcludes(0, Semicolon);
      Uncons(semi, s);
    }
    ExpressionRoundTrip(conv, e, [semi] + s, display);
    FirstTokenIsNoPrint(e, [semi] + s, display);
  }

  lemma FirstTokenIsNoPrint(e: ExprNode, s: seq<Token>, display: real -> string)
    ensures (Unparse(e, display) + s)[0].kind != Print
  {
    var u := Unparse(e, display);
    assert (u + s)[0] == u[0];
  }

  /** The same round trip one level up: a printed expression followed by `;` is an
      expression statement ... */
  lemma ExprStatementRoundTrip(conv: Conversion, e: ExprNode, semi: Token, s: seq<Token>, display: real -> string)
    requires Shaped(0, e) && semi.kind == Semicolon
    ensures Statement(conv, Unparse(e, display) + ([semi] + s)) == StmtParsed(ExprStmt(e), s)
  {
    ExpressionThenSemicolon(conv, e, semi, s, display);
    ExprStatementStep(conv, Unparse(e, display) + ([semi] + s), e, semi, s);
  }

  /** ... and after a `print` token a print statement. */
  lemma PrintStatementRoundTrip(conv: Conversion, e: ExprNode, pr: Token, semi: Token, s: seq<Token>, display: real -> string)
    requires Shaped(0, e) && pr.kind == Print && semi.kind == Semicolon
    ensures Statement(conv, [pr] + (Unparse(e, display) + ([semi] + s))) == StmtParsed(PrintStmt(e), s)
  {
    ExpressionThenSemicolon(conv, e, semi, s, display);
    PrintStatementStep(conv, pr, Unparse(e, display) + ([semi] + s), e, semi, s);
  }
}
