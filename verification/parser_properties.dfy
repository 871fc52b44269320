/** What the parser promises: operator conversion, which heads make progress, the four
    outcomes of a statement, and how the top-level loop behaves on lexer output. */
module ParserProperties {
  import opened Outcomes
  import opened Lexer
  import opened Ast
  import opened Parser

  // ---------------------------------------------------------------------------------
  // Operators

  /** Writing an operator as its token and converting the token back gives the operator,
      whatever the conversion; a converted token other than `>=` and `<=` is written back
      as the same kind. */
  lemma OperatorRoundTrip(conv: Conversion, op: Operator, token: Token)
    ensures TryFrom(conv, OperatorToken(op)) == Some(op)
    ensures TryFrom(conv, token) == Some(op) && token.kind != GreaterEqual && token.kind != LessEqual
      ==> OperatorToken(op).kind == token.kind
  {
  }

  /** The level sets partition the binary operator tokens: no token belongs to two levels,
      and none of them is a unary-only token or the end-of-file marker. */
  lemma LevelsDisjoint(i: nat, j: nat, k: TokenKind)
    requires i < 4 && j < 4 && i != j
    ensures !(k in LevelKinds(i) && k in LevelKinds(j))
    ensures Eof !in LevelKinds(i) && TokenKind.Bang !in LevelKinds(i)
  {
  }

  // ---------------------------------------------------------------------------------
  // Messages

  lemma UnsupportedMarks(kd: string)
    requires |kd| > 0
    ensures var m := "unsupported token " + kd + " in expression";
      |m| > 20 && m[0] == 'u' && m[18..18 + |kd|] == kd
  {
    var m := "unsupported token " + kd + " in expression";
    assert m == "unsupported token " + (kd + " in expression");
  }

  lemma ExpectedMarks(a: string, b: string)
    ensures var m := "Expected token " + a + " but got " + b + " token";
      |m| > 20 && m[0] == 'E' && m[9] == 't'
  {
    var m := "Expected token " + a + " but got " + b + " token";
    assert m == "Expected token " + (a + " but got " + b + " token");
  }

  /** The characters that tell the four messages apart. */
  lemma MessageMarks(e: SyntaxError, debug: real -> string)
    ensures var m := SyntaxMessage(e, debug);
      && |m| > 20
      && (e.UnsupportedToken? ==> m[0] == 'u')
      && (e.UnsupportedToken? ==> m[18..18 + |KindDebug(e.kind, debug)|] == KindDebug(e.kind, debug))
      && (!e.UnsupportedToken? ==> m[0] == 'E')
      && (e.ExpectedToken? ==> m[9] == 't')
      && (e.SemicolonAfterStatement? ==> m[9] == '\'' && m[20] == ' ')
      && (e.SemicolonAfterExpression? ==> m[9] == '\'' && m[20] == 'n')
  {
    match e
    case UnsupportedToken(k) => UnsupportedMarks(KindDebug(k, debug));
    case ExpectedToken(expected, found) => ExpectedMarks(KindDebug(expected, debug), KindDebug(found, debug));
    case SemicolonAfterStatement =>
    case SemicolonAfterExpression =>
  }

  /** A syntax error's text tells which error it is, and an unsupported-token text
      carries the rendering of the offending kind right after its fixed prefix. */
  lemma SyntaxMessageIdentifiesError(a: SyntaxError, b: SyntaxError, debug: real -> string)
    requires SyntaxMessage(a, debug) == SyntaxMessage(b, debug)
    ensures a.UnsupportedToken? <==> b.UnsupportedToken?
    ensures a.ExpectedToken? <==> b.ExpectedToken?
    ensures a.SemicolonAfterStatement? <==> b.SemicolonAfterStatement?
    ensures a.UnsupportedToken? ==>
      SyntaxMessage(a, debug)[18..18 + |KindDebug(a.kind, debug)|] == KindDebug(a.kind, debug)
  {
    MessageMarks(a, debug);
    MessageMarks(b, debug);
  }

  // ---------------------------------------------------------------------------------
  // Progress

  /** The token kinds an expression can start with. */
  predicate StartsExpression(k: TokenKind) {
    LiteralOf(k).Some? || k == LeftParen || k == TokenKind.Bang || k == Minus
  }

  /** A literal head is consumed alone. */
  lemma PrimaryLiteral(conv: Conversion, t: seq<Token>)
    requires |t| > 0 && LiteralOf(t[0].kind).Some?
    ensures Primary(conv, t) == Parsed(Ok(ExprNode.Literal(LiteralOf(t[0].kind).value)), t[1..])
  {
  }

  /** A `(` head is consumed before anything else. */
  lemma PrimaryGroupingConsumes(conv: Conversion, t: seq<Token>)
    requires |t| > 0 && t[0].kind == LeftParen
    ensures IsSuffix(Primary(conv, t).rest, t[1..])
  {
    var inner := Expression(conv, t[1..]);
    if inner.result.Ok? && |inner.rest| > 0 && inner.rest[0].kind == RightParen {
      DropHead(inner.rest);
      SuffixChain(inner.rest[1..], inner.rest, t[1..]);
    }
  }

  /** After the `(` and its expression: a `)` closes the grouping and is consumed; any
      other head is an unsupported token naming that head, and nothing more is consumed;
      an expression that fails is the grouping's failure, where the expression stopped. */
  lemma PrimaryGrouping(conv: Conversion, t: seq<Token>)
    requires |t| > 0 && t[0].kind == LeftParen
    ensures var inner := Expression(conv, t[1..]);
      && (inner.result.Ok? && |inner.rest| > 0 && inner.rest[0].kind == RightParen ==>
            Primary(conv, t) == Parsed(Ok(Grouping(inner.result.value)), inner.rest[1..]))
      && (inner.result.Ok? && |inner.rest| > 0 && inner.rest[0].kind != RightParen ==>
            Primary(conv, t) == Parsed(Err(UnsupportedToken(inner.rest[0].kind)), inner.rest))
      && (inner.result.Err? ==> Primary(conv, t) == Parsed(Err(inner.result.error), inner.rest))
  {
  }

  /** Any other head is an unsupported token, and nothing is consumed. */
  lemma PrimaryRejects(conv: Conversion, t: seq<Token>)
    requires |t| > 0 && LiteralOf(t[0].kind).None? && t[0].kind != LeftParen
    ensures Primary(conv, t) == Parsed(Err(UnsupportedToken(t[0].kind)), t)
  {
  }

  /** `primary` consumes nothing exactly when the head cannot start an expression (or
      is a unary operator, which `primary` itself does not parse), and then it fails
      naming the head. */
  lemma PrimaryProgress(conv: Conversion, t: seq<Token>)
    requires |t| > 0
    ensures Primary(conv, t).rest == t <==> !StartsExpression(t[0].kind) || t[0].kind in UnaryKinds
    ensures !StartsExpression(t[0].kind) ==> Primary(conv, t).result == Err(UnsupportedToken(t[0].kind))
  {
    if LiteralOf(t[0].kind).Some? {
      PrimaryLiteral(conv, t);
    } else if t[0].kind == LeftParen {
      PrimaryGroupingConsumes(conv, t);
    } else {
      PrimaryRejects(conv, t);
    }
  }

  /** `unary` is `primary` unless the head is a unary operator. */
  lemma UnaryPrimaryStep(conv: Conversion, t: seq<Token>)
    requires |t| > 0 && t[0].kind !in UnaryKinds
    ensures Unary(conv, t) == Primary(conv, t)
  {
  }

  /** A unary operator at the head is consumed before anything else. */
  lemma UnaryOperatorConsumes(conv: Conversion, t: seq<Token>)
    requires |t| > 0 && t[0].kind in UnaryKinds
    ensures IsSuffix(Unary(conv, t).rest, t[1..])
  {
  }

  lemma UnaryProgress(conv: Conversion, t: seq<Token>)
    requires |t| > 0
    ensures Unary(conv, t).rest == t <==> !StartsExpression(t[0].kind)
    ensures !StartsExpression(t[0].kind) ==> Unary(conv, t) == Parsed(Err(UnsupportedToken(t[0].kind)), t)
  {
    if t[0].kind in UnaryKinds {
      UnaryOperatorConsumes(conv, t);
    } else {
      UnaryPrimaryStep(conv, t);
      PrimaryProgress(conv, t);
    }
  }

  /** A binary level (and so `expression`) consumes nothing exactly when the head cannot
      start an expression, and then it fails with the head as an unsupported token. */
  lemma {:induction false} BinaryProgress(conv: Conversion, level: nat, t: seq<Token>)
    requires level < 4 && |t| > 0
    ensures Binary(conv, level, t).rest == t <==> !StartsExpression(t[0].kind)
    ensures !StartsExpression(t[0].kind) ==>
      Binary(conv, level, t) == Parsed(Err(UnsupportedToken(t[0].kind)), t)
    decreases 3 - level
  {
    if level < 3 {
      BinaryProgress(conv, level + 1, t);
    } else {
      UnaryProgress(conv, t);
    }
  }

  /** A print statement always consumes its `print` token. */
  lemma PrintStatementConsumes(conv: Conversion, t: seq<Token>)
    requires |t| > 0 && t[0].kind == Print
    ensures Statement(conv, t).StmtParsed? ==> |Statement(conv, t).rest| < |t|
  {
  }

  /** An expression statement leaves at most what its expression leaves, and an
      expression that fails becomes the error statement where it stopped. */
  lemma ExpressionStatementStep(conv: Conversion, t: seq<Token>)
    requires |t| > 0 && t[0].kind != Print
    ensures var e := Expression(conv, t);
      && (Statement(conv, t).StmtParsed? ==> IsSuffix(Statement(conv, t).rest, e.rest))
      && (e.result.Err? ==> Statement(conv, t) == StmtParsed(ErrStmt(e.result.error), e.rest))
  {
    var e := Expression(conv, t);
    if e.result.Ok? && |e.rest| > 0 {
      DropHead(e.rest);
    }
  }

  /** A statement consumes nothing exactly when its head can start neither an expression
      nor a print statement; it is then the error statement naming that head. A lone
      end-of-file marker is such a head. */
  lemma StatementProgress(conv: Conversion, t: seq<Token>)
    requires |t| > 0
    ensures Statement(conv, t).StmtParsed? && Statement(conv, t).rest == t <==>
      !StartsExpression(t[0].kind) && t[0].kind != Print
    ensures !StartsExpression(t[0].kind) && t[0].kind != Print ==>
      Statement(conv, t) == StmtParsed(ErrStmt(UnsupportedToken(t[0].kind)), t)
  {
    if t[0].kind == Print {
      PrintStatementConsumes(conv, t);
    } else {
      BinaryProgress(conv, 0, t);
      ExpressionStatementStep(conv, t);
    }
  }

  // ---------------------------------------------------------------------------------
  // Statements

  /** The four outcomes of `statement` on a queue that ends in the end-of-file marker: a
      print or expression statement when its expression parses and is followed by `;`,
      the matching "Expected ';'" error when the `;` is missing, and the expression's own
      error when it does not parse. */
  lemma StatementOutcomes(conv: Conversion, t: seq<Token>)
    requires EndsWithEof(t)
    ensures var isPrint := t[0].kind == Print;
      var e := Expression(conv, if isPrint then t[1..] else t);
      && (e.result.Err? ==> Statement(conv, t) == StmtParsed(ErrStmt(e.result.error), e.rest))
      && (e.result.Ok? && e.rest[0].kind == Semicolon ==>
            Statement(conv, t) == StmtParsed(
              if isPrint then PrintStmt(e.result.value) else ExprStmt(e.result.value), e.rest[1..]))
      && (e.result.Ok? && e.rest[0].kind != Semicolon ==>
            Statement(conv, t) == StmtParsed(
              ErrStmt(if isPrint then SemicolonAfterStatement else SemicolonAfterExpression), e.rest))
  {
    if t[0].kind == Print {
      DropHead(t);
    }
  }

  // ---------------------------------------------------------------------------------
  // The loop, for any step

  /** A step that consumes nothing is emitted again on every later iteration. */
  lemma {:induction false} LoopRepeats(step: seq<Token> -> StmtStep, t: seq<Token>, s: StmtNode, fuel: nat)
    requires step(t) == StmtParsed(s, t) && |t| > 0
    ensures Loop(step, t, fuel) == OutOfFuel(seq(fuel, _ => s))
    decreases fuel
  {
    if fuel > 0 {
      LoopRepeats(step, t, s, fuel - 1);
      assert [s] + seq(fuel - 1, _ => s) == seq(fuel, _ => s);
    }
  }

  /** A step that keeps the end-of-file marker never lets the queue run empty. */
  lemma {:induction false} LoopNeverFinishes(step: seq<Token> -> StmtStep, t: seq<Token>, fuel: nat)
    requires KeepsEof(step) && EndsWithEof(t)
    ensures Loop(step, t, fuel).OutOfFuel?
    decreases fuel
  {
    if fuel > 0 {
      LoopNeverFinishes(step, step(t).rest, fuel - 1);
    }
  }

  /** A finished run of a shrinking step made progress on every iteration, so it emitted
      at most one statement per token. */
  lemma {:induction false} LoopFinishedIsBounded(step: seq<Token> -> StmtStep, t: seq<Token>, fuel: nat)
    requires Shrinks(step) && Loop(step, t, fuel).Finished?
    ensures |Loop(step, t, fuel).stmts| <= |t|
    decreases fuel
  {
    if |t| > 0 {
      var s := step(t);
      if s.rest == t {
        LoopRepeats(step, t, s.stmt, fuel);
      } else {
        assert |s.rest| < |t|;
        LoopFinishedIsBounded(step, s.rest, fuel - 1);
      }
    }
  }

  /** More fuel does not change a run that finished. */
  lemma {:induction false} LoopFuelMonotone(step: seq<Token> -> StmtStep, t: seq<Token>, fuel: nat, more: nat)
    requires Loop(step, t, fuel).Finished? && fuel <= more
    ensures Loop(step, t, more) == Loop(step, t, fuel)
    decreases fuel
  {
    if |t| > 0 {
      LoopFuelMonotone(step, step(t).rest, fuel - 1, more - 1);
    }
  }

  // ---------------------------------------------------------------------------------
  // The `parse` loop

  /** A statement that consumes nothing is emitted again on every later iteration: the
      loop never ends. */
  lemma NoProgressRepeats(conv: Conversion, t: seq<Token>, s: StmtNode, fuel: nat)
    requires Statement(conv, t) == StmtParsed(s, t) && |t| > 0
    ensures ParseLoop(conv, t, fuel) == OutOfFuel(seq(fuel, _ => s))
  {
    LoopRepeats(StatementStep(conv), t, s, fuel);
  }

  /** `parse` never finishes on a queue that ends in the end-of-file marker: no statement
      removes the marker, so the queue never runs empty, whatever the bound. */
  lemma EofQueueNeverFinishes(conv: Conversion, t: seq<Token>, fuel: nat)
    requires EndsWithEof(t)
    ensures ParseLoop(conv, t, fuel).OutOfFuel?
  {
    StatementStepBehaves(conv);
    LoopNeverFinishes(StatementStep(conv), t, fuel);
  }

  /** In particular `parse` never finishes on anything `lex` returns. */
  lemma LexerOutputNeverParses(conv: Conversion, lines: seq<string>, fuel: nat)
    requires Lex(lines).Ok?
    ensures ParseLoop(conv, Lex(lines).value, fuel).OutOfFuel?
  {
    EofQueueNeverFinishes(conv, Lex(lines).value, fuel);
  }

  /** A run of `parse` that finished emitted at most one statement per token. */
  lemma FinishedRunIsBounded(conv: Conversion, t: seq<Token>, fuel: nat)
    requires ParseLoop(conv, t, fuel).Finished?
    ensures |ParseLoop(conv, t, fuel).stmts| <= |t|
  {
    StatementStepBehaves(conv);
    LoopFinishedIsBounded(StatementStep(conv), t, fuel);
  }

  /** More fuel does not change a run of `parse` that finished. */
  lemma FuelMonotone(conv: Conversion, t: seq<Token>, fuel: nat, more: nat)
    requires ParseLoop(conv, t, fuel).Finished? && fuel <= more
    ensures ParseLoop(conv, t, more) == ParseLoop(conv, t, fuel)
  {
    LoopFuelMonotone(StatementStep(conv), t, fuel, more);
  }

  // ---------------------------------------------------------------------------------
  // The corrected loop

  /** The loop as it is evidently meant to work: stop at the end-of-file marker, and stop
      after emitting a statement that consumed nothing, instead of emitting it forever. */
  function Program(step: seq<Token> -> StmtStep, t: seq<Token>): (r: Run)
    requires Shrinks(step)
    ensures !r.OutOfFuel?
    ensures r.Finished? ==> |r.stmts| <= |t|
    ensures KeepsEof(step) && EndsWithEof(t) ==> r.Finished?
    decreases |t|
  {
    if |t| == 0 || t[0].kind == Eof then Finished([])
    else
      match step(t)
      case StmtAborted(reason) => Aborted(reason)
      case StmtParsed(s, rest) =>
        if |rest| == |t| then Finished([s])
        else EmitThen(s, Program(step, rest))
  }

  /** The corrected loop emits exactly what the loop emits, up to the point where the
      loop starts emitting forever: run for as many iterations as the corrected loop
      emitted statements, the loop has emitted the same statements in the same order. */
  lemma {:induction false} ProgramAgreesWithLoop(step: seq<Token> -> StmtStep, t: seq<Token>)
    requires Shrinks(step) && KeepsEof(step) && EndsWithEof(t)
    ensures var p := Program(step, t).stmts;
      Loop(step, t, |p|) == OutOfFuel(p)
    decreases |t|
  {
    if t[0].kind != Eof {
      var s := step(t);
      assert s.StmtParsed? && EndsWithEof(s.rest) && IsSuffix(s.rest, t);
      if |s.rest| != |t| {
        ProgramAgreesWithLoop(step, s.rest);
        var p' := Program(step, s.rest).stmts;
        assert Program(step, t) == EmitThen(s.stmt, Finished(p'));
        assert Loop(step, t, |p'| + 1) == EmitThen(s.stmt, OutOfFuel(p'));
      } else {
        assert s.rest == t;
        assert Program(step, t) == Finished([s.stmt]);
      }
    }
  }

  /** `parse` as it is evidently meant to work: a finite run over the queue. */
  function ParseProgram(conv: Conversion, t: seq<Token>): (r: Run)
    ensures !r.OutOfFuel?
    ensures r.Finished? ==> |r.stmts| <= |t|
    ensures EndsWithEof(t) ==> r.Finished?
  {
    StatementStepBehaves(conv);
    Program(StatementStep(conv), t)
  }

  /** On every queue that ends in the end-of-file marker the corrected `parse` finishes,
      and its statements are exactly the first ones `parse` emits. */
  lemma ParseProgramAgreesWithParse(conv: Conversion, t: seq<Token>)
    requires EndsWithEof(t)
    ensures ParseProgram(conv, t).Finished?
    ensures var p := ParseProgram(conv, t).stmts;
      ParseLoop(conv, t, |p|) == OutOfFuel(p)
  {
    StatementStepBehaves(conv);
    ProgramAgreesWithLoop(StatementStep(conv), t);
  }
}
