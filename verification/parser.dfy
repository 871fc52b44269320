/** The recursive-descent parser of `lox_lib/src/parser.rs`. The token vector the source
    mutates in place is a queue here: every parse function takes the pending tokens and
    returns its result together with the tokens it left, which are always a suffix of
    what it was given. */
module Parser {
  import opened Outcomes
  import opened Text
  import opened Lexer
  import opened Ast

  // ---------------------------------------------------------------------------------
  // Operators

  /** The operator kinds the `>=` and `<=` tokens convert to; every other token kind has
      a fixed image. */
  datatype Conversion = Conversion(greaterEqual: OpKind, lessEqual: OpKind)

  /** The conversion that folds `>=` into `GreaterThan` and `<=` into `LessThan`. */
  const Collapse := Conversion(GreaterThan, LessThan)

  /** The token kinds that convert to an operator. */
  const OperatorKinds: set<TokenKind> := {
    Plus, Minus, Star, Slash, Greater, GreaterEqual, Less, LessEqual,
    TokenKind.Equal, BangEqual, TokenKind.EqualEqual, TokenKind.And, TokenKind.Or, TokenKind.Bang
  }

  /** `Operator::try_from(&Token)`: the operator a token stands for, on the token's line;
      None for a token that is no operator. */
  function TryFrom(conv: Conversion, token: Token): (r: Option<Operator>)
    ensures r.Some? <==> token.kind in OperatorKinds
    ensures r.Some? ==> r.value.line == token.line
  {
    var kind: Option<OpKind> :=
      match token.kind
      case Plus => Some(Add)
      case Minus => Some(Subtract)
      case Star => Some(Multiply)
      case Slash => Some(Divide)
      case Greater => Some(GreaterThan)
      case GreaterEqual => Some(conv.greaterEqual)
      case Less => Some(LessThan)
      case LessEqual => Some(conv.lessEqual)
      case Equal => Some(OpKind.Equal)
      case BangEqual => Some(NotEqual)
      case EqualEqual => Some(OpKind.EqualEqual)
      case And => Some(OpKind.And)
      case Or => Some(OpKind.Or)
      case Bang => Some(OpKind.Bang)
      case _ => None;
    if kind.Some? then Some(Operator(kind.value, token.line)) else None
  }

  /** The token an operator is written as: its one fixed source spelling. */
  function OperatorToken(op: Operator): (t: Token)
    ensures t.kind in OperatorKinds && t.line == op.line
  {
    match op.kind
    case Add => Token(Plus, "+", op.line)
    case Subtract => Token(Minus, "-", op.line)
    case Multiply => Token(Star, "*", op.line)
    case Divide => Token(Slash, "/", op.line)
    case GreaterThan => Token(Greater, ">", op.line)
    case LessThan => Token(Less, "<", op.line)
    case Equal => Token(TokenKind.Equal, "=", op.line)
    case EqualEqual => Token(TokenKind.EqualEqual, "==", op.line)
    case NotEqual => Token(BangEqual, "!=", op.line)
    case And => Token(TokenKind.And, "and", op.line)
    case Or => Token(TokenKind.Or, "or", op.line)
    case Bang => Token(TokenKind.Bang, "!", op.line)
  }

  /** The binary precedence level (0 equality .. 3 factor) of an operator, by the token it
      is written as; None for operators no binary level produces. */
  function OpLevel(k: OpKind): Option<nat> {
    match k
    case NotEqual => Some(0)    case EqualEqual => Some(0)
    case GreaterThan => Some(1) case LessThan => Some(1)
    case Add => Some(2)         case Subtract => Some(2)
    case Multiply => Some(3)    case Divide => Some(3)
    case _ => None
  }

  /** `>=` and `<=` convert to comparison operators, so every level builds only its own
      operators. `Collapse` does. */
  predicate KeepsLevels(conv: Conversion) {
    OpLevel(conv.greaterEqual) == Some(1) && OpLevel(conv.lessEqual) == Some(1)
  }

  /** The operator tokens each binary level matches: equality, comparison, term, factor. */
  function LevelKinds(level: nat): (ks: set<TokenKind>)
    requires level < 4
    ensures ks <= OperatorKinds
  {
    if level == 0 then {BangEqual, TokenKind.EqualEqual}
    else if level == 1 then {Less, Greater, LessEqual, GreaterEqual}
    else if level == 2 then {Plus, Minus}
    else {Star, Slash}
  }

  /** The operator a level's token converts to belongs to that level when the conversion
      keeps levels. */
  lemma TryFromLevel(conv: Conversion, level: nat, token: Token)
    requires level < 4 && token.kind in LevelKinds(level)
    ensures TryFrom(conv, token).Some?
    ensures KeepsLevels(conv) ==> OpLevel(TryFrom(conv, token).value.kind) == Some(level)
  {
  }

  /** The operator tokens `unary` matches. */
  const UnaryKinds: set<TokenKind> := {TokenKind.Bang, Minus}

  // ---------------------------------------------------------------------------------
  // The token queue

  /** `rest` is what is left of `t` after removing some tokens from its front. */
  predicate IsSuffix(rest: seq<Token>, t: seq<Token>) {
    |rest| <= |t| && rest == t[|t| - |rest|..]
  }

  /** The queue still holds its end-of-file marker, last. */
  predicate EndsWithEof(t: seq<Token>) {
    |t| > 0 && t[|t| - 1].kind == Eof
  }

  /** Removing the head token leaves a suffix, and keeps the end-of-file marker unless the
      head was it. */
  lemma DropHead(t: seq<Token>)
    requires |t| > 0
    ensures IsSuffix(t[1..], t)
    ensures EndsWithEof(t) && t[0].kind != Eof ==> EndsWithEof(t[1..])
  {
  }

  /** A suffix of a suffix is a suffix; a non-empty one keeps the end-of-file marker. */
  lemma SuffixChain(a: seq<Token>, b: seq<Token>, c: seq<Token>)
    requires IsSuffix(a, b) && IsSuffix(b, c)
    ensures IsSuffix(a, c)
    ensures EndsWithEof(c) && |a| > 0 ==> EndsWithEof(a)
  {
    assert c[|c| - |b|..][|b| - |a|..] == c[|c| - |a|..];
  }

  /** The result of a parse step and the tokens it left. */
  datatype Parsed<+T> = Parsed(result: Outcome<T, SyntaxError>, rest: seq<Token>)

  /** What every parse step promises about the queue: it only removes tokens from the
      front; it aborts only once the queue is empty; and a queue that ends in the
      end-of-file marker keeps it and never makes the step abort. */
  predicate Advances<T>(t: seq<Token>, p: Parsed<T>) {
    && IsSuffix(p.rest, t)
    && (p.result.Panic? ==> p.rest == [])
    && (EndsWithEof(t) ==> |p.rest| > 0 && !p.result.Panic?)
  }

  /** The message Rust gives for `tokens[0]` on an empty vector. */
  const IndexPanic := "index out of bounds: the len is 0 but the index is 0"

  /** The outcome of `match_operator_tokens`. */
  datatype Matched = Matched(op: Option<Operator>, rest: seq<Token>)

  /** `match_operator_tokens`: when the head token's kind is one of `kinds`, remove it and
      return its operator; otherwise leave the queue alone. Every kind asked for must
      convert to an operator (the conversion is unwrapped). */
  function MatchOperatorTokens(conv: Conversion, kinds: set<TokenKind>, t: seq<Token>): (m: Matched)
    requires kinds <= OperatorKinds
    ensures m.op.Some? <==> |t| > 0 && t[0].kind in kinds
    ensures m.op.Some? ==> m.op == TryFrom(conv, t[0]) && m.rest == t[1..]
    ensures m.op.None? ==> m.rest == t
  {
    if |t| > 0 && t[0].kind in kinds then Matched(TryFrom(conv, t[0]), t[1..])
    else Matched(None, t)
  }

  // ---------------------------------------------------------------------------------
  // Expressions

  /** The grammar the parser's trees obey, by level: 0 equality, 1 comparison, 2 term,
      3 factor, 4 unary, 5 primary. A binary node at a level carries that level's
      operator, a left operand of the same level and a right operand of the next one, so
      chains lean left; a unary node nests to the right; a grouping holds a whole
      expression. */
  predicate Shaped(level: nat, e: ExprNode)
    requires level <= 5
    decreases e, 5 - level
  {
    if level < 4 then
      || (e.BinaryExpr? && OpLevel(e.op.kind) == Some(level)
          && Shaped(level, e.left) && Shaped(level + 1, e.right))
      || Shaped(level + 1, e)
    else if level == 4 then
      || (e.UnaryExpr? && (e.op.kind == OpKind.Bang || e.op.kind == Subtract) && Shaped(4, e.right))
      || Shaped(5, e)
    else
      e.Literal? || (e.Grouping? && Shaped(0, e.child))
  }

  /** `expression`: an equality. */
  function Expression(conv: Conversion, t: seq<Token>): (p: Parsed<ExprNode>)
    ensures Advances(t, p) && (p.result.Ok? ==> |p.rest| < |t|)
    ensures KeepsLevels(conv) && p.result.Ok? ==> Shaped(0, p.result.value)
    decreases |t|, 11
  {
    Binary(conv, 0, t)
  }

  /** `binary_expression_match` at one level: an operand of the next level, then any
      number of this level's operators, each with its right operand. */
  function Binary(conv: Conversion, level: nat, t: seq<Token>): (p: Parsed<ExprNode>)
    requires level < 4
    ensures Advances(t, p) && (p.result.Ok? ==> |p.rest| < |t|)
    ensures KeepsLevels(conv) && p.result.Ok? ==> Shaped(level, p.result.value)
    decreases |t|, 10 - 2 * level
  {
    var left := Operand(conv, level, t);
    match left.result
    case Ok(node) => BinaryLoop(conv, level, node, left.rest)
    case Err(e) => Parsed(Err(e), left.rest)
    case Panic(m) => Parsed(Panic(m), left.rest)
  }

  /** The operand parser of a binary level: the next binary level, or `unary` below
      `factor`. */
  function Operand(conv: Conversion, level: nat, t: seq<Token>): (p: Parsed<ExprNode>)
    requires level < 4
    ensures Advances(t, p) && (p.result.Ok? ==> |p.rest| < |t|)
    ensures KeepsLevels(conv) && p.result.Ok? ==> Shaped(level + 1, p.result.value)
    decreases |t|, 9 - 2 * level
  {
    if level < 3 then Binary(conv, level + 1, t) else Unary(conv, t)
  }

  /** The `while let` loop of `binary_expression_match`: fold each matched operator and
      its right operand into the tree built so far, which becomes the left operand. */
  function BinaryLoop(conv: Conversion, level: nat, node: ExprNode, t: seq<Token>): (p: Parsed<ExprNode>)
    requires level < 4
    ensures Advances(t, p)
    ensures KeepsLevels(conv) && Shaped(level, node) && p.result.Ok? ==> Shaped(level, p.result.value)
    decreases |t|, 9 - 2 * level
  {
    var m := MatchOperatorTokens(conv, LevelKinds(level), t);
    match m.op
    case None => Parsed(Ok(node), t)
    case Some(op) =>
      DropHead(t);
      var right := Operand(conv, level, m.rest);
      SuffixChain(right.rest, m.rest, t);
      match right.result
      case Ok(r) =>
        TryFromLevel(conv, level, t[0]);
        var p := BinaryLoop(conv, level, BinaryExpr(node, op, r), right.rest);
        SuffixChain(p.rest, right.rest, t);
        p
      case Err(e) => Parsed(Err(e), right.rest)
      case Panic(msg) => Parsed(Panic(msg), right.rest)
  }

  /** `unary`: `!` or `-` followed by a unary, or a primary. */
  function Unary(conv: Conversion, t: seq<Token>): (p: Parsed<ExprNode>)
    ensures Advances(t, p) && (p.result.Ok? ==> |p.rest| < |t|)
    ensures KeepsLevels(conv) && p.result.Ok? ==> Shaped(4, p.result.value)
    decreases |t|, 2
  {
    var m := MatchOperatorTokens(conv, UnaryKinds, t);
    match m.op
    case None => Primary(conv, t)
    case Some(op) =>
      var right := Unary(conv, m.rest);
      match right.result
      case Ok(r) => Parsed(Ok(UnaryExpr(op, r)), right.rest)
      case Err(e) => Parsed(Err(e), right.rest)
      case Panic(msg) => Parsed(Panic(msg), right.rest)
  }

  /** The literal a literal token stands for. */
  function LiteralOf(kind: TokenKind): Option<Literal> {
    match kind
    case Number(n) => Some(Literal.Number(n))
    case String(s) => Some(Literal.String(s))
    case False => Some(Boolean(false))
    case True => Some(Boolean(true))
    case Nil => Some(Literal.Nil)
    case _ => None
  }

  /** `primary` (`match_literals`): a literal token, or `(` expression `)`. Any other head,
      and a grouping whose `)` is missing, is an unsupported token: the error names the
      head token at that point and consumes nothing more. */
  function Primary(conv: Conversion, t: seq<Token>): (p: Parsed<ExprNode>)
    ensures Advances(t, p) && (p.result.Ok? ==> |p.rest| < |t|)
    ensures KeepsLevels(conv) && p.result.Ok? ==> Shaped(5, p.result.value)
    decreases |t|, 1
  {
    if |t| == 0 then Parsed(Panic(IndexPanic), [])
    else if LiteralOf(t[0].kind).Some? then
      Parsed(Ok(ExprNode.Literal(LiteralOf(t[0].kind).value)), t[1..])
    else if t[0].kind == LeftParen then
      var inner := Expression(conv, t[1..]);
      (match inner.result
       case Ok(e) =>
         if |inner.rest| == 0 then Parsed(Panic(IndexPanic), [])
         else if inner.rest[0].kind == RightParen then Parsed(Ok(Grouping(e)), inner.rest[1..])
         else Parsed(Err(UnsupportedToken(inner.rest[0].kind)), inner.rest)
       case Err(e) => Parsed(Err(e), inner.rest)
       case Panic(m) => Parsed(Panic(m), inner.rest))
    else Parsed(Err(UnsupportedToken(t[0].kind)), t)
  }

  // ---------------------------------------------------------------------------------
  // Statements

  /** `consume`: remove the head token when it has the expected kind. */
  function Consume(expected: TokenKind, t: seq<Token>): (p: Parsed<()>)
    ensures p.result.Ok? <==> |t| > 0 && t[0].kind == expected
    ensures p.result.Ok? ==> p.rest == t[1..]
    ensures p.result.Err? ==> |t| > 0 && p.rest == t && p.result.error == ExpectedToken(expected, t[0].kind)
    ensures p.result.Panic? <==> |t| == 0
  {
    if |t| == 0 then Parsed(Panic("Expected token in fn consume"), [])
    else if t[0].kind == expected then Parsed(Ok(()), t[1..])
    else Parsed(Err(ExpectedToken(expected, t[0].kind)), t)
  }

  /** `print_stmt`: drop the `print` token, then an expression and its `;`. */
  function PrintStatement(conv: Conversion, t: seq<Token>): (p: Parsed<StmtNode>)
    requires |t| > 0 && t[0].kind == Print
    ensures Advances(t, p) && |p.rest| < |t|
    ensures p.result.Ok? ==> p.result.value.PrintStmt?
    ensures p.result.Err? && Expression(conv, t[1..]).result.Ok? ==>
      p.result.error == SemicolonAfterStatement
  {
    var e := Expression(conv, t[1..]);
    match e.result
    case Err(err) => Parsed(Err(err), e.rest)
    case Panic(m) => Parsed(Panic(m), e.rest)
    case Ok(x) =>
      var c := Consume(Semicolon, e.rest);
      match c.result
      case Ok(_) => Parsed(Ok(PrintStmt(x)), c.rest)
      case Err(_) => Parsed(Err(SemicolonAfterStatement), c.rest)
      case Panic(m) => Parsed(Panic(m), c.rest)
  }

  /** The text a syntax error is reported with (`to_string` of the source's `anyhow`
      errors); token kinds are rendered with `Debug`. */
  function SyntaxMessage(e: SyntaxError, debug: real -> string): (s: string)
    ensures |s| > 0
  {
    match e
    case UnsupportedToken(k) => "unsupported token " + KindDebug(k, debug) + " in expression"
    case ExpectedToken(expected, found) =>
      "Expected token " + KindDebug(expected, debug) + " but got " + KindDebug(found, debug) + " token"
    case SemicolonAfterStatement => "Expected ';' after a statement"
    case SemicolonAfterExpression => "Expected ';' after an expression"
  }

  /** The outcome of `statement`: a statement node and the tokens left, or an abort. */
  datatype StmtStep = StmtParsed(stmt: StmtNode, rest: seq<Token>) | StmtAborted(reason: string)

  /** `statement`: a print statement or an expression statement; a failure becomes an
      `ErrStmt` carrying its reason. On a queue ending in the end-of-file marker it never
      aborts and leaves the marker in place. */
  function Statement(conv: Conversion, t: seq<Token>): (s: StmtStep)
    ensures s.StmtParsed? ==> IsSuffix(s.rest, t)
    ensures EndsWithEof(t) ==> s.StmtParsed? && EndsWithEof(s.rest)
  {
    if |t| == 0 then StmtAborted("No tokens in statement")
    else if t[0].kind == Print then
      var p := PrintStatement(conv, t);
      (match p.result
       case Ok(stmt) => StmtParsed(stmt, p.rest)
       case Err(e) => StmtParsed(ErrStmt(e), p.rest)
       case Panic(m) => StmtAborted(m))
    else
      var e := Expression(conv, t);
      match e.result
      case Err(err) => StmtParsed(ErrStmt(err), e.rest)
      case Panic(m) => StmtAborted(m)
      case Ok(x) =>
        var c := Consume(Semicolon, e.rest);
        match c.result
        case Ok(_) => StmtParsed(ExprStmt(x), c.rest)
        case Err(_) => StmtParsed(ErrStmt(SemicolonAfterExpression), c.rest)
        case Panic(m) => StmtAborted(m)
  }

  /** How a bounded run of the `parse` loop ended: the queue ran empty, a statement
      aborted, or the bound ran out with the statements emitted so far. */
  datatype Run = Finished(stmts: seq<StmtNode>) | Aborted(reason: string) | OutOfFuel(emitted: seq<StmtNode>)

  /** `statement` as a step function of the loop. */
  function StatementStep(conv: Conversion): seq<Token> -> StmtStep {
    t => Statement(conv, t)
  }

  /** A step that only ever removes tokens from the front of the queue. */
  ghost predicate Shrinks(step: seq<Token> -> StmtStep) {
    forall u :: step(u).StmtParsed? ==> IsSuffix(step(u).rest, u)
  }

  /** A step that never aborts on, and never removes, the end-of-file marker. */
  ghost predicate KeepsEof(step: seq<Token> -> StmtStep) {
    forall u :: EndsWithEof(u) ==> step(u).StmtParsed? && EndsWithEof(step(u).rest)
  }

  lemma StatementStepBehaves(conv: Conversion)
    ensures Shrinks(StatementStep(conv)) && KeepsEof(StatementStep(conv))
  {
    forall u ensures StatementStep(conv)(u) == Statement(conv, u) {
    }
  }

  /** The loop of `parse`, run for at most `fuel` iterations: while tokens remain, take a
      step and emit the statement it parsed. */
  function Loop(step: seq<Token> -> StmtStep, t: seq<Token>, fuel: nat): (r: Run)
    ensures r.Finished? ==> |r.stmts| <= fuel
    ensures r.OutOfFuel? ==> |r.emitted| == fuel
    decreases fuel
  {
    if |t| == 0 then Finished([])
    else if fuel == 0 then OutOfFuel([])
    else
      match step(t)
      case StmtAborted(reason) => Aborted(reason)
      case StmtParsed(s, rest) => EmitThen(s, Loop(step, rest, fuel - 1))
  }

  /** `parse`: the loop with `statement` as its step. */
  function ParseLoop(conv: Conversion, t: seq<Token>, fuel: nat): (r: Run)
    ensures r.Finished? ==> |r.stmts| <= fuel
    ensures r.OutOfFuel? ==> |r.emitted| == fuel
  {
    Loop(StatementStep(conv), t, fuel)
  }

  /** The run that emits `s` and then continues as `r`. */
  function EmitThen(s: StmtNode, r: Run): (e: Run)
    ensures e.Finished? <==> r.Finished?
    ensures e.Finished? ==> e.stmts == [s] + r.stmts
    ensures e.OutOfFuel? <==> r.OutOfFuel?
    ensures e.OutOfFuel? ==> e.emitted == [s] + r.emitted
    ensures e.Aborted? ==> e == r
  {
    match r
    case Finished(ss) => Finished([s] + ss)
    case OutOfFuel(ss) => OutOfFuel([s] + ss)
    case Aborted(reason) => Aborted(reason)
  }
}
