/** The scanner of `lox_lib/src/lexer.rs`: physical lines of source text in, a token
    sequence out, failing on the first lexical error of any line. */
module Lexer {
  import opened Outcomes
  import opened Text

  /** The kinds of token of the language (`TokenType`). `String` and `Number` carry the
      literal's payload; a number's payload is its exact decimal value. */
  datatype TokenKind =
    // single-character tokens
    | LeftParen | RightParen | LeftBrace | RightBrace | Comma | Dot
    | Minus | Plus | Semicolon | Slash | Star
    // one- or two-character tokens
    | Bang | BangEqual | Equal | EqualEqual
    | Greater | GreaterEqual | Less | LessEqual
    // literals
    | Identifier | String(text: string) | Number(number: real)
    // keywords
    | And | Class | Else | False | Fun | For | If | Nil | Or
    | Print | Return | Super | This | True | Var | While
    | Eof

  /** The `Debug` rendering of a token kind (`#[derive(Debug)]`): the variant's name,
      with its payload in brackets. How an `f32` is rendered is the host's formatting
      and is passed in as `debug`. */
  function KindDebug(k: TokenKind, debug: real -> string): (s: string)
    ensures |s| > 0 && 'A' <= s[0] <= 'Z'
    ensures k.String? ==> |s| > 8 && s[..7] == "String(" && s[|s| - 1] == ')'
  {
    match k
    case LeftParen => "LeftParen"       case RightParen => "RightParen"
    case LeftBrace => "LeftBrace"       case RightBrace => "RightBrace"
    case Comma => "Comma"               case Dot => "Dot"
    case Minus => "Minus"               case Plus => "Plus"
    case Semicolon => "Semicolon"       case Slash => "Slash"
    case Star => "Star"                 case Bang => "Bang"
    case BangEqual => "BangEqual"       case Equal => "Equal"
    case EqualEqual => "EqualEqual"     case Greater => "Greater"
    case GreaterEqual => "GreaterEqual" case Less => "Less"
    case LessEqual => "LessEqual"       case Identifier => "Identifier"
    case String(text) => "String(\"" + text + "\")"
    case Number(n) => "Number(" + debug(n) + ")"
    case And => "And"                   case Class => "Class"
    case Else => "Else"                 case False => "False"
    case Fun => "Fun"                   case For => "For"
    case If => "If"                     case Nil => "Nil"
    case Or => "Or"                     case Print => "Print"
    case Return => "Return"             case Super => "Super"
    case This => "This"                 case True => "True"
    case Var => "Var"                   case While => "While"
    case Eof => "Eof"
  }

  /** A lexical unit: its kind, the exact source text it came from, and the 1-based
      number of the line it was found on. */
  datatype Token = Token(kind: TokenKind, lexeme: string, line: nat)

  /** The three lexical errors, each with the text at fault and its line. */
  datatype LexError =
    | UnexpectedCharacter(character: char, line: nat)
    | UnterminatedString(text: string, line: nat)
    | InvalidNumber(text: string, line: nat)

  /** The sixteen reserved words and the kinds they lex to (`RESERVED_KEYWORDS`). */
  const ReservedKeywords: map<string, TokenKind> := map[
    "fun" := Fun, "var" := Var, "if" := If, "else" := Else,
    "return" := Return, "true" := True, "false" := False, "and" := And,
    "or" := Or, "nil" := Nil, "for" := For, "super" := Super,
    "class" := Class, "this" := This, "while" := While, "print" := Print
  ]

  /** The reserved word a keyword kind is spelled as; None for every other kind. */
  function KeywordSpelling(k: TokenKind): Option<string> {
    match k
    case And => Some("and")       case Class => Some("class")
    case Else => Some("else")     case False => Some("false")
    case Fun => Some("fun")       case For => Some("for")
    case If => Some("if")         case Nil => Some("nil")
    case Or => Some("or")         case Print => Some("print")
    case Return => Some("return") case Super => Some("super")
    case This => Some("this")     case True => Some("true")
    case Var => Some("var")       case While => Some("while")
    case _ => None
  }

  // Character classes, restricted to ASCII.

  predicate IsAlpha(c: char) {
    ('a' <= c <= 'z') || ('A' <= c <= 'Z')
  }

  predicate IsAlphanumeric(c: char) {
    IsAlpha(c) || IsDigit(c)
  }

  /** A character that continues a number literal. */
  predicate IsNumberChar(c: char) {
    IsDigit(c) || c == '.'
  }

  /** A character that continues an identifier. */
  predicate IsIdentifierChar(c: char) {
    IsAlphanumeric(c) || c == '_'
  }

  /** A character that opens or closes a string literal. */
  predicate IsQuote(c: char) {
    c == '"' || c == '\''
  }

  /** A character inside a string literal. */
  predicate IsStringChar(c: char) {
    !IsQuote(c)
  }

  /** The digit-and-dot texts that parse as a number: digits, then optionally a dot and
      more (possibly no) digits. */
  predicate ParsesAsNumber(text: seq<char>)
    ensures ParsesAsNumber(text) ==> |text| > 0 && IsDigit(text[0])
  {
    var i := Span(text, IsDigit);
    0 < i && (i == |text| || (text[i] == '.' && AllDigits(text[i + 1..])))
  }

  /** The exact value of a number text. */
  function NumberValue(text: seq<char>): (v: real)
    requires ParsesAsNumber(text)
    ensures v >= 0.0
  {
    var i := Span(text, IsDigit);
    var whole := text[..i];
    var fraction := if i == |text| then [] else text[i + 1..];
    DigitsValue(whole) as real + DigitsValue(fraction) as real / Pow10(|fraction|) as real
  }

  /** What one scanning step produced: nothing (whitespace or a comment), or a token. */
  datatype Step = Skip(rest: seq<char>) | Emit(token: Token, rest: seq<char>)

  /** The characters a step consumed are a prefix of its input. */
  predicate Consumed(cs: seq<char>, s: Step) {
    |s.rest| < |cs| && s.rest == cs[|cs| - |s.rest|..]
  }

  /** The token of a step that emitted one is a real (non-Eof) token on `line` whose
      lexeme is exactly the characters the step consumed. */
  predicate FaithfulToken(cs: seq<char>, s: Step, line: nat) {
    s.Emit? ==>
      && |s.rest| <= |cs|
      && s.token.kind != Eof
      && s.token.line == line
      && s.token.lexeme == cs[..|cs| - |s.rest|]
  }

  /** The rest of a line after a `//` comment: everything up to and including the first
      line break is dropped. */
  function SkipComment(cs: seq<char>): (rest: seq<char>)
    ensures |rest| <= |cs| && rest == cs[|cs| - |rest|..]
    ensures (forall i :: 0 <= i < |cs| ==> cs[i] != '\n') ==> rest == []
  {
    if |cs| == 0 then [] else if cs[0] == '\n' then cs[1..] else SkipComment(cs[1..])
  }

  /** A string literal whose opening quote `open` has been read (`lex_string_literals`):
      the payload runs to the first quote of either kind. */
  function ScanString(open: char, cs: seq<char>, line: nat): (r: Outcome<Step, LexError>)
    ensures r.Ok? ==> Consumed([open] + cs, r.value) && FaithfulToken([open] + cs, r.value, line)
    ensures r.Ok? ==> r.value.Emit? && r.value.token.kind.String?
    ensures !r.Panic?
  {
    var n := Span(cs, IsStringChar);
    if n < |cs| then
      var token := Token(String(cs[..n]), [open] + cs[..n] + [cs[n]], line);
      assert [open] + cs[..n] + [cs[n]] == ([open] + cs)[..n + 2];
      Ok(Emit(token, cs[n + 1..]))
    else
      Err(UnterminatedString(cs, line))
  }

  /** A number literal whose first digit `first` has been read (`lex_number_literals`):
      digits and dots are taken greedily. A text that does not parse is an error at the end
      of the line, and an `unwrap` panic when another character follows. */
  function ScanNumber(first: char, cs: seq<char>, line: nat): (r: Outcome<Step, LexError>)
    ensures r.Ok? ==> Consumed([first] + cs, r.value) && FaithfulToken([first] + cs, r.value, line)
    ensures r.Ok? ==> r.value.Emit? && r.value.token.kind.Number?
  {
    var n := Span(cs, IsNumberChar);
    var text := [first] + cs[..n];
    assert text == ([first] + cs)[..n + 1];
    if ParsesAsNumber(text) then
      Ok(Emit(Token(Number(NumberValue(text)), text, line), cs[n..]))
    else if n < |cs| then
      Panic("called `Result::unwrap()` on an `Err` value")
    else
      Err(InvalidNumber(text, line))
  }

  /** The kind an identifier text lexes to: its keyword kind if it is reserved. */
  function KeywordOrIdentifier(text: string): (k: TokenKind)
    ensures text in ReservedKeywords ==> k == ReservedKeywords[text]
    ensures text !in ReservedKeywords ==> k == Identifier
  {
    if text in ReservedKeywords then ReservedKeywords[text] else Identifier
  }

  /** An identifier or keyword whose first letter `first` has been read
      (`lex_identifier_literals`). */
  function ScanIdentifier(first: char, cs: seq<char>, line: nat): (r: Step)
    ensures Consumed([first] + cs, r) && FaithfulToken([first] + cs, r, line)
    ensures r.Emit?
  {
    var n := Span(cs, IsIdentifierChar);
    var text := [first] + cs[..n];
    assert text == ([first] + cs)[..n + 1];
    Emit(Token(KeywordOrIdentifier(text), text, line), cs[n..])
  }

  /** The kind of a character that is a token by itself. */
  function SingleCharKind(c: char): Option<TokenKind> {
    match c
    case '(' => Some(LeftParen)   case ')' => Some(RightParen)
    case '{' => Some(LeftBrace)   case '}' => Some(RightBrace)
    case ',' => Some(Comma)       case '.' => Some(Dot)
    case '-' => Some(Minus)       case '+' => Some(Plus)
    case ';' => Some(Semicolon)   case '*' => Some(Star)
    case _ => None
  }

  /** For a character that may be followed by `=`, its one-character kind and the kind of
      the two-character operator it starts. */
  function OneOrTwoCharKinds(c: char): Option<(TokenKind, TokenKind)> {
    match c
    case '!' => Some((Bang, BangEqual))
    case '=' => Some((Equal, EqualEqual))
    case '>' => Some((Greater, GreaterEqual))
    case '<' => Some((Less, LessEqual))
    case _ => None
  }

  /** Characters that are skipped without a token. */
  predicate IsBlank(c: char) {
    c == ' ' || c == '\r' || c == '\t'
  }

  /** One iteration of the dispatch loop of `lex_chars`, at the first character of `cs`. */
  function ScanToken(cs: seq<char>, line: nat): (r: Outcome<Step, LexError>)
    requires |cs| > 0
    ensures r.Ok? ==> Consumed(cs, r.value) && FaithfulToken(cs, r.value, line)
  {
    var c := cs[0];
    if SingleCharKind(c).Some? then
      Ok(Emit(Token(SingleCharKind(c).value, [c], line), cs[1..]))
    else if c == '/' then
      if |cs| > 1 && cs[1] == '/' then Ok(Skip(SkipComment(cs[2..])))
      else Ok(Emit(Token(Slash, [c], line), cs[1..]))
    else if OneOrTwoCharKinds(c).Some? then
      var (one, two) := OneOrTwoCharKinds(c).value;
      if |cs| > 1 && cs[1] == '=' then Ok(Emit(Token(two, cs[..2], line), cs[2..]))
      else Ok(Emit(Token(one, [c], line), cs[1..]))
    else if IsBlank(c) then Ok(Skip(cs[1..]))
    else if IsQuote(c) then
      assert cs == [c] + cs[1..];
      ScanString(c, cs[1..], line)
    else if IsDigit(c) then
      assert cs == [c] + cs[1..];
      ScanNumber(c, cs[1..], line)
    else if IsAlpha(c) then
      assert cs == [c] + cs[1..];
      Ok(ScanIdentifier(c, cs[1..], line))
    else Err(UnexpectedCharacter(c, line))
  }

  /** No token of `ts` is the end-of-file marker. */
  predicate NoEof(ts: seq<Token>) {
    forall i :: 0 <= i < |ts| ==> ts[i].kind != Eof
  }

  /** Every token of `ts` is on `line`. */
  predicate AllOnLine(ts: seq<Token>, line: nat) {
    forall i :: 0 <= i < |ts| ==> ts[i].line == line
  }

  /** The tokens of one physical line (`lex_chars`), numbered `line`. */
  function LexLine(cs: seq<char>, line: nat): (r: Outcome<seq<Token>, LexError>)
    ensures r.Ok? ==> NoEof(r.value) && AllOnLine(r.value, line)
    decreases |cs|
  {
    if |cs| == 0 then Ok([])
    else
      match ScanToken(cs, line)
      case Err(e) => Err(e)
      case Panic(p) => Panic(p)
      case Ok(Skip(rest)) => LexLine(rest, line)
      case Ok(Emit(token, rest)) =>
        match LexLine(rest, line)
        case Ok(ts) => Ok([token] + ts)
        case Err(e) => Err(e)
        case Panic(p) => Panic(p)
  }

  /** The line numbers of `ts` never go down. */
  predicate LinesNonDecreasing(ts: seq<Token>) {
    forall i, j :: 0 <= i < j < |ts| ==> ts[i].line <= ts[j].line
  }

  /** Every token of `ts` has a line number in [lo, hi). */
  predicate LinesWithin(ts: seq<Token>, lo: nat, hi: nat) {
    forall i :: 0 <= i < |ts| ==> lo <= ts[i].line < hi
  }

  /** Each line's tokens are real tokens numbered `line`, where line `j` is numbered j + 1. */
  predicate WellNumbered(outs: seq<Outcome<seq<Token>, LexError>>) {
    forall j :: 0 <= j < |outs| && outs[j].Ok? ==>
      NoEof(outs[j].value) && AllOnLine(outs[j].value, j + 1)
  }

  /** The outcome of lexing each physical line on its own, line `j` numbered j + 1. */
  function LineOutcomes(lines: seq<string>): (outs: seq<Outcome<seq<Token>, LexError>>)
    ensures |outs| == |lines| && WellNumbered(outs)
    ensures forall j :: 0 <= j < |lines| ==> outs[j] == LexLine(lines[j], j + 1)
  {
    seq(|lines|, j requires 0 <= j < |lines| => LexLine(lines[j], j + 1))
  }

  /** The per-line outcomes from line `i` on, joined in order; the first line that fails
      decides the failure. */
  function JoinLines(outs: seq<Outcome<seq<Token>, LexError>>, i: nat): (r: Outcome<seq<Token>, LexError>)
    requires i <= |outs| && WellNumbered(outs)
    ensures r.Ok? ==> NoEof(r.value)
    ensures r.Ok? ==> LinesWithin(r.value, i + 1, |outs| + 1)
    decreases |outs| - i
  {
    if i == |outs| then Ok([])
    else
      match outs[i]
      case Err(e) => Err(e)
      case Panic(p) => Panic(p)
      case Ok(ts) =>
        match JoinLines(outs, i + 1)
        case Ok(more) => Ok(ts + more)
        case Err(e) => Err(e)
        case Panic(p) => Panic(p)
  }

  /** The joined tokens are in line order: a line's tokens all come before the next
      line's. */
  lemma {:induction false} JoinLinesInLineOrder(outs: seq<Outcome<seq<Token>, LexError>>, i: nat)
    requires i <= |outs| && WellNumbered(outs)
    ensures JoinLines(outs, i).Ok? ==> LinesNonDecreasing(JoinLines(outs, i).value)
    decreases |outs| - i
  {
    if i < |outs| && JoinLines(outs, i).Ok? {
      JoinLinesInLineOrder(outs, i + 1);
      var ts, more := outs[i].value, JoinLines(outs, i + 1).value;
      var whole := JoinLines(outs, i).value;
      assert whole == ts + more;
      forall a, b | 0 <= a < b < |whole| ensures whole[a].line <= whole[b].line {
        if b < |ts| {
          assert whole[a] == ts[a] && whole[b] == ts[b];
        } else if a < |ts| {
          assert whole[a] == ts[a] && whole[b] == more[b - |ts|];
        } else {
          assert whole[a] == more[a - |ts|] && whole[b] == more[b - |ts|];
        }
      }
    }
  }

  /** `Lexer::lex` over the input already split into physical lines: the tokens of all
      lines, then one end-of-file marker on the line of the last token (0 if there is
      none). */
  function Lex(lines: seq<string>): (r: Outcome<seq<Token>, LexError>)
    ensures r.Ok? ==> |r.value| > 0 && r.value[|r.value| - 1].kind == Eof
    ensures r.Ok? ==> NoEof(r.value[..|r.value| - 1])
    ensures r.Ok? ==> r.value[|r.value| - 1].line ==
                      (if |r.value| == 1 then 0 else r.value[|r.value| - 2].line)
    ensures r.Ok? ==> LinesNonDecreasing(r.value[..|r.value| - 1])
    ensures r.Ok? ==> LinesWithin(r.value[..|r.value| - 1], 1, 1 + |lines|)
    ensures r.Err? <==> JoinLines(LineOutcomes(lines), 0).Err?
  {
    match JoinLines(LineOutcomes(lines), 0)
    case Ok(ts) =>
      var finalLine := if |ts| == 0 then 0 else ts[|ts| - 1].line;
      var all := ts + [Token(Eof, "", finalLine)];
      assert all[..|all| - 1] == ts;
      JoinLinesInLineOrder(LineOutcomes(lines), 0);
      Ok(all)
    case Err(e) => Err(e)
    case Panic(p) => Panic(p)
  }
}
