/** What the scanner promises: line bookkeeping, fail-fast errors, maximal munch, and the
    shape of comment, string, number and identifier tokens. */
module LexerProperties {
  import opened Outcomes
  import opened Text
  import opened Lexer

  // ---------------------------------------------------------------------------------
  // Line bookkeeping

  /** The tokens of `ts` that are on line `n`, in their order in `ts`. */
  function TokensOnLine(ts: seq<Token>, n: nat): (r: seq<Token>)
    ensures |r| <= |ts|
    ensures AllOnLine(r, n)
  {
    if |ts| == 0 then []
    else (if ts[0].line == n then [ts[0]] else []) + TokensOnLine(ts[1..], n)
  }

  lemma {:induction false} TokensOnLineConcat(a: seq<Token>, b: seq<Token>, n: nat)
    ensures TokensOnLine(a + b, n) == TokensOnLine(a, n) + TokensOnLine(b, n)
    decreases |a|
  {
    if |a| > 0 {
      assert (a + b)[1..] == a[1..] + b;
      TokensOnLineConcat(a[1..], b, n);
    } else {
      assert a + b == b;
    }
  }

  lemma {:induction false} TokensOnLineAll(a: seq<Token>, n: nat)
    requires AllOnLine(a, n)
    ensures TokensOnLine(a, n) == a
    decreases |a|
  {
    if |a| > 0 {
      TokensOnLineAll(a[1..], n);
      assert a == [a[0]] + a[1..];
    }
  }

  lemma {:induction false} TokensOnLineNone(a: seq<Token>, lo: nat, hi: nat, n: nat)
    requires LinesWithin(a, lo, hi)
    requires n < lo || hi <= n
    ensures TokensOnLine(a, n) == []
    decreases |a|
  {
    if |a| > 0 {
      TokensOnLineNone(a[1..], lo, hi, n);
    }
  }

  /** A successful join from `i` is line `i`'s tokens followed by the join from i + 1,
      each on its own lines. */
  lemma JoinLinesSplit(outs: seq<Outcome<seq<Token>, LexError>>, i: nat)
    requires WellNumbered(outs) && i < |outs| && JoinLines(outs, i).Ok?
    ensures outs[i].Ok? && JoinLines(outs, i + 1).Ok?
    ensures JoinLines(outs, i).value == outs[i].value + JoinLines(outs, i + 1).value
    ensures AllOnLine(outs[i].value, i + 1)
    ensures LinesWithin(JoinLines(outs, i + 1).value, i + 2, |outs| + 1)
  {
  }

  /** Tokens all on line `n`, then tokens on later lines: line `n` is the first part. */
  lemma OnLineFirst(ts: seq<Token>, more: seq<Token>, n: nat, hi: nat)
    requires AllOnLine(ts, n) && LinesWithin(more, n + 1, hi)
    ensures TokensOnLine(ts + more, n) == ts
  {
    TokensOnLineConcat(ts, more, n);
    TokensOnLineAll(ts, n);
    TokensOnLineNone(more, n + 1, hi, n);
    assert ts + [] == ts;
  }

  /** Tokens all on line `n`, then others: any other line comes from the others. */
  lemma OnLineLater(ts: seq<Token>, more: seq<Token>, n: nat, m: nat)
    requires AllOnLine(ts, n) && m != n
    ensures TokensOnLine(ts + more, m) == TokensOnLine(more, m)
  {
    TokensOnLineConcat(ts, more, m);
    assert LinesWithin(ts, n, n + 1);
    TokensOnLineNone(ts, n, n + 1, m);
    assert [] + TokensOnLine(more, m) == TokensOnLine(more, m);
  }

  /** Line `k` (at or after `i`) of a successful join lexed on its own, and the joined
      tokens numbered k + 1 are exactly that line's tokens, in order. */
  lemma {:induction false} JoinLinesLine(outs: seq<Outcome<seq<Token>, LexError>>, i: nat, k: nat)
    requires WellNumbered(outs) && i <= k < |outs| && JoinLines(outs, i).Ok?
    ensures outs[k].Ok?
    ensures TokensOnLine(JoinLines(outs, i).value, k + 1) == outs[k].value
    decreases k - i
  {
    JoinLinesSplit(outs, i);
    if k == i {
      OnLineFirst(outs[i].value, JoinLines(outs, i + 1).value, i + 1, |outs| + 1);
    } else {
      JoinLinesLine(outs, i + 1, k);
      OnLineLater(outs[i].value, JoinLines(outs, i + 1).value, i + 1, k + 1);
    }
  }

  /** `lex` numbers every real token 1 + the index of its physical line, and keeps the
      tokens of each line in their order on that line. */
  lemma LexTokensByLine(lines: seq<string>, k: nat)
    requires Lex(lines).Ok? && k < |lines|
    ensures LexLine(lines[k], k + 1).Ok?
    ensures var ts := Lex(lines).value;
      TokensOnLine(ts[..|ts| - 1], k + 1) == LexLine(lines[k], k + 1).value
  {
    var outs := LineOutcomes(lines);
    var ts := Lex(lines).value;
    assert ts[..|ts| - 1] == JoinLines(outs, 0).value;
    JoinLinesLine(outs, 0, k);
  }

  /** The index of the first line at or after `i` that failed (`|outs|` if none did). */
  function FirstFailure(outs: seq<Outcome<seq<Token>, LexError>>, i: nat): (k: nat)
    requires i <= |outs|
    ensures i <= k <= |outs|
    ensures forall j :: i <= j < k ==> outs[j].Ok?
    ensures k < |outs| ==> !outs[k].Ok?
    decreases |outs| - i
  {
    if i == |outs| || !outs[i].Ok? then i
    else FirstFailure(outs, i + 1)
  }

  /** Fail fast: the join succeeds exactly when every line did, and otherwise its outcome
      is that of the first failing line; no tokens survive a failure. */
  lemma {:induction false} JoinFailsAtFirstFailure(outs: seq<Outcome<seq<Token>, LexError>>, i: nat)
    requires WellNumbered(outs) && i <= |outs|
    ensures var k := FirstFailure(outs, i);
      && (JoinLines(outs, i).Ok? <==> k == |outs|)
      && (k < |outs| ==> JoinLines(outs, i) == outs[k])
    decreases |outs| - i
  {
    if i < |outs| && outs[i].Ok? {
      JoinFailsAtFirstFailure(outs, i + 1);
    }
  }

  /** A failure on any line fails the whole `lex` call with no tokens returned: the
      outcome is the error (or abort) of the first failing line, which is at or before it. */
  lemma LexFailsFast(lines: seq<string>, i: nat)
    requires i < |lines| && !LexLine(lines[i], i + 1).Ok?
    ensures !Lex(lines).Ok?
    ensures var k := FirstFailure(LineOutcomes(lines), 0);
      && k <= i
      && !LexLine(lines[k], k + 1).Ok?
      && (LexLine(lines[k], k + 1).Err? ==> Lex(lines) == Err(LexLine(lines[k], k + 1).error))
      && (LexLine(lines[k], k + 1).Panic? ==> Lex(lines) == Panic(LexLine(lines[k], k + 1).reason))
  {
    var outs := LineOutcomes(lines);
    assert !outs[i].Ok?;
    JoinFailsAtFirstFailure(outs, 0);
    LexFailureIsJoinFailure(lines);
  }

  /** When the join fails, `lex` returns its outcome unchanged. */
  lemma LexFailureIsJoinFailure(lines: seq<string>)
    requires !JoinLines(LineOutcomes(lines), 0).Ok?
    ensures Lex(lines) == JoinLines(LineOutcomes(lines), 0)
  {
  }

  // ---------------------------------------------------------------------------------
  // The end-of-file marker

  /** A line holding only a `//` comment lexes to no tokens, so an input of comment lines
      lexes to the end-of-file marker alone, on line 0. */
  lemma CommentLineIsEmpty(cs: seq<char>, line: nat)
    requires |cs| >= 2 && cs[0] == '/' && cs[1] == '/'
    requires forall i :: 0 <= i < |cs| ==> cs[i] != '\n'
    ensures LexLine(cs, line) == Ok([])
  {
    assert forall i :: 0 <= i < |cs[2..]| ==> cs[2..][i] == cs[i + 2];
  }

  /** Every line is a comment. */
  predicate AllCommentLines(lines: seq<string>) {
    forall i :: 0 <= i < |lines| ==>
      && |lines[i]| >= 2 && lines[i][0] == '/' && lines[i][1] == '/'
      && forall j :: 0 <= j < |lines[i]| ==> lines[i][j] != '\n'
  }

  lemma {:induction false} EmptyLinesJoinToNothing(outs: seq<Outcome<seq<Token>, LexError>>, i: nat)
    requires WellNumbered(outs) && i <= |outs|
    requires forall j :: 0 <= j < |outs| ==> outs[j] == Ok([])
    ensures JoinLines(outs, i) == Ok([])
    decreases |outs| - i
  {
    if i < |outs| {
      EmptyLinesJoinToNothing(outs, i + 1);
      var none: seq<Token> := [];
      assert none + none == none;
    }
  }

  lemma CommentOnlyInput(lines: seq<string>)
    requires AllCommentLines(lines)
    ensures Lex(lines) == Ok([Token(Eof, "", 0)])
  {
    var outs := LineOutcomes(lines);
    forall j | 0 <= j < |lines| ensures outs[j] == Ok([]) {
      CommentLineIsEmpty(lines[j], j + 1);
    }
    EmptyLinesJoinToNothing(outs, 0);
    LexOfJoin(lines, []);
    assert [] + [Token(Eof, "", 0)] == [Token(Eof, "", 0)];
  }

  /** A successful join is `lex`'s tokens, followed by the end-of-file marker on the
      last token's line (line 0 when there are none). */
  lemma LexOfJoin(lines: seq<string>, ts: seq<Token>)
    requires JoinLines(LineOutcomes(lines), 0) == Ok(ts)
    ensures Lex(lines) == Ok(ts + [Token(Eof, "", if |ts| == 0 then 0 else ts[|ts| - 1].line)])
  {
  }

  // ---------------------------------------------------------------------------------
  // Single steps of the scanner

  /** A character that is a token by itself is one. */
  lemma SingleCharacter(cs: seq<char>, line: nat)
    requires |cs| > 0 && SingleCharKind(cs[0]).Some?
    ensures ScanToken(cs, line) == Ok(Emit(Token(SingleCharKind(cs[0]).value, cs[..1], line), cs[1..]))
  {
  }

  /** `!`, `=`, `>` and `<` take a following `=` into a two-character token; otherwise
      they are a one-character token. */
  lemma MaximalMunch(cs: seq<char>, line: nat)
    requires |cs| > 0 && cs[0] in "!=><"
    ensures var two := |cs| > 1 && cs[1] == '=';
      ScanToken(cs, line) == Ok(Emit(Token(
        match cs[0]
        case '!' => if two then BangEqual else Bang
        case '=' => if two then EqualEqual else Equal
        case '>' => if two then GreaterEqual else Greater
        case _ => if two then LessEqual else Less,
        if two then cs[..2] else cs[..1], line),
        if two then cs[2..] else cs[1..]))
  {
  }

  /** Space, carriage return and tab produce nothing; `//` drops the rest of the line; a
      lone `/` is a `Slash`. */
  lemma BlanksAndSlashes(cs: seq<char>, line: nat)
    requires |cs| > 0
    ensures cs[0] in " \r\t" ==> ScanToken(cs, line) == Ok(Skip(cs[1..]))
    ensures cs[0] == '/' && |cs| > 1 && cs[1] == '/' && (forall i :: 0 <= i < |cs| ==> cs[i] != '\n')
            ==> ScanToken(cs, line) == Ok(Skip([]))
    ensures cs[0] == '/' && !(|cs| > 1 && cs[1] == '/') ==>
            ScanToken(cs, line) == Ok(Emit(Token(Slash, "/", line), cs[1..]))
  {
    if cs[0] == '/' && |cs| > 1 && cs[1] == '/' {
      assert forall i :: 0 <= i < |cs[2..]| ==> cs[2..][i] == cs[i + 2];
    }
  }

  /** `Span` over the characters after the first, for a run ending at `k` in `cs`. */
  lemma SpanAfterFirst(cs: seq<char>, p: char -> bool, k: nat)
    requires 0 < k <= |cs|
    requires forall i :: 0 < i < k ==> p(cs[i])
    requires k < |cs| ==> !p(cs[k])
    ensures Span(cs[1..], p) == k - 1
    ensures [cs[0]] + cs[1..][..k - 1] == cs[..k]
  {
    assert forall i :: 0 <= i < |cs| - 1 ==> cs[1..][i] == cs[i + 1];
    SpanIs(cs[1..], p, k - 1);
  }

  /** A string opened by either quote runs to the first quote of either kind later on the
      line; the payload excludes both quotes and the lexeme includes them. With no closing
      quote on the line the string is unterminated. */
  lemma StringLiteral(cs: seq<char>, line: nat, k: nat)
    requires 0 < k <= |cs| && IsQuote(cs[0])
    requires forall i :: 0 < i < k ==> !IsQuote(cs[i])
    requires k < |cs| ==> IsQuote(cs[k])
    ensures k < |cs| ==>
      ScanToken(cs, line) == Ok(Emit(Token(String(cs[1..k]), cs[..k + 1], line), cs[k + 1..]))
    ensures k == |cs| ==> ScanToken(cs, line) == Err(UnterminatedString(cs[1..], line))
  {
    assert ScanToken(cs, line) == ScanString(cs[0], cs[1..], line);
    SpanAfterFirst(cs, IsStringChar, k);
    if k < |cs| {
      assert cs[1..][..k - 1] == cs[1..k];
      assert [cs[0]] + cs[1..][..k - 1] + [cs[1..][k - 1]] == cs[..k + 1];
      assert cs[1..][k..] == cs[k + 1..];
    }
  }

  /** An identifier starts with a letter and runs over letters, digits and `_`; it lexes
      to its keyword kind when it is one of the reserved words, and to `Identifier`
      otherwise. */
  lemma IdentifierLiteral(cs: seq<char>, line: nat, k: nat)
    requires 0 < k <= |cs| && IsAlpha(cs[0])
    requires forall i :: 0 < i < k ==> IsIdentifierChar(cs[i])
    requires k < |cs| ==> !IsIdentifierChar(cs[k])
    ensures ScanToken(cs, line) == Ok(Emit(Token(
      if cs[..k] in ReservedKeywords then ReservedKeywords[cs[..k]] else Identifier,
      cs[..k], line), cs[k..]))
  {
    IdentifierDispatch(cs, line);
    ScanIdentifierRun(cs, line, k);
  }

  /** A letter starts no token but an identifier. */
  lemma LetterStartsNothingElse(c: char)
    requires IsAlpha(c)
    ensures SingleCharKind(c).None? && OneOrTwoCharKinds(c).None?
    ensures c != '/' && !IsBlank(c) && !IsQuote(c) && !IsDigit(c)
  {
  }

  /** A letter hands the line to the identifier scanner. */
  lemma IdentifierDispatch(cs: seq<char>, line: nat)
    requires |cs| > 0 && IsAlpha(cs[0])
    ensures ScanToken(cs, line) == Ok(ScanIdentifier(cs[0], cs[1..], line))
  {
    LetterStartsNothingElse(cs[0]);
  }

  lemma ScanIdentifierRun(cs: seq<char>, line: nat, k: nat)
    requires 0 < k <= |cs|
    requires forall i :: 0 < i < k ==> IsIdentifierChar(cs[i])
    requires k < |cs| ==> !IsIdentifierChar(cs[k])
    ensures ScanIdentifier(cs[0], cs[1..], line) == Emit(Token(
      if cs[..k] in ReservedKeywords then ReservedKeywords[cs[..k]] else Identifier,
      cs[..k], line), cs[k..])
  {
    SpanAfterFirst(cs, IsIdentifierChar, k);
    assert cs[1..][k - 1..] == cs[k..];
  }

  /** A character that starts no token, `_` among them, fails the line. */
  lemma UnexpectedCharacterFails(cs: seq<char>, line: nat)
    requires |cs| > 0
    requires SingleCharKind(cs[0]).None? && OneOrTwoCharKinds(cs[0]).None?
    requires cs[0] != '/' && !IsBlank(cs[0]) && !IsQuote(cs[0])
    requires !IsDigit(cs[0]) && !IsAlpha(cs[0])
    ensures ScanToken(cs, line) == Err(UnexpectedCharacter(cs[0], line))
    ensures LexLine(cs, line) == Err(UnexpectedCharacter(cs[0], line))
  {
  }

  /** A number runs greedily over digits and dots. A text that parses is a `Number`
      token; one that does not is an error at the end of the line and a panic before
      another character. */
  lemma NumberLiteral(cs: seq<char>, line: nat, k: nat)
    requires 0 < k <= |cs| && IsDigit(cs[0])
    requires forall i :: 0 < i < k ==> IsNumberChar(cs[i])
    requires k < |cs| ==> !IsNumberChar(cs[k])
    ensures ParsesAsNumber(cs[..k]) ==>
      ScanToken(cs, line) == Ok(Emit(Token(Number(NumberValue(cs[..k])), cs[..k], line), cs[k..]))
    ensures !ParsesAsNumber(cs[..k]) && k == |cs| ==>
      ScanToken(cs, line) == Err(InvalidNumber(cs, line))
    ensures !ParsesAsNumber(cs[..k]) && k < |cs| ==> ScanToken(cs, line).Panic?
  {
    NumberDispatch(cs, line);
    ScanNumberRun(cs, line, k);
  }

  /** A digit starts no token but a number. */
  lemma DigitStartsNothingElse(c: char)
    requires IsDigit(c)
    ensures SingleCharKind(c).None? && OneOrTwoCharKinds(c).None?
    ensures c != '/' && !IsBlank(c) && !IsQuote(c)
  {
  }

  /** A digit hands the line to the number scanner. */
  lemma NumberDispatch(cs: seq<char>, line: nat)
    requires |cs| > 0 && IsDigit(cs[0])
    ensures ScanToken(cs, line) == ScanNumber(cs[0], cs[1..], line)
  {
    DigitStartsNothingElse(cs[0]);
  }

  lemma ScanNumberRun(cs: seq<char>, line: nat, k: nat)
    requires 0 < k <= |cs| && IsDigit(cs[0])
    requires forall i :: 0 < i < k ==> IsNumberChar(cs[i])
    requires k < |cs| ==> !IsNumberChar(cs[k])
    ensures ParsesAsNumber(cs[..k]) ==>
      ScanNumber(cs[0], cs[1..], line) == Ok(Emit(Token(Number(NumberValue(cs[..k])), cs[..k], line), cs[k..]))
    ensures !ParsesAsNumber(cs[..k]) && k == |cs| ==>
      ScanNumber(cs[0], cs[1..], line) == Err(InvalidNumber(cs, line))
    ensures !ParsesAsNumber(cs[..k]) && k < |cs| ==> ScanNumber(cs[0], cs[1..], line).Panic?
  {
    SpanAfterFirst(cs, IsNumberChar, k);
    assert cs[1..][k - 1..] == cs[k..];
    assert k == |cs| ==> cs[..k] == cs;
  }

  // ---------------------------------------------------------------------------------
  // Numbers and keywords

  function DotCount(s: seq<char>): nat {
    if |s| == 0 then 0 else (if s[0] == '.' then 1 else 0) + DotCount(s[1..])
  }

  /** Among digits and dots, a text is all digits exactly when it has no dot. */
  lemma {:induction false} DigitsIffNoDots(s: seq<char>)
    requires forall i :: 0 <= i < |s| ==> IsNumberChar(s[i])
    ensures AllDigits(s) <==> DotCount(s) == 0
    decreases |s|
  {
    if |s| > 0 {
      DigitsIffNoDots(s[1..]);
      assert AllDigits(s) <==> IsDigit(s[0]) && AllDigits(s[1..]);
    }
  }

  lemma {:induction false} DotCountConcat(a: seq<char>, b: seq<char>)
    ensures DotCount(a + b) == DotCount(a) + DotCount(b)
    decreases |a|
  {
    if |a| > 0 {
      assert (a + b)[1..] == a[1..] + b;
      DotCountConcat(a[1..], b);
    } else {
      assert a + b == b;
    }
  }

  /** Digits and dots split at the first dot: none before it, one at it. */
  lemma DotsAround(text: seq<char>, i: nat)
    requires i <= |text| && AllDigits(text[..i])
    requires forall j :: 0 <= j < |text| ==> IsNumberChar(text[j])
    ensures DotCount(text) == DotCount(text[i..])
    ensures i < |text| && text[i] == '.' ==> DotCount(text) == 1 + DotCount(text[i + 1..])
  {
    assert text == text[..i] + text[i..];
    DotCountConcat(text[..i], text[i..]);
    DigitsIffNoDots(text[..i]);
    if i < |text| && text[i] == '.' {
      assert text[i..] == [text[i]] + text[i + 1..];
      DotCountConcat([text[i]], text[i + 1..]);
    }
  }

  /** For the texts the scanner accumulates (a digit, then digits and dots), parsing
      succeeds exactly when there is at most one dot. */
  lemma NumberAcceptance(text: seq<char>)
    requires |text| > 0 && IsDigit(text[0])
    requires forall i :: 0 <= i < |text| ==> IsNumberChar(text[i])
    ensures ParsesAsNumber(text) <==> DotCount(text) <= 1
  {
    var i := Span(text, IsDigit);
    assert AllDigits(text[..i]);
    DotsAround(text, i);
    if i < |text| {
      var tail := text[i + 1..];
      assert forall j :: 0 <= j < |tail| ==> IsNumberChar(tail[j]);
      DigitsIffNoDots(tail);
    } else {
      assert text[i..] == [];
    }
  }

  /** The keyword table and the spelling of each keyword kind are inverse: a word is
      reserved for kind `k` exactly when `k` is spelled that way. */
  lemma KeywordTableRoundTrip(word: string, k: TokenKind)
    ensures (word in ReservedKeywords && ReservedKeywords[word] == k) <==> KeywordSpelling(k) == Some(word)
  {
    if word in ReservedKeywords && ReservedKeywords[word] == k {
      ReservedWordsAreSpelled(word);
    }
    if KeywordSpelling(k) == Some(word) {
      SpellingsAreReserved(k);
    }
  }

  lemma ReservedWordsAreSpelled(word: string)
    requires word in ReservedKeywords
    ensures KeywordSpelling(ReservedKeywords[word]) == Some(word)
  {
  }

  lemma SpellingsAreReserved(k: TokenKind)
    requires KeywordSpelling(k).Some?
    ensures KeywordSpelling(k).value in ReservedKeywords
    ensures ReservedKeywords[KeywordSpelling(k).value] == k
  {
  }

  // ---------------------------------------------------------------------------------
  // Whole lines, one step at a time

  lemma LexLineEmit(cs: seq<char>, line: nat, token: Token, rest: seq<char>, ts: seq<Token>)
    requires |cs| > 0 && ScanToken(cs, line) == Ok(Emit(token, rest)) && LexLine(rest, line) == Ok(ts)
    ensures LexLine(cs, line) == Ok([token] + ts)
  {
  }

  /** A line that is one number literal and nothing else lexes to that one token. */
  lemma LexNumberLine(l: string, line: nat)
    requires ParsesAsNumber(l) && forall i :: 0 <= i < |l| ==> IsNumberChar(l[i])
    ensures LexLine(l, line) == Ok([Token(Number(NumberValue(l)), l, line)])
  {
    assert l[..|l|] == l && l[|l|..] == [];
    NumberLiteral(l, line, |l|);
    LexLineEmit(l, line, Token(Number(NumberValue(l)), l, line), [], []);
    assert [Token(Number(NumberValue(l)), l, line)] + [] == [Token(Number(NumberValue(l)), l, line)];
  }

  lemma LexLineSkip(cs: seq<char>, line: nat, rest: seq<char>)
    requires |cs| > 0 && ScanToken(cs, line) == Ok(Skip(rest))
    ensures LexLine(cs, line) == LexLine(rest, line)
  {
  }

  /** `lex` on one line: its tokens, then the end-of-file marker on the last token's
      line. */
  lemma LexOneLine(l: string, ts: seq<Token>)
    requires LexLine(l, 1) == Ok(ts) && |ts| > 0
    ensures Lex([l]) == Ok(ts + [Token(Eof, "", ts[|ts| - 1].line)])
  {
    var outs := LineOutcomes([l]);
    assert outs[0] == Ok(ts);
    assert JoinLines(outs, 1) == Ok([]);
    assert ts + [] == ts;
    LexOfJoin([l], ts);
  }

  /** `lex` on two lines: the first line's tokens, the second's, then the marker. */
  lemma LexTwoLines(l1: string, l2: string, ts1: seq<Token>, ts2: seq<Token>)
    requires LexLine(l1, 1) == Ok(ts1) && LexLine(l2, 2) == Ok(ts2) && |ts2| > 0
    ensures Lex([l1, l2]) == Ok(ts1 + ts2 + [Token(Eof, "", ts2[|ts2| - 1].line)])
  {
    var outs := LineOutcomes([l1, l2]);
    assert outs[0] == Ok(ts1) && outs[1] == Ok(ts2);
    assert JoinLines(outs, 2) == Ok([]);
    assert ts2 + [] == ts2;
    assert JoinLines(outs, 1) == Ok(ts2);
    assert JoinLines(outs, 0) == Ok(ts1 + ts2);
    LexOfJoin([l1, l2], ts1 + ts2);
  }
}
