/** What the evaluator promises: the string order it compares by, the equality it tests,
    evaluation order, and diagnostics that can be read back. */
module InterpreterProperties {
  import opened Outcomes
  import opened Text
  import opened Ast
  import opened Interpreter

  // ---------------------------------------------------------------------------------
  // String order

  lemma {:induction false} StrLessIrreflexive(a: string)
    ensures !StrLess(a, a)
    decreases |a|
  {
    if |a| > 0 {
      StrLessIrreflexive(a[1..]);
    }
  }

  /** Exactly one of `a < b`, `a == b` and `b < a` holds. */
  lemma {:induction false} StrLessTrichotomy(a: string, b: string)
    ensures StrLess(a, b) || a == b || StrLess(b, a)
    ensures !(StrLess(a, b) && StrLess(b, a))
    decreases |a|
  {
    if |a| > 0 && |b| > 0 && a[0] == b[0] {
      StrLessTrichotomy(a[1..], b[1..]);
      if a[1..] == b[1..] {
        assert a == [a[0]] + a[1..] && b == [b[0]] + b[1..];
      }
    }
  }

  lemma {:induction false} StrLessTransitive(a: string, b: string, c: string)
    requires StrLess(a, b) && StrLess(b, c)
    ensures StrLess(a, c)
    decreases |a|
  {
    if |a| > 0 && a[0] == b[0] && b[0] == c[0] {
      StrLessTransitive(a[1..], b[1..], c[1..]);
    }
  }

  /** A proper prefix comes first. */
  lemma {:induction false} StrLessPrefix(a: string, b: string)
    requires |b| > 0
    ensures StrLess(a, a + b)
    decreases |a|
  {
    if |a| > 0 {
      assert (a + b)[1..] == a[1..] + b;
      StrLessPrefix(a[1..], b);
    }
  }

  // ---------------------------------------------------------------------------------
  // Equality and comparison

  /** `is_equal` is exactly equality of values: two different variants are never equal. */
  lemma IsEqualIsEquality(a: Literal, b: Literal)
    ensures IsEqual(a, b) <==> a == b
  {
  }

  /** `!=` never fails and is exactly the negation of `==`, for any operands. */
  lemma NotEqualNegatesEqualEqual(left: ExprNode, right: ExprNode, line: nat)
    requires Eval(left).Ok? && Eval(right).Ok?
    ensures var eq := Eval(BinaryExpr(left, Operator(EqualEqual, line), right));
      var ne := Eval(BinaryExpr(left, Operator(NotEqual, line), right));
      && eq.Ok? && eq.value.Boolean? && ne.Ok? && ne.value.Boolean?
      && ne.value.b == !eq.value.b
      && (eq.value.b <==> Eval(left).value == Eval(right).value)
  {
  }

  /** `>` on strings is `<` with the operands swapped, and the two orders are strict: at
      most one holds, and neither holds of equal strings. */
  lemma StringComparisonIsStrictOrder(l: string, r: string, line: nat)
    ensures Compare(String(l), String(r), line, true) == Compare(String(r), String(l), line, false)
    ensures var gt := Compare(String(l), String(r), line, true).value.b;
      var lt := Compare(String(l), String(r), line, false).value.b;
      && !(gt && lt)
      && (!gt && !lt <==> l == r)
  {
    StrLessTrichotomy(l, r);
    if l == r {
      StrLessIrreflexive(l);
    }
  }

  // ---------------------------------------------------------------------------------
  // Evaluation order

  /** Evaluation is strict and ordered: a failing left operand decides the result whatever
      the right one does; otherwise a failing right operand does; only then is the
      operator applied. */
  lemma EvalOrder(left: ExprNode, op: Operator, right: ExprNode)
    ensures !Eval(left).Ok? ==> Eval(BinaryExpr(left, op, right)) == Eval(left)
    ensures Eval(left).Ok? && !Eval(right).Ok? ==> Eval(BinaryExpr(left, op, right)) == Eval(right)
    ensures Eval(left).Ok? && Eval(right).Ok? ==>
      Eval(BinaryExpr(left, op, right)) == ApplyBinary(op, Eval(left).value, Eval(right).value)
  {
  }

  /** The other nodes: a literal is its own value, a grouping its child's outcome, and a
      unary node fails with its operand's failure or applies its operator to the
      operand's value. */
  lemma EvalNodes(v: Literal, c: ExprNode, op: Operator, r: ExprNode)
    ensures Eval(ExprNode.Literal(v)) == Ok(v)
    ensures Eval(Grouping(c)) == Eval(c)
    ensures !Eval(r).Ok? ==> Eval(UnaryExpr(op, r)) == Eval(r)
    ensures Eval(r).Ok? ==> Eval(UnaryExpr(op, r)) == ApplyUnary(op, Eval(r).value)
  {
  }

  /** A grouping is transparent: wrapping an expression in any number of parentheses does
      not change its value. */
  function Parenthesize(e: ExprNode, n: nat): (g: ExprNode)
    ensures n > 0 ==> g.Grouping?
  {
    if n == 0 then e else Grouping(Parenthesize(e, n - 1))
  }

  lemma {:induction false} GroupingTransparent(e: ExprNode, n: nat)
    ensures Eval(Parenthesize(e, n)) == Eval(e)
  {
    if n > 0 {
      GroupingTransparent(e, n - 1);
    }
  }

  // ---------------------------------------------------------------------------------
  // Diagnostics

  /** A run of digits followed by `]` spans exactly the digits. */
  lemma DigitsThenBracket(d: string, tail: string)
    requires AllDigits(d) && |tail| > 0 && tail[0] == ']'
    ensures Span(d + tail, IsDigit) == |d|
  {
    assert (d + tail)[|d|] == ']';
    assert forall i :: 0 <= i < |d| ==> (d + tail)[i] == d[i];
    SpanIs(d + tail, IsDigit, |d|);
  }

  /** After its fixed `[line ` prefix, an error report is the line's digits, then the
      rest. */
  lemma ErrorAfterPrefix(line: nat, message: string)
    ensures |Error(line, message)| >= 6
    ensures Error(line, message)[6..] == NatToString(line) + ("] Error : " + message)
  {
    var d := NatToString(line);
    assert Error(line, message) == "[line " + (d + ("] Error : " + message));
  }

  /** A run of digits closed by `]` splits a text in only one way. */
  lemma DigitsThenBracketSplit(d1: string, t1: string, d2: string, t2: string)
    requires AllDigits(d1) && |t1| > 0 && t1[0] == ']'
    requires AllDigits(d2) && |t2| > 0 && t2[0] == ']'
    requires d1 + t1 == d2 + t2
    ensures d1 == d2 && t1 == t2
  {
    DigitsThenBracket(d1, t1);
    DigitsThenBracket(d2, t2);
    var u := d1 + t1;
    assert d1 == u[..|d1|] && d2 == u[..|d2|];
    assert t1 == u[|d1|..] && t2 == u[|d2|..];
  }

  /** An error report can be read back: its text determines the line and the message. */
  lemma ErrorDetermines(l1: nat, m1: string, l2: nat, m2: string)
    requires Error(l1, m1) == Error(l2, m2)
    ensures l1 == l2 && m1 == m2
  {
    ErrorAfterPrefix(l1, m1);
    ErrorAfterPrefix(l2, m2);
    var t1, t2 := "] Error : " + m1, "] Error : " + m2;
    DigitsThenBracketSplit(NatToString(l1), t1, NatToString(l2), t2);
    NatToStringInjective(l1, l2);
    assert m1 == t1[10..] && m2 == t2[10..];
  }


  /** The runtime errors whose text is an `Interpreter::error` report. */
  predicate ReportedAtLine(e: RuntimeError) {
    e.LeftNumberAdded? || e.LeftStringAdded? || e.NotAddable? || e.NotNumbers? || e.NotComparable?
  }

  /** A reported runtime error's text starts with `[line ` and names its line: two such
      errors with the same text are on the same line. */
  lemma RuntimeMessageNamesLine(e: RuntimeError, f: RuntimeError, display: real -> string)
    requires ReportedAtLine(e) && ReportedAtLine(f)
    ensures RuntimeMessage(e, display)[..6] == "[line "
    ensures RuntimeMessage(e, display) == RuntimeMessage(f, display) ==> e.line == f.line
  {
    var me, mf := ReportMessage(e, display), ReportMessage(f, display);
    assert RuntimeMessage(e, display) == Error(e.line, me);
    assert RuntimeMessage(f, display) == Error(f.line, mf);
    if RuntimeMessage(e, display) == RuntimeMessage(f, display) {
      ErrorDetermines(e.line, me, f.line, mf);
    }
  }

  /** The message part of a reported runtime error. */
  function ReportMessage(e: RuntimeError, display: real -> string): string
    requires ReportedAtLine(e)
  {
    match e
    case LeftNumberAdded(_, v) =>
      "the left side number " + display(v) + " operand is being added to non left number"
    case LeftStringAdded(_, s) =>
      "the left side string " + s + " operand is being added to non left number"
    case NotAddable(_) => "Operands must be two numbers or two strings"
    case NotNumbers(_) => "Operands must be two numbers"
    case NotComparable(_) => "Operands must be two numbers or two strings"
  }
}
