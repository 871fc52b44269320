/** The tree-walking evaluator of `lox_lib/src/interpreter.rs`: an expression reduces to
    a literal value, a runtime error, or an abort where the source calls `todo!`. */
module Interpreter {
  import opened Outcomes
  import opened Text
  import opened Ast

  // ---------------------------------------------------------------------------------
  // Diagnostics

  /** `Interpreter::report`: `[line N] Error <where>: <message>`. */
  function Report(line: nat, where: string, message: string): (s: string)
    ensures |s| > 6 + |message| && s[..6] == "[line "
    ensures s[|s| - |message|..] == message
  {
    "[line " + NatToString(line) + "] Error " + where + ": " + message
  }

  /** `Interpreter::error`: a report with an empty location. */
  function Error(line: nat, message: string): (s: string)
    ensures |s| > 6 + |message| && s[..6] == "[line "
    ensures s[|s| - |message|..] == message
  {
    Report(line, "", message)
  }

  /** The runtime errors of the evaluator, each with what its message names. */
  datatype RuntimeError =
    | LeftNumberAdded(line: nat, left: real)
    | LeftStringAdded(line: nat, text: string)
    | NotAddable(line: nat)
    | NotNumbers(line: nat)
    | NotComparable(line: nat)
    | UnsupportedOperator
    | NegatedNonNumber(line: nat)
    | UnexpectedUnaryOperator(op: Operator)

  /** The text of a runtime error. How a number is displayed (`{}` on an `f32`) is the
      host's formatting and is passed in as `display`. */
  function RuntimeMessage(e: RuntimeError, display: real -> string): (s: string)
    ensures |s| > 0
    ensures e.LeftNumberAdded? || e.LeftStringAdded? || e.NotAddable? || e.NotNumbers? || e.NotComparable? ==>
      |s| > 6 && s[..6] == "[line "
  {
    match e
    case LeftNumberAdded(line, v) =>
      Error(line, "the left side number " + display(v) + " operand is being added to non left number")
    case LeftStringAdded(line, s) =>
      Error(line, "the left side string " + s + " operand is being added to non left number")
    case NotAddable(line) => Error(line, "Operands must be two numbers or two strings")
    case NotNumbers(line) => Error(line, "Operands must be two numbers")
    case NotComparable(line) => Error(line, "Operands must be two numbers or two strings")
    case UnsupportedOperator => "Unsupported operator"
    case NegatedNonNumber(line) =>
      "Unary operator '-' can only be applied to numbers on line " + NatToString(line)
    case UnexpectedUnaryOperator(op) =>
      "Unexpected operator of type " + OperatorDebug(op) + " in an Unary expression. Only"
  }

  /** The message `todo!("only expressions are supported!")` aborts with. */
  const NotYetImplemented := "not yet implemented: only expressions are supported!"

  // ---------------------------------------------------------------------------------
  // Literal values

  /** `Literal::is_equal`: same variant and same payload. */
  predicate IsEqual(a: Literal, b: Literal) {
    match (a, b)
    case (Number(x), Number(y)) => x == y
    case (String(x), String(y)) => x == y
    case (Boolean(x), Boolean(y)) => x == y
    case (Nil, Nil) => true
    case _ => false
  }

  /** `Literal::is_falsy`. No file of `lox_lib` defines it (`ast.rs` declares `Literal`
      with no methods); the one fact the tests fix is that a number counts as falsy
      (`!5` is `false`). The rest of the table is a choice: every string counts as falsy
      too, a boolean is falsy when it is true, and nil is not. */
  predicate IsFalsy(v: Literal)
    ensures v.Number? ==> IsFalsy(v)
  {
    match v
    case Number(_) => true
    case String(_) => true
    case Boolean(b) => b
    case Nil => false
  }

  /** `<` on `String`: lexicographic by character, a proper prefix coming first. */
  predicate StrLess(a: string, b: string)
    ensures StrLess(a, b) ==> a != b && |b| > 0
    decreases |a|
  {
    if |b| == 0 then false
    else if |a| == 0 then true
    else if a[0] != b[0] then a[0] < b[0]
    else StrLess(a[1..], b[1..])
  }

  // ---------------------------------------------------------------------------------
  // Operators

  /** `add_impl`: numbers add, strings concatenate (right after left); any other pairing is
      an error named after the left operand. */
  function AddImpl(left: Literal, right: Literal, line: nat): (r: Outcome<Literal, RuntimeError>)
    ensures r.Ok? <==> (left.Number? && right.Number?) || (left.String? && right.String?)
    ensures r.Ok? && left.String? ==> r.value == String(left.text + right.text)
    ensures r.Ok? && left.Number? ==> r.value == Number(left.number + right.number)
    ensures !r.Panic?
  {
    match (left, right)
    case (Number(l), Number(r)) => Ok(Number(l + r))
    case (String(l), String(r)) => Ok(String(l + r))
    case (Number(l), _) => Err(LeftNumberAdded(line, l))
    case (String(l), _) => Err(LeftStringAdded(line, l))
    case _ => Err(NotAddable(line))
  }

  /** `f32` division, whose result is always a number; a zero divisor gives 0 here. */
  function FloatDivide(l: real, r: real): (q: real)
    ensures r != 0.0 ==> q * r == l
  {
    if r == 0.0 then 0.0 else l / r
  }

  /** An arithmetic operator on two numbers; any other pairing is an error. */
  function Arithmetic(left: Literal, right: Literal, line: nat, f: (real, real) -> real): (r: Outcome<Literal, RuntimeError>)
    ensures r.Ok? <==> left.Number? && right.Number?
    ensures r.Ok? ==> r.value == Number(f(left.number, right.number))
    ensures r.Err? ==> r.error == NotNumbers(line)
  {
    if left.Number? && right.Number? then Ok(Number(f(left.number, right.number)))
    else Err(NotNumbers(line))
  }

  /** `>` or `<` (as `greater`) on two numbers or two strings; any other pairing is an
      error. */
  function Compare(left: Literal, right: Literal, line: nat, greater: bool): (r: Outcome<Literal, RuntimeError>)
    ensures r.Ok? <==> (left.Number? && right.Number?) || (left.String? && right.String?)
    ensures r.Ok? ==> r.value.Boolean?
    ensures r.Err? ==> r.error == NotComparable(line)
  {
    match (left, right)
    case (Number(l), Number(r)) => Ok(Boolean(if greater then l > r else l < r))
    case (String(l), String(r)) => Ok(Boolean(if greater then StrLess(r, l) else StrLess(l, r)))
    case _ => Err(NotComparable(line))
  }

  /** The `match operator` of `visit_binary_expr`, on operands already evaluated. */
  function ApplyBinary(op: Operator, left: Literal, right: Literal): (r: Outcome<Literal, RuntimeError>)
    ensures r.Panic? <==> op.kind in {OpKind.Equal, OpKind.And, OpKind.Or}
  {
    match op.kind
    case Add => AddImpl(left, right, op.line)
    case Subtract => Arithmetic(left, right, op.line, (l, r) => l - r)
    case Multiply => Arithmetic(left, right, op.line, (l, r) => l * r)
    case Divide => Arithmetic(left, right, op.line, FloatDivide)
    case GreaterThan => Compare(left, right, op.line, true)
    case LessThan => Compare(left, right, op.line, false)
    case Equal => Panic(NotYetImplemented)
    case EqualEqual => Ok(Boolean(IsEqual(left, right)))
    case NotEqual => Ok(Boolean(!IsEqual(left, right)))
    case And => Panic(NotYetImplemented)
    case Or => Panic(NotYetImplemented)
    case Bang => Err(UnsupportedOperator)
  }

  /** The `match operator` of `visit_unary_expr`, on the operand already evaluated. */
  function ApplyUnary(op: Operator, v: Literal): (r: Outcome<Literal, RuntimeError>)
    ensures !r.Panic?
    ensures op.kind == OpKind.Bang ==> r == Ok(Boolean(!IsFalsy(v)))
    ensures op.kind == Subtract && v.Number? ==> r == Ok(Number(-v.number))
    ensures op.kind == Subtract && !v.Number? ==> r == Err(NegatedNonNumber(op.line))
    ensures op.kind != OpKind.Bang && op.kind != Subtract ==> r == Err(UnexpectedUnaryOperator(op))
  {
    match op.kind
    case Bang => Ok(Boolean(!IsFalsy(v)))
    case Subtract =>
      if v.Number? then Ok(Number(-v.number)) else Err(NegatedNonNumber(op.line))
    case _ => Err(UnexpectedUnaryOperator(op))
  }

  // ---------------------------------------------------------------------------------
  // The visitor

  /** `visit_node` with the `Visitor` impl: a literal is its value, a grouping its child's
      value; a unary or binary node evaluates its operands first, left before right, and
      the first failure is the result. */
  function Eval(e: ExprNode): (r: Outcome<Literal, RuntimeError>)
    ensures r.Panic? ==> r.reason == NotYetImplemented
    decreases e
  {
    match e
    case Literal(v) => Ok(v)
    case Grouping(child) => Eval(child)
    case UnaryExpr(op, right) =>
      (match Eval(right)
       case Ok(v) => ApplyUnary(op, v)
       case Err(err) => Err(err)
       case Panic(m) => Panic(m))
    case BinaryExpr(left, op, right) =>
      match Eval(left)
      case Err(err) => Err(err)
      case Panic(m) => Panic(m)
      case Ok(a) =>
        match Eval(right)
        case Ok(b) => ApplyBinary(op, a, b)
        case Err(err) => Err(err)
        case Panic(m) => Panic(m)
  }
}
