/** A reference definition of the evaluator's outcome. The language has no variables, so
    the variant of every value is fixed by the tree alone; this module computes, without
    evaluating anything, whether an expression yields a value (and of which variant), a
    runtime error, or an abort, and proves the evaluator agrees on every tree. */
module Typing {
  import opened Outcomes
  import opened Ast
  import opened Interpreter

  datatype Type = NumberType | StringType | BooleanType | NilType

  function TypeOf(v: Literal): Type {
    match v
    case Number(_) => NumberType
    case String(_) => StringType
    case Boolean(_) => BooleanType
    case Nil => NilType
  }

  /** What evaluating an expression comes to: a value of a type, a runtime error, or an
      abort. */
  datatype Verdict = Typed(ty: Type) | Rejected | Unsupported

  function Classify(r: Outcome<Literal, RuntimeError>): Verdict {
    match r
    case Ok(v) => Typed(TypeOf(v))
    case Err(_) => Rejected
    case Panic(_) => Unsupported
  }

  /** The operator table of the language, by operand types. */
  function BinaryVerdict(k: OpKind, a: Type, b: Type): Verdict {
    match k
    case Add => if a == b && (a == NumberType || a == StringType) then Typed(a) else Rejected
    case Subtract => if a == NumberType && b == NumberType then Typed(NumberType) else Rejected
    case Multiply => if a == NumberType && b == NumberType then Typed(NumberType) else Rejected
    case Divide => if a == NumberType && b == NumberType then Typed(NumberType) else Rejected
    case GreaterThan => if a == b && (a == NumberType || a == StringType) then Typed(BooleanType) else Rejected
    case LessThan => if a == b && (a == NumberType || a == StringType) then Typed(BooleanType) else Rejected
    case EqualEqual => Typed(BooleanType)
    case NotEqual => Typed(BooleanType)
    case Equal => Unsupported
    case And => Unsupported
    case Or => Unsupported
    case Bang => Rejected
  }

  function UnaryVerdict(k: OpKind, a: Type): Verdict {
    match k
    case Bang => Typed(BooleanType)
    case Subtract => if a == NumberType then Typed(NumberType) else Rejected
    case _ => Rejected
  }

  /** The verdict of a tree, operands first and left before right, as the evaluator
      visits them. */
  function Check(e: ExprNode): Verdict {
    match e
    case Literal(v) => Typed(TypeOf(v))
    case Grouping(child) => Check(child)
    case UnaryExpr(op, right) =>
      (match Check(right)
       case Typed(a) => UnaryVerdict(op.kind, a)
       case other => other)
    case BinaryExpr(left, op, right) =>
      match Check(left)
      case Typed(a) =>
        (match Check(right)
         case Typed(b) => BinaryVerdict(op.kind, a, b)
         case other => other)
      case other => other
  }

  /** Each binary operator yields what the table says for its operands' types. */
  lemma ApplyBinaryFollowsTable(op: Operator, a: Literal, b: Literal)
    ensures Classify(ApplyBinary(op, a, b)) == BinaryVerdict(op.kind, TypeOf(a), TypeOf(b))
  {
  }

  lemma ApplyUnaryFollowsTable(op: Operator, v: Literal)
    ensures Classify(ApplyUnary(op, v)) == UnaryVerdict(op.kind, TypeOf(v))
  {
  }

  /** The evaluator agrees with the reference on every tree: it yields a value of type `t`
      exactly when the reference says `Typed(t)`, a runtime error exactly when it says
      `Rejected`, and aborts exactly when it says `Unsupported`. */
  lemma {:induction false} CheckPredictsEval(e: ExprNode)
    ensures Classify(Eval(e)) == Check(e)
    decreases e
  {
    match e
    case Literal(_) =>
    case Grouping(child) => CheckPredictsEval(child);
    case UnaryExpr(op, right) =>
      CheckPredictsEval(right);
      if Eval(right).Ok? {
        ApplyUnaryFollowsTable(op, Eval(right).value);
      }
    case BinaryExpr(left, op, right) =>
      CheckPredictsEval(left);
      CheckPredictsEval(right);
      if Eval(left).Ok? && Eval(right).Ok? {
        ApplyBinaryFollowsTable(op, Eval(left).value, Eval(right).value);
      }
  }

  /** Consequences: `!` always yields a boolean from a value; `==` and `!=` never fail on
      values; `-` fails exactly on a non-number. */
  lemma UnaryAndEqualityTotal(e: ExprNode, line: nat)
    requires Eval(e).Ok?
    ensures Eval(UnaryExpr(Operator(OpKind.Bang, line), e)).Ok?
    ensures Eval(UnaryExpr(Operator(OpKind.Bang, line), e)).value.Boolean?
    ensures Eval(UnaryExpr(Operator(Subtract, line), e)).Ok? <==> Check(e) == Typed(NumberType)
    ensures forall f :: Eval(f).Ok? ==> Eval(BinaryExpr(e, Operator(EqualEqual, line), f)).Ok?
  {
    CheckPredictsEval(e);
  }
}
