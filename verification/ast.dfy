/** The syntax tree the parser builds and the evaluator walks: literal values, operators
    tagged with their source line, expression and statement nodes. */
module Ast {
  import opened Text
  import Lexer

  /** A value of the language (`Literal`). A number is its exact decimal value. */
  datatype Literal = Number(number: real) | String(text: string) | Boolean(b: bool) | Nil

  /** The operator variants. */
  datatype OpKind =
    | Add | Subtract | Multiply | Divide | GreaterThan | LessThan
    | Equal | EqualEqual | NotEqual | And | Or | Bang

  /** An operator with the line of the token it was built from (`Operator::Add { line }`
      and its siblings); the line is used only in error messages. */
  datatype Operator = Operator(kind: OpKind, line: nat)

  /** An expression node; every child is owned by its parent. */
  datatype ExprNode =
    | Literal(value: Literal)
    | Grouping(child: ExprNode)
    | UnaryExpr(op: Operator, right: ExprNode)
    | BinaryExpr(left: ExprNode, op: Operator, right: ExprNode)

  /** Why a statement failed to parse. `Expected ';' after a statement` and `Expected ';'
      after an expression` replace the error of the `;` check that failed. */
  datatype SyntaxError =
    | UnsupportedToken(kind: Lexer.TokenKind)
    | ExpectedToken(expected: Lexer.TokenKind, found: Lexer.TokenKind)
    | SemicolonAfterStatement
    | SemicolonAfterExpression

  /** A statement node. `ErrStmt` stands in for a statement that failed to parse and
      carries the reason. */
  datatype StmtNode = PrintStmt(expr: ExprNode) | ExprStmt(expr: ExprNode) | ErrStmt(error: SyntaxError)

  /** The name of an operator variant as `Debug` spells it. */
  function OpKindName(k: OpKind): (s: string)
    ensures |s| > 0
  {
    match k
    case Add => "Add"                 case Subtract => "Subtract"
    case Multiply => "Multiply"       case Divide => "Divide"
    case GreaterThan => "GreaterThan" case LessThan => "LessThan"
    case Equal => "Equal"             case EqualEqual => "EqualEqual"
    case NotEqual => "NotEqual"       case And => "And"
    case Or => "Or"                   case Bang => "Bang"
  }

  /** An operator as `{:?}` renders a struct-like variant: `Add { line: 3 }`. */
  function OperatorDebug(op: Operator): string {
    OpKindName(op.kind) + " { line: " + NatToString(op.line) + " }"
  }

  /** The operator names are pairwise distinct. */
  lemma OpKindNameInjective(a: OpKind, b: OpKind)
    ensures OpKindName(a) == OpKindName(b) <==> a == b
  {
  }
}
