/** The abstract syntax tree the parser builds and the analyzer and code generator walk. */
module Ast {

  /** Static types; they exist only while the analyzer checks a program. */
  datatype Type = IntType | FloatType | BoolType

  datatype BinOp =
    | OrOp | AndOp
    | EqualOp | NotEqualOp
    | LessOp | GreaterOp | LessEqualOp | GreaterEqualOp
    | AddOp | SubOp
    | MulOp | DivOp

  datatype UnOp = NegOp | NotOp

  /** A literal keeps its value; a float literal keeps only its text, as runtime floats are not modelled. */
  datatype Lit = IntLit(i: int) | FloatLit(text: string) | BoolLit(b: bool)

  datatype Expr =
    | BinaryOp(left: Expr, op: BinOp, right: Expr)
    | UnaryOp(uop: UnOp, operand: Expr)
    | Identifier(id: string)
    | Literal(lit: Lit)

  /**
    Statements. `elseIfList` holds the `else if` clauses (each an IfStatement
    with an empty list of its own) and possibly one trailing ElseStatement.
  */
  datatype Stmt =
    | VariableDecl(name: string, ty: Type, value: Expr)
    | WhileLoop(condition: Expr, body: seq<Stmt>)
    | IfStatement(condition: Expr, ifBody: seq<Stmt>, elseIfList: seq<Stmt>)
    | ElseStatement(body: seq<Stmt>)
    | BreakStatement
    | PrintStatement(expr: Expr)
    | AssignmentStmt(name: string, value: Expr)

  datatype Program = Program(statements: seq<Stmt>)

  /** The names an expression reads. */
  function Names(e: Expr): set<string> {
    match e
    case Literal(_) => {}
    case Identifier(name) => {name}
    case UnaryOp(_, operand) => Names(operand)
    case BinaryOp(left, _, right) => Names(left) + Names(right)
  }

  function LiteralType(lit: Lit): Type {
    match lit
    case IntLit(_) => IntType
    case FloatLit(_) => FloatType
    case BoolLit(_) => BoolType
  }
}
