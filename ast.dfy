/** The statement and expression nodes the parser builds (the dictionaries with a
    'type' key in interpreter.py). */
module Syntax {
  import opened Wrappers

  /** The operators of 'binary_op' nodes ('or', 'and', '==', '!=', '<', '>', '<=',
      '>=', '+', '-', '*', '/', '%'). */
  datatype BinOp = Or | And | Eq | Ne | Lt | Gt | Le | Ge | Add | Sub | Mul | Div | Mod

  /** The operators of 'unary_op' nodes ('-' and '!'). */
  datatype UnOp = Neg | LogicalNot

  /** The value of a 'literal' node: a Python int, float, str or bool.  Floats are
      exact reals here (see README). */
  datatype Literal = IntLit(i: int) | FloatLit(r: real) | StrLit(s: string) | BoolLit(b: bool)

  datatype Expr =
    | Lit(lit: Literal)
    | Ident(name: string)
    | Binary(op: BinOp, left: Expr, right: Expr)
    | Unary(uop: UnOp, operand: Expr)
    | Call(callee: string, args: seq<Expr>)
    /** 'member_access'; an object given by name is the identifier node of that name. */
    | Member(obj: Expr, member: string)
    /** 'member_call'. */
    | MemberCall(obj: Expr, member: string, args: seq<Expr>)

  datatype Stmt =
    | VarDecl(name: string, value: Expr)
    | FunctionDecl(name: string, params: seq<string>, body: seq<Stmt>)
    | PrintStmt(value: Expr)
    | IfStmt(cond: Expr, thenBody: seq<Stmt>, elseBody: seq<Stmt>)
    | WhileStmt(cond: Expr, body: seq<Stmt>)
    /** The init clause, when present, is a VarDecl. */
    | ForStmt(init: Option<Stmt>, cond: Expr, update: Stmt, body: seq<Stmt>)
    | ReturnStmt(result: Option<Expr>)
    | AssignStmt(target: Expr, value: Expr)
    | ExprStmt(expr: Expr)
}
