/** The syntax tree of a MiniScript program. Every node carries the line and column of the
    token that starts it, both defaulting to 1. Statement bodies are plain statement lists:
    there is no block node. */
module Ast {
  import opened Wrappers
  import opened TokenTypes

  datatype Expr =
    | BinaryOp(left: Expr, operator: string, right: Expr, line: int := 1, column: int := 1)
    | UnaryOp(operator: string, operand: Expr, line: int := 1, column: int := 1)
    | Identifier(name: string, line: int := 1, column: int := 1)
    | IntLiteral(value: Value, line: int := 1, column: int := 1)
    | FloatLiteral(value: Value, line: int := 1, column: int := 1)
    | StringLiteral(value: Value, line: int := 1, column: int := 1)
    | BoolLiteral(value: Value, line: int := 1, column: int := 1)
    | FunctionCall(name: string, arguments: seq<Expr>, line: int := 1, column: int := 1)
      /** Declared for indexing, but no production of the grammar builds it. */
    | ArrayAccess(array: Expr, index: Expr, line: int := 1, column: int := 1)

  datatype Stmt =
    | VarDeclaration(name: string, dataType: Option<string>, initializer: Option<Expr>, line: int := 1, column: int := 1)
      /** The target is a plain name, not an expression. */
    | Assignment(target: string, value: Expr, line: int := 1, column: int := 1)
    | IfStatement(condition: Expr, thenBody: seq<Stmt>, elseBody: ElseBody, line: int := 1, column: int := 1)
    | WhileStatement(condition: Expr, body: seq<Stmt>, line: int := 1, column: int := 1)
      /** Initialiser, condition and update are each optional. */
    | ForStatement(init: Option<Stmt>, cond: Option<Expr>, update: Option<Stmt>, body: seq<Stmt>, line: int := 1, column: int := 1)
    | FunctionDeclaration(name: string, parameters: seq<string>, body: seq<Stmt>, line: int := 1, column: int := 1)
    | ReturnStatement(result: Option<Expr>, line: int := 1, column: int := 1)
    | PrintStatement(value: Expr, line: int := 1, column: int := 1)

  /** The else branch of an `if`: absent, or its statement list. */
  datatype ElseBody = NoElse | ElseStatements(body: seq<Stmt>)

  /** The else branch the parser's optional statement list stands for. */
  function ElseOf(o: Option<seq<Stmt>>): ElseBody {
    if o.Some? then ElseStatements(o.value) else NoElse
  }

  datatype Program = Program(statements: seq<Stmt>, line: int := 1, column: int := 1)

  /** No array access occurs anywhere in the expression. */
  predicate NoArrayAccess(e: Expr) {
    match e
    case BinaryOp(l, _, r, _, _) => NoArrayAccess(l) && NoArrayAccess(r)
    case UnaryOp(_, x, _, _) => NoArrayAccess(x)
    case FunctionCall(_, args, _, _) => forall i :: 0 <= i < |args| ==> NoArrayAccess(args[i])
    case ArrayAccess(_, _, _, _) => false
    case _ => true
  }

  lemma NodeDefaults(name: string)
    ensures Identifier(name).line == 1 && Identifier(name).column == 1
    ensures PrintStatement(Identifier(name)).line == 1 && PrintStatement(Identifier(name)).column == 1
    ensures Program([]).line == 1 && Program([]).column == 1
  {
  }
}
