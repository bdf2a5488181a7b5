/** The semantic analyzer: one walk over the syntax tree that declares names in the symbol
    table, types every expression and collects error messages; it never stops at an error.

    The specification is a set of functions from the analyzer's state (the symbol table and the
    error list) to the state after a statement; the `SemanticAnalyzer` class performs the same
    walk by updating its table and its error list in place. */
module Semantics {
  import opened Wrappers
  import opened Strings
  import opened Ast
  import opened Symbols

  /** What the analyzer has so far: its symbol table and its errors, oldest first. */
  datatype Analysis = Analysis(table: Table, errors: seq<string>)

  /** `add_error` with a node: the message prefixed with the node's position. */
  function At(line: int, column: int, message: string): string {
    "Line " + IntToString(line) + ", Column " + IntToString(column) + ": " + message
  }

  // The messages, one per kind of error
  function InvalidOperation(lt: string, op: string, rt: string): string { "Invalid operation: " + lt + " " + op + " " + rt }
  function InvalidUnaryOperation(op: string, xt: string): string { "Invalid unary operation: " + op + " " + xt }
  function UndeclaredVariable(name: string): string { "Undeclared variable '" + name + "'" }
  function UndeclaredFunction(name: string): string { "Undeclared function '" + name + "'" }
  function NotAFunction(name: string): string { "'" + name + "' is not a function" }
  function VariableRedeclared(name: string): string { "Variable '" + name + "' already declared" }
  function FunctionRedeclared(name: string): string { "Function '" + name + "' already declared" }
  /** `what` is "If", "While" or "For". */
  function NotBoolCondition(what: string, ct: string): string { what + " condition must be bool, got " + ct }

  // ---------------------------------------------------------------------------------------
  // Expressions: they read the table and never change it

  /** The type `visit_expression` gives an expression. */
  function TypeOf(t: Table, e: Expr): string {
    match e
    case BinaryOp(l, op, r, _, _) =>
      var res := InferBinaryResultType(TypeOf(t, l), op, TypeOf(t, r));
      if res.None? then "error" else res.value
    case UnaryOp(op, x, _, _) =>
      var res := InferType(TypeOf(t, x), op);
      if res.None? then "error" else res.value
    case Identifier(name, _, _) =>
      var s := LookupIn(t, name);
      if s.None? then "error" else s.value.dataType
    case IntLiteral(_, _, _) => "int"
    case FloatLiteral(_, _, _) => "float"
    case StringLiteral(_, _, _) => "string"
    case BoolLiteral(_, _, _) => "bool"
    case FunctionCall(name, _, _, _) =>
      var s := LookupIn(t, name);
      if s.None? || !s.value.isFunction then "error" else "auto"
    case ArrayAccess(_, _, _, _) => "unknown"
  }

  /** The errors `visit_expression` reports, in the order it reports them. */
  function ErrorsOf(t: Table, e: Expr): seq<string>
    decreases e, 0
  {
    match e
    case BinaryOp(l, op, r, line, column) =>
      var lt, rt := TypeOf(t, l), TypeOf(t, r);
      ErrorsOf(t, l) + ErrorsOf(t, r)
        + if InferBinaryResultType(lt, op, rt).None? then [At(line, column, InvalidOperation(lt, op, rt))] else []
    case UnaryOp(op, x, line, column) =>
      var xt := TypeOf(t, x);
      ErrorsOf(t, x) + if InferType(xt, op).None? then [At(line, column, InvalidUnaryOperation(op, xt))] else []
    case Identifier(name, line, column) =>
      if LookupIn(t, name).None? then [At(line, column, UndeclaredVariable(name))] else []
    case FunctionCall(name, args, line, column) =>
      var s := LookupIn(t, name);
      if s.None? then [At(line, column, UndeclaredFunction(name))]
      else if !s.value.isFunction then [At(line, column, NotAFunction(name))]
      else ArgsErrors(t, args, |args|)
    case _ => []
  }

  /** The errors of the first `n` call arguments, visited left to right. */
  function ArgsErrors(t: Table, args: seq<Expr>, n: nat): seq<string>
    requires n <= |args|
    decreases args, n
  {
    if n == 0 then [] else ArgsErrors(t, args, n - 1) + ErrorsOf(t, args[n - 1])
  }

  /** The errors after one more argument. */
  lemma ArgsErrorsStep(before: seq<string>, t: Table, args: seq<Expr>, i: nat)
    requires i < |args|
    ensures before + ArgsErrors(t, args, i + 1) == before + ArgsErrors(t, args, i) + ErrorsOf(t, args[i])
  {
    AppendAssoc(before, ArgsErrors(t, args, i), ErrorsOf(t, args[i]));
  }

  /** The errors of a loop or branch condition: those of the expression, then one more when its
      type is not bool. `what` is "If", "While" or "For". */
  function ConditionErrors(t: Table, cond: Expr, what: string, line: int, column: int): seq<string> {
    var ct := TypeOf(t, cond);
    ErrorsOf(t, cond) + if ct != "bool" then [At(line, column, NotBoolCondition(what, ct))] else []
  }

  // ---------------------------------------------------------------------------------------
  // The shape of the table between statements

  /** The table between two statements: consistent, its stack 0, 1, …, depth, and no symbol
      deeper than the current level. */
  predicate TableReady(t: Table) {
    && Consistent(t) && Nested(t) && t.scopeStack != []
    && forall i :: 0 <= i < |t.symbols| ==> t.symbols[i].1.scope <= t.scope
  }

  predicate Ready(a: Analysis) {
    TableReady(a.table)
  }

  /** What a statement may do to the table: keep the level and the stack, keep every symbol, and
      add new symbols only at the current level, after the old ones. */
  predicate TableKeeps(t: Table, u: Table) {
    && Consistent(u)
    && u.scope == t.scope && u.scopeStack == t.scopeStack
    && t.symbols <= u.symbols
    && forall i :: |t.symbols| <= i < |u.symbols| ==> u.symbols[i].1.scope == t.scope
  }

  /** What a statement may do to the analysis: the table as above, and errors only added. */
  predicate Keeps(a: Analysis, r: Analysis) {
    TableKeeps(a.table, r.table) && a.errors <= r.errors
  }

  lemma TableKeepsReady(t: Table, u: Table)
    requires TableReady(t) && TableKeeps(t, u)
    ensures TableReady(u)
  {
    forall i | 0 <= i < |u.symbols| ensures u.symbols[i].1.scope <= u.scope {
      if i < |t.symbols| {
        assert u.symbols[i] == t.symbols[i];
      }
    }
  }

  lemma TableKeepsTransitive(t: Table, u: Table, v: Table)
    requires TableKeeps(t, u) && TableKeeps(u, v)
    ensures TableKeeps(t, v)
  {
    forall i | |t.symbols| <= i < |v.symbols| ensures v.symbols[i].1.scope == t.scope {
      if i < |u.symbols| {
        assert v.symbols[i] == u.symbols[i];
      }
    }
  }

  lemma KeepsTransitive(a: Analysis, b: Analysis, c: Analysis)
    requires Keeps(a, b) && Keeps(b, c)
    ensures Keeps(a, c)
  {
    TableKeepsTransitive(a.table, b.table, c.table);
  }

  lemma DeclareKeeps(t: Table, name: string, dataType: string, isFunction: bool)
    requires Consistent(t)
    ensures TableKeeps(t, DeclareIn(t, name, dataType, isFunction).1)
  {
    DeclareKeepsConsistent(t, name, dataType, isFunction);
  }

  lemma EnterReady(t: Table)
    requires TableReady(t)
    ensures TableReady(Entered(t))
  {
    EnterNests(t);
  }

  /** No entry survives when every entry lives at the dropped level. */
  lemma RemoveWholeLevel(entries: seq<Entry>, level: nat)
    requires forall i :: 0 <= i < |entries| ==> entries[i].1.scope == level
    ensures RemoveLevel(entries, level) == []
  {
  }

  /** Dropping a level that only the entries added last live at leaves the earlier ones. */
  lemma RemoveInnerLevel(outer: seq<Entry>, inner: seq<Entry>, level: nat)
    requires forall i :: 0 <= i < |outer| ==> outer[i].1.scope < level
    requires forall i :: 0 <= i < |inner| ==> inner[i].1.scope == level
    ensures RemoveLevel(outer + inner, level) == outer
  {
    RemoveLevelAppend(outer, inner, level);
    RemoveAbsentLevel(outer, level);
    RemoveWholeLevel(inner, level);
  }

  /** Leaving a scope whose statements all kept to their level gives back exactly the table
      the scope was entered from: everything declared inside is forgotten. */
  lemma ExitRestores(t: Table, u: Table)
    requires TableReady(t) && TableKeeps(Entered(t), u)
    ensures Exited(u) == t
  {
    var inner := u.symbols[|t.symbols|..];
    assert u.symbols == t.symbols + inner;
    RemoveInnerLevel(t.symbols, inner, t.scope + 1);
    assert u.scopeStack[..|u.scopeStack| - 1] == t.scopeStack;
    assert Exited(u).symbols == t.symbols;
  }

  // ---------------------------------------------------------------------------------------
  // Statements

  /** The parameters' declarations: each of the first `n` is declared as "auto" at the current
      level, and a refused (duplicate) one is silently ignored. */
  function DeclareAll(t: Table, params: seq<string>, n: nat): (r: Table)
    requires Consistent(t) && n <= |params|
    ensures TableKeeps(t, r)
  {
    if n == 0 then t
    else
      var u := DeclareAll(t, params, n - 1);
      DeclareKeeps(u, params[n - 1], "auto", false);
      TableKeepsTransitive(t, u, DeclareIn(u, params[n - 1], "auto", false).1);
      DeclareIn(u, params[n - 1], "auto", false).1
  }

  /** `visit_statement`. */
  function AfterStatement(a: Analysis, s: Stmt): (r: Analysis)
    requires Ready(a)
    ensures Keeps(a, r)
    decreases s, 2
  {
    match s
    case VarDeclaration(_, _, _, _, _) => AfterVarDeclaration(a, s)
    case Assignment(_, _, _, _) => AfterAssignment(a, s)
    case IfStatement(_, _, _, _, _) => AfterIf(a, s)
    case WhileStatement(_, _, _, _) => AfterWhile(a, s)
    case ForStatement(_, _, _, _, _, _) => AfterFor(a, s)
    case FunctionDeclaration(_, _, _, _, _) => AfterFunction(a, s)
    case ReturnStatement(_, _, _) => AfterReturn(a, s)
    case PrintStatement(_, _, _) => AfterPrint(a, s)
  }

  /** The statements `ss[..n]`, one after the other. */
  /** One more statement of a list. */
  lemma StatementsStep(a: Analysis, ss: seq<Stmt>, i: nat)
    requires Ready(a) && i < |ss|
    ensures Ready(AfterStatements(a, ss, i))
    ensures AfterStatements(a, ss, i + 1) == AfterStatement(AfterStatements(a, ss, i), ss[i])
  {
    TableKeepsReady(a.table, AfterStatements(a, ss, i).table);
  }

  function AfterStatements(a: Analysis, ss: seq<Stmt>, n: nat): (r: Analysis)
    requires Ready(a) && n <= |ss|
    ensures Keeps(a, r)
    decreases ss, n
  {
    if n == 0 then a
    else
      var b := AfterStatements(a, ss, n - 1);
      TableKeepsReady(a.table, b.table);
      var c := AfterStatement(b, ss[n - 1]);
      KeepsTransitive(a, b, c);
      c
  }

  /** `visit_var_declaration`: the name is declared as "auto" before its initializer is visited,
      so the initializer already sees it; a redeclaration at the same level is reported and the
      initializer is then not visited. */
  function AfterVarDeclaration(a: Analysis, s: Stmt): (r: Analysis)
    requires Ready(a) && s.VarDeclaration?
    ensures Keeps(a, r)
    decreases s, 1
  {
    var d := DeclareIn(a.table, s.name, "auto", false);
    DeclareKeeps(a.table, s.name, "auto", false);
    if !d.0 then Analysis(a.table, a.errors + [At(s.line, s.column, VariableRedeclared(s.name))])
    else Analysis(d.1, a.errors + if s.initializer.Some? then ErrorsOf(d.1, s.initializer.value) else [])
  }

  /** `visit_assignment`: an undeclared target is reported and the value is then not visited. */
  function AfterAssignment(a: Analysis, s: Stmt): (r: Analysis)
    requires Ready(a) && s.Assignment?
    ensures Keeps(a, r) && r.table == a.table
    decreases s, 1
  {
    if LookupIn(a.table, s.target).None? then
      Analysis(a.table, a.errors + [At(s.line, s.column, UndeclaredVariable(s.target))])
    else Analysis(a.table, a.errors + ErrorsOf(a.table, s.value))
  }

  /** `visit_if_statement`: no scope is opened for either branch. */
  function AfterIf(a: Analysis, s: Stmt): (r: Analysis)
    requires Ready(a) && s.IfStatement?
    ensures Keeps(a, r)
    decreases s, 1
  {
    var b := Analysis(a.table, a.errors + ConditionErrors(a.table, s.condition, "If", s.line, s.column));
    var c := AfterStatements(b, s.thenBody, |s.thenBody|);
    KeepsTransitive(a, b, c);
    TableKeepsReady(a.table, c.table);
    if s.elseBody.ElseStatements? then
      var d := AfterStatements(c, s.elseBody.body, |s.elseBody.body|);
      KeepsTransitive(a, c, d);
      d
    else c
  }

  /** `visit_while_statement`: no scope is opened for the body. */
  function AfterWhile(a: Analysis, s: Stmt): (r: Analysis)
    requires Ready(a) && s.WhileStatement?
    ensures Keeps(a, r)
    decreases s, 1
  {
    var b := Analysis(a.table, a.errors + ConditionErrors(a.table, s.condition, "While", s.line, s.column));
    var c := AfterStatements(b, s.body, |s.body|);
    KeepsTransitive(a, b, c);
    c
  }

  /** The part of `visit_for_statement` before the body: initializer, condition, update. */
  function AfterForHeader(b: Analysis, s: Stmt): (r: Analysis)
    requires Ready(b) && s.ForStatement?
    ensures Keeps(b, r)
    decreases s, 0
  {
    var c := if s.init.Some? then AfterStatement(b, s.init.value) else b;
    TableKeepsReady(b.table, c.table);
    var d := if s.cond.Some? then Analysis(c.table, c.errors + ConditionErrors(c.table, s.cond.value, "For", s.line, s.column)) else c;
    var e := if s.update.Some? then AfterStatement(d, s.update.value) else d;
    KeepsTransitive(b, c, d);
    KeepsTransitive(b, d, e);
    e
  }

  /** `visit_for_statement`: initializer, condition, update and body are analysed inside a new
      scope, which is closed afterwards, so the table comes back unchanged. */
  function AfterFor(a: Analysis, s: Stmt): (r: Analysis)
    requires Ready(a) && s.ForStatement?
    ensures Keeps(a, r) && r.table == a.table
    decreases s, 1
  {
    EnterReady(a.table);
    var b := Analysis(Entered(a.table), a.errors);
    var e := AfterForHeader(b, s);
    TableKeepsReady(b.table, e.table);
    var f := AfterStatements(e, s.body, |s.body|);
    KeepsTransitive(b, e, f);
    ExitRestores(a.table, f.table);
    Analysis(Exited(f.table), f.errors)
  }

  /** `visit_function_declaration`: the name is declared as a function at the current level;
      the parameters and the body live in a new scope that is closed afterwards. A redeclared
      name is reported and its body is then not analysed. */
  function AfterFunction(a: Analysis, s: Stmt): (r: Analysis)
    requires Ready(a) && s.FunctionDeclaration?
    ensures Keeps(a, r) && r.table == DeclareIn(a.table, s.name, "func", true).1
    decreases s, 1
  {
    var d := DeclareIn(a.table, s.name, "func", true);
    DeclareKeeps(a.table, s.name, "func", true);
    if !d.0 then Analysis(a.table, a.errors + [At(s.line, s.column, FunctionRedeclared(s.name))])
    else
      TableKeepsReady(a.table, d.1);
      EnterReady(d.1);
      var entered := Entered(d.1);
      var b := Analysis(DeclareAll(entered, s.parameters, |s.parameters|), a.errors);
      TableKeepsReady(entered, b.table);
      var f := AfterStatements(b, s.body, |s.body|);
      TableKeepsTransitive(entered, b.table, f.table);
      ExitRestores(d.1, f.table);
      Analysis(Exited(f.table), f.errors)
  }

  /** `visit_return_statement`. */
  function AfterReturn(a: Analysis, s: Stmt): (r: Analysis)
    requires Ready(a) && s.ReturnStatement?
    ensures Keeps(a, r) && r.table == a.table
    decreases s, 1
  {
    Analysis(a.table, a.errors + if s.result.Some? then ErrorsOf(a.table, s.result.value) else [])
  }

  /** `visit_print_statement`. */
  function AfterPrint(a: Analysis, s: Stmt): (r: Analysis)
    requires Ready(a) && s.PrintStatement?
    ensures Keeps(a, r) && r.table == a.table
    decreases s, 1
  {
    Analysis(a.table, a.errors + ErrorsOf(a.table, s.value))
  }

  /** A fresh analyzer's table is ready. */
  lemma InitialReady()
    ensures Ready(Analysis(Initial(), []))
  {
  }

  /** `analyze` on a fresh analyzer: the state after every statement of the program. */
  function AnalyzeProgram(p: Program): (r: Analysis)
    ensures Keeps(Analysis(Initial(), []), r)
  {
    InitialReady();
    AfterStatements(Analysis(Initial(), []), p.statements, |p.statements|)
  }

  // ---------------------------------------------------------------------------------------
  // The analyzer object

  class SemanticAnalyzer {
    const table: SymbolTable
    var errors: seq<string>

    function State(): Analysis
      reads this, table
    {
      Analysis(table.Value(), errors)
    }

    ghost predicate Valid()
      reads this, table
    {
      table.Valid() && Ready(State())
    }

    constructor()
      ensures Valid() && fresh(table) && State() == Analysis(Initial(), [])
    {
      table := new SymbolTable();
      errors := [];
    }

    /** `analyze`: true exactly when no error has been recorded, counting those of earlier calls. */
    method Analyze(program: Program) returns (ok: bool)
      requires Valid()
      modifies this, table
      ensures Valid()
      ensures State() == AfterStatements(old(State()), program.statements, |program.statements|)
      ensures ok <==> errors == []
    {
      VisitStatements(program.statements);
      ok := |errors| == 0;
    }

    method AddError(message: string, line: int, column: int)
      modifies this
      ensures errors == old(errors) + [At(line, column, message)]
    {
      errors := errors + [At(line, column, message)];
    }

    /** The loop `for stmt in …: self.visit_statement(stmt)` shared by every statement list. */
    method VisitStatements(ss: seq<Stmt>)
      requires Valid()
      modifies this, table
      ensures Valid() && State() == AfterStatements(old(State()), ss, |ss|)
      decreases ss, 2
    {
      for i := 0 to |ss|
        invariant Valid() && State() == AfterStatements(old(State()), ss, i)
      {
        VisitStatement(ss[i]);
        StatementsStep(old(State()), ss, i);
      }
    }

    method VisitStatement(s: Stmt)
      requires Valid()
      modifies this, table
      ensures Valid() && State() == AfterStatement(old(State()), s)
      decreases s, 2
    {
      match s
      case VarDeclaration(_, _, _, _, _) => VisitVarDeclaration(s);
      case Assignment(_, _, _, _) => VisitAssignment(s);
      case IfStatement(_, _, _, _, _) => VisitIfStatement(s);
      case WhileStatement(_, _, _, _) => VisitWhileStatement(s);
      case ForStatement(_, _, _, _, _, _) => VisitForStatement(s);
      case FunctionDeclaration(_, _, _, _, _) => VisitFunctionDeclaration(s);
      case ReturnStatement(_, _, _) => VisitReturnStatement(s);
      case PrintStatement(_, _, _) => VisitPrintStatement(s);
    }

    method VisitVarDeclaration(s: Stmt)
      requires Valid() && s.VarDeclaration?
      modifies this, table
      ensures Valid() && State() == AfterVarDeclaration(old(State()), s)
      decreases s, 1
    {
      DeclareKeeps(table.Value(), s.name, "auto", false);
      TableKeepsReady(table.Value(), DeclareIn(table.Value(), s.name, "auto", false).1);
      var ok := table.Declare(s.name, "auto");
      if !ok {
        AddError(VariableRedeclared(s.name), s.line, s.column);
        return;
      }
      if s.initializer.Some? {
        var initType := VisitExpression(s.initializer.value);
      }
    }

    method VisitAssignment(s: Stmt)
      requires Valid() && s.Assignment?
      modifies this
      ensures Valid() && State() == AfterAssignment(old(State()), s)
      decreases s, 1
    {
      var symbol := table.Lookup(s.target);
      if symbol.None? {
        AddError(UndeclaredVariable(s.target), s.line, s.column);
        return;
      }
      var valueType := VisitExpression(s.value);
    }

    /** The condition check shared by `if`, `while` and `for`. */
    method VisitCondition(cond: Expr, what: string, line: int, column: int)
      requires Valid()
      modifies this
      ensures Valid() && errors == old(errors) + ConditionErrors(table.Value(), cond, what, line, column)
    {
      var condType := VisitExpression(cond);
      if condType != "bool" {
        AddError(NotBoolCondition(what, condType), line, column);
      }
    }

    method VisitIfStatement(s: Stmt)
      requires Valid() && s.IfStatement?
      modifies this, table
      ensures Valid() && State() == AfterIf(old(State()), s)
      decreases s, 1
    {
      VisitCondition(s.condition, "If", s.line, s.column);
      VisitStatements(s.thenBody);
      if s.elseBody.ElseStatements? {
        VisitStatements(s.elseBody.body);
      }
    }

    method VisitWhileStatement(s: Stmt)
      requires Valid() && s.WhileStatement?
      modifies this, table
      ensures Valid() && State() == AfterWhile(old(State()), s)
      decreases s, 1
    {
      VisitCondition(s.condition, "While", s.line, s.column);
      VisitStatements(s.body);
    }

    method VisitForStatement(s: Stmt)
      requires Valid() && s.ForStatement?
      modifies this, table
      ensures Valid() && State() == AfterFor(old(State()), s)
      decreases s, 1
    {
      EnterReady(table.Value());
      table.EnterScope();
      VisitForHeader(s);
      VisitStatements(s.body);
      ghost var f := State();
      ExitRestores(old(State()).table, f.table);
      table.ExitScope();
    }

    method VisitForHeader(s: Stmt)
      requires Valid() && s.ForStatement?
      modifies this, table
      ensures Valid() && State() == AfterForHeader(old(State()), s)
      decreases s, 0
    {
      if s.init.Some? {
        VisitStatement(s.init.value);
      }
      if s.cond.Some? {
        VisitCondition(s.cond.value, "For", s.line, s.column);
      }
      if s.update.Some? {
        VisitStatement(s.update.value);
      }
    }

    method VisitFunctionDeclaration(s: Stmt)
      requires Valid() && s.FunctionDeclaration?
      modifies this, table
      ensures Valid() && State() == AfterFunction(old(State()), s)
      decreases s, 1
    {
      DeclareKeeps(table.Value(), s.name, "func", true);
      TableKeepsReady(table.Value(), DeclareIn(table.Value(), s.name, "func", true).1);
      var ok := table.Declare(s.name, "func", true);
      if !ok {
        AddError(FunctionRedeclared(s.name), s.line, s.column);
        return;
      }
      EnterReady(table.Value());
      table.EnterScope();
      ghost var entered := table.Value();
      DeclareParameters(s.parameters);
      TableKeepsReady(entered, table.Value());
      VisitStatements(s.body);
      ghost var f := State();
      ExitRestores(DeclareIn(old(State()).table, s.name, "func", true).1, f.table);
      table.ExitScope();
    }

    /** The loop declaring a function's parameters; a refused declaration is ignored. */
    method DeclareParameters(params: seq<string>)
      requires table.Valid()
      modifies table
      ensures table.Valid() && table.Value() == DeclareAll(old(table.Value()), params, |params|)
    {
      for i := 0 to |params|
        invariant table.Valid() && table.Value() == DeclareAll(old(table.Value()), params, i)
      {
        var added := table.Declare(params[i], "auto");
      }
    }

    method VisitReturnStatement(s: Stmt)
      requires Valid() && s.ReturnStatement?
      modifies this
      ensures Valid() && State() == AfterReturn(old(State()), s)
      decreases s, 1
    {
      if s.result.Some? {
        var returnType := VisitExpression(s.result.value);
      }
    }

    method VisitPrintStatement(s: Stmt)
      requires Valid() && s.PrintStatement?
      modifies this
      ensures Valid() && State() == AfterPrint(old(State()), s)
      decreases s, 1
    {
      var exprType := VisitExpression(s.value);
    }

    /** `visit_expression`: the type, with the errors found on the way appended. */
    method VisitExpression(e: Expr) returns (ty: string)
      requires Valid()
      modifies this
      ensures Valid() && ty == TypeOf(table.Value(), e)
      ensures errors == old(errors) + ErrorsOf(table.Value(), e)
      decreases e, 1
    {
      match e
      case BinaryOp(_, _, _, _, _) => ty := VisitBinaryOp(e);
      case UnaryOp(_, _, _, _) => ty := VisitUnaryOp(e);
      case Identifier(_, _, _) => ty := VisitIdentifier(e);
      case IntLiteral(_, _, _) => ty := "int";
      case FloatLiteral(_, _, _) => ty := "float";
      case StringLiteral(_, _, _) => ty := "string";
      case BoolLiteral(_, _, _) => ty := "bool";
      case FunctionCall(_, _, _, _) => ty := VisitFunctionCall(e);
      case ArrayAccess(_, _, _, _) => ty := "unknown";
    }

    method VisitBinaryOp(e: Expr) returns (ty: string)
      requires Valid() && e.BinaryOp?
      modifies this
      ensures Valid() && ty == TypeOf(table.Value(), e)
      ensures errors == old(errors) + ErrorsOf(table.Value(), e)
      decreases e, 0
    {
      ghost var t, before := table.Value(), errors;
      var leftType := VisitExpression(e.left);
      var rightType := VisitExpression(e.right);
      var result := InferBinaryResultType(leftType, e.operator, rightType);
      ghost var extra := if result.None? then [At(e.line, e.column, InvalidOperation(leftType, e.operator, rightType))] else [];
      assert ErrorsOf(t, e) == ErrorsOf(t, e.left) + ErrorsOf(t, e.right) + extra;
      AppendThree(before, ErrorsOf(t, e.left), ErrorsOf(t, e.right), extra);
      if result.None? {
        AddError(InvalidOperation(leftType, e.operator, rightType), e.line, e.column);
        return "error";
      }
      return result.value;
    }

    method VisitUnaryOp(e: Expr) returns (ty: string)
      requires Valid() && e.UnaryOp?
      modifies this
      ensures Valid() && ty == TypeOf(table.Value(), e)
      ensures errors == old(errors) + ErrorsOf(table.Value(), e)
      decreases e, 0
    {
      var operandType := VisitExpression(e.operand);
      var result := InferType(operandType, e.operator);
      if result.None? {
        AddError(InvalidUnaryOperation(e.operator, operandType), e.line, e.column);
        return "error";
      }
      return result.value;
    }

    method VisitIdentifier(e: Expr) returns (ty: string)
      requires Valid() && e.Identifier?
      modifies this
      ensures Valid() && ty == TypeOf(table.Value(), e)
      ensures errors == old(errors) + ErrorsOf(table.Value(), e)
    {
      var symbol := table.Lookup(e.name);
      if symbol.None? {
        AddError(UndeclaredVariable(e.name), e.line, e.column);
        return "error";
      }
      return symbol.value.dataType;
    }

    method VisitFunctionCall(e: Expr) returns (ty: string)
      requires Valid() && e.FunctionCall?
      modifies this
      ensures Valid() && ty == TypeOf(table.Value(), e)
      ensures errors == old(errors) + ErrorsOf(table.Value(), e)
      decreases e, 0
    {
      var symbol := table.Lookup(e.name);
      if symbol.None? {
        AddError(UndeclaredFunction(e.name), e.line, e.column);
        return "error";
      }
      if !symbol.value.isFunction {
        AddError(NotAFunction(e.name), e.line, e.column);
        return "error";
      }
      VisitArguments(e.arguments);
      return "auto";
    }

    /** The loop over a call's arguments; their types are not used. */
    method VisitArguments(args: seq<Expr>)
      requires Valid()
      modifies this
      ensures Valid() && errors == old(errors) + ArgsErrors(table.Value(), args, |args|)
      decreases args, 2
    {
      ghost var t := table.Value();
      for i := 0 to |args|
        invariant Valid() && table.Value() == t
        invariant errors == old(errors) + ArgsErrors(t, args, i)
      {
        var argType := VisitExpression(args[i]);
        ArgsErrorsStep(old(errors), t, args, i);
      }
    }

    function HasErrors(): bool
      reads this
    {
      |errors| > 0
    }
  }
}
