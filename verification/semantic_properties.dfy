/** Properties of the semantic analyzer: how types and errors relate, which constructs open a
    scope, and the verdicts on a few small programs. */
module SemanticProperties {
  import opened Wrappers
  import opened Strings
  import opened TokenTypes
  import opened Ast
  import opened Symbols
  import opened Semantics

  /** No symbol of the table was declared with the type "error" (the analyzer declares only
      "auto" and "func"). */
  predicate NoErrorSymbols(t: Table) {
    forall i :: 0 <= i < |t.symbols| ==> t.symbols[i].1.dataType != "error"
  }

  /** An expression typed "error" always comes with at least one reported error. */
  lemma ErrorTypeIsReported(t: Table, e: Expr)
    requires NoErrorSymbols(t)
    requires TypeOf(t, e) == "error"
    ensures ErrorsOf(t, e) != []
  {
    match e
    case BinaryOp(l, op, r, _, _) =>
      BinaryTypesAreKnown(TypeOf(t, l), op, TypeOf(t, r));
    case UnaryOp(op, x, _, _) =>
    case Identifier(name, _, _) =>
    case FunctionCall(_, _, _, _) =>
    case _ =>
  }

  /** A comparison always has type bool and adds no error of its own, whatever its operands:
      only their own errors are reported. */
  lemma ComparisonsTypeCheck(t: Table, l: Expr, op: string, r: Expr, line: int, column: int)
    requires IsComparison(op)
    ensures TypeOf(t, BinaryOp(l, op, r, line, column)) == "bool"
    ensures ErrorsOf(t, BinaryOp(l, op, r, line, column)) == ErrorsOf(t, l) + ErrorsOf(t, r)
  {
  }

  /** A comparison is always an acceptable condition. */
  lemma ComparisonConditionAccepted(t: Table, cond: Expr, what: string, line: int, column: int)
    requires cond.BinaryOp? && IsComparison(cond.operator)
    ensures ConditionErrors(t, cond, what, line, column) == ErrorsOf(t, cond.left) + ErrorsOf(t, cond.right)
  {
    ComparisonsTypeCheck(t, cond.left, cond.operator, cond.right, cond.line, cond.column);
  }

  /** A variable is declared with type "auto", so a variable on its own is never an acceptable
      condition, whatever value it was given. */
  lemma VariableConditionRejected(t: Table, name: string, l: int, c: int, what: string, line: int, column: int)
    requires LookupIn(t, name).Some? && LookupIn(t, name).value.dataType == "auto"
    ensures ConditionErrors(t, Identifier(name, l, c), what, line, column)
            == [At(line, column, NotBoolCondition(what, "auto"))]
  {
  }

  /** Calling a name that resolves to a variable is reported once, and the arguments are not
      looked at. */
  lemma CallingVariableReported(t: Table, name: string, args: seq<Expr>, line: int, column: int)
    requires LookupIn(t, name).Some? && !LookupIn(t, name).value.isFunction
    ensures TypeOf(t, FunctionCall(name, args, line, column)) == "error"
    ensures ErrorsOf(t, FunctionCall(name, args, line, column)) == [At(line, column, NotAFunction(name))]
  {
  }

  /** A declaration of a name already declared at the current level is reported once and
      changes nothing else; its initializer is not looked at. */
  lemma RedeclarationReported(a: Analysis, s: Stmt)
    requires Ready(a) && s.VarDeclaration?
    requires DeclaredAt(a.table.symbols, s.name, a.table.scope)
    ensures AfterStatement(a, s) == Analysis(a.table, a.errors + [At(s.line, s.column, VariableRedeclared(s.name))])
  {
  }

  /** A function declared again at the same level is reported once and changes nothing else:
      no scope is opened and its parameters and body are not looked at. */
  lemma FunctionRedeclarationReported(a: Analysis, s: Stmt)
    requires Ready(a) && s.FunctionDeclaration?
    requires DeclaredAt(a.table.symbols, s.name, a.table.scope)
    ensures AfterStatement(a, s) == Analysis(a.table, a.errors + [At(s.line, s.column, FunctionRedeclared(s.name))])
  {
  }

  /** An assignment to a name nothing visible declares is reported once and its value is not
      looked at; an assignment to a visible name reports exactly its value's errors. */
  lemma AssignmentTargetChecked(a: Analysis, s: Stmt)
    requires Ready(a) && s.Assignment?
    ensures LookupIn(a.table, s.target).None? ==>
              AfterStatement(a, s) == Analysis(a.table, a.errors + [At(s.line, s.column, UndeclaredVariable(s.target))])
    ensures LookupIn(a.table, s.target).Some? ==>
              AfterStatement(a, s) == Analysis(a.table, a.errors + ErrorsOf(a.table, s.value))
  {
  }

  /** A `for` statement never changes the table: whatever it declares is gone afterwards. */
  lemma ForDeclaresNothing(a: Analysis, s: Stmt)
    requires Ready(a) && s.ForStatement?
    ensures AfterStatement(a, s).table == a.table
  {
  }

  /** A function's parameters and body never reach the table: only its name is declared. */
  lemma FunctionDeclaresOnlyItsName(a: Analysis, s: Stmt)
    requires Ready(a) && s.FunctionDeclaration?
    ensures AfterStatement(a, s).table == DeclareIn(a.table, s.name, "func", true).1
  {
  }

  /** A function with an empty body, declared under a fresh name, reports nothing and leaves
      only its name in the table, whatever its parameters. */
  lemma EmptyFunctionReportsNothing(a: Analysis, name: string, params: seq<string>, line: int, column: int)
    requires Ready(a)
    requires !DeclaredAt(a.table.symbols, name, a.table.scope)
    ensures AfterStatement(a, FunctionDeclaration(name, params, [], line, column)).table
            == DeclareIn(a.table, name, "func", true).1
    ensures AfterStatement(a, FunctionDeclaration(name, params, [], line, column)).errors == a.errors
  {
    var s := FunctionDeclaration(name, params, [], line, column);
    FunctionDeclaresOnlyItsName(a, s);
    FunctionBody(a, s);
    var b := Analysis(DeclareAll(Entered(DeclareIn(a.table, name, "func", true).1), params, |params|), a.errors);
    assert AfterStatements(b, [], 0) == b;
  }

  /** A function declared under a fresh name: its body is analysed one level deeper, after
      the parameters, and only the body's errors are added. */
  lemma FunctionBody(a: Analysis, s: Stmt)
    requires Ready(a) && s.FunctionDeclaration? && !DeclaredAt(a.table.symbols, s.name, a.table.scope)
    ensures var b := Analysis(DeclareAll(Entered(DeclareIn(a.table, s.name, "func", true).1), s.parameters, |s.parameters|), a.errors);
            && Ready(b)
            && AfterStatement(a, s).errors == AfterStatements(b, s.body, |s.body|).errors
  {
    var d := DeclareIn(a.table, s.name, "func", true);
    DeclareKeeps(a.table, s.name, "func", true);
    TableKeepsReady(a.table, d.1);
    EnterReady(d.1);
    var entered := Entered(d.1);
    var b := Analysis(DeclareAll(entered, s.parameters, |s.parameters|), a.errors);
    TableKeepsReady(entered, b.table);
  }

  /** Repeated parameter names are accepted without any error. */
  lemma DuplicateParametersAccepted(a: Analysis, name: string, p: string, line: int, column: int)
    requires Ready(a)
    requires !DeclaredAt(a.table.symbols, name, a.table.scope)
    ensures AfterStatement(a, FunctionDeclaration(name, [p, p], [], line, column)).errors == a.errors
  {
    EmptyFunctionReportsNothing(a, name, [p, p], line, column);
  }

  /** Printing a name nothing declares reports it once, at the name's position. */
  lemma UndeclaredPrintReported(a: Analysis, name: string, l: int, c: int, line: int, column: int)
    requires Ready(a) && LookupIn(a.table, name).None?
    ensures AfterStatement(a, PrintStatement(Identifier(name, l, c), line, column))
            == Analysis(a.table, a.errors + [At(l, c, UndeclaredVariable(name))])
  {
    PrintAddsItsErrors(a, PrintStatement(Identifier(name, l, c), line, column));
    assert ErrorsOf(a.table, Identifier(name, l, c)) == [At(l, c, UndeclaredVariable(name))];
  }

  /** Printing a name that resolves reports nothing and changes nothing. */
  lemma DeclaredPrintPasses(a: Analysis, name: string, l: int, c: int, line: int, column: int)
    requires Ready(a) && LookupIn(a.table, name).Some?
    ensures AfterStatement(a, PrintStatement(Identifier(name, l, c), line, column)) == a
  {
    PrintAddsItsErrors(a, PrintStatement(Identifier(name, l, c), line, column));
    assert ErrorsOf(a.table, Identifier(name, l, c)) == [];
    assert a.errors + [] == a.errors;
  }

  /** `print` changes nothing but the errors, and adds only its value's. */
  lemma PrintAddsItsErrors(a: Analysis, s: Stmt)
    requires Ready(a) && s.PrintStatement?
    ensures AfterStatement(a, s) == Analysis(a.table, a.errors + ErrorsOf(a.table, s.value))
  {
  }

  /** The one variable of `WithVariable(name)` resolves. */
  lemma WithVariableFinds(name: string)
    ensures LookupIn(WithVariable(name), name) == Some(Symbol(name, "auto", 0, false))
  {
    assert WithVariable(name).symbols[0].1 == Symbol(name, "auto", 0, false);
  }

  /** `name = name();` where `name` resolves to a variable: the assignment target is found, and
      the call is reported once. */
  lemma VariableCallReported(a: Analysis, name: string, l: int, c: int, line: int, column: int)
    requires Ready(a) && LookupIn(a.table, name).Some? && !LookupIn(a.table, name).value.isFunction
    ensures AfterStatement(a, Assignment(name, FunctionCall(name, [], l, c), line, column))
            == Analysis(a.table, a.errors + [At(l, c, NotAFunction(name))])
  {
    CallingVariableReported(a.table, name, [], l, c);
  }

  // ---------------------------------------------------------------------------------------
  // Small programs, with the positions the parser gives their nodes

  lemma OneStatement(a: Analysis, s: Stmt)
    requires Ready(a)
    ensures AfterStatements(a, [s], 1) == AfterStatement(a, s)
  {
    assert AfterStatements(a, [s], 0) == a;
  }

  lemma TwoStatements(a: Analysis, s1: Stmt, s2: Stmt)
    requires Ready(a)
    ensures Ready(AfterStatement(a, s1))
    ensures AfterStatements(a, [s1, s2], 2) == AfterStatement(AfterStatement(a, s1), s2)
  {
    var ss := [s1, s2];
    assert AfterStatements(a, ss, 0) == a;
    assert AfterStatements(a, ss, 1) == AfterStatement(a, s1);
    TableKeepsReady(a.table, AfterStatement(a, s1).table);
  }

  /** The table after declaring one variable in a fresh analyzer. */
  function WithVariable(name: string): Table {
    Table([(Key(name, 0), Symbol(name, "auto", 0, false))], 0, [0])
  }

  /** `var name = <literal>;` in a fresh analyzer declares the name and reports nothing. */
  lemma DeclareInFresh(name: string, init: Expr, line: int, column: int)
    requires init.IntLiteral?
    ensures Ready(Analysis(Initial(), []))
    ensures AfterStatement(Analysis(Initial(), []), VarDeclaration(name, None, Some(init), line, column))
            == Analysis(WithVariable(name), [])
  {
    InitialReady();
    assert !DeclaredAt(Initial().symbols, name, 0);
    assert ErrorsOf(WithVariable(name), init) == [];
  }

  /** `var x = 10; print x;` passes. */
  lemma DeclaredVariablePasses()
    ensures AnalyzeProgram(Program([
              VarDeclaration("x", None, Some(IntLiteral(IntValue(10), 1, 9)), 1, 1),
              PrintStatement(Identifier("x", 1, 19), 1, 13)])).errors == []
  {
    var d := VarDeclaration("x", None, Some(IntLiteral(IntValue(10), 1, 9)), 1, 1);
    var p := PrintStatement(Identifier("x", 1, 19), 1, 13);
    DeclareInFresh("x", IntLiteral(IntValue(10), 1, 9), 1, 1);
    TwoStatements(Analysis(Initial(), []), d, p);
    WithVariableFinds("x");
    DeclaredPrintPasses(Analysis(WithVariable("x"), []), "x", 1, 19, 1, 13);
  }

  /** `print y;` reports the undeclared name at its position. */
  lemma UndeclaredVariableReported()
    ensures AnalyzeProgram(Program([PrintStatement(Identifier("y", 1, 7), 1, 1)])).errors
            == [At(1, 7, UndeclaredVariable("y"))]
  {
    InitialReady();
    OneStatement(Analysis(Initial(), []), PrintStatement(Identifier("y", 1, 7), 1, 1));
    UndeclaredPrintReported(Analysis(Initial(), []), "y", 1, 7, 1, 1);
  }

  /** `if (5) {}` is rejected: an int is not a condition. */
  lemma IntConditionRejected()
    ensures AnalyzeProgram(Program([IfStatement(IntLiteral(IntValue(5), 1, 5), [], NoElse, 1, 1)])).errors
            == [At(1, 1, NotBoolCondition("If", "int"))]
  {
    InitialReady();
    var a := Analysis(Initial(), []);
    var s := IfStatement(IntLiteral(IntValue(5), 1, 5), [], NoElse, 1, 1);
    OneStatement(a, s);
    assert ConditionErrors(a.table, s.condition, "If", 1, 1) == [At(1, 1, NotBoolCondition("If", "int"))];
    var b := Analysis(a.table, ConditionErrors(a.table, s.condition, "If", 1, 1));
    assert AfterStatements(b, [], 0) == b;
  }

  /** Two digit runs each followed by a non-digit, spelling the same text, are the same run
      followed by the same rest. */
  lemma DigitsThenSplit(d1: string, x: string, d2: string, y: string)
    requires AllDigits(d1) && AllDigits(d2) && x != [] && y != [] && !IsDigit(x[0]) && !IsDigit(y[0])
    requires d1 + x == d2 + y
    ensures d1 == d2 && x == y
  {
    assert d1 == (d1 + x)[..|d1|] && d2 == (d2 + y)[..|d2|];
    assert x == (d1 + x)[|d1|..] && y == (d2 + y)[|d2|..];
  }

  /** `Line l, Column c: ` followed by the message, with the position in digits. */
  lemma Rendered(l: nat, c: nat, m: string)
    ensures At(l, c, m) == "Line " + (NatToString(l) + (", Column " + (NatToString(c) + (": " + m))))
  {
  }

  /** An error text determines its position and its message: two errors read the same exactly
      when they are the same message at the same line and column. */
  lemma PositionRendering(l1: nat, c1: nat, m1: string, l2: nat, c2: nat, m2: string)
    ensures At(l1, c1, m1) == At(l2, c2, m2) <==> l1 == l2 && c1 == c2 && m1 == m2
  {
    if At(l1, c1, m1) == At(l2, c2, m2) {
      Rendered(l1, c1, m1);
      Rendered(l2, c2, m2);
      var r1 := ", Column " + (NatToString(c1) + (": " + m1));
      var r2 := ", Column " + (NatToString(c2) + (": " + m2));
      assert ("Line " + (NatToString(l1) + r1))[5..] == NatToString(l1) + r1;
      assert ("Line " + (NatToString(l2) + r2))[5..] == NatToString(l2) + r2;
      DigitsThenSplit(NatToString(l1), r1, NatToString(l2), r2);
      NatToStringInjective(l1, l2);
      var q1 := ": " + m1;
      var q2 := ": " + m2;
      assert r1[9..] == NatToString(c1) + q1 && r2[9..] == NatToString(c2) + q2;
      DigitsThenSplit(NatToString(c1), q1, NatToString(c2), q2);
      NatToStringInjective(c1, c2);
      assert q1[2..] == m1 && q2[2..] == m2;
    }
  }

  /** `if (true) { var y = 1; } print y;` passes: an if opens no scope. */
  lemma IfBodyDeclarationVisibleAfter()
    ensures var decl := VarDeclaration("y", None, Some(IntLiteral(IntValue(1), 1, 21)), 1, 13);
            AnalyzeProgram(Program([
              IfStatement(BoolLiteral(BoolValue(true), 1, 5), [decl], NoElse, 1, 1),
              PrintStatement(Identifier("y", 1, 32), 1, 26)])).errors == []
  {
    var decl := VarDeclaration("y", None, Some(IntLiteral(IntValue(1), 1, 21)), 1, 13);
    var i := IfStatement(BoolLiteral(BoolValue(true), 1, 5), [decl], NoElse, 1, 1);
    var p := PrintStatement(Identifier("y", 1, 32), 1, 26);
    IfDeclares(decl, i);
    TwoStatements(Analysis(Initial(), []), i, p);
    WithVariableFinds("y");
    DeclaredPrintPasses(Analysis(WithVariable("y"), []), "y", 1, 32, 1, 26);
  }

  lemma IfDeclares(decl: Stmt, i: Stmt)
    requires decl == VarDeclaration("y", None, Some(IntLiteral(IntValue(1), 1, 21)), 1, 13)
    requires i == IfStatement(BoolLiteral(BoolValue(true), 1, 5), [decl], NoElse, 1, 1)
    ensures Ready(Analysis(Initial(), []))
    ensures AfterStatement(Analysis(Initial(), []), i) == Analysis(WithVariable("y"), [])
  {
    DeclareInFresh("y", IntLiteral(IntValue(1), 1, 21), 1, 13);
    var a := Analysis(Initial(), []);
    assert ConditionErrors(a.table, i.condition, "If", 1, 1) == [];
    OneStatement(a, decl);
  }

  /** `for (var i = 0; ; ) {} print i;` reports `i`: the loop variable is gone after the loop. */
  lemma ForVariableGoneAfter()
    ensures var init := VarDeclaration("i", None, Some(IntLiteral(IntValue(0), 1, 14)), 1, 6);
            AnalyzeProgram(Program([
              ForStatement(Some(init), None, None, [], 1, 1),
              PrintStatement(Identifier("i", 1, 30), 1, 24)])).errors
            == [At(1, 30, UndeclaredVariable("i"))]
  {
    var init := VarDeclaration("i", None, Some(IntLiteral(IntValue(0), 1, 14)), 1, 6);
    var f := ForStatement(Some(init), None, None, [], 1, 1);
    var a := Analysis(Initial(), []);
    ForLoopPasses(a, init, f);
    TwoStatements(a, f, PrintStatement(Identifier("i", 1, 30), 1, 24));
    UndeclaredPrintReported(a, "i", 1, 30, 1, 24);
  }

  lemma ForLoopPasses(a: Analysis, init: Stmt, f: Stmt)
    requires a == Analysis(Initial(), [])
    requires init == VarDeclaration("i", None, Some(IntLiteral(IntValue(0), 1, 14)), 1, 6)
    requires f == ForStatement(Some(init), None, None, [], 1, 1)
    ensures Ready(a) && AfterStatement(a, f) == a
  {
    InitialReady();
    ForBody(a, f);
    var b := Analysis(Entered(a.table), []);
    assert !DeclaredAt(b.table.symbols, "i", 1);
    assert AfterStatement(b, init).errors == [];
    var e := AfterForHeader(b, f);
    assert e.errors == [];
    assert AfterStatements(e, [], 0) == e;
  }

  /** A `for` statement analyses its header and body one level deeper and leaves the table
      as it found it. */
  lemma ForBody(a: Analysis, s: Stmt)
    requires Ready(a) && s.ForStatement?
    ensures var b := Analysis(Entered(a.table), a.errors);
            && Ready(b)
            && var e := AfterForHeader(b, s);
               && Ready(e)
               && AfterStatement(a, s) == Analysis(a.table, AfterStatements(e, s.body, |s.body|).errors)
  {
    EnterReady(a.table);
    var b := Analysis(Entered(a.table), a.errors);
    TableKeepsReady(b.table, AfterForHeader(b, s).table);
  }

  /** `var f = 1; func g() { func f() {} f = f(); }`: inside g the inner function f is shadowed
      by the outer variable f, because lookup takes the first declaration in insertion order, so
      the call `f()` is reported at its name, column 39. */
  lemma OuterVariableShadowsInnerFunction()
    ensures var outer := VarDeclaration("f", None, Some(IntLiteral(IntValue(1), 1, 9)), 1, 1);
            var inner := FunctionDeclaration("f", [], [], 1, 23);
            var call := Assignment("f", FunctionCall("f", [], 1, 39), 1, 35);
            AnalyzeProgram(Program([outer, FunctionDeclaration("g", [], [inner, call], 1, 12)])).errors
            == [At(1, 39, NotAFunction("f"))]
  {
    var outer := VarDeclaration("f", None, Some(IntLiteral(IntValue(1), 1, 9)), 1, 1);
    var inner := FunctionDeclaration("f", [], [], 1, 23);
    var call := Assignment("f", FunctionCall("f", [], 1, 39), 1, 35);
    var g := FunctionDeclaration("g", [], [inner, call], 1, 12);
    DeclareInFresh("f", IntLiteral(IntValue(1), 1, 9), 1, 1);
    TwoStatements(Analysis(Initial(), []), outer, g);
    InnerCallReported(Analysis(WithVariable("f"), []), inner, call);
  }

  /** Inside a nested level, declaring a function under a name that already resolves to a
      variable does not change what the name resolves to: a call right after it is reported. */
  lemma InnerFunctionShadowed(e: Analysis, name: string, fl: int, fc: int, l: int, c: int, line: int, column: int)
    requires Ready(e) && LookupIn(e.table, name).Some? && !LookupIn(e.table, name).value.isFunction
    requires !DeclaredAt(e.table.symbols, name, e.table.scope)
    ensures AfterStatements(e, [FunctionDeclaration(name, [], [], fl, fc),
                                Assignment(name, FunctionCall(name, [], l, c), line, column)], 2).errors
            == e.errors + [At(l, c, NotAFunction(name))]
  {
    var inner := FunctionDeclaration(name, [], [], fl, fc);
    TwoStatements(e, inner, Assignment(name, FunctionCall(name, [], l, c), line, column));
    EmptyFunctionReportsNothing(e, name, [], fl, fc);
    DeclareThenLookup(e.table, name, "func", true);
    VariableCallReported(AfterStatement(e, inner), name, l, c, line, column);
  }

  lemma InnerCallReported(b: Analysis, inner: Stmt, call: Stmt)
    requires b == Analysis(WithVariable("f"), [])
    requires inner == FunctionDeclaration("f", [], [], 1, 23)
    requires call == Assignment("f", FunctionCall("f", [], 1, 39), 1, 35)
    ensures Ready(b)
    ensures AfterStatement(b, FunctionDeclaration("g", [], [inner, call], 1, 12)).errors == [At(1, 39, NotAFunction("f"))]
  {
    var g := FunctionDeclaration("g", [], [inner, call], 1, 12);
    assert !DeclaredAt(b.table.symbols, "g", 0);
    FunctionBody(b, g);
    var e := Analysis(Entered(DeclareIn(b.table, "g", "func", true).1), []);
    assert DeclareAll(e.table, [], 0) == e.table;
    InnerBody(e, inner, call);
  }

  /** The table inside `g`: the outer `f`, then `g`, one level deep. */
  lemma InsideG(t: Table)
    requires t == Table(WithVariable("f").symbols + [(Key("g", 0), Symbol("g", "func", 0, true))], 1, [0, 1])
    ensures TableReady(t)
    ensures !DeclaredAt(t.symbols, "f", 1)
    ensures LookupIn(t, "f") == Some(Symbol("f", "auto", 0, false))
  {
    assert Nested(t);
    DeclareKeepsConsistent(WithVariable("f"), "g", "func", true);
    assert t.symbols[0].1 == Symbol("f", "auto", 0, false);
  }

  lemma InnerBody(e: Analysis, inner: Stmt, call: Stmt)
    requires e == Analysis(Table(WithVariable("f").symbols + [(Key("g", 0), Symbol("g", "func", 0, true))], 1, [0, 1]), [])
    requires inner == FunctionDeclaration("f", [], [], 1, 23)
    requires call == Assignment("f", FunctionCall("f", [], 1, 39), 1, 35)
    ensures Ready(e)
    ensures AfterStatements(e, [inner, call], 2).errors == [At(1, 39, NotAFunction("f"))]
  {
    InsideG(e.table);
    InnerFunctionShadowed(e, "f", 1, 23, 1, 39, 1, 35);
  }
}
