/** The `TACGenerator` class: it walks the syntax tree once, appending instructions to its code
    list and bumping its temporary and label counters in place. Each visitor is proved to
    append exactly the code the lowering functions of `ThreeAddress` give for the counters it
    started from, and to leave the counters where those functions say. */
module TacGeneration {
  import opened Wrappers
  import opened Strings
  import opened TokenTypes
  import opened Ast
  import opened ThreeAddress

  /** `a + [x] + [y]`, emitted one instruction at a time, is `a + [x, y]`. */
  lemma AppendPair<T>(a: seq<T>, x: T, y: T)
    ensures a + [x] + [y] == a + [x, y]
  {
  }

  /** The `if` layout, piece by piece. */
  lemma IfPieces(c: Counters, s: Stmt, e: LoweredExpr, t: Lowered, f: Lowered)
    requires s.IfStatement? && e == LowerExpr(c, s.condition)
    requires t == LowerStmts(e.next.(labels := e.next.labels + 2), s.thenBody, |s.thenBody|)
    requires f == LowerElse(t.next, s)
    ensures LowerIf(c, s).next == f.next
    ensures LowerIf(c, s).code
            == e.code + [IfFalse(e.value, LabelName(e.next.labels + 1))] + t.code
               + [Goto(LabelName(e.next.labels + 2)), Label(LabelName(e.next.labels + 1))] + f.code
               + [Label(LabelName(e.next.labels + 2))]
  {
  }

  /** The `for` layout, piece by piece. */
  lemma ForPieces(c: Counters, s: Stmt, i: Lowered, test: Lowered, b: Lowered, u: Lowered)
    requires s.ForStatement? && i == LowerInit(c, s)
    requires test == LowerForTest(i.next.(labels := i.next.labels + 2), s, LabelName(i.next.labels + 2))
    requires b == LowerStmts(test.next, s.body, |s.body|) && u == LowerUpdate(b.next, s)
    ensures LowerFor(c, s).next == u.next
    ensures LowerFor(c, s).code
            == i.code + [Label(LabelName(i.next.labels + 1))] + test.code + b.code + u.code
               + [Goto(LabelName(i.next.labels + 1)), Label(LabelName(i.next.labels + 2))]
  {
  }

  class TacGenerator {
    var code: seq<Tac>
    var tempCounter: nat
    var labelCounter: nat

    /** The two counters, as the lowering functions take them. */
    function Counts(): Counters
      reads this
    {
      Counters(tempCounter, labelCounter)
    }

    constructor()
      ensures code == [] && Counts() == Counters(0, 0)
    {
      code := [];
      tempCounter := 0;
      labelCounter := 0;
    }

    /** `new_temp`: bump the counter, then name the temporary after it. */
    method NewTemp() returns (name: string)
      modifies this
      ensures tempCounter == old(tempCounter) + 1 && labelCounter == old(labelCounter) && code == old(code)
      ensures name == TempName(tempCounter)
    {
      tempCounter := tempCounter + 1;
      name := ['t'] + NatToString(tempCounter);
    }

    /** `new_label`: bump the counter, then name the label after it. */
    method NewLabel() returns (name: string)
      modifies this
      ensures labelCounter == old(labelCounter) + 1 && tempCounter == old(tempCounter) && code == old(code)
      ensures name == LabelName(labelCounter)
    {
      labelCounter := labelCounter + 1;
      name := ['L'] + NatToString(labelCounter);
    }

    /** `emit`: append one instruction; hand back its result, or "" when it has none or an
        empty one. */
    method Emit(op: string, arg1: Option<string> := None, arg2: Option<string> := None, result: Option<string> := None)
      returns (r: string)
      modifies this
      ensures code == old(code) + [Tac(op, arg1, arg2, result)] && Counts() == old(Counts())
      ensures Truthy(result) ==> r == result.value
      ensures !Truthy(result) ==> r == ""
    {
      code := code + [Tac(op, arg1, arg2, result)];
      r := if Truthy(result) then result.value else "";
    }

    /** `generate`: every statement of the program in turn; the code list is returned. On a
        fresh generator that is the code `Generate` specifies. */
    method Generate(program: Program) returns (result: seq<Tac>)
      modifies this
      ensures var r := LowerStmts(old(Counts()), program.statements, |program.statements|);
              result == code && code == old(code) + r.code && Counts() == r.next
      ensures old(code) == [] && old(Counts()) == Counters(0, 0) ==> result == ThreeAddress.Generate(program).code
    {
      VisitStatements(program.statements);
      result := code;
    }

    /** A statement list, first to last. */
    method VisitStatements(ss: seq<Stmt>)
      modifies this
      ensures var r := LowerStmts(old(Counts()), ss, |ss|);
              code == old(code) + r.code && Counts() == r.next
      decreases ss
    {
      ghost var c, code0 := Counts(), code;
      var i := 0;
      while i < |ss|
        invariant i <= |ss|
        invariant code == code0 + LowerStmts(c, ss, i).code && Counts() == LowerStmts(c, ss, i).next
      {
        ghost var a := LowerStmts(c, ss, i);
        VisitStatement(ss[i]);
        AppendAssoc(code0, a.code, LowerStmt(a.next, ss[i]).code);
        i := i + 1;
      }
    }

    /** `visit_statement`: dispatch on the kind of statement. */
    method VisitStatement(s: Stmt)
      modifies this
      ensures var r := LowerStmt(old(Counts()), s);
              code == old(code) + r.code && Counts() == r.next
      decreases s, 2
    {
      match s
      case VarDeclaration(_, _, _, _, _) => VisitVarDeclaration(s);
      case Assignment(_, _, _, _) => VisitAssignment(s);
      case IfStatement(_, _, _, _, _) => VisitIfStatement(s);
      case WhileStatement(_, _, _, _) => VisitWhileStatement(s);
      case ForStatement(_, _, _, _, _, _) => VisitForStatement(s);
      case FunctionDeclaration(_, _, _, _, _) => VisitFunctionDeclaration(s);
      case ReturnStatement(_, _, _) => VisitReturnStatement(s);
      case PrintStatement(_, _, _) => VisitPrintStatement(s);
    }

    /** An expression followed by one instruction built from its value. */
    method ExpressionThen(e: Expr, op: string, result: Option<string>) returns (v: string)
      modifies this
      ensures var r := LowerExpr(old(Counts()), e);
              && v == r.value && Counts() == r.next
              && code == old(code) + (r.code + [Tac(op, Some(r.value), None, result)])
      decreases e, 2
    {
      ghost var code0 := code;
      ghost var r := LowerExpr(Counts(), e);
      v := VisitExpression(e);
      var emitted := Emit(op, Some(v), result := result);
      AppendAssoc(code0, r.code, [Tac(op, Some(v), None, result)]);
    }

    /** `visit_var_declaration`: nothing without an initializer. */
    method VisitVarDeclaration(s: Stmt)
      requires s.VarDeclaration?
      modifies this
      ensures var r := LowerStmt(old(Counts()), s);
              code == old(code) + r.code && Counts() == r.next
      decreases s, 1
    {
      if s.initializer.Some? {
        var exprResult := ExpressionThen(s.initializer.value, "ASSIGN", Some(s.name));
      } else {
        assert code + [] == code;
      }
    }

    /** `visit_assignment`. */
    method VisitAssignment(s: Stmt)
      requires s.Assignment?
      modifies this
      ensures var r := LowerStmt(old(Counts()), s);
              code == old(code) + r.code && Counts() == r.next
      decreases s, 1
    {
      var exprResult := ExpressionThen(s.value, "ASSIGN", Some(s.target));
    }

    /** `visit_if_statement`. */
    method VisitIfStatement(s: Stmt)
      requires s.IfStatement?
      modifies this
      ensures var r := LowerIf(old(Counts()), s);
              code == old(code) + r.code && Counts() == r.next
      decreases s, 1
    {
      ghost var c, code0 := Counts(), code;
      var condResult := VisitExpression(s.condition);
      ghost var e := LowerExpr(c, s.condition);
      var falseLabel := NewLabel();
      var endLabel := NewLabel();
      assert falseLabel == LabelName(e.next.labels + 1) && endLabel == LabelName(e.next.labels + 2);
      assert condResult == e.value && Counts() == e.next.(labels := e.next.labels + 2);
      var emitted := Emit("IF_FALSE", Some(condResult), Some(falseLabel));
      AppendAssoc(code0, e.code, [IfFalse(e.value, falseLabel)]);
      ghost var acc := e.code + [IfFalse(e.value, falseLabel)];
      ghost var t := LowerStmts(Counts(), s.thenBody, |s.thenBody|);
      VisitStatements(s.thenBody);
      AppendAssoc(code0, acc, t.code);
      acc := acc + t.code;
      emitted := Emit("GOTO", Some(endLabel));
      AppendAssoc(code0, acc, [Goto(endLabel)]);
      emitted := Emit("LABEL", Some(falseLabel));
      AppendAssoc(code0, acc + [Goto(endLabel)], [Label(falseLabel)]);
      AppendPair(acc, Goto(endLabel), Label(falseLabel));
      acc := acc + [Goto(endLabel), Label(falseLabel)];
      ghost var f := LowerElse(Counts(), s);
      if s.elseBody.ElseStatements? {
        VisitStatements(s.elseBody.body);
      } else {
        assert code + [] == code;
      }
      AppendAssoc(code0, acc, f.code);
      acc := acc + f.code;
      emitted := Emit("LABEL", Some(endLabel));
      AppendAssoc(code0, acc, [Label(endLabel)]);
      acc := acc + [Label(endLabel)];
      IfPieces(c, s, e, t, f);
      assert acc == LowerIf(c, s).code;
    }

    /** `visit_while_statement`. */
    method VisitWhileStatement(s: Stmt)
      requires s.WhileStatement?
      modifies this
      ensures var r := LowerWhile(old(Counts()), s);
              code == old(code) + r.code && Counts() == r.next
      decreases s, 1
    {
      ghost var c, code0 := Counts(), code;
      var loopLabel := NewLabel();
      var endLabel := NewLabel();
      var emitted := Emit("LABEL", Some(loopLabel));
      ghost var acc := [Label(loopLabel)];
      ghost var e := LowerExpr(Counts(), s.condition);
      var condResult := VisitExpression(s.condition);
      AppendAssoc(code0, acc, e.code);
      acc := acc + e.code;
      emitted := Emit("IF_FALSE", Some(condResult), Some(endLabel));
      AppendAssoc(code0, acc, [IfFalse(e.value, endLabel)]);
      acc := acc + [IfFalse(e.value, endLabel)];
      ghost var b := LowerStmts(Counts(), s.body, |s.body|);
      VisitStatements(s.body);
      AppendAssoc(code0, acc, b.code);
      acc := acc + b.code;
      emitted := Emit("GOTO", Some(loopLabel));
      AppendAssoc(code0, acc, [Goto(loopLabel)]);
      emitted := Emit("LABEL", Some(endLabel));
      AppendAssoc(code0, acc + [Goto(loopLabel)], [Label(endLabel)]);
      AppendPair(acc, Goto(loopLabel), Label(endLabel));
      acc := acc + [Goto(loopLabel), Label(endLabel)];
      assert LowerWhile(c, s) == Lowered(acc, b.next);
    }

    /** `visit_for_statement`: the initializer, two labels, the test, the body, the update and
        the jump back. */
    method VisitForStatement(s: Stmt)
      requires s.ForStatement?
      modifies this
      ensures var r := LowerFor(old(Counts()), s);
              code == old(code) + r.code && Counts() == r.next
      decreases s, 1
    {
      ghost var c, code0 := Counts(), code;
      ghost var i := LowerInit(c, s);
      if s.init.Some? {
        VisitStatement(s.init.value);
      } else {
        assert code + [] == code;
      }
      var loopLabel := NewLabel();
      var endLabel := NewLabel();
      assert loopLabel == LabelName(i.next.labels + 1) && endLabel == LabelName(i.next.labels + 2);
      assert Counts() == i.next.(labels := i.next.labels + 2);
      var emitted := Emit("LABEL", Some(loopLabel));
      AppendAssoc(code0, i.code, [Label(loopLabel)]);
      ghost var acc := i.code + [Label(loopLabel)];
      ghost var test := LowerForTest(Counts(), s, endLabel);
      VisitForTest(s, endLabel);
      AppendAssoc(code0, acc, test.code);
      acc := acc + test.code;
      ghost var b := LowerStmts(Counts(), s.body, |s.body|);
      VisitStatements(s.body);
      AppendAssoc(code0, acc, b.code);
      acc := acc + b.code;
      ghost var u := LowerUpdate(Counts(), s);
      if s.update.Some? {
        VisitStatement(s.update.value);
      } else {
        assert code + [] == code;
      }
      AppendAssoc(code0, acc, u.code);
      acc := acc + u.code;
      emitted := Emit("GOTO", Some(loopLabel));
      AppendAssoc(code0, acc, [Goto(loopLabel)]);
      emitted := Emit("LABEL", Some(endLabel));
      AppendAssoc(code0, acc + [Goto(loopLabel)], [Label(endLabel)]);
      AppendPair(acc, Goto(loopLabel), Label(endLabel));
      acc := acc + [Goto(loopLabel), Label(endLabel)];
      ForPieces(c, s, i, test, b, u);
      assert acc == LowerFor(c, s).code;
    }

    /** The test of a `for` loop: the condition and an IF_FALSE to the end label, if there is a
        condition. */
    method VisitForTest(s: Stmt, endLabel: string)
      requires s.ForStatement?
      modifies this
      ensures var r := LowerForTest(old(Counts()), s, endLabel);
              code == old(code) + r.code && Counts() == r.next
      decreases s, 0
    {
      if s.cond.Some? {
        ghost var code0 := code;
        ghost var e := LowerExpr(Counts(), s.cond.value);
        var condResult := VisitExpression(s.cond.value);
        var emitted := Emit("IF_FALSE", Some(condResult), Some(endLabel));
        AppendAssoc(code0, e.code, [IfFalse(e.value, endLabel)]);
      } else {
        assert code + [] == code;
      }
    }

    /** `visit_function_declaration`: FUNCTION, a PARAM per parameter, the body, RETURN. */
    method VisitFunctionDeclaration(s: Stmt)
      requires s.FunctionDeclaration?
      modifies this
      ensures var r := LowerFunction(old(Counts()), s);
              code == old(code) + r.code && Counts() == r.next
      decreases s, 1
    {
      ghost var c, code0 := Counts(), code;
      var emitted := Emit("FUNCTION", Some(s.name));
      ghost var head := [Unit("FUNCTION", s.name)];
      var k := 0;
      while k < |s.parameters|
        invariant k <= |s.parameters| && Counts() == c
        invariant code == code0 + (head + ParamCode(s.parameters, k))
      {
        emitted := Emit("PARAM", Some(s.parameters[k]));
        AppendAssoc(code0, head + ParamCode(s.parameters, k), [Unit("PARAM", s.parameters[k])]);
        AppendAssoc(head, ParamCode(s.parameters, k), [Unit("PARAM", s.parameters[k])]);
        k := k + 1;
      }
      ghost var acc := head + ParamCode(s.parameters, |s.parameters|);
      ghost var b := LowerStmts(c, s.body, |s.body|);
      VisitStatements(s.body);
      AppendAssoc(code0, acc, b.code);
      acc := acc + b.code;
      emitted := Emit("RETURN");
      AppendAssoc(code0, acc, [ThreeAddress.Return]);
      acc := acc + [ThreeAddress.Return];
      assert LowerFunction(c, s) == Lowered(acc, b.next);
    }

    /** `visit_return_statement`: RETURN with the value, or bare. */
    method VisitReturnStatement(s: Stmt)
      requires s.ReturnStatement?
      modifies this
      ensures var r := LowerStmt(old(Counts()), s);
              code == old(code) + r.code && Counts() == r.next
      decreases s, 1
    {
      if s.result.Some? {
        var result := ExpressionThen(s.result.value, "RETURN", None);
      } else {
        var emitted := Emit("RETURN");
      }
    }

    /** `visit_print_statement`. */
    method VisitPrintStatement(s: Stmt)
      requires s.PrintStatement?
      modifies this
      ensures var r := LowerStmt(old(Counts()), s);
              code == old(code) + r.code && Counts() == r.next
      decreases s, 1
    {
      var exprResult := ExpressionThen(s.value, "PRINT", None);
    }

    /** `visit_expression`: the operand that holds the expression's value. */
    method VisitExpression(e: Expr) returns (v: string)
      modifies this
      ensures var r := LowerExpr(old(Counts()), e);
              v == r.value && code == old(code) + r.code && Counts() == r.next
      decreases e, 1
    {
      match e
      case BinaryOp(_, _, _, _, _) => v := VisitBinaryOp(e);
      case UnaryOp(_, _, _, _) => v := VisitUnaryOp(e);
      case Identifier(name, _, _) =>
        v := name;
        assert code + [] == code;
      case IntLiteral(value, _, _) =>
        v := Str(value);
        assert code + [] == code;
      case FloatLiteral(value, _, _) =>
        v := Str(value);
        assert code + [] == code;
      case StringLiteral(value, _, _) =>
        v := "\"" + Str(value) + "\"";
        assert code + [] == code;
      case BoolLiteral(value, _, _) =>
        v := Lower(Str(value));
        assert code + [] == code;
      case FunctionCall(_, _, _, _) => v := VisitFunctionCall(e);
      case ArrayAccess(_, _, _, _) =>
        v := "unknown";
        assert code + [] == code;
    }

    /** `visit_binary_op`: left, right, then the operation into a new temporary. */
    method VisitBinaryOp(e: Expr) returns (v: string)
      requires e.BinaryOp?
      modifies this
      ensures var r := LowerBinary(old(Counts()), e);
              v == r.value && code == old(code) + r.code && Counts() == r.next
      decreases e, 0
    {
      ghost var c, code0 := Counts(), code;
      ghost var a := LowerExpr(c, e.left);
      var left := VisitExpression(e.left);
      ghost var b := LowerExpr(a.next, e.right);
      var right := VisitExpression(e.right);
      v := NewTemp();
      var emitted := Emit(e.operator, Some(left), Some(right), Some(v));
      AppendThree(code0, a.code, b.code, [Tac(e.operator, Some(left), Some(right), Some(v))]);
    }

    /** `visit_unary_op`: the operand, then the operation into a new temporary. */
    method VisitUnaryOp(e: Expr) returns (v: string)
      requires e.UnaryOp?
      modifies this
      ensures var r := LowerUnary(old(Counts()), e);
              v == r.value && code == old(code) + r.code && Counts() == r.next
      decreases e, 0
    {
      ghost var c, code0 := Counts(), code;
      ghost var a := LowerExpr(c, e.operand);
      var operand := VisitExpression(e.operand);
      v := NewTemp();
      var emitted := Emit(e.operator, Some(operand), result := Some(v));
      AppendAssoc(code0, a.code, [Tac(e.operator, Some(operand), None, Some(v))]);
    }

    /** `visit_function_call`: the temporary first, each argument followed by ARG, then CALL. */
    method VisitFunctionCall(e: Expr) returns (v: string)
      requires e.FunctionCall?
      modifies this
      ensures var r := LowerCall(old(Counts()), e);
              v == r.value && code == old(code) + r.code && Counts() == r.next
      decreases e, 0
    {
      ghost var code0 := code;
      v := NewTemp();
      ghost var c1 := Counts();
      var k := 0;
      while k < |e.arguments|
        invariant k <= |e.arguments|
        invariant code == code0 + LowerArgs(c1, e.arguments, k).code && Counts() == LowerArgs(c1, e.arguments, k).next
      {
        ghost var a := LowerArgs(c1, e.arguments, k);
        ghost var b := LowerExpr(a.next, e.arguments[k]);
        var argResult := VisitExpression(e.arguments[k]);
        var emitted := Emit("ARG", Some(argResult));
        AppendThree(code0, a.code, b.code, [Unit("ARG", b.value)]);
        k := k + 1;
      }
      var emitted := Emit("CALL", Some(e.name), result := Some(v));
      AppendAssoc(code0, LowerArgs(c1, e.arguments, |e.arguments|).code, [Tac("CALL", Some(e.name), None, Some(v))]);
    }
  }
}
