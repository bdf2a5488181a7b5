/** Worked lowerings and renderings: small programs lowered end to end, and the textual forms
    of the instructions the generator emits. */
module TacProperties {
  import opened Wrappers
  import opened Strings
  import TokenTypes
  import opened Ast
  import opened ThreeAddress
  import opened TacGeneration

  // ---------------------------------------------------------------------------------------
  // Rendering

  /** The shapes of `__repr__` with two operands, and with a result and one operand. */
  lemma ReprForms()
    ensures Repr(Assign("10", "x")) == "x = ASSIGN 10"
    ensures Repr(Tac("+", Some("x"), Some("y"), Some("t1"))) == "t1 = x + y"
    ensures Repr(IfFalse("c", "L1")) == "IF_FALSE c L1"
  {
  }

  /** The shapes with one operand and with none. */
  lemma ReprShortForms()
    ensures Repr(Goto("L2")) == "GOTO L2"
    ensures Repr(Tac("CALL", Some("f"), None, Some("t3"))) == "t3 = CALL f"
    ensures Repr(ThreeAddress.Return) == "RETURN"
  {
  }

  /** An empty result counts as no result, so the instruction renders without "= ". */
  lemma EmptyResultIsNoResult()
    ensures Repr(Tac("ASSIGN", Some("x"), None, Some(""))) == "ASSIGN x"
  {
  }

  /** A result with no first operand still renders it, as Python's None. */
  lemma MissingOperandRendersNone()
    ensures Repr(Tac("NEG", None, None, Some("t1"))) == "t1 = NEG None"
  {
  }

  // ---------------------------------------------------------------------------------------
  // Whole lowerings

  lemma NameOne()
    ensures TempName(1) == "t1" && LabelName(1) == "L1" && LabelName(2) == "L2"
  {
  }

  /** `var x = 10;` */
  lemma DeclareTen(c: Counters)
    ensures LowerStmt(c, VarDeclaration("x", None, Some(IntLiteral(TokenTypes.IntValue(10))))) == Lowered([Assign("10", "x")], c)
  {
    assert NatToString(10) == "10";
  }

  /** `var y = 20;` */
  lemma DeclareTwenty(c: Counters)
    ensures LowerStmt(c, VarDeclaration("y", None, Some(IntLiteral(TokenTypes.IntValue(20))))) == Lowered([Assign("20", "y")], c)
  {
    assert NatToString(20) == "20";
  }

  /** `z = x + y;` on fresh counters takes t1. */
  lemma AssignSum()
    ensures LowerStmt(Counters(0, 0), Assignment("z", BinaryOp(Identifier("x"), "+", Identifier("y"))))
            == Lowered([Tac("+", Some("x"), Some("y"), Some("t1")), Assign("t1", "z")], Counters(1, 0))
  {
    NameOne();
  }

  /** `var x = 10; var y = 20; var z; z = x + y; print z;` lowers to exactly five instructions:
      the declaration without an initializer emits nothing. */
  lemma FiveInstructions()
    ensures var ss := [VarDeclaration("x", None, Some(IntLiteral(TokenTypes.IntValue(10)))),
                       VarDeclaration("y", None, Some(IntLiteral(TokenTypes.IntValue(20)))),
                       VarDeclaration("z", None, None),
                       Assignment("z", BinaryOp(Identifier("x"), "+", Identifier("y"))),
                       PrintStatement(Identifier("z"))];
            var r := Generate(Program(ss));
            && r.code == [Assign("10", "x"), Assign("20", "y"), Tac("+", Some("x"), Some("y"), Some("t1")),
                          Assign("t1", "z"), Unit("PRINT", "z")]
            && r.next == Counters(1, 0)
  {
    var s1 := VarDeclaration("x", None, Some(IntLiteral(TokenTypes.IntValue(10))));
    var s2 := VarDeclaration("y", None, Some(IntLiteral(TokenTypes.IntValue(20))));
    var s3 := VarDeclaration("z", None, None);
    var s4 := Assignment("z", BinaryOp(Identifier("x"), "+", Identifier("y")));
    var s5 := PrintStatement(Identifier("z"));
    var ss := [s1, s2, s3, s4, s5];
    var c := Counters(0, 0);
    DeclareTen(c);
    DeclareTwenty(c);
    AssignSum();
    assert LowerStmts(c, ss, 1) == Lowered([Assign("10", "x")], c);
    assert LowerStmts(c, ss, 2) == Lowered([Assign("10", "x"), Assign("20", "y")], c);
    assert LowerStmts(c, ss, 3) == Lowered([Assign("10", "x"), Assign("20", "y")], c);
    assert LowerStmts(c, ss, 4) == Lowered([Assign("10", "x"), Assign("20", "y"), Tac("+", Some("x"), Some("y"), Some("t1")),
                                            Assign("t1", "z")], Counters(1, 0));
    assert LowerStmt(Counters(1, 0), s5) == Lowered([Unit("PRINT", "z")], Counters(1, 0));
    assert LowerStmts(c, ss, 5) == Lowered([Assign("10", "x"), Assign("20", "y"), Tac("+", Some("x"), Some("y"), Some("t1")),
                                            Assign("t1", "z"), Unit("PRINT", "z")], Counters(1, 0));
    assert Generate(Program(ss)) == LowerStmts(c, ss, 5);
  }

  /** The five instructions render as the compiler prints them (the sum is one of the
      shapes above). */
  lemma FiveInstructionsRendered()
    ensures Repr(Assign("20", "y")) == "y = ASSIGN 20"
    ensures Repr(Assign("t1", "z")) == "z = ASSIGN t1"
    ensures Repr(Unit("PRINT", "z")) == "PRINT z"
  {
  }

  /** `if (c) { }` still takes two labels and emits the jump over the missing else-branch. */
  lemma IfWithoutElse()
    ensures LowerIf(Counters(0, 0), IfStatement(Identifier("c"), [], NoElse))
            == Lowered([IfFalse("c", "L1"), Goto("L2"), Label("L1"), Label("L2")], Counters(0, 2))
  {
    NameOne();
  }

  /** `while (c) { }` */
  lemma EmptyWhile()
    ensures LowerWhile(Counters(0, 0), WhileStatement(Identifier("c"), []))
            == Lowered([Label("L1"), IfFalse("c", "L2"), Goto("L1"), Label("L2")], Counters(0, 2))
  {
    NameOne();
  }

  /** `for (;;) { }` has no test: the loop label, the jump back and the end label. */
  lemma EmptyFor()
    ensures LowerFor(Counters(0, 0), ForStatement(None, None, None, []))
            == Lowered([Label("L1"), Goto("L1"), Label("L2")], Counters(0, 2))
  {
    NameOne();
    var s := ForStatement(None, None, None, []);
    assert LowerInit(Counters(0, 0), s) == Lowered([], Counters(0, 0));
    assert LowerForTest(Counters(0, 2), s, "L2") == Lowered([], Counters(0, 2));
    assert LowerStmts(Counters(0, 2), [], 0) == Lowered([], Counters(0, 2));
    assert LowerUpdate(Counters(0, 2), s) == Lowered([], Counters(0, 2));
  }

  /** `func f(a, b) { return a; }`: FUNCTION, a PARAM per parameter, the body, and a bare
      RETURN even after the body's own. */
  lemma FunctionLayout(c: Counters)
    ensures LowerFunction(c, FunctionDeclaration("f", ["a", "b"], [ReturnStatement(Some(Identifier("a")))]))
            == Lowered([Unit("FUNCTION", "f"), Unit("PARAM", "a"), Unit("PARAM", "b"), Unit("RETURN", "a"),
                        ThreeAddress.Return], c)
  {
    assert ParamCode(["a", "b"], 2) == [Unit("PARAM", "a"), Unit("PARAM", "b")];
  }

  /** `f(x, 1)` on fresh counters: the call's temporary t1 is taken before the arguments. */
  lemma CallLayout()
    ensures LowerExpr(Counters(0, 0), FunctionCall("f", [Identifier("x"), IntLiteral(TokenTypes.IntValue(1))]))
            == LoweredExpr("t1", [Unit("ARG", "x"), Unit("ARG", "1"), Tac("CALL", Some("f"), None, Some("t1"))],
                           Counters(1, 0))
  {
    NameOne();
    var args := [Identifier("x"), IntLiteral(TokenTypes.IntValue(1))];
    assert LowerArgs(Counters(1, 0), args, 1) == Lowered([Unit("ARG", "x")], Counters(1, 0));
  }

  /** A fresh generator given the five-statement program returns the five instructions. */
  method GenerateFive() returns (code: seq<Tac>)
    ensures code == [Assign("10", "x"), Assign("20", "y"), Tac("+", Some("x"), Some("y"), Some("t1")),
                     Assign("t1", "z"), Unit("PRINT", "z")]
  {
    var generator := new TacGenerator();
    var program := Program([VarDeclaration("x", None, Some(IntLiteral(TokenTypes.IntValue(10)))),
                            VarDeclaration("y", None, Some(IntLiteral(TokenTypes.IntValue(20)))),
                            VarDeclaration("z", None, None),
                            Assignment("z", BinaryOp(Identifier("x"), "+", Identifier("y"))),
                            PrintStatement(Identifier("z"))]);
    FiveInstructions();
    code := generator.Generate(program);
  }
}
