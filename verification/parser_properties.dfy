/** Properties of the parser's specification: precedence and associativity, what is kept and
    what is dropped, and where parsing never ends. */
module ParserProperties {
  import opened Wrappers
  import opened TokenTypes
  import opened Ast
  import opened Parser

  /** A token on line 1. */
  function T(k: TokenKind, lexeme: string, column: int, literal: Value := NoneValue): Token {
    Token(k, lexeme, literal, 1, column)
  }

  /** A primary that is not followed by `(` is the whole unary expression. */
  lemma UnaryIsPrimary(ts: seq<Token>, s: State)
    requires Ready(ts, s) && ts[s.pos].kind != Not && ts[s.pos].kind != Minus
    requires PrimaryAt(ts, s).out.Ok? && ts[PrimaryAt(ts, s).st.pos].kind != LParen
    ensures UnaryAt(ts, s) == PrimaryAt(ts, s)
  {
    var p := PrimaryAt(ts, s);
    assert CallTailAt(ts, p.out.value, p.st) == p;
  }

  /** An operand followed by no operator of the level is the whole level. */
  lemma LevelIsOperand(ts: seq<Token>, lvl: nat, s: State)
    requires Ready(ts, s) && lvl <= Tightest
    requires OperandAt(ts, lvl, s).out.Ok? && !IsOperatorAt(lvl, ts[OperandAt(ts, lvl, s).st.pos].kind)
    ensures BinaryAt(ts, lvl, s) == OperandAt(ts, lvl, s)
  {
  }

  /** EOF is no operator of any level, so it ends every binary loop. */
  lemma EofEndsEveryLevel()
    ensures forall l :: !IsOperatorAt(l, Eof)
  {
  }

  /** The tokens that close an expression: EOF, `;`, `)`, `,` and `}`. */
  predicate Closes(k: TokenKind) {
    k == Eof || k == Semicolon || k == RParen || k == Comma || k == RBrace
  }

  /** A literal or a name followed by a closing token is a whole expression. */
  lemma SingleTokenExpression(ts: seq<Token>, s: State)
    requires Ready(ts, s) && StartsExpression(ts[s.pos].kind)
    requires ts[s.pos].kind != LParen && ts[s.pos].kind != Not && ts[s.pos].kind != Minus
    requires s.pos + 1 < |ts| && Closes(ts[s.pos + 1].kind)
    ensures ExpressionAt(ts, s) == PrimaryAt(ts, s) && PrimaryAt(ts, s).st == State(s.pos + 1, s.errors)
  {
    var k := ts[s.pos + 1].kind;
    assert forall l :: !IsOperatorAt(l, k);
    UnaryIsPrimary(ts, s);
    LevelIsOperand(ts, Tightest, s);
    LooserLevelsPassThrough(ts, 0, Tightest, s);
  }

  /** What a level `hi` parses is what every looser level parses, when no looser operator
      follows it. */
  lemma {:induction false} LooserLevelsPassThrough(ts: seq<Token>, lvl: nat, hi: nat, s: State)
    requires Ready(ts, s) && lvl <= hi <= Tightest
    requires BinaryAt(ts, hi, s).out.Ok?
    requires forall l :: lvl <= l < hi ==> !IsOperatorAt(l, ts[BinaryAt(ts, hi, s).st.pos].kind)
    ensures BinaryAt(ts, lvl, s) == BinaryAt(ts, hi, s)
    decreases hi - lvl
  {
    if lvl < hi {
      LooserLevelsPassThrough(ts, lvl + 1, hi, s);
      LevelIsOperand(ts, lvl, s);
    }
  }

  /** The tokens of `2 + 3 * 4`. */
  function SumOfProduct(): seq<Token> {
    [T(IntLit, "2", 1, IntValue(2)), T(Plus, "+", 3), T(IntLit, "3", 5, IntValue(3)),
     T(Star, "*", 7), T(IntLit, "4", 9, IntValue(4)), T(Eof, "", 10)]
  }

  lemma SumOfProductOperands()
    ensures var ts := SumOfProduct();
            OperandAt(ts, 4, State(0, [])) == Res(Ok(IntLiteral(IntValue(2), 1, 1)), State(1, [])) &&
            OperandAt(ts, 5, State(2, [])) == Res(Ok(IntLiteral(IntValue(3), 1, 5)), State(3, [])) &&
            OperandAt(ts, 5, State(4, [])) == Res(Ok(IntLiteral(IntValue(4), 1, 9)), State(5, []))
  {
    var ts := SumOfProduct();
    UnaryIsPrimary(ts, State(0, []));
    UnaryIsPrimary(ts, State(2, []));
    UnaryIsPrimary(ts, State(4, []));
    LevelIsOperand(ts, 5, State(0, []));
  }

  /** `2 + 3 * 4` parses as `2 + (3 * 4)`: the multiplicative level binds first. */
  lemma TighterLevelBindsFirst()
    ensures ExpressionAt(SumOfProduct(), State(0, [])) ==
              Res(Ok(BinaryOp(IntLiteral(IntValue(2), 1, 1), "+",
                              BinaryOp(IntLiteral(IntValue(3), 1, 5), "*", IntLiteral(IntValue(4), 1, 9), 1, 7), 1, 3)),
                  State(5, []))
  {
    var ts := SumOfProduct();
    var two, three, four := IntLiteral(IntValue(2), 1, 1), IntLiteral(IntValue(3), 1, 5), IntLiteral(IntValue(4), 1, 9);
    var product := BinaryOp(three, "*", four, 1, 7);
    var sum := BinaryOp(two, "+", product, 1, 3);
    SumOfProductOperands();
    assert BinaryTailAt(ts, 5, product, State(5, [])) == Res(Ok(product), State(5, []));
    assert BinaryTailAt(ts, 5, three, State(3, [])) == Res(Ok(product), State(5, []));
    assert OperandAt(ts, 4, State(2, [])) == Res(Ok(product), State(5, []));
    assert BinaryTailAt(ts, 4, sum, State(5, [])) == Res(Ok(sum), State(5, []));
    assert BinaryTailAt(ts, 4, two, State(1, [])) == Res(Ok(sum), State(5, []));
    assert BinaryAt(ts, 4, State(0, [])) == Res(Ok(sum), State(5, []));
    EofEndsEveryLevel();
    LooserLevelsPassThrough(ts, 0, 4, State(0, []));
  }

  /** The tokens of `a - b - c`. */
  function Difference(): seq<Token> {
    [T(Ident, "a", 1), T(Minus, "-", 3), T(Ident, "b", 5), T(Minus, "-", 7), T(Ident, "c", 9), T(Eof, "", 10)]
  }

  lemma DifferenceOperands()
    ensures var ts := Difference();
            OperandAt(ts, 4, State(0, [])) == Res(Ok(Identifier("a", 1, 1)), State(1, [])) &&
            OperandAt(ts, 4, State(2, [])) == Res(Ok(Identifier("b", 1, 5)), State(3, [])) &&
            OperandAt(ts, 4, State(4, [])) == Res(Ok(Identifier("c", 1, 9)), State(5, []))
  {
    var ts := Difference();
    UnaryIsPrimary(ts, State(0, []));
    UnaryIsPrimary(ts, State(2, []));
    UnaryIsPrimary(ts, State(4, []));
    LevelIsOperand(ts, 5, State(0, []));
    LevelIsOperand(ts, 5, State(2, []));
    LevelIsOperand(ts, 5, State(4, []));
  }

  /** `a - b - c` parses as `(a - b) - c`: each level folds to the left. */
  lemma SameLevelFoldsLeft()
    ensures ExpressionAt(Difference(), State(0, [])) ==
              Res(Ok(BinaryOp(BinaryOp(Identifier("a", 1, 1), "-", Identifier("b", 1, 5), 1, 3), "-",
                              Identifier("c", 1, 9), 1, 7)),
                  State(5, []))
  {
    var ts := Difference();
    var a, b, c := Identifier("a", 1, 1), Identifier("b", 1, 5), Identifier("c", 1, 9);
    var ab := BinaryOp(a, "-", b, 1, 3);
    var abc := BinaryOp(ab, "-", c, 1, 7);
    DifferenceOperands();
    assert BinaryTailAt(ts, 4, abc, State(5, [])) == Res(Ok(abc), State(5, []));
    assert BinaryTailAt(ts, 4, ab, State(3, [])) == Res(Ok(abc), State(5, []));
    assert BinaryTailAt(ts, 4, a, State(1, [])) == Res(Ok(abc), State(5, []));
    assert BinaryAt(ts, 4, State(0, [])) == Res(Ok(abc), State(5, []));
    EofEndsEveryLevel();
    LooserLevelsPassThrough(ts, 0, 4, State(0, []));
  }

  /** The kinds that can start an expression: a literal, a name, `(`, `!` or `-`. */
  predicate StartsExpression(k: TokenKind) {
    k == IntLit || k == FloatLit || k == StringLit || k == TrueLit || k == FalseLit || k == Ident
    || k == LParen || k == Not || k == Minus
  }

  /** The kinds `statement` dispatches on before falling back to an expression statement. */
  predicate StartsStatement(k: TokenKind) {
    k == Var || k == If || k == While || k == For || k == Func || k == Return || k == Print || k == LBrace
  }

  /** On a token that cannot start an expression, every level raises at once, without moving
      and without recording a message. */
  lemma {:induction false} NoOperandRaises(ts: seq<Token>, lvl: nat, s: State)
    requires Ready(ts, s) && lvl <= Tightest && !StartsExpression(ts[s.pos].kind)
    ensures BinaryAt(ts, lvl, s) == Res(Raised, s)
    decreases Tightest - lvl
  {
    if lvl < Tightest {
      NoOperandRaises(ts, lvl + 1, s);
    } else {
      assert CallAt(ts, s) == Res(Raised, s);
      assert OperandAt(ts, lvl, s) == UnaryAt(ts, s) == Res(Raised, s);
    }
  }

  /** A token that starts neither a statement nor an expression (a stray `)`, `}`, `;`,
      `else`, a binary operator, a type name) makes `statement` return None without moving,
      so the loop of `parse` runs forever on it. */
  lemma StrayTokenStallsParse(ts: seq<Token>, acc: seq<Stmt>, s: State)
    requires Ready(ts, s)
    requires ts[s.pos].kind != Eof && !StartsStatement(ts[s.pos].kind) && !StartsExpression(ts[s.pos].kind)
    ensures StatementAt(ts, s) == Res(Ok(None), s)
    ensures ParseFromAt(ts, acc, s) == Res(Diverged, s)
  {
    NoOperandRaises(ts, 0, s);
  }

  /** The same token inside a block, unless it is the closing brace, stalls the block. */
  lemma StrayTokenStallsBlock(ts: seq<Token>, acc: seq<Stmt>, s: State)
    requires Ready(ts, s)
    requires ts[s.pos].kind != Eof && ts[s.pos].kind != RBrace
    requires !StartsStatement(ts[s.pos].kind) && !StartsExpression(ts[s.pos].kind)
    ensures BlockFromAt(ts, acc, s) == Res(Diverged, s)
  {
    StrayTokenStallsParse(ts, acc, s);
  }

  /** The tokens of `print ;`. */
  function PrintNothing(): seq<Token> {
    [T(Print, "print", 1), T(Semicolon, ";", 7), T(Eof, "", 8)]
  }

  /** `print ;`: `primary` raises on `;` without recording a message, `statement` swallows the
      error after `print` was consumed, and the parse then stalls on the `;`. */
  lemma PrintWithoutValueStalls()
    ensures StatementAt(PrintNothing(), State(0, [])) == Res(Ok(None), State(1, []))
    ensures ParseAt(PrintNothing()) == Res(Diverged, State(1, []))
  {
    var ts := PrintNothing();
    NoOperandRaises(ts, 0, State(1, []));
    assert PrintAt(ts, State(0, [])) == Res(Raised, State(1, []));
    StrayTokenStallsParse(ts, [], State(1, []));
  }

  /** A bare block at statement level is parsed to its closing brace, and `statement` then
      returns None whatever statements it held. */
  lemma BareBlockIsDropped(ts: seq<Token>, s: State)
    requires Ready(ts, s) && ts[s.pos].kind == LBrace
    ensures StatementAt(ts, s).out == Ok(None) || StatementAt(ts, s).out == Diverged
    ensures BareBlockAt(ts, s).out.Ok? ==> StatementAt(ts, s) == Res(Ok(None), BareBlockAt(ts, s).st)
  {
  }

  /** An expression statement that is not `name = ...`, such as `f(x);` or `1 + 2;`, is
      consumed up to its `;` and dropped without a message. */
  lemma NonAssignmentIsDropped(ts: seq<Token>, s: State)
    requires Ready(ts, s) && !StartsStatement(ts[s.pos].kind)
    requires ExpressionAt(ts, s).out.Ok?
    requires !ExpressionAt(ts, s).out.value.Identifier? || ts[ExpressionAt(ts, s).st.pos].kind != Assign
    requires ts[ExpressionAt(ts, s).st.pos].kind == Semicolon
    ensures StatementAt(ts, s) == Res(Ok(None), Advanced(ts, ExpressionAt(ts, s).st))
  {
    var e := ExpressionAt(ts, s);
    assert ExpressionStatementAt(ts, s) == Res(Raised, Advanced(ts, e.st));
  }

  /** An argument list after anything but a name raises: only names can be called. */
  lemma CallNeedsName(ts: seq<Token>, callee: Expr, s: State)
    requires Ready(ts, s) && NoArrayAccess(callee) && !callee.Identifier? && ts[s.pos].kind == LParen
    ensures !CallTailAt(ts, callee, s).out.Ok?
  {
  }

  /** A parenthesised expression is the inner expression itself; no node records the
      parentheses. */
  lemma ParenthesesLeaveNoNode(ts: seq<Token>, s: State)
    requires Ready(ts, s) && ts[s.pos].kind == LParen
    requires ExpressionAt(ts, Advanced(ts, s)).out.Ok?
    requires ts[ExpressionAt(ts, Advanced(ts, s)).st.pos].kind == RParen
    ensures PrimaryAt(ts, s) == Res(ExpressionAt(ts, Advanced(ts, s)).out, Advanced(ts, ExpressionAt(ts, Advanced(ts, s)).st))
  {
  }

  /** The cursor never passes the last token: from there on `current_token` and `peek_token`
      give it and `advance` stays put. */
  lemma CursorStopsAtEof(ts: seq<Token>, pos: nat, offset: nat)
    requires TokensOk(ts) && pos >= |ts| - 1
    ensures Current(ts, pos).kind == Eof && Peek(ts, pos, offset).kind == Eof
    ensures Advanced(ts, State(pos, [])).pos == pos
  {
  }

  /** The tokens of `var x = 10;`. */
  function DeclareTen(): seq<Token> {
    [T(Var, "var", 1), T(Ident, "x", 5), T(Assign, "=", 7), T(IntLit, "10", 9, IntValue(10)),
     T(Semicolon, ";", 11), T(Eof, "", 12)]
  }

  lemma DeclarationStatement()
    ensures StatementAt(DeclareTen(), State(0, [])) ==
              Res(Ok(Some(VarDeclaration("x", None, Some(IntLiteral(IntValue(10), 1, 9)), 1, 1))), State(5, []))
  {
    var ts := DeclareTen();
    var ten := IntLiteral(IntValue(10), 1, 9);
    SingleTokenExpression(ts, State(3, []));
    assert InitializerAt(ts, State(2, [])) == Res(Ok(Some(ten)), State(4, []));
    assert VarDeclarationAt(ts, State(0, [])) == Res(Ok(VarDeclaration("x", None, Some(ten), 1, 1)), State(5, []));
  }

  /** `var x = 10;` parses to one declaration without a type, whose initialiser is the literal
      10, positioned at the `var` keyword. */
  lemma DeclarationParses()
    ensures ParseAt(DeclareTen()) ==
              Res(Ok(Program([VarDeclaration("x", None, Some(IntLiteral(IntValue(10), 1, 9)), 1, 1)])), State(5, []))
  {
    var ts := DeclareTen();
    var decl := VarDeclaration("x", None, Some(IntLiteral(IntValue(10), 1, 9)), 1, 1);
    DeclarationStatement();
    assert [] + Kept(Some(decl)) == [decl];
    assert ParseFromAt(ts, [decl], State(5, [])) == Res(Ok(Program([decl])), State(5, []));
  }

  /** The tokens of `for (;;) { }`. */
  function EmptyFor(): seq<Token> {
    [T(For, "for", 1), T(LParen, "(", 5), T(Semicolon, ";", 6), T(Semicolon, ";", 7), T(RParen, ")", 8),
     T(LBrace, "{", 10), T(RBrace, "}", 12), T(Eof, "", 13)]
  }

  /** `for (;;) { }`: the `;` of the missing initialiser is consumed, and initialiser,
      condition and update are all absent. */
  lemma ForWithNothingParses()
    ensures StatementAt(EmptyFor(), State(0, [])) == Res(Ok(Some(ForStatement(None, None, None, [], 1, 1))), State(7, []))
  {
    var ts := EmptyFor();
    EmptyForHeader();
    assert BlockFromAt(ts, [], State(6, [])) == Res(Ok([]), State(6, []));
    assert BracedAt(ts, State(5, [])) == Res(Ok([]), State(7, []));
    assert ForAt(ts, State(0, [])) == Res(Ok(ForStatement(None, None, None, [], 1, 1)), State(7, []));
  }

  lemma EmptyForHeader()
    ensures ForHeaderAt(EmptyFor(), State(1, [])) == Res(Ok((None, None, None)), State(5, []))
  {
    var ts := EmptyFor();
    assert ForInitAt(ts, State(2, [])) == Res(Ok(None), State(3, []));
    assert ForConditionAt(ts, State(3, [])) == Res(Ok(None), State(4, []));
    assert ForUpdateAt(ts, State(4, [])) == Res(Ok(None), State(4, []));
  }

  /** A for-loop's update is an expression statement: when present it is an assignment and
      must end with its own `;`, before the `)`. */
  lemma ForUpdateEndsWithSemicolon(ts: seq<Token>, s: State)
    requires Ready(ts, s) && ts[s.pos].kind != RParen
    ensures var u := ForUpdateAt(ts, s);
            u.out.Ok? ==> u.out.value.Some? && u.out.value.value.Assignment? && ts[u.st.pos - 1].kind == Semicolon
  {
  }
}
