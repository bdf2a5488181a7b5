/** The recursive-descent parser. Its specification is a family of functions over the token
    list and a parser state (cursor and error log), one per grammar routine; the class `Parser`
    below runs the same routines imperatively and is proved to agree with them. ParseError is
    the outcome `Raised`, and a loop that repeats the same state forever is the outcome
    `Diverged`. */
module Parser {
  import opened Wrappers
  import opened Strings
  import opened TokenTypes
  import opened Ast

  /** How a parsing routine ends: with a value, by raising ParseError, or not at all. */
  datatype Outcome<+T> = Ok(value: T) | Raised | Diverged

  /** The parser's mutable state: the cursor and the error messages recorded so far. */
  datatype State = State(pos: nat, errors: seq<string>)

  /** What a routine returns, with the state it leaves behind. */
  datatype Res<+T> = Res(out: Outcome<T>, st: State)

  /** A failure, passed on unchanged to the enclosing routine. */
  function Fail<T, U>(o: Outcome<T>): Outcome<U>
    requires !o.Ok?
  {
    if o.Raised? then Raised else Diverged
  }

  function Abort<T, U>(r: Res<T>): Res<U>
    requires !r.out.Ok?
  {
    Res(Fail(r.out), r.st)
  }

  /** The outcome of an optional part that was attempted. */
  function Lift<T>(o: Outcome<T>): Outcome<Option<T>> {
    match o
    case Ok(v) => Ok(Some(v))
    case Raised => Raised
    case Diverged => Diverged
  }

  function Optional<T>(r: Res<T>): Res<Option<T>> {
    Res(Lift(r.out), r.st)
  }

  /** A token list as the lexer delivers it: non-empty and ending with EOF. */
  predicate TokensOk(ts: seq<Token>) {
    |ts| > 0 && ts[|ts| - 1].kind == Eof
  }

  predicate Ready(ts: seq<Token>, s: State) {
    TokensOk(ts) && s.pos < |ts|
  }

  // ---------------------------------------------------------------- cursor helpers

  /** The token under the cursor; the last token for any index past the end. */
  function Current(ts: seq<Token>, pos: nat): Token
    requires |ts| > 0
  {
    if pos >= |ts| then ts[|ts| - 1] else ts[pos]
  }

  /** The token `offset` places ahead; the last token for any index past the end. */
  function Peek(ts: seq<Token>, pos: nat, offset: nat := 1): Token
    requires |ts| > 0
  {
    if pos + offset >= |ts| then ts[|ts| - 1] else ts[pos + offset]
  }

  /** The state after `advance`: one token further, except on the last token. */
  function Advanced(ts: seq<Token>, s: State): (r: State)
    requires |ts| > 0
    ensures r.errors == s.errors && s.pos <= r.pos
    ensures s.pos < |ts| ==> r.pos < |ts|
    ensures s.pos >= |ts| - 1 ==> r.pos == s.pos
    ensures TokensOk(ts) && s.pos < |ts| && Current(ts, s.pos).kind != Eof ==> r.pos == s.pos + 1
  {
    State(if s.pos < |ts| - 1 then s.pos + 1 else s.pos, s.errors)
  }

  /** The message `consume` records when the expected kind is missing. */
  function ExpectedMessage(k: TokenKind, got: Token): string {
    "Expected " + KindName(k) + ", got " + KindName(got.kind) + " at line " + IntToString(got.line)
  }

  /** `consume`: on the expected kind, the token and one step forward; otherwise exactly one
      message is recorded, ParseError is raised and the cursor stays put. */
  function ConsumeAt(ts: seq<Token>, s: State, k: TokenKind): (r: Res<Token>)
    requires Ready(ts, s)
    ensures r.out.Ok? <==> ts[s.pos].kind == k
    ensures r.out.Ok? ==> r.out.value == ts[s.pos] && r.st == Advanced(ts, s)
    ensures !r.out.Ok? ==> r.out.Raised? && r.st.pos == s.pos && r.st.errors == s.errors + [ExpectedMessage(k, ts[s.pos])]
  {
    var t := Current(ts, s.pos);
    if t.kind != k then Res(Raised, State(s.pos, s.errors + [ExpectedMessage(k, t)]))
    else Res(Ok(t), Advanced(ts, s))
  }

  /** The kinds `synchronize` stops at. */
  predicate IsSyncKind(k: TokenKind) {
    k == Var || k == If || k == While || k == Func || k == Return || k == Print
  }

  /** The first position from `pos` on holding EOF or a statement keyword. */
  function SyncFrom(ts: seq<Token>, pos: nat): (r: nat)
    requires TokensOk(ts) && pos < |ts|
    ensures pos <= r < |ts|
    ensures ts[r].kind == Eof || IsSyncKind(ts[r].kind)
    ensures forall i :: pos <= i < r ==> ts[i].kind != Eof && !IsSyncKind(ts[i].kind)
    decreases |ts| - pos
  {
    var k := Current(ts, pos).kind;
    if k == Eof || IsSyncKind(k) then pos else SyncFrom(ts, Advanced(ts, State(pos, [])).pos)
  }

  /** `synchronize`: skip the current token, then every token up to the next statement keyword
      or EOF. */
  function SynchronizeAt(ts: seq<Token>, s: State): (r: State)
    requires Ready(ts, s)
    ensures r.errors == s.errors && s.pos <= r.pos < |ts|
    ensures ts[r.pos].kind == Eof || IsSyncKind(ts[r.pos].kind)
    ensures forall i :: s.pos < i < r.pos ==> ts[i].kind != Eof && !IsSyncKind(ts[i].kind)
  {
    State(SyncFrom(ts, Advanced(ts, s).pos), s.errors)
  }

  // ---------------------------------------------------------------- expressions

  /** The operator kinds of the binary precedence levels, loosest first: `||`, `&&`,
      equality, comparison, additive, multiplicative. */
  predicate IsOperatorAt(lvl: nat, k: TokenKind) {
    if lvl == 0 then k == Or
    else if lvl == 1 then k == And
    else if lvl == 2 then k == Eq || k == Ne
    else if lvl == 3 then k == Lt || k == Gt || k == Le || k == Ge
    else if lvl == 4 then k == Plus || k == Minus
    else k == Star || k == Slash || k == Percent
  }

  /** The index of the multiplicative level, the tightest binary one. */
  const Tightest: nat := 5

  predicate AllNoArrayAccess(es: seq<Expr>) {
    forall i :: 0 <= i < |es| ==> NoArrayAccess(es[i])
  }

  /** What every expression routine guarantees: the cursor moves forward and stays on the
      token list, nothing diverges, a success consumes at least one token and builds no array
      access, and a routine that fails without moving records no message. */
  predicate ExprPost(ts: seq<Token>, s: State, r: Res<Expr>) {
    s.pos <= r.st.pos < |ts| && !r.out.Diverged?
    && (r.out.Ok? ==> s.pos < r.st.pos && NoArrayAccess(r.out.value))
    && (r.st.pos == s.pos ==> r.st.errors == s.errors)
  }

  /** The guarantee of a loop that extends an expression already parsed. */
  predicate TailPost(ts: seq<Token>, s: State, r: Res<Expr>) {
    s.pos <= r.st.pos < |ts| && !r.out.Diverged? && (r.out.Ok? ==> NoArrayAccess(r.out.value))
  }

  /** `expression`. */
  function ExpressionAt(ts: seq<Token>, s: State): (r: Res<Expr>)
    requires Ready(ts, s)
    ensures ExprPost(ts, s, r)
    decreases |ts| - s.pos, 15
  {
    BinaryAt(ts, 0, s)
  }

  /** One binary level (`logical_or` … `multiplicative`): an operand, then the loop that
      folds every further operator of the level to the left. */
  function BinaryAt(ts: seq<Token>, lvl: nat, s: State): (r: Res<Expr>)
    requires Ready(ts, s) && lvl <= Tightest
    ensures ExprPost(ts, s, r)
    decreases |ts| - s.pos, 4 + 2 * (Tightest - lvl)
  {
    var l := OperandAt(ts, lvl, s);
    if !l.out.Ok? then Abort(l) else BinaryTailAt(ts, lvl, l.out.value, l.st)
  }

  /** The operands of a binary level: the next tighter level, or `unary` below the
      multiplicative level. */
  function OperandAt(ts: seq<Token>, lvl: nat, s: State): (r: Res<Expr>)
    requires Ready(ts, s) && lvl <= Tightest
    ensures ExprPost(ts, s, r)
    decreases |ts| - s.pos, 3 + 2 * (Tightest - lvl)
  {
    if lvl == Tightest then UnaryAt(ts, s) else BinaryAt(ts, lvl + 1, s)
  }

  /** The `while` loop of a binary level, with `left` the expression built so far. */
  function BinaryTailAt(ts: seq<Token>, lvl: nat, left: Expr, s: State): (r: Res<Expr>)
    requires Ready(ts, s) && lvl <= Tightest && NoArrayAccess(left)
    ensures TailPost(ts, s, r)
    decreases |ts| - s.pos, 0
  {
    var t := ts[s.pos];
    if !IsOperatorAt(lvl, t.kind) then Res(Ok(left), s)
    else
      var right := OperandAt(ts, lvl, Advanced(ts, s));
      if !right.out.Ok? then Abort(right)
      else BinaryTailAt(ts, lvl, BinaryOp(left, t.lexeme, right.out.value, t.line, t.column), right.st)
  }

  /** `unary`: `!` and `-` apply to a unary expression, anything else is a call. */
  function UnaryAt(ts: seq<Token>, s: State): (r: Res<Expr>)
    requires Ready(ts, s)
    ensures ExprPost(ts, s, r)
    decreases |ts| - s.pos, 2
  {
    var t := ts[s.pos];
    if t.kind == Not || t.kind == Minus then
      var e := UnaryAt(ts, Advanced(ts, s));
      if !e.out.Ok? then Abort(e) else Res(Ok(UnaryOp(t.lexeme, e.out.value, t.line, t.column)), e.st)
    else CallAt(ts, s)
  }

  /** `call`: a primary followed by any number of argument lists. */
  function CallAt(ts: seq<Token>, s: State): (r: Res<Expr>)
    requires Ready(ts, s)
    ensures ExprPost(ts, s, r)
    decreases |ts| - s.pos, 1
  {
    var p := PrimaryAt(ts, s);
    if !p.out.Ok? then Abort(p) else CallTailAt(ts, p.out.value, p.st)
  }

  /** The loop of `call`: each `( arguments )` turns an identifier into a call of that name;
      after anything else it raises. */
  function CallTailAt(ts: seq<Token>, callee: Expr, s: State): (r: Res<Expr>)
    requires Ready(ts, s) && NoArrayAccess(callee)
    ensures TailPost(ts, s, r)
    decreases |ts| - s.pos, 0
  {
    if ts[s.pos].kind != LParen then Res(Ok(callee), s)
    else
      var a := ArgumentsAt(ts, Advanced(ts, s));
      if !a.out.Ok? then Abort(a)
      else
        var c := ConsumeAt(ts, a.st, RParen);
        if !c.out.Ok? then Abort(c)
        else if !callee.Identifier? then Res(Raised, c.st)
        else CallTailAt(ts, FunctionCall(callee.name, a.out.value, callee.line, callee.column), c.st)
  }

  /** The guarantee of the argument-list routines. */
  predicate ArgsPost(ts: seq<Token>, s: State, r: Res<seq<Expr>>) {
    s.pos <= r.st.pos < |ts| && !r.out.Diverged? && (r.out.Ok? ==> AllNoArrayAccess(r.out.value))
  }

  /** The arguments between the parentheses: none before `)`, otherwise expressions separated
      by commas. */
  function ArgumentsAt(ts: seq<Token>, s: State): (r: Res<seq<Expr>>)
    requires Ready(ts, s)
    ensures ArgsPost(ts, s, r)
    decreases |ts| - s.pos, 16
  {
    if ts[s.pos].kind == RParen then Res(Ok([]), s)
    else
      var e := ExpressionAt(ts, s);
      if !e.out.Ok? then Abort(e) else ArgumentsTailAt(ts, [e.out.value], e.st)
  }

  function ArgumentsTailAt(ts: seq<Token>, args: seq<Expr>, s: State): (r: Res<seq<Expr>>)
    requires Ready(ts, s) && AllNoArrayAccess(args)
    ensures ArgsPost(ts, s, r) && (r.out.Ok? ==> args <= r.out.value)
    decreases |ts| - s.pos, 0
  {
    if ts[s.pos].kind != Comma then Res(Ok(args), s)
    else
      var e := ExpressionAt(ts, Advanced(ts, s));
      if !e.out.Ok? then Abort(e) else ArgumentsTailAt(ts, args + [e.out.value], e.st)
  }

  /** `primary`: a literal, an identifier or a parenthesised expression; any other token
      raises without consuming anything and without recording a message. */
  function PrimaryAt(ts: seq<Token>, s: State): (r: Res<Expr>)
    requires Ready(ts, s)
    ensures ExprPost(ts, s, r)
    decreases |ts| - s.pos, 0
  {
    var t := ts[s.pos];
    if t.kind == IntLit then Res(Ok(IntLiteral(t.literal, t.line, t.column)), Advanced(ts, s))
    else if t.kind == FloatLit then Res(Ok(FloatLiteral(t.literal, t.line, t.column)), Advanced(ts, s))
    else if t.kind == StringLit then Res(Ok(StringLiteral(t.literal, t.line, t.column)), Advanced(ts, s))
    else if t.kind == TrueLit || t.kind == FalseLit then Res(Ok(BoolLiteral(t.literal, t.line, t.column)), Advanced(ts, s))
    else if t.kind == Ident then Res(Ok(Identifier(t.lexeme, t.line, t.column)), Advanced(ts, s))
    else if t.kind == LParen then
      var e := ExpressionAt(ts, Advanced(ts, s));
      if !e.out.Ok? then Abort(e)
      else
        var c := ConsumeAt(ts, e.st, RParen);
        if !c.out.Ok? then Abort(c) else Res(Ok(e.out.value), c.st)
    else Res(Raised, s)
  }

  // ---------------------------------------------------------------- statements

  /** The guarantee of every statement routine: the cursor moves forward and stays on the
      token list. */
  predicate StmtPost<T>(ts: seq<Token>, s: State, r: Res<T>) {
    s.pos <= r.st.pos < |ts|
  }

  /** A routine that starts by consuming its keyword `k` moves whenever it is called on `k`. */
  predicate Moves<T>(ts: seq<Token>, s: State, k: TokenKind, r: Res<T>)
    requires s.pos < |ts|
  {
    ts[s.pos].kind == k ==> s.pos < r.st.pos
  }

  /** A statement that is kept, a bare block or an expression statement that is not. */
  function Kept(o: Option<Stmt>): seq<Stmt> {
    if o.Some? then [o.value] else []
  }

  /** `statement`: dispatch on the first token; a ParseError raised anywhere inside ends the
      statement with None at the state where it was raised, so none ever escapes. A bare
      block is parsed and then dropped. A statement that does not move the cursor leaves the
      state exactly as it was. */
  function StatementAt(ts: seq<Token>, s: State): (r: Res<Option<Stmt>>)
    requires Ready(ts, s)
    ensures StmtPost(ts, s, r) && !r.out.Raised?
    ensures r.st.pos == s.pos ==> r == Res(Ok(None), s)
    decreases |ts| - s.pos, 1
  {
    var k := ts[s.pos].kind;
    if k == LBrace then
      var b := BareBlockAt(ts, s);
      if b.out.Diverged? then Abort(b) else Res(Ok(None), b.st)
    else
      var x :=
        if k == Var then VarDeclarationAt(ts, s)
        else if k == If then IfAt(ts, s)
        else if k == While then WhileAt(ts, s)
        else if k == For then ForAt(ts, s)
        else if k == Func then FunctionAt(ts, s)
        else if k == Return then ReturnAt(ts, s)
        else if k == Print then PrintAt(ts, s)
        else ExpressionStatementAt(ts, s);
      Res(Catch(x.out), x.st)
  }

  /** The `except ParseError: return None` of `statement`. */
  function Catch(o: Outcome<Stmt>): Outcome<Option<Stmt>> {
    match o
    case Ok(v) => Ok(Some(v))
    case Raised => Ok(None)
    case Diverged => Diverged
  }

  /** The statement-level `{ ... }`: the statements up to the closing brace are parsed and
      returned here, and `statement` discards them. */
  function BareBlockAt(ts: seq<Token>, s: State): (r: Res<seq<Stmt>>)
    requires Ready(ts, s) && ts[s.pos].kind == LBrace
    ensures s.pos < r.st.pos < |ts|
    decreases |ts| - s.pos, 0
  {
    var b := BlockAt(ts, Advanced(ts, s));
    if !b.out.Ok? then Abort(b)
    else
      var c := ConsumeAt(ts, b.st, RBrace);
      if !c.out.Ok? then Abort(c) else Res(Ok(b.out.value), c.st)
  }

  /** `block`: statements up to `}` or EOF, keeping those `statement` returns. A statement
      that does not move the cursor would be parsed again from the same state forever. */
  function BlockAt(ts: seq<Token>, s: State): (r: Res<seq<Stmt>>)
    requires Ready(ts, s)
    ensures StmtPost(ts, s, r) && !r.out.Raised?
    decreases |ts| - s.pos, 3
  {
    BlockFromAt(ts, [], s)
  }

  function BlockFromAt(ts: seq<Token>, acc: seq<Stmt>, s: State): (r: Res<seq<Stmt>>)
    requires Ready(ts, s)
    ensures StmtPost(ts, s, r) && !r.out.Raised? && (r.out.Ok? ==> acc <= r.out.value)
    decreases |ts| - s.pos, 2
  {
    var k := ts[s.pos].kind;
    if k == RBrace || k == Eof then Res(Ok(acc), s)
    else
      var r := StatementAt(ts, s);
      if r.out.Diverged? || r.st.pos == s.pos then Res(Diverged, r.st)
      else BlockFromAt(ts, acc + Kept(r.out.value), r.st)
  }

  /** `{ block }`, as every compound statement uses it. */
  function BracedAt(ts: seq<Token>, s: State): (r: Res<seq<Stmt>>)
    requires Ready(ts, s)
    ensures StmtPost(ts, s, r) && (r.out.Ok? ==> s.pos < r.st.pos)
    decreases |ts| - s.pos, 0
  {
    var l := ConsumeAt(ts, s, LBrace);
    if !l.out.Ok? then Abort(l)
    else
      var b := BlockAt(ts, l.st);
      if !b.out.Ok? then Abort(b)
      else
        var c := ConsumeAt(ts, b.st, RBrace);
        if !c.out.Ok? then Abort(c) else Res(Ok(b.out.value), c.st)
  }

  /** `( expression )`, the condition of `if` and `while`. */
  function ConditionAt(ts: seq<Token>, s: State): (r: Res<Expr>)
    requires Ready(ts, s)
    ensures StmtPost(ts, s, r) && !r.out.Diverged?
  {
    var l := ConsumeAt(ts, s, LParen);
    if !l.out.Ok? then Abort(l)
    else
      var e := ExpressionAt(ts, l.st);
      if !e.out.Ok? then Abort(e)
      else
        var c := ConsumeAt(ts, e.st, RParen);
        if !c.out.Ok? then Abort(c) else Res(Ok(e.out.value), c.st)
  }

  /** `var_declaration`: `var name ;` or `var name = expression ;`, declared without a type. */
  function VarDeclarationAt(ts: seq<Token>, s: State): (r: Res<Stmt>)
    requires Ready(ts, s)
    ensures StmtPost(ts, s, r) && Moves(ts, s, Var, r) && !r.out.Diverged?
    ensures r.out.Ok? ==> r.out.value.VarDeclaration? && r.out.value.dataType == None
  {
    var v := ConsumeAt(ts, s, Var);
    if !v.out.Ok? then Abort(v)
    else
      var n := ConsumeAt(ts, v.st, Ident);
      if !n.out.Ok? then Abort(n)
      else
        var i := InitializerAt(ts, n.st);
        if !i.out.Ok? then Abort(i)
        else
          var c := ConsumeAt(ts, i.st, Semicolon);
          if !c.out.Ok? then Abort(c)
          else Res(Ok(VarDeclaration(n.out.value.lexeme, None, i.out.value, v.out.value.line, v.out.value.column)), c.st)
  }

  /** The optional `= expression` of a declaration. */
  function InitializerAt(ts: seq<Token>, s: State): (r: Res<Option<Expr>>)
    requires Ready(ts, s)
    ensures StmtPost(ts, s, r) && !r.out.Diverged?
  {
    if ts[s.pos].kind == Assign then Optional(ExpressionAt(ts, Advanced(ts, s))) else Res(Ok(None), s)
  }

  /** `if_statement`: condition, then-block and an optional else-block. */
  function IfAt(ts: seq<Token>, s: State): (r: Res<Stmt>)
    requires Ready(ts, s)
    ensures StmtPost(ts, s, r) && Moves(ts, s, If, r)
    decreases |ts| - s.pos, 0
  {
    var i := ConsumeAt(ts, s, If);
    if !i.out.Ok? then Abort(i)
    else
      var c := ConditionAt(ts, i.st);
      if !c.out.Ok? then Abort(c)
      else
        var t := BracedAt(ts, c.st);
        if !t.out.Ok? then Abort(t)
        else
          var e := ElseAt(ts, t.st);
          if !e.out.Ok? then Abort(e)
          else Res(Ok(IfStatement(c.out.value, t.out.value, ElseOf(e.out.value), i.out.value.line, i.out.value.column)), e.st)
  }

  /** The optional `else { block }`. */
  function ElseAt(ts: seq<Token>, s: State): (r: Res<Option<seq<Stmt>>>)
    requires Ready(ts, s)
    ensures StmtPost(ts, s, r)
    decreases |ts| - s.pos, 0
  {
    if ts[s.pos].kind == Else then Optional(BracedAt(ts, Advanced(ts, s))) else Res(Ok(None), s)
  }

  /** `while_statement`. */
  function WhileAt(ts: seq<Token>, s: State): (r: Res<Stmt>)
    requires Ready(ts, s)
    ensures StmtPost(ts, s, r) && Moves(ts, s, While, r)
    decreases |ts| - s.pos, 0
  {
    var w := ConsumeAt(ts, s, While);
    if !w.out.Ok? then Abort(w)
    else
      var c := ConditionAt(ts, w.st);
      if !c.out.Ok? then Abort(c)
      else
        var b := BracedAt(ts, c.st);
        if !b.out.Ok? then Abort(b)
        else Res(Ok(WhileStatement(c.out.value, b.out.value, w.out.value.line, w.out.value.column)), b.st)
  }

  /** `for_statement`: `for ( init cond ; update ) { block }`. */
  function ForAt(ts: seq<Token>, s: State): (r: Res<Stmt>)
    requires Ready(ts, s)
    ensures StmtPost(ts, s, r) && Moves(ts, s, For, r)
    decreases |ts| - s.pos, 0
  {
    var f := ConsumeAt(ts, s, For);
    if !f.out.Ok? then Abort(f)
    else
      var h := ForHeaderAt(ts, f.st);
      if !h.out.Ok? then Abort(h)
      else
        var b := BracedAt(ts, h.st);
        if !b.out.Ok? then Abort(b)
        else
          var (init, cond, update) := h.out.value;
          Res(Ok(ForStatement(init, cond, update, b.out.value, f.out.value.line, f.out.value.column)), b.st)
  }

  /** `( init cond ; update )` of a for-loop. */
  function ForHeaderAt(ts: seq<Token>, s: State): (r: Res<(Option<Stmt>, Option<Expr>, Option<Stmt>)>)
    requires Ready(ts, s)
    ensures StmtPost(ts, s, r) && !r.out.Diverged?
  {
    var l := ConsumeAt(ts, s, LParen);
    if !l.out.Ok? then Abort(l)
    else
      var i := ForInitAt(ts, l.st);
      if !i.out.Ok? then Abort(i)
      else
        var c := ForConditionAt(ts, i.st);
        if !c.out.Ok? then Abort(c)
        else
          var u := ForUpdateAt(ts, c.st);
          if !u.out.Ok? then Abort(u)
          else
            var r := ConsumeAt(ts, u.st, RParen);
            if !r.out.Ok? then Abort(r)
            else Res(Ok((i.out.value, c.out.value, u.out.value)), r.st)
  }

  /** The initialiser: a declaration, an expression statement, or just the `;`. */
  function ForInitAt(ts: seq<Token>, s: State): (r: Res<Option<Stmt>>)
    requires Ready(ts, s)
    ensures StmtPost(ts, s, r) && !r.out.Diverged?
  {
    var k := ts[s.pos].kind;
    if k == Semicolon then Res(Ok(None), Advanced(ts, s))
    else if k == Var then Optional(VarDeclarationAt(ts, s))
    else Optional(ExpressionStatementAt(ts, s))
  }

  /** The optional condition and the `;` after it. */
  function ForConditionAt(ts: seq<Token>, s: State): (r: Res<Option<Expr>>)
    requires Ready(ts, s)
    ensures StmtPost(ts, s, r) && !r.out.Diverged?
  {
    var c := if ts[s.pos].kind == Semicolon then Res(Ok(None), s) else Optional(ExpressionAt(ts, s));
    if !c.out.Ok? then Abort(c)
    else
      var semi := ConsumeAt(ts, c.st, Semicolon);
      if !semi.out.Ok? then Abort(semi) else Res(Ok(c.out.value), semi.st)
  }

  /** The optional update, an expression statement with its own `;`. */
  function ForUpdateAt(ts: seq<Token>, s: State): (r: Res<Option<Stmt>>)
    requires Ready(ts, s)
    ensures StmtPost(ts, s, r) && !r.out.Diverged?
  {
    if ts[s.pos].kind == RParen then Res(Ok(None), s) else Optional(ExpressionStatementAt(ts, s))
  }

  /** `function_declaration`: `func name ( params ) { block }`. */
  function FunctionAt(ts: seq<Token>, s: State): (r: Res<Stmt>)
    requires Ready(ts, s)
    ensures StmtPost(ts, s, r) && Moves(ts, s, Func, r)
    decreases |ts| - s.pos, 0
  {
    var f := ConsumeAt(ts, s, Func);
    if !f.out.Ok? then Abort(f)
    else
      var n := ConsumeAt(ts, f.st, Ident);
      if !n.out.Ok? then Abort(n)
      else
        var p := ParametersAt(ts, n.st);
        if !p.out.Ok? then Abort(p)
        else
          var b := BracedAt(ts, p.st);
          if !b.out.Ok? then Abort(b)
          else Res(Ok(FunctionDeclaration(n.out.value.lexeme, p.out.value, b.out.value, f.out.value.line, f.out.value.column)), b.st)
  }

  /** `( name, ... )`: the parameter names in order. */
  function ParametersAt(ts: seq<Token>, s: State): (r: Res<seq<string>>)
    requires Ready(ts, s)
    ensures StmtPost(ts, s, r) && !r.out.Diverged?
  {
    var l := ConsumeAt(ts, s, LParen);
    if !l.out.Ok? then Abort(l)
    else
      var ps := if ts[l.st.pos].kind == RParen then Res(Ok([]), l.st) else ParameterListAt(ts, l.st);
      if !ps.out.Ok? then Abort(ps)
      else
        var c := ConsumeAt(ts, ps.st, RParen);
        if !c.out.Ok? then Abort(c) else Res(Ok(ps.out.value), c.st)
  }

  /** One or more identifiers separated by commas. */
  function ParameterListAt(ts: seq<Token>, s: State): (r: Res<seq<string>>)
    requires Ready(ts, s)
    ensures StmtPost(ts, s, r) && !r.out.Diverged?
  {
    var p := ConsumeAt(ts, s, Ident);
    if !p.out.Ok? then Abort(p) else ParameterTailAt(ts, [p.out.value.lexeme], p.st)
  }

  function ParameterTailAt(ts: seq<Token>, names: seq<string>, s: State): (r: Res<seq<string>>)
    requires Ready(ts, s)
    ensures StmtPost(ts, s, r) && !r.out.Diverged? && (r.out.Ok? ==> names <= r.out.value)
    decreases |ts| - s.pos
  {
    if ts[s.pos].kind != Comma then Res(Ok(names), s)
    else
      var p := ConsumeAt(ts, Advanced(ts, s), Ident);
      if !p.out.Ok? then Abort(p) else ParameterTailAt(ts, names + [p.out.value.lexeme], p.st)
  }

  /** `return_statement`: `return ;` or `return expression ;`. */
  function ReturnAt(ts: seq<Token>, s: State): (r: Res<Stmt>)
    requires Ready(ts, s)
    ensures StmtPost(ts, s, r) && Moves(ts, s, Return, r) && !r.out.Diverged?
  {
    var t := ConsumeAt(ts, s, Return);
    if !t.out.Ok? then Abort(t)
    else
      var v := if ts[t.st.pos].kind == Semicolon then Res(Ok(None), t.st) else Optional(ExpressionAt(ts, t.st));
      if !v.out.Ok? then Abort(v)
      else
        var c := ConsumeAt(ts, v.st, Semicolon);
        if !c.out.Ok? then Abort(c) else Res(Ok(ReturnStatement(v.out.value, t.out.value.line, t.out.value.column)), c.st)
  }

  /** `print_statement`: `print expression ;`. */
  function PrintAt(ts: seq<Token>, s: State): (r: Res<Stmt>)
    requires Ready(ts, s)
    ensures StmtPost(ts, s, r) && Moves(ts, s, Print, r) && !r.out.Diverged?
  {
    var t := ConsumeAt(ts, s, Print);
    if !t.out.Ok? then Abort(t)
    else
      var v := ExpressionAt(ts, t.st);
      if !v.out.Ok? then Abort(v)
      else
        var c := ConsumeAt(ts, v.st, Semicolon);
        if !c.out.Ok? then Abort(c) else Res(Ok(PrintStatement(v.out.value, t.out.value.line, t.out.value.column)), c.st)
  }

  /** `expression_statement`: only `name = expression ;` is kept, as an assignment; any other
      expression followed by `;` raises without recording a message. */
  function ExpressionStatementAt(ts: seq<Token>, s: State): (r: Res<Stmt>)
    requires Ready(ts, s)
    ensures StmtPost(ts, s, r) && !r.out.Diverged?
    ensures r.out.Ok? ==> r.out.value.Assignment? && s.pos < r.st.pos && ts[r.st.pos - 1].kind == Semicolon
    ensures r.st.pos == s.pos ==> r.st.errors == s.errors
  {
    var e := ExpressionAt(ts, s);
    if !e.out.Ok? then Abort(e)
    else if e.out.value.Identifier? && ts[e.st.pos].kind == Assign then
      var v := ExpressionAt(ts, Advanced(ts, e.st));
      if !v.out.Ok? then Abort(v)
      else
        var c := ConsumeAt(ts, v.st, Semicolon);
        if !c.out.Ok? then Abort(c)
        else Res(Ok(Assignment(e.out.value.name, v.out.value, e.out.value.line, e.out.value.column)), c.st)
    else
      var c := ConsumeAt(ts, e.st, Semicolon);
      if !c.out.Ok? then Abort(c) else Res(Raised, c.st)
  }

  /** `parse`: statements until EOF, keeping those `statement` returns. `statement` never
      raises, so the `except` branch that would call `synchronize` is never taken. */
  function ParseAt(ts: seq<Token>): (r: Res<Program>)
    requires TokensOk(ts)
    ensures !r.out.Raised? && r.st.pos < |ts|
    ensures r.out.Ok? ==> ts[r.st.pos].kind == Eof
  {
    ParseFromAt(ts, [], State(0, []))
  }

  function ParseFromAt(ts: seq<Token>, acc: seq<Stmt>, s: State): (r: Res<Program>)
    requires Ready(ts, s)
    ensures !r.out.Raised? && s.pos <= r.st.pos < |ts|
    ensures r.out.Ok? ==> ts[r.st.pos].kind == Eof && acc <= r.out.value.statements
    decreases |ts| - s.pos
  {
    if ts[s.pos].kind == Eof then Res(Ok(Program(acc)), s)
    else
      var r := StatementAt(ts, s);
      if r.out.Diverged? || r.st.pos == s.pos then Res(Diverged, r.st)
      else ParseFromAt(ts, acc + Kept(r.out.value), r.st)
  }

  // ---------------------------------------------------------------- the parser object

  /** The parser: the token list, the cursor into it and the messages recorded so far. Each
      method runs one grammar routine and ends with the outcome and the state its
      specification function gives. */
  class Parser {
    const tokens: seq<Token>
    var pos: nat
    var errors: seq<string>

    ghost predicate Valid()
      reads this
    {
      Ready(tokens, State(pos, errors))
    }

    function St(): State
      reads this
    {
      State(pos, errors)
    }

    constructor(tokens: seq<Token>)
      requires TokensOk(tokens)
      ensures this.tokens == tokens && St() == State(0, []) && Valid()
    {
      this.tokens := tokens;
      pos := 0;
      errors := [];
    }

    /** `has_errors`. */
    function HasErrors(): bool
      reads this
    {
      |errors| > 0
    }

    method CurrentToken() returns (t: Token)
      requires |tokens| > 0
      ensures t == Current(tokens, pos)
    {
      t := if pos >= |tokens| then tokens[|tokens| - 1] else tokens[pos];
    }

    method PeekToken(offset: nat := 1) returns (t: Token)
      requires |tokens| > 0
      ensures t == Peek(tokens, pos, offset)
    {
      var p := pos + offset;
      t := if p >= |tokens| then tokens[|tokens| - 1] else tokens[p];
    }

    method Advance() returns (t: Token)
      requires Valid()
      modifies this
      ensures Valid() && t == old(tokens[pos]) && St() == Advanced(tokens, old(St()))
    {
      t := CurrentToken();
      if pos < |tokens| - 1 {
        pos := pos + 1;
      }
    }

    method Consume(k: TokenKind) returns (r: Outcome<Token>)
      requires Valid()
      modifies this
      ensures Valid() && r == ConsumeAt(tokens, old(St()), k).out && St() == ConsumeAt(tokens, old(St()), k).st
    {
      var t := CurrentToken();
      if t.kind != k {
        errors := errors + [ExpectedMessage(k, t)];
        return Raised;
      }
      var _ := Advance();
      r := Ok(t);
    }

    method Synchronize()
      requires Valid()
      modifies this
      ensures Valid() && St() == SynchronizeAt(tokens, old(St()))
    {
      var _ := Advance();
      while tokens[pos].kind != Eof
        invariant Valid() && errors == old(errors)
        invariant SyncFrom(tokens, pos) == SynchronizeAt(tokens, old(St())).pos
        decreases |tokens| - pos
      {
        if IsSyncKind(tokens[pos].kind) {
          return;
        }
        var _ := Advance();
      }
    }

    method Parse() returns (r: Outcome<Program>)
      requires Valid()
      modifies this
      ensures Valid() && r == ParseFromAt(tokens, [], old(St())).out && St() == ParseFromAt(tokens, [], old(St())).st
    {
      var statements := [];
      ghost var goal := ParseFromAt(tokens, statements, St());
      while tokens[pos].kind != Eof
        invariant Valid() && ParseFromAt(tokens, statements, St()) == goal
        decreases |tokens| - pos
      {
        var before := pos;
        var stmt := Statement();
        if stmt.Diverged? || pos == before {
          return Diverged;
        }
        statements := statements + Kept(stmt.value);
      }
      r := Ok(Program(statements));
    }

    method Statement() returns (r: Outcome<Option<Stmt>>)
      requires Valid()
      modifies this
      ensures Valid() && r == StatementAt(tokens, old(St())).out && St() == StatementAt(tokens, old(St())).st
      decreases |tokens| - pos, 1
    {
      var k := tokens[pos].kind;
      if k == LBrace {
        var _ := Advance();
        var b := Block();
        if b.Diverged? {
          return Diverged;
        }
        var _ := Consume(RBrace);
        return Ok(None);
      }
      var x: Outcome<Stmt>;
      if k == Var {
        x := VarDeclaration();
      } else if k == If {
        x := IfStatement();
      } else if k == While {
        x := WhileStatement();
      } else if k == For {
        x := ForStatement();
      } else if k == Func {
        x := FunctionDeclaration();
      } else if k == Return {
        x := ReturnStatement();
      } else if k == Print {
        x := PrintStatement();
      } else {
        x := ExpressionStatement();
      }
      r := Catch(x);
    }

    method Block() returns (r: Outcome<seq<Stmt>>)
      requires Valid()
      modifies this
      ensures Valid() && r == BlockAt(tokens, old(St())).out && St() == BlockAt(tokens, old(St())).st
      decreases |tokens| - pos, 3
    {
      var statements := [];
      ghost var goal := BlockFromAt(tokens, statements, St());
      while tokens[pos].kind != RBrace && tokens[pos].kind != Eof
        invariant Valid() && old(pos) <= pos && BlockFromAt(tokens, statements, St()) == goal
        decreases |tokens| - pos
      {
        var before := pos;
        var stmt := Statement();
        if stmt.Diverged? || pos == before {
          return Diverged;
        }
        statements := statements + Kept(stmt.value);
      }
      r := Ok(statements);
    }

    method Braced() returns (r: Outcome<seq<Stmt>>)
      requires Valid()
      modifies this
      ensures Valid() && r == BracedAt(tokens, old(St())).out && St() == BracedAt(tokens, old(St())).st
      decreases |tokens| - pos, 0
    {
      var l := Consume(LBrace);
      if !l.Ok? {
        return Fail(l);
      }
      var b := Block();
      if !b.Ok? {
        return Fail(b);
      }
      var c := Consume(RBrace);
      if !c.Ok? {
        return Fail(c);
      }
      r := b;
    }

    method Condition() returns (r: Outcome<Expr>)
      requires Valid()
      modifies this
      ensures Valid() && r == ConditionAt(tokens, old(St())).out && St() == ConditionAt(tokens, old(St())).st
    {
      var l := Consume(LParen);
      if !l.Ok? {
        return Fail(l);
      }
      var e := Expression();
      if !e.Ok? {
        return Fail(e);
      }
      var c := Consume(RParen);
      if !c.Ok? {
        return Fail(c);
      }
      r := e;
    }

    method VarDeclaration() returns (r: Outcome<Stmt>)
      requires Valid()
      modifies this
      ensures Valid() && r == VarDeclarationAt(tokens, old(St())).out && St() == VarDeclarationAt(tokens, old(St())).st
    {
      var v := Consume(Var);
      if !v.Ok? {
        return Fail(v);
      }
      var n := Consume(Ident);
      if !n.Ok? {
        return Fail(n);
      }
      var i := Initializer();
      if !i.Ok? {
        return Fail(i);
      }
      var c := Consume(Semicolon);
      if !c.Ok? {
        return Fail(c);
      }
      r := Ok(Stmt.VarDeclaration(n.value.lexeme, None, i.value, v.value.line, v.value.column));
    }

    method Initializer() returns (r: Outcome<Option<Expr>>)
      requires Valid()
      modifies this
      ensures Valid() && r == InitializerAt(tokens, old(St())).out && St() == InitializerAt(tokens, old(St())).st
    {
      if tokens[pos].kind != Assign {
        return Ok(None);
      }
      var _ := Advance();
      var e := Expression();
      r := Lift(e);
    }

    method IfStatement() returns (r: Outcome<Stmt>)
      requires Valid()
      modifies this
      ensures Valid() && r == IfAt(tokens, old(St())).out && St() == IfAt(tokens, old(St())).st
      decreases |tokens| - pos, 0
    {
      var i := Consume(If);
      if !i.Ok? {
        return Fail(i);
      }
      var c := Condition();
      if !c.Ok? {
        return Fail(c);
      }
      var t := Braced();
      if !t.Ok? {
        return Fail(t);
      }
      var e := ElseBranch();
      if !e.Ok? {
        return Fail(e);
      }
      r := Ok(Stmt.IfStatement(c.value, t.value, ElseOf(e.value), i.value.line, i.value.column));
    }

    method ElseBranch() returns (r: Outcome<Option<seq<Stmt>>>)
      requires Valid()
      modifies this
      ensures Valid() && r == ElseAt(tokens, old(St())).out && St() == ElseAt(tokens, old(St())).st
      decreases |tokens| - pos, 0
    {
      if tokens[pos].kind != Else {
        return Ok(None);
      }
      var _ := Advance();
      var b := Braced();
      r := Lift(b);
    }

    method WhileStatement() returns (r: Outcome<Stmt>)
      requires Valid()
      modifies this
      ensures Valid() && r == WhileAt(tokens, old(St())).out && St() == WhileAt(tokens, old(St())).st
      decreases |tokens| - pos, 0
    {
      var w := Consume(While);
      if !w.Ok? {
        return Fail(w);
      }
      var c := Condition();
      if !c.Ok? {
        return Fail(c);
      }
      var b := Braced();
      if !b.Ok? {
        return Fail(b);
      }
      r := Ok(Stmt.WhileStatement(c.value, b.value, w.value.line, w.value.column));
    }

    method ForStatement() returns (r: Outcome<Stmt>)
      requires Valid()
      modifies this
      ensures Valid() && r == ForAt(tokens, old(St())).out && St() == ForAt(tokens, old(St())).st
      decreases |tokens| - pos, 0
    {
      var f := Consume(For);
      if !f.Ok? {
        return Fail(f);
      }
      var h := ForHeader();
      if !h.Ok? {
        return Fail(h);
      }
      var b := Braced();
      if !b.Ok? {
        return Fail(b);
      }
      var (init, cond, update) := h.value;
      r := Ok(Stmt.ForStatement(init, cond, update, b.value, f.value.line, f.value.column));
    }

    method ForHeader() returns (r: Outcome<(Option<Stmt>, Option<Expr>, Option<Stmt>)>)
      requires Valid()
      modifies this
      ensures Valid() && r == ForHeaderAt(tokens, old(St())).out && St() == ForHeaderAt(tokens, old(St())).st
    {
      var l := Consume(LParen);
      if !l.Ok? {
        return Fail(l);
      }
      var i := ForInit();
      if !i.Ok? {
        return Fail(i);
      }
      var c := ForCondition();
      if !c.Ok? {
        return Fail(c);
      }
      var u := ForUpdate();
      if !u.Ok? {
        return Fail(u);
      }
      var p := Consume(RParen);
      if !p.Ok? {
        return Fail(p);
      }
      r := Ok((i.value, c.value, u.value));
    }

    method ForInit() returns (r: Outcome<Option<Stmt>>)
      requires Valid()
      modifies this
      ensures Valid() && r == ForInitAt(tokens, old(St())).out && St() == ForInitAt(tokens, old(St())).st
    {
      var k := tokens[pos].kind;
      if k == Semicolon {
        var _ := Advance();
        return Ok(None);
      }
      var x: Outcome<Stmt>;
      if k == Var {
        x := VarDeclaration();
      } else {
        x := ExpressionStatement();
      }
      r := Lift(x);
    }

    method ForCondition() returns (r: Outcome<Option<Expr>>)
      requires Valid()
      modifies this
      ensures Valid() && r == ForConditionAt(tokens, old(St())).out && St() == ForConditionAt(tokens, old(St())).st
    {
      var c: Outcome<Option<Expr>> := Ok(None);
      if tokens[pos].kind != Semicolon {
        var e := Expression();
        c := Lift(e);
        if !c.Ok? {
          return Fail(c);
        }
      }
      var semi := Consume(Semicolon);
      if !semi.Ok? {
        return Fail(semi);
      }
      r := c;
    }

    method ForUpdate() returns (r: Outcome<Option<Stmt>>)
      requires Valid()
      modifies this
      ensures Valid() && r == ForUpdateAt(tokens, old(St())).out && St() == ForUpdateAt(tokens, old(St())).st
    {
      if tokens[pos].kind == RParen {
        return Ok(None);
      }
      var x := ExpressionStatement();
      r := Lift(x);
    }

    method FunctionDeclaration() returns (r: Outcome<Stmt>)
      requires Valid()
      modifies this
      ensures Valid() && r == FunctionAt(tokens, old(St())).out && St() == FunctionAt(tokens, old(St())).st
      decreases |tokens| - pos, 0
    {
      var f := Consume(Func);
      if !f.Ok? {
        return Fail(f);
      }
      var n := Consume(Ident);
      if !n.Ok? {
        return Fail(n);
      }
      var p := Parameters();
      if !p.Ok? {
        return Fail(p);
      }
      var b := Braced();
      if !b.Ok? {
        return Fail(b);
      }
      r := Ok(Stmt.FunctionDeclaration(n.value.lexeme, p.value, b.value, f.value.line, f.value.column));
    }

    method Parameters() returns (r: Outcome<seq<string>>)
      requires Valid()
      modifies this
      ensures Valid() && r == ParametersAt(tokens, old(St())).out && St() == ParametersAt(tokens, old(St())).st
    {
      var l := Consume(LParen);
      if !l.Ok? {
        return Fail(l);
      }
      var names: seq<string> := [];
      if tokens[pos].kind != RParen {
        var ps := ParameterList();
        if !ps.Ok? {
          return Fail(ps);
        }
        names := ps.value;
      }
      var c := Consume(RParen);
      if !c.Ok? {
        return Fail(c);
      }
      r := Ok(names);
    }

    method ParameterList() returns (r: Outcome<seq<string>>)
      requires Valid()
      modifies this
      ensures Valid() && r == ParameterListAt(tokens, old(St())).out && St() == ParameterListAt(tokens, old(St())).st
    {
      var p := Consume(Ident);
      if !p.Ok? {
        return Fail(p);
      }
      var names := [p.value.lexeme];
      ghost var goal := ParameterTailAt(tokens, names, St());
      while tokens[pos].kind == Comma
        invariant Valid() && ParameterTailAt(tokens, names, St()) == goal
        decreases |tokens| - pos
      {
        var _ := Advance();
        var q := Consume(Ident);
        if !q.Ok? {
          return Fail(q);
        }
        names := names + [q.value.lexeme];
      }
      r := Ok(names);
    }

    method ReturnStatement() returns (r: Outcome<Stmt>)
      requires Valid()
      modifies this
      ensures Valid() && r == ReturnAt(tokens, old(St())).out && St() == ReturnAt(tokens, old(St())).st
    {
      var t := Consume(Return);
      if !t.Ok? {
        return Fail(t);
      }
      var v: Outcome<Option<Expr>> := Ok(None);
      if tokens[pos].kind != Semicolon {
        var e := Expression();
        v := Lift(e);
        if !v.Ok? {
          return Fail(v);
        }
      }
      var c := Consume(Semicolon);
      if !c.Ok? {
        return Fail(c);
      }
      r := Ok(Stmt.ReturnStatement(v.value, t.value.line, t.value.column));
    }

    method PrintStatement() returns (r: Outcome<Stmt>)
      requires Valid()
      modifies this
      ensures Valid() && r == PrintAt(tokens, old(St())).out && St() == PrintAt(tokens, old(St())).st
    {
      var t := Consume(Print);
      if !t.Ok? {
        return Fail(t);
      }
      var v := Expression();
      if !v.Ok? {
        return Fail(v);
      }
      var c := Consume(Semicolon);
      if !c.Ok? {
        return Fail(c);
      }
      r := Ok(Stmt.PrintStatement(v.value, t.value.line, t.value.column));
    }

    method ExpressionStatement() returns (r: Outcome<Stmt>)
      requires Valid()
      modifies this
      ensures Valid() && r == ExpressionStatementAt(tokens, old(St())).out
      ensures St() == ExpressionStatementAt(tokens, old(St())).st
    {
      var e := Expression();
      if !e.Ok? {
        return Fail(e);
      }
      if e.value.Identifier? && tokens[pos].kind == Assign {
        var _ := Advance();
        var v := Expression();
        if !v.Ok? {
          return Fail(v);
        }
        var c := Consume(Semicolon);
        if !c.Ok? {
          return Fail(c);
        }
        return Ok(Assignment(e.value.name, v.value, e.value.line, e.value.column));
      }
      var c := Consume(Semicolon);
      if !c.Ok? {
        return Fail(c);
      }
      r := Raised;
    }

    method Expression() returns (r: Outcome<Expr>)
      requires Valid()
      modifies this
      ensures Valid() && r == ExpressionAt(tokens, old(St())).out && St() == ExpressionAt(tokens, old(St())).st
      decreases |tokens| - pos, 15
    {
      r := Binary(0);
    }

    /** One binary level; `logical_or` is level 0 and `multiplicative` level 5. */
    method Binary(lvl: nat) returns (r: Outcome<Expr>)
      requires Valid() && lvl <= Tightest
      modifies this
      ensures Valid() && r == BinaryAt(tokens, lvl, old(St())).out && St() == BinaryAt(tokens, lvl, old(St())).st
      decreases |tokens| - pos, 4 + 2 * (Tightest - lvl)
    {
      var left := Operand(lvl);
      if !left.Ok? {
        return Fail(left);
      }
      var expr := left.value;
      ghost var goal := BinaryTailAt(tokens, lvl, expr, St());
      while IsOperatorAt(lvl, tokens[pos].kind)
        invariant Valid() && old(pos) < pos && NoArrayAccess(expr)
        invariant BinaryTailAt(tokens, lvl, expr, St()) == goal
        decreases |tokens| - pos
      {
        var op := Advance();
        var right := Operand(lvl);
        if !right.Ok? {
          return Fail(right);
        }
        expr := BinaryOp(expr, op.lexeme, right.value, op.line, op.column);
      }
      r := Ok(expr);
    }

    method Operand(lvl: nat) returns (r: Outcome<Expr>)
      requires Valid() && lvl <= Tightest
      modifies this
      ensures Valid() && r == OperandAt(tokens, lvl, old(St())).out && St() == OperandAt(tokens, lvl, old(St())).st
      decreases |tokens| - pos, 3 + 2 * (Tightest - lvl)
    {
      if lvl == Tightest {
        r := Unary();
      } else {
        r := Binary(lvl + 1);
      }
    }

    method Unary() returns (r: Outcome<Expr>)
      requires Valid()
      modifies this
      ensures Valid() && r == UnaryAt(tokens, old(St())).out && St() == UnaryAt(tokens, old(St())).st
      decreases |tokens| - pos, 2
    {
      var k := tokens[pos].kind;
      if k == Not || k == Minus {
        var op := Advance();
        var e := Unary();
        if !e.Ok? {
          return Fail(e);
        }
        return Ok(UnaryOp(op.lexeme, e.value, op.line, op.column));
      }
      r := Call();
    }

    method Call() returns (r: Outcome<Expr>)
      requires Valid()
      modifies this
      ensures Valid() && r == CallAt(tokens, old(St())).out && St() == CallAt(tokens, old(St())).st
      decreases |tokens| - pos, 1
    {
      var p := Primary();
      if !p.Ok? {
        return Fail(p);
      }
      var expr := p.value;
      ghost var goal := CallTailAt(tokens, expr, St());
      while tokens[pos].kind == LParen
        invariant Valid() && old(pos) < pos && NoArrayAccess(expr)
        invariant CallTailAt(tokens, expr, St()) == goal
        decreases |tokens| - pos
      {
        var _ := Advance();
        var args := Arguments();
        if !args.Ok? {
          return Fail(args);
        }
        var c := Consume(RParen);
        if !c.Ok? {
          return Fail(c);
        }
        if !expr.Identifier? {
          return Raised;
        }
        expr := FunctionCall(expr.name, args.value, expr.line, expr.column);
      }
      r := Ok(expr);
    }

    method Arguments() returns (r: Outcome<seq<Expr>>)
      requires Valid()
      modifies this
      ensures Valid() && r == ArgumentsAt(tokens, old(St())).out && St() == ArgumentsAt(tokens, old(St())).st
      decreases |tokens| - pos, 16
    {
      if tokens[pos].kind == RParen {
        return Ok([]);
      }
      var e := Expression();
      if !e.Ok? {
        return Fail(e);
      }
      var args := [e.value];
      ghost var goal := ArgumentsTailAt(tokens, args, St());
      while tokens[pos].kind == Comma
        invariant Valid() && old(pos) < pos && AllNoArrayAccess(args)
        invariant ArgumentsTailAt(tokens, args, St()) == goal
        decreases |tokens| - pos
      {
        var _ := Advance();
        var next := Expression();
        if !next.Ok? {
          return Fail(next);
        }
        args := args + [next.value];
      }
      r := Ok(args);
    }

    method Primary() returns (r: Outcome<Expr>)
      requires Valid()
      modifies this
      ensures Valid() && r == PrimaryAt(tokens, old(St())).out && St() == PrimaryAt(tokens, old(St())).st
      decreases |tokens| - pos, 0
    {
      var t := tokens[pos];
      if t.kind == LParen {
        var _ := Advance();
        var e := Expression();
        if !e.Ok? {
          return Fail(e);
        }
        var c := Consume(RParen);
        if !c.Ok? {
          return Fail(c);
        }
        return e;
      }
      if t.kind == IntLit {
        r := Ok(IntLiteral(t.literal, t.line, t.column));
      } else if t.kind == FloatLit {
        r := Ok(FloatLiteral(t.literal, t.line, t.column));
      } else if t.kind == StringLit {
        r := Ok(StringLiteral(t.literal, t.line, t.column));
      } else if t.kind == TrueLit || t.kind == FalseLit {
        r := Ok(BoolLiteral(t.literal, t.line, t.column));
      } else if t.kind == Ident {
        r := Ok(Identifier(t.lexeme, t.line, t.column));
      } else {
        return Raised;
      }
      var _ := Advance();
    }
  }

  /** Parses a token list with a fresh parser. */
  method ParseTokens(ts: seq<Token>) returns (r: Outcome<Program>, errors: seq<string>)
    requires TokensOk(ts)
    ensures r == ParseAt(ts).out && errors == ParseAt(ts).st.errors
  {
    var p := new Parser(ts);
    r := p.Parse();
    errors := p.errors;
  }
}
