/** Three-address code: the instruction record with its textual rendering, and the generator
    that lowers a syntax tree into a flat list of instructions.

    The lowering is specified by functions from the generator's two counters to the code they
    emit and the counters afterwards; the `TACGenerator` class, which appends to its code list
    and bumps its counters in place, is proved to follow them. */
module ThreeAddress {
  import opened Wrappers
  import opened Strings
  import opened TokenTypes
  import opened Ast

  // ---------------------------------------------------------------------------------------
  // Instructions

  /** An operation and up to three operands; an absent operand is Python's None. */
  datatype Tac = Tac(op: string, arg1: Option<string>, arg2: Option<string>, result: Option<string>)

  /** Python's truth value of an optional string: present and not empty. */
  predicate Truthy(o: Option<string>) {
    o.Some? && o.value != ""
  }

  /** How an optional string appears inside an f-string. */
  function Show(o: Option<string>): string {
    if o.None? then "None" else o.value
  }

  /** `TAC.__repr__`: the result and " = " first when there is a result, then the operands
      around or after the operation. A field that is absent or empty counts as missing. */
  function Repr(i: Tac): (r: string)
    ensures Truthy(i.result) ==> i.result.value <= r
    ensures !Truthy(i.result) ==> i.op <= r
    ensures !Truthy(i.result) && !Truthy(i.arg1) && !Truthy(i.arg2) ==> r == i.op
  {
    if Truthy(i.result) then
      if Truthy(i.arg2) then i.result.value + " = " + Show(i.arg1) + " " + i.op + " " + i.arg2.value
      else i.result.value + " = " + i.op + " " + Show(i.arg1)
    else if Truthy(i.arg2) then i.op + " " + Show(i.arg1) + " " + i.arg2.value
    else if Truthy(i.arg1) then i.op + " " + i.arg1.value
    else i.op
  }

  function Assign(value: string, name: string): Tac { Tac("ASSIGN", Some(value), None, Some(name)) }
  function IfFalse(cond: string, target: string): Tac { Tac("IF_FALSE", Some(cond), Some(target), None) }
  function Goto(target: string): Tac { Tac("GOTO", Some(target), None, None) }
  function Label(name: string): Tac { Tac("LABEL", Some(name), None, None) }
  function Unit(op: string, arg: string): Tac { Tac(op, Some(arg), None, None) }
  const Return := Tac("RETURN", None, None, None)

  // ---------------------------------------------------------------------------------------
  // Generated names

  /** The name a counter gives once it has been bumped to `n`: "t" or "L" then the number. */
  function Counted(prefix: char, n: nat): string {
    [prefix] + NatToString(n)
  }

  function TempName(n: nat): string { Counted('t', n) }
  function LabelName(n: nat): string { Counted('L', n) }

  /** Two counter values give the same name only if they are the same value of the same
      counter: temporaries and labels never collide, and neither is ever reused. */
  lemma CountedInjective(p: char, m: nat, q: char, n: nat)
    requires Counted(p, m) == Counted(q, n)
    ensures p == q && m == n
  {
    assert Counted(p, m)[0] == p && Counted(q, n)[0] == q;
    assert Counted(p, m)[1..] == NatToString(m);
    assert Counted(q, n)[1..] == NatToString(n);
    NatToStringInjective(m, n);
  }

  /** The names of counter values lo+1, …, hi. */
  function Names(prefix: char, lo: nat, hi: nat): multiset<Option<string>>
    decreases hi
  {
    if hi <= lo then multiset{} else Names(prefix, lo, hi - 1) + multiset{Some(Counted(prefix, hi))}
  }

  lemma NamesLast(prefix: char, lo: nat, hi: nat)
    requires lo < hi
    ensures Names(prefix, lo, hi) == Names(prefix, lo, hi - 1) + multiset{Some(Counted(prefix, hi))}
  {
  }

  lemma NamesEmpty(prefix: char, k: nat)
    ensures Names(prefix, k, k) == multiset{}
  {
  }

  lemma {:induction false} NamesSplitStep(prefix: char, a: nat, b: nat, c: nat)
    requires a <= b < c
    ensures Names(prefix, a, c) == Names(prefix, a, b) + Names(prefix, b, c)
    decreases c, 0
  {
    var x := multiset{Some(Counted(prefix, c))};
    calc {
      Names(prefix, a, c);
    == { NamesLast(prefix, a, c); }
      Names(prefix, a, c - 1) + x;
    == { NamesSplit(prefix, a, b, c - 1); }
      (Names(prefix, a, b) + Names(prefix, b, c - 1)) + x;
    == { UnionAssoc(Names(prefix, a, b), Names(prefix, b, c - 1), x); }
      Names(prefix, a, b) + (Names(prefix, b, c - 1) + x);
    == { NamesLast(prefix, b, c); }
      Names(prefix, a, b) + Names(prefix, b, c);
    }
  }

  lemma {:induction false} NamesSplit(prefix: char, a: nat, b: nat, c: nat)
    requires a <= b <= c
    ensures Names(prefix, a, c) == Names(prefix, a, b) + Names(prefix, b, c)
    decreases c, 1
  {
    if c > b {
      NamesSplitStep(prefix, a, b, c);
    } else {
      NamesEmpty(prefix, b);
      assert Names(prefix, a, b) + multiset{} == Names(prefix, a, b);
    }
  }

  lemma UnionAssoc<T>(a: multiset<T>, b: multiset<T>, c: multiset<T>)
    ensures a + b + c == a + (b + c)
  {
  }

  /** A counter value outside lo+1, …, hi has its name outside the range. */
  lemma {:induction false} OutsideNames(prefix: char, lo: nat, hi: nat, k: nat)
    requires !(lo < k <= hi)
    ensures Some(Counted(prefix, k)) !in Names(prefix, lo, hi)
    decreases hi
  {
    if hi > lo {
      OutsideNames(prefix, lo, hi - 1, k);
      if Counted(prefix, hi) == Counted(prefix, k) {
        CountedInjective(prefix, hi, prefix, k);
      }
    }
  }

  /** Every name of the range occurs in it once. */
  lemma {:induction false} NamesOnce(prefix: char, lo: nat, hi: nat, k: nat)
    requires lo < k <= hi
    ensures Names(prefix, lo, hi)[Some(Counted(prefix, k))] == 1
    decreases hi
  {
    if k == hi {
      OutsideNames(prefix, lo, hi - 1, k);
    } else {
      NamesOnce(prefix, lo, hi - 1, k);
      if Counted(prefix, hi) == Counted(prefix, k) {
        CountedInjective(prefix, hi, prefix, k);
      }
    }
  }

  // ---------------------------------------------------------------------------------------
  // Lowering, as functions of the counters

  datatype Counters = Counters(temps: nat, labels: nat)

  /** The instructions a statement emits and the counters after it. */
  datatype Lowered = Lowered(code: seq<Tac>, next: Counters)

  /** The same for an expression, with the operand that holds its value. */
  datatype LoweredExpr = LoweredExpr(value: string, code: seq<Tac>, next: Counters)

  /** Counters only grow. */
  predicate Advances(c: Counters, d: Counters) {
    c.temps <= d.temps && c.labels <= d.labels
  }

  /** `visit_expression`: names and literals emit nothing and stand for themselves; an
      array access is not lowered and stands for "unknown". */
  function LowerExpr(c: Counters, e: Expr): (r: LoweredExpr)
    ensures Advances(c, r.next) && r.next.labels == c.labels
    decreases e, 1
  {
    match e
    case BinaryOp(_, _, _, _, _) => LowerBinary(c, e)
    case UnaryOp(_, _, _, _) => LowerUnary(c, e)
    case Identifier(name, _, _) => LoweredExpr(name, [], c)
    case IntLiteral(v, _, _) => LoweredExpr(Str(v), [], c)
    case FloatLiteral(v, _, _) => LoweredExpr(Str(v), [], c)
    case StringLiteral(v, _, _) => LoweredExpr("\"" + Str(v) + "\"", [], c)
    case BoolLiteral(v, _, _) => LoweredExpr(Lower(Str(v)), [], c)
    case FunctionCall(_, _, _, _) => LowerCall(c, e)
    case ArrayAccess(_, _, _, _) => LoweredExpr("unknown", [], c)
  }

  /** `visit_binary_op`: both operands, left first, then the operation into a new temporary. */
  function LowerBinary(c: Counters, e: Expr): (r: LoweredExpr)
    requires e.BinaryOp?
    ensures Advances(c, r.next) && r.next.labels == c.labels
    decreases e, 0
  {
    var a := LowerExpr(c, e.left);
    var b := LowerExpr(a.next, e.right);
    var t := TempName(b.next.temps + 1);
    LoweredExpr(t, a.code + b.code + [Tac(e.operator, Some(a.value), Some(b.value), Some(t))],
                b.next.(temps := b.next.temps + 1))
  }

  /** `visit_unary_op`: the operand, then the operation into a new temporary. */
  function LowerUnary(c: Counters, e: Expr): (r: LoweredExpr)
    requires e.UnaryOp?
    ensures Advances(c, r.next) && r.next.labels == c.labels
    decreases e, 0
  {
    var a := LowerExpr(c, e.operand);
    var t := TempName(a.next.temps + 1);
    LoweredExpr(t, a.code + [Tac(e.operator, Some(a.value), None, Some(t))], a.next.(temps := a.next.temps + 1))
  }

  /** `visit_function_call`: the temporary is taken first, then each argument is lowered and
      followed by ARG, and CALL comes last. The arguments are not checked against anything. */
  function LowerCall(c: Counters, e: Expr): (r: LoweredExpr)
    requires e.FunctionCall?
    ensures Advances(c, r.next) && r.next.labels == c.labels
    decreases e, 0
  {
    var t := TempName(c.temps + 1);
    var a := LowerArgs(c.(temps := c.temps + 1), e.arguments, |e.arguments|);
    LoweredExpr(t, a.code + [Tac("CALL", Some(e.name), None, Some(t))], a.next)
  }

  /** The first `n` call arguments, each followed by its ARG. */
  function LowerArgs(c: Counters, args: seq<Expr>, n: nat): (r: Lowered)
    requires n <= |args|
    ensures Advances(c, r.next) && r.next.labels == c.labels
    decreases args, n
  {
    if n == 0 then Lowered([], c)
    else
      var a := LowerArgs(c, args, n - 1);
      var b := LowerExpr(a.next, args[n - 1]);
      Lowered(a.code + b.code + [Unit("ARG", b.value)], b.next)
  }

  /** `visit_statement`. */
  function LowerStmt(c: Counters, s: Stmt): (r: Lowered)
    ensures Advances(c, r.next)
    decreases s, 2
  {
    match s
    case VarDeclaration(name, _, init, _, _) =>
      if init.None? then Lowered([], c)
      else
        var e := LowerExpr(c, init.value);
        Lowered(e.code + [Assign(e.value, name)], e.next)
    case Assignment(target, value, _, _) =>
      var e := LowerExpr(c, value);
      Lowered(e.code + [Assign(e.value, target)], e.next)
    case IfStatement(_, _, _, _, _) => LowerIf(c, s)
    case WhileStatement(_, _, _, _) => LowerWhile(c, s)
    case ForStatement(_, _, _, _, _, _) => LowerFor(c, s)
    case FunctionDeclaration(_, _, _, _, _) => LowerFunction(c, s)
    case ReturnStatement(value, _, _) =>
      if value.None? then Lowered([Return], c)
      else
        var e := LowerExpr(c, value.value);
        Lowered(e.code + [Unit("RETURN", e.value)], e.next)
    case PrintStatement(value, _, _) =>
      var e := LowerExpr(c, value);
      Lowered(e.code + [Unit("PRINT", e.value)], e.next)
  }

  /** The first `n` statements of a list, one after the other. */
  function LowerStmts(c: Counters, ss: seq<Stmt>, n: nat): (r: Lowered)
    requires n <= |ss|
    ensures Advances(c, r.next)
    decreases ss, n
  {
    if n == 0 then Lowered([], c)
    else
      var a := LowerStmts(c, ss, n - 1);
      var b := LowerStmt(a.next, ss[n - 1]);
      Lowered(a.code + b.code, b.next)
  }

  /** `visit_if_statement`: the condition, then two labels taken, IF_FALSE to the first, the
      then-branch, GOTO the second, LABEL the first, the else-branch, LABEL the second. The jump
      and both labels are emitted even when there is no else-branch. */
  function LowerIf(c: Counters, s: Stmt): (r: Lowered)
    requires s.IfStatement?
    ensures Advances(c, r.next)
    decreases s, 1
  {
    var e := LowerExpr(c, s.condition);
    var falseLabel, endLabel := LabelName(e.next.labels + 1), LabelName(e.next.labels + 2);
    var t := LowerStmts(e.next.(labels := e.next.labels + 2), s.thenBody, |s.thenBody|);
    var f := LowerElse(t.next, s);
    Lowered(e.code + [IfFalse(e.value, falseLabel)] + t.code + [Goto(endLabel), Label(falseLabel)]
            + f.code + [Label(endLabel)], f.next)
  }

  /** The else-branch of an `if`, nothing without one. */
  function LowerElse(c: Counters, s: Stmt): (r: Lowered)
    requires s.IfStatement?
    ensures Advances(c, r.next)
    decreases s, 0
  {
    if s.elseBody.ElseStatements? then LowerStmts(c, s.elseBody.body, |s.elseBody.body|)
    else Lowered([], c)
  }

  /** `visit_while_statement`: two labels taken first, LABEL the start, the condition, IF_FALSE
      to the end, the body, GOTO the start, LABEL the end. */
  function LowerWhile(c: Counters, s: Stmt): (r: Lowered)
    requires s.WhileStatement?
    ensures Advances(c, r.next)
    decreases s, 1
  {
    var loopLabel, endLabel := LabelName(c.labels + 1), LabelName(c.labels + 2);
    var e := LowerExpr(c.(labels := c.labels + 2), s.condition);
    var b := LowerStmts(e.next, s.body, |s.body|);
    Lowered([Label(loopLabel)] + e.code + [IfFalse(e.value, endLabel)] + b.code
            + [Goto(loopLabel), Label(endLabel)], b.next)
  }

  /** The test of a `for` loop: the condition and its IF_FALSE, or nothing without one. */
  function LowerForTest(c: Counters, s: Stmt, endLabel: string): (r: Lowered)
    requires s.ForStatement?
    ensures Advances(c, r.next) && r.next.labels == c.labels
    decreases s, 0
  {
    if s.cond.None? then Lowered([], c)
    else
      var e := LowerExpr(c, s.cond.value);
      Lowered(e.code + [IfFalse(e.value, endLabel)], e.next)
  }

  /** The initializer of a `for` loop, nothing without one. */
  function LowerInit(c: Counters, s: Stmt): (r: Lowered)
    requires s.ForStatement?
    ensures Advances(c, r.next)
    decreases s, 0
  {
    if s.init.Some? then LowerStmt(c, s.init.value) else Lowered([], c)
  }

  /** The update of a `for` loop, nothing without one. */
  function LowerUpdate(c: Counters, s: Stmt): (r: Lowered)
    requires s.ForStatement?
    ensures Advances(c, r.next)
    decreases s, 0
  {
    if s.update.Some? then LowerStmt(c, s.update.value) else Lowered([], c)
  }

  /** `visit_for_statement`: the initializer comes before the two labels are taken; then the
      loop of `while`, with the update after the body. */
  function LowerFor(c: Counters, s: Stmt): (r: Lowered)
    requires s.ForStatement?
    ensures Advances(c, r.next)
    decreases s, 1
  {
    var i := LowerInit(c, s);
    var loopLabel, endLabel := LabelName(i.next.labels + 1), LabelName(i.next.labels + 2);
    var e := LowerForTest(i.next.(labels := i.next.labels + 2), s, endLabel);
    var b := LowerStmts(e.next, s.body, |s.body|);
    var u := LowerUpdate(b.next, s);
    Lowered(i.code + [Label(loopLabel)] + e.code + b.code + u.code + [Goto(loopLabel), Label(endLabel)], u.next)
  }

  /** One PARAM for each of the first `n` parameters. */
  function ParamCode(params: seq<string>, n: nat): (r: seq<Tac>)
    requires n <= |params|
    ensures |r| == n && forall i :: 0 <= i < n ==> r[i] == Unit("PARAM", params[i])
  {
    if n == 0 then [] else ParamCode(params, n - 1) + [Unit("PARAM", params[n - 1])]
  }

  /** `visit_function_declaration`: FUNCTION, the parameters, the body inline, and a RETURN
      whether or not the body returned. */
  function LowerFunction(c: Counters, s: Stmt): (r: Lowered)
    requires s.FunctionDeclaration?
    ensures Advances(c, r.next)
    decreases s, 1
  {
    var b := LowerStmts(c, s.body, |s.body|);
    Lowered([Unit("FUNCTION", s.name)] + ParamCode(s.parameters, |s.parameters|) + b.code + [Return], b.next)
  }

  /** `generate` on a fresh generator. */
  function Generate(p: Program): Lowered {
    LowerStmts(Counters(0, 0), p.statements, |p.statements|)
  }

  // ---------------------------------------------------------------------------------------
  // Labels, jumps and temporaries in the emitted code

  /** A LABEL without a result defines the label named by its first operand. Operations of
      the program always carry a result, so an operator spelled "LABEL" is never taken for
      one. */
  predicate IsLabel(i: Tac) {
    i.op == "LABEL" && i.result.None?
  }

  /** A GOTO (target in the first operand) or IF_FALSE (target in the second) without a
      result. */
  predicate IsJump(i: Tac) {
    (i.op == "GOTO" || i.op == "IF_FALSE") && i.result.None?
  }

  function JumpTarget(i: Tac): Option<string> {
    if i.op == "GOTO" then i.arg1 else i.arg2
  }

  /** The labels the code defines, with how often each is defined. */
  function LabelsOf(code: seq<Tac>): multiset<Option<string>> {
    if code == [] then multiset{}
    else (if IsLabel(code[0]) then multiset{code[0].arg1} else multiset{}) + LabelsOf(code[1..])
  }

  /** The targets of the code's jumps. */
  function TargetsOf(code: seq<Tac>): multiset<Option<string>> {
    if code == [] then multiset{}
    else (if IsJump(code[0]) then multiset{JumpTarget(code[0])} else multiset{}) + TargetsOf(code[1..])
  }

  /** The results the code assigns, with how often each is assigned. */
  function ResultsOf(code: seq<Tac>): multiset<Option<string>> {
    if code == [] then multiset{}
    else (if code[0].result.Some? then multiset{code[0].result} else multiset{}) + ResultsOf(code[1..])
  }

  lemma {:induction false} OfConcat(a: seq<Tac>, b: seq<Tac>)
    ensures LabelsOf(a + b) == LabelsOf(a) + LabelsOf(b)
    ensures TargetsOf(a + b) == TargetsOf(a) + TargetsOf(b)
    ensures ResultsOf(a + b) == ResultsOf(a) + ResultsOf(b)
    decreases |a|
  {
    if a == [] {
      assert a + b == b;
    } else {
      assert (a + b)[0] == a[0];
      assert (a + b)[1..] == a[1..] + b;
      OfConcat(a[1..], b);
    }
  }

  lemma OfOne(i: Tac)
    ensures LabelsOf([i]) == if IsLabel(i) then multiset{i.arg1} else multiset{}
    ensures TargetsOf([i]) == if IsJump(i) then multiset{JumpTarget(i)} else multiset{}
    ensures ResultsOf([i]) == if i.result.Some? then multiset{i.result} else multiset{}
  {
    assert [i][1..] == [];
  }

  /** The code neither defines a label nor jumps. */
  predicate NoJumps(code: seq<Tac>) {
    LabelsOf(code) == multiset{} && TargetsOf(code) == multiset{}
  }

  lemma NoJumpsAppend(x: seq<Tac>, y: seq<Tac>, i: Tac)
    requires NoJumps(x) && NoJumps(y) && !IsLabel(i) && !IsJump(i)
    ensures NoJumps(x + y + [i]) && NoJumps(x + [i])
  {
    OfConcat(x, y);
    OfConcat(x + y, [i]);
    OfConcat(x, [i]);
    OfOne(i);
  }

  /** Expression code neither defines a label nor jumps. */
  lemma {:induction false} ExprNoLabels(c: Counters, e: Expr)
    ensures NoJumps(LowerExpr(c, e).code)
    decreases e, 1
  {
    match e
    case BinaryOp(left, _, right, _, _) =>
      var a := LowerExpr(c, left);
      var b := LowerExpr(a.next, right);
      var t := TempName(b.next.temps + 1);
      var i := Tac(e.operator, Some(a.value), Some(b.value), Some(t));
      assert LowerExpr(c, e) == LoweredExpr(t, a.code + b.code + [i], b.next.(temps := b.next.temps + 1));
      ExprNoLabels(c, left);
      ExprNoLabels(a.next, right);
      NoJumpsAppend(a.code, b.code, i);
    case UnaryOp(_, operand, _, _) =>
      var a := LowerExpr(c, operand);
      var t := TempName(a.next.temps + 1);
      var i := Tac(e.operator, Some(a.value), None, Some(t));
      assert LowerExpr(c, e) == LoweredExpr(t, a.code + [i], a.next.(temps := a.next.temps + 1));
      ExprNoLabels(c, operand);
      NoJumpsAppend(a.code, [], i);
    case FunctionCall(name, args, _, _) =>
      var a := LowerArgs(c.(temps := c.temps + 1), args, |args|);
      var t := TempName(c.temps + 1);
      var i := Tac("CALL", Some(name), None, Some(t));
      assert LowerExpr(c, e) == LoweredExpr(t, a.code + [i], a.next);
      ArgsNoLabels(c.(temps := c.temps + 1), args, |args|);
      NoJumpsAppend(a.code, [], i);
    case _ =>
      assert LowerExpr(c, e).code == [];
  }

  lemma {:induction false} ArgsNoLabels(c: Counters, args: seq<Expr>, n: nat)
    requires n <= |args|
    ensures NoJumps(LowerArgs(c, args, n).code)
    decreases args, n
  {
    if n > 0 {
      var a := LowerArgs(c, args, n - 1);
      var b := LowerExpr(a.next, args[n - 1]);
      ArgsNoLabels(c, args, n - 1);
      ExprNoLabels(a.next, args[n - 1]);
      NoJumpsAppend(a.code, b.code, Unit("ARG", b.value));
    }
  }

  /** The code assigns the temporaries lo+1, …, hi, each once, and nothing else. */
  predicate Assigns(code: seq<Tac>, lo: nat, hi: nat) {
    ResultsOf(code) == Names('t', lo, hi)
  }

  /** Two pieces assigning consecutive temporaries, then an instruction assigning the next
      one or nothing. */
  lemma AssignsAppend(x: seq<Tac>, y: seq<Tac>, i: Tac, lo: nat, mid: nat, hi: nat)
    requires lo <= mid <= hi && Assigns(x, lo, mid) && Assigns(y, mid, hi)
    requires i.result.None? || i.result == Some(TempName(hi + 1))
    ensures Assigns(x + y + [i], lo, if i.result.None? then hi else hi + 1)
  {
    OfConcat(x, y);
    OfConcat(x + y, [i]);
    OfOne(i);
    NamesSplit('t', lo, mid, hi);
  }

  /** A call: the temporary taken first is assigned by the last instruction. */
  lemma AssignsFirstLast(x: seq<Tac>, i: Tac, lo: nat, hi: nat)
    requires lo + 1 <= hi && Assigns(x, lo + 1, hi) && i.result == Some(TempName(lo + 1))
    ensures Assigns(x + [i], lo, hi)
  {
    OfConcat(x, [i]);
    OfOne(i);
    NamesSplit('t', lo, lo + 1, hi);
  }

  /** Expression code assigns exactly the temporaries it takes, each once; an operation's
      value is one of them, and a name or literal emits nothing and takes nothing. */
  lemma {:induction false} ExprTemps(c: Counters, e: Expr)
    ensures Assigns(LowerExpr(c, e).code, c.temps, LowerExpr(c, e).next.temps)
    ensures e.BinaryOp? || e.UnaryOp? || e.FunctionCall? ==>
              Some(LowerExpr(c, e).value) in Names('t', c.temps, LowerExpr(c, e).next.temps)
    ensures !(e.BinaryOp? || e.UnaryOp? || e.FunctionCall?) ==> LowerExpr(c, e).code == [] && LowerExpr(c, e).next == c
    decreases e, 1
  {
    match e
    case BinaryOp(left, _, right, _, _) =>
      var a := LowerExpr(c, left);
      ExprTemps(c, left);
      ExprTemps(a.next, right);
      BinaryTemps(c, e);
    case UnaryOp(_, operand, _, _) =>
      ExprTemps(c, operand);
      UnaryTemps(c, e);
    case FunctionCall(_, args, _, _) =>
      ArgsTemps(c.(temps := c.temps + 1), args, |args|);
      CallTemps(c, e);
    case _ =>
      LeafTemps(c, e);
  }

  /** A name or literal emits nothing and takes nothing. */
  lemma LeafTemps(c: Counters, e: Expr)
    requires !(e.BinaryOp? || e.UnaryOp? || e.FunctionCall?)
    ensures LowerExpr(c, e).code == [] && LowerExpr(c, e).next == c
    ensures Assigns(LowerExpr(c, e).code, c.temps, LowerExpr(c, e).next.temps)
  {
    NamesEmpty('t', c.temps);
    assert ResultsOf([]) == multiset{};
  }

  lemma BinaryTemps(c: Counters, e: Expr)
    requires e.BinaryOp?
    requires var a := LowerExpr(c, e.left);
             Assigns(a.code, c.temps, a.next.temps)
             && Assigns(LowerExpr(a.next, e.right).code, a.next.temps, LowerExpr(a.next, e.right).next.temps)
    ensures Assigns(LowerExpr(c, e).code, c.temps, LowerExpr(c, e).next.temps)
    ensures Some(LowerExpr(c, e).value) in Names('t', c.temps, LowerExpr(c, e).next.temps)
  {
    assert LowerExpr(c, e) == LowerBinary(c, e);
    var a := LowerExpr(c, e.left);
    var b := LowerExpr(a.next, e.right);
    var t := TempName(b.next.temps + 1);
    var i := Tac(e.operator, Some(a.value), Some(b.value), Some(t));
    assert LowerBinary(c, e) == LoweredExpr(t, a.code + b.code + [i], b.next.(temps := b.next.temps + 1));
    AssignsAppend(a.code, b.code, i, c.temps, a.next.temps, b.next.temps);
    NamesLast('t', c.temps, b.next.temps + 1);
  }

  lemma UnaryTemps(c: Counters, e: Expr)
    requires e.UnaryOp?
    requires Assigns(LowerExpr(c, e.operand).code, c.temps, LowerExpr(c, e.operand).next.temps)
    ensures Assigns(LowerExpr(c, e).code, c.temps, LowerExpr(c, e).next.temps)
    ensures Some(LowerExpr(c, e).value) in Names('t', c.temps, LowerExpr(c, e).next.temps)
  {
    assert LowerExpr(c, e) == LowerUnary(c, e);
    var a := LowerExpr(c, e.operand);
    var t := TempName(a.next.temps + 1);
    var i := Tac(e.operator, Some(a.value), None, Some(t));
    assert LowerUnary(c, e) == LoweredExpr(t, a.code + [i], a.next.(temps := a.next.temps + 1));
    assert a.code + [] == a.code;
    AssignsAppend(a.code, [], i, c.temps, a.next.temps, a.next.temps);
    NamesLast('t', c.temps, a.next.temps + 1);
  }

  lemma CallTemps(c: Counters, e: Expr)
    requires e.FunctionCall?
    requires var a := LowerArgs(c.(temps := c.temps + 1), e.arguments, |e.arguments|);
             Assigns(a.code, c.temps + 1, a.next.temps)
    ensures Assigns(LowerExpr(c, e).code, c.temps, LowerExpr(c, e).next.temps)
    ensures Some(LowerExpr(c, e).value) in Names('t', c.temps, LowerExpr(c, e).next.temps)
  {
    assert LowerExpr(c, e) == LowerCall(c, e);
    var a := LowerArgs(c.(temps := c.temps + 1), e.arguments, |e.arguments|);
    var t := TempName(c.temps + 1);
    var i := Tac("CALL", Some(e.name), None, Some(t));
    assert LowerCall(c, e) == LoweredExpr(t, a.code + [i], a.next);
    AssignsFirstLast(a.code, i, c.temps, a.next.temps);
    NamesSplit('t', c.temps, c.temps + 1, a.next.temps);
    NamesLast('t', c.temps, c.temps + 1);
  }

  lemma {:induction false} ArgsTemps(c: Counters, args: seq<Expr>, n: nat)
    requires n <= |args|
    ensures Assigns(LowerArgs(c, args, n).code, c.temps, LowerArgs(c, args, n).next.temps)
    decreases args, n
  {
    if n > 0 {
      var a := LowerArgs(c, args, n - 1);
      var b := LowerExpr(a.next, args[n - 1]);
      ArgsTemps(c, args, n - 1);
      ExprTemps(a.next, args[n - 1]);
      AssignsAppend(a.code, b.code, Unit("ARG", b.value), c.temps, a.next.temps, b.next.temps);
    }
  }

  /** Both operands are lowered before the operation's temporary is taken: every instruction
      but the last assigns the temporaries up to the one before it, and the last assigns it. */
  lemma OperatorTempLast(c: Counters, e: Expr)
    requires e.BinaryOp?
    ensures var r := LowerExpr(c, e);
            && c.temps < r.next.temps && r.value == TempName(r.next.temps) && r.code != []
            && r.code[|r.code| - 1].result == Some(r.value)
            && ResultsOf(r.code[..|r.code| - 1]) == Names('t', c.temps, r.next.temps - 1)
  {
    var a := LowerExpr(c, e.left);
    var b := LowerExpr(a.next, e.right);
    var t := TempName(b.next.temps + 1);
    var i := Tac(e.operator, Some(a.value), Some(b.value), Some(t));
    var prefix := a.code + b.code;
    assert LowerBinary(c, e) == LoweredExpr(t, prefix + [i], b.next.(temps := b.next.temps + 1));
    assert LowerExpr(c, e) == LowerBinary(c, e);
    ExprTemps(c, e.left);
    ExprTemps(a.next, e.right);
    OfConcat(a.code, b.code);
    NamesSplit('t', c.temps, a.next.temps, b.next.temps);
    assert ResultsOf(prefix) == Names('t', c.temps, b.next.temps);
    PrefixOfConcat(prefix, [i]);
  }

  /** A call takes its temporary before lowering any argument: the arguments assign the
      temporaries after it, and the final CALL assigns it. */
  lemma CallTempFirst(c: Counters, e: Expr)
    requires e.FunctionCall?
    ensures var r := LowerExpr(c, e);
            && c.temps < r.next.temps && r.value == TempName(c.temps + 1) && r.code != []
            && r.code[|r.code| - 1] == Tac("CALL", Some(e.name), None, Some(r.value))
            && ResultsOf(r.code[..|r.code| - 1]) == Names('t', c.temps + 1, r.next.temps)
  {
    var a := LowerArgs(c.(temps := c.temps + 1), e.arguments, |e.arguments|);
    var r := LowerExpr(c, e);
    ArgsTemps(c.(temps := c.temps + 1), e.arguments, |e.arguments|);
    var i := Tac("CALL", Some(e.name), None, Some(r.value));
    assert r == LowerCall(c, e);
    assert r.code == a.code + [i];
    PrefixOfConcat(a.code, [i]);
  }

  // ---------------------------------------------------------------------------------------
  // Every label taken is defined once, and every jump goes to one of them

  /** The code defines the labels lo+1, …, hi, each once and no other, and jumps only to
      them. */
  predicate WellLabelled(code: seq<Tac>, lo: nat, hi: nat) {
    && LabelsOf(code) == Names('L', lo, hi)
    && forall x :: x in TargetsOf(code) ==> x in Names('L', lo, hi)
  }

  lemma NoJumpsWellLabelled(code: seq<Tac>, k: nat)
    requires NoJumps(code)
    ensures WellLabelled(code, k, k)
  {
  }

  lemma WellJoin(x: seq<Tac>, y: seq<Tac>, lo: nat, mid: nat, hi: nat)
    requires lo <= mid <= hi && WellLabelled(x, lo, mid) && WellLabelled(y, mid, hi)
    ensures WellLabelled(x + y, lo, hi)
  {
    OfConcat(x, y);
    NamesSplit('L', lo, mid, hi);
  }

  lemma OneName(prefix: char, k: nat)
    ensures Names(prefix, k, k + 1) == multiset{Some(Counted(prefix, k + 1))}
  {
  }

  /** The two labels taken at `lo` and the labels of two nested pieces, lo+2, …, m and
      m+1, …, h, together make lo+1, …, h. */
  lemma TwoAndTwoPieces(lo: nat, m: nat, h: nat)
    requires lo + 2 <= m <= h
    ensures Names('L', lo, h)
            == multiset{Some(LabelName(lo + 1))} + multiset{Some(LabelName(lo + 2))}
               + Names('L', lo + 2, m) + Names('L', m, h)
  {
    NamesSplit('L', lo, lo + 1, h);
    NamesSplit('L', lo + 1, lo + 2, h);
    NamesSplit('L', lo + 2, m, h);
    OneName('L', lo);
    OneName('L', lo + 1);
  }

  /** The code defines exactly the labels `l` and jumps exactly to `t`. */
  predicate Has(code: seq<Tac>, l: multiset<Option<string>>, t: multiset<Option<string>>) {
    LabelsOf(code) == l && TargetsOf(code) == t
  }

  lemma HasJoin(x: seq<Tac>, y: seq<Tac>, lx: multiset<Option<string>>, tx: multiset<Option<string>>,
                ly: multiset<Option<string>>, ty: multiset<Option<string>>)
    requires Has(x, lx, tx) && Has(y, ly, ty)
    ensures Has(x + y, lx + ly, tx + ty)
  {
    OfConcat(x, y);
  }

  lemma HasLabel(name: string)
    ensures Has([Label(name)], multiset{Some(name)}, multiset{})
  {
    OfOne(Label(name));
  }

  lemma HasIfFalse(v: string, target: string)
    ensures Has([IfFalse(v, target)], multiset{}, multiset{Some(target)})
  {
    OfOne(IfFalse(v, target));
  }

  lemma HasGotoLabel(target: string, name: string)
    ensures Has([Goto(target), Label(name)], multiset{Some(name)}, multiset{Some(target)})
  {
    assert [Goto(target), Label(name)][1..] == [Label(name)];
    OfOne(Label(name));
  }

  /** The label sums of the `if` layout. */
  lemma IfSums(lt: multiset<Option<string>>, tt: multiset<Option<string>>,
               lf: multiset<Option<string>>, tf: multiset<Option<string>>, lo: nat, m: nat, h: nat)
    requires lo + 2 <= m <= h
    requires lt == Names('L', lo + 2, m) && forall x :: x in tt ==> x in Names('L', lo + 2, m)
    requires lf == Names('L', m, h) && forall x :: x in tf ==> x in Names('L', m, h)
    ensures var nf, ne := Some(LabelName(lo + 1)), Some(LabelName(lo + 2));
            && multiset{} + multiset{} + lt + multiset{nf} + lf + multiset{ne} == Names('L', lo, h)
            && forall x :: x in multiset{} + multiset{nf} + tt + multiset{ne} + tf + multiset{} ==> x in Names('L', lo, h)
  {
    IfLabelSum(lt, lf, lo, m, h);
    IfTargetSum(tt, tf, lo, m, h);
  }

  lemma IfLabelSum(lt: multiset<Option<string>>, lf: multiset<Option<string>>, lo: nat, m: nat, h: nat)
    requires lo + 2 <= m <= h && lt == Names('L', lo + 2, m) && lf == Names('L', m, h)
    ensures multiset{} + multiset{} + lt + multiset{Some(LabelName(lo + 1))} + lf + multiset{Some(LabelName(lo + 2))}
            == Names('L', lo, h)
  {
    TwoAndTwoPieces(lo, m, h);
  }

  lemma IfTargetSum(tt: multiset<Option<string>>, tf: multiset<Option<string>>, lo: nat, m: nat, h: nat)
    requires lo + 2 <= m <= h
    requires forall x :: x in tt ==> x in Names('L', lo + 2, m)
    requires forall x :: x in tf ==> x in Names('L', m, h)
    ensures forall x :: x in multiset{} + multiset{Some(LabelName(lo + 1))} + tt + multiset{Some(LabelName(lo + 2))} + tf + multiset{}
              ==> x in Names('L', lo, h)
  {
    TwoAndTwoPieces(lo, m, h);
  }

  /** The label sums of the `while` layout. */
  lemma WhileSums(lb: multiset<Option<string>>, tb: multiset<Option<string>>, lo: nat, h: nat)
    requires lo + 2 <= h
    requires lb == Names('L', lo + 2, h) && forall x :: x in tb ==> x in Names('L', lo + 2, h)
    ensures var ns, ne := Some(LabelName(lo + 1)), Some(LabelName(lo + 2));
            && multiset{ns} + multiset{} + multiset{} + lb + multiset{ne} == Names('L', lo, h)
            && forall x :: x in multiset{} + multiset{} + multiset{ne} + tb + multiset{ns} ==> x in Names('L', lo, h)
  {
    TwoAndTwoPieces(lo, h, h);
  }

  /** The label sums of the `for` layout. */
  lemma ForSums(li: multiset<Option<string>>, ti: multiset<Option<string>>, tt: multiset<Option<string>>,
                lb: multiset<Option<string>>, tb: multiset<Option<string>>,
                lu: multiset<Option<string>>, tu: multiset<Option<string>>, k: nat, lo: nat, m: nat, h: nat)
    requires k <= lo && lo + 2 <= m <= h
    requires li == Names('L', k, lo) && forall x :: x in ti ==> x in Names('L', k, lo)
    requires forall x :: x in tt ==> x == Some(LabelName(lo + 2))
    requires lb == Names('L', lo + 2, m) && forall x :: x in tb ==> x in Names('L', lo + 2, m)
    requires lu == Names('L', m, h) && forall x :: x in tu ==> x in Names('L', m, h)
    ensures var ns, ne := Some(LabelName(lo + 1)), Some(LabelName(lo + 2));
            && li + multiset{ns} + multiset{} + lb + lu + multiset{ne} == Names('L', k, h)
            && forall x :: x in ti + multiset{} + tt + tb + tu + multiset{ns} ==> x in Names('L', k, h)
  {
    ForLabelSum(li, lb, lu, k, lo, m, h);
    ForTargetSum(ti, tt, tb, tu, k, lo, m, h);
  }

  lemma ForLabelSum(li: multiset<Option<string>>, lb: multiset<Option<string>>, lu: multiset<Option<string>>,
                    k: nat, lo: nat, m: nat, h: nat)
    requires k <= lo && lo + 2 <= m <= h
    requires li == Names('L', k, lo) && lb == Names('L', lo + 2, m) && lu == Names('L', m, h)
    ensures li + multiset{Some(LabelName(lo + 1))} + multiset{} + lb + lu + multiset{Some(LabelName(lo + 2))}
            == Names('L', k, h)
  {
    TwoAndTwoPieces(lo, m, h);
    NamesSplit('L', k, lo, h);
  }

  lemma ForTargetSum(ti: multiset<Option<string>>, tt: multiset<Option<string>>,
                     tb: multiset<Option<string>>, tu: multiset<Option<string>>, k: nat, lo: nat, m: nat, h: nat)
    requires k <= lo && lo + 2 <= m <= h
    requires forall x :: x in ti ==> x in Names('L', k, lo)
    requires forall x :: x in tt ==> x == Some(LabelName(lo + 2))
    requires forall x :: x in tb ==> x in Names('L', lo + 2, m)
    requires forall x :: x in tu ==> x in Names('L', m, h)
    ensures forall x :: x in ti + multiset{} + tt + tb + tu + multiset{Some(LabelName(lo + 1))} ==> x in Names('L', k, h)
  {
    TwoAndTwoPieces(lo, m, h);
    NamesSplit('L', k, lo, h);
  }

  /** The layout of an `if`. */
  lemma IfShape(e: seq<Tac>, v: string, t: seq<Tac>, f: seq<Tac>, lo: nat, m: nat, h: nat)
    requires lo + 2 <= m <= h
    requires NoJumps(e) && WellLabelled(t, lo + 2, m) && WellLabelled(f, m, h)
    ensures WellLabelled(e + [IfFalse(v, LabelName(lo + 1))] + t + [Goto(LabelName(lo + 2)), Label(LabelName(lo + 1))]
                         + f + [Label(LabelName(lo + 2))], lo, h)
  {
    var nf, ne := Some(LabelName(lo + 1)), Some(LabelName(lo + 2));
    var x1 := e + [IfFalse(v, LabelName(lo + 1))];
    HasIfFalse(v, LabelName(lo + 1));
    HasJoin(e, [IfFalse(v, LabelName(lo + 1))], multiset{}, multiset{}, multiset{}, multiset{nf});
    var x2 := x1 + t;
    HasJoin(x1, t, multiset{} + multiset{}, multiset{} + multiset{nf}, LabelsOf(t), TargetsOf(t));
    var x3 := x2 + [Goto(LabelName(lo + 2)), Label(LabelName(lo + 1))];
    HasGotoLabel(LabelName(lo + 2), LabelName(lo + 1));
    HasJoin(x2, [Goto(LabelName(lo + 2)), Label(LabelName(lo + 1))], multiset{} + multiset{} + LabelsOf(t),
            multiset{} + multiset{nf} + TargetsOf(t), multiset{nf}, multiset{ne});
    var x4 := x3 + f;
    HasJoin(x3, f, multiset{} + multiset{} + LabelsOf(t) + multiset{nf},
            multiset{} + multiset{nf} + TargetsOf(t) + multiset{ne}, LabelsOf(f), TargetsOf(f));
    HasLabel(LabelName(lo + 2));
    HasJoin(x4, [Label(LabelName(lo + 2))], multiset{} + multiset{} + LabelsOf(t) + multiset{nf} + LabelsOf(f),
            multiset{} + multiset{nf} + TargetsOf(t) + multiset{ne} + TargetsOf(f), multiset{ne}, multiset{});
    IfSums(LabelsOf(t), TargetsOf(t), LabelsOf(f), TargetsOf(f), lo, m, h);
  }

  /** The layout of a `while`. */
  lemma WhileShape(e: seq<Tac>, v: string, b: seq<Tac>, lo: nat, h: nat)
    requires lo + 2 <= h
    requires NoJumps(e) && WellLabelled(b, lo + 2, h)
    ensures WellLabelled([Label(LabelName(lo + 1))] + e + [IfFalse(v, LabelName(lo + 2))] + b
                         + [Goto(LabelName(lo + 1)), Label(LabelName(lo + 2))], lo, h)
  {
    var ns, ne := Some(LabelName(lo + 1)), Some(LabelName(lo + 2));
    HasLabel(LabelName(lo + 1));
    HasJoin([Label(LabelName(lo + 1))], e, multiset{ns}, multiset{}, multiset{}, multiset{});
    var x1 := [Label(LabelName(lo + 1))] + e;
    HasIfFalse(v, LabelName(lo + 2));
    HasJoin(x1, [IfFalse(v, LabelName(lo + 2))], multiset{ns} + multiset{}, multiset{} + multiset{},
            multiset{}, multiset{ne});
    var x2 := x1 + [IfFalse(v, LabelName(lo + 2))];
    HasJoin(x2, b, multiset{ns} + multiset{} + multiset{}, multiset{} + multiset{} + multiset{ne},
            LabelsOf(b), TargetsOf(b));
    HasGotoLabel(LabelName(lo + 1), LabelName(lo + 2));
    HasJoin(x2 + b, [Goto(LabelName(lo + 1)), Label(LabelName(lo + 2))],
            multiset{ns} + multiset{} + multiset{} + LabelsOf(b), multiset{} + multiset{} + multiset{ne} + TargetsOf(b),
            multiset{ne}, multiset{ns});
    WhileSums(LabelsOf(b), TargetsOf(b), lo, h);
  }

  /** The layout of a `for`; the test jumps to the end label or nowhere. */
  lemma ForShape(init: seq<Tac>, test: seq<Tac>, b: seq<Tac>, u: seq<Tac>, k: nat, lo: nat, m: nat, h: nat)
    requires k <= lo && lo + 2 <= m <= h
    requires WellLabelled(init, k, lo)
    requires LabelsOf(test) == multiset{}
    requires forall x :: x in TargetsOf(test) ==> x == Some(LabelName(lo + 2))
    requires WellLabelled(b, lo + 2, m) && WellLabelled(u, m, h)
    ensures WellLabelled(init + [Label(LabelName(lo + 1))] + test + b + u
                         + [Goto(LabelName(lo + 1)), Label(LabelName(lo + 2))], k, h)
  {
    var ns, ne := Some(LabelName(lo + 1)), Some(LabelName(lo + 2));
    var li, ti := LabelsOf(init), TargetsOf(init);
    HasLabel(LabelName(lo + 1));
    HasJoin(init, [Label(LabelName(lo + 1))], li, ti, multiset{ns}, multiset{});
    var x0 := init + [Label(LabelName(lo + 1))];
    HasJoin(x0, test, li + multiset{ns}, ti + multiset{}, multiset{}, TargetsOf(test));
    var x1 := x0 + test;
    HasJoin(x1, b, li + multiset{ns} + multiset{}, ti + multiset{} + TargetsOf(test), LabelsOf(b), TargetsOf(b));
    HasJoin(x1 + b, u, li + multiset{ns} + multiset{} + LabelsOf(b), ti + multiset{} + TargetsOf(test) + TargetsOf(b),
            LabelsOf(u), TargetsOf(u));
    HasGotoLabel(LabelName(lo + 1), LabelName(lo + 2));
    HasJoin(x1 + b + u, [Goto(LabelName(lo + 1)), Label(LabelName(lo + 2))],
            li + multiset{ns} + multiset{} + LabelsOf(b) + LabelsOf(u),
            ti + multiset{} + TargetsOf(test) + TargetsOf(b) + TargetsOf(u), multiset{ne}, multiset{ns});
    ForSums(li, ti, TargetsOf(test), LabelsOf(b), TargetsOf(b), LabelsOf(u), TargetsOf(u), k, lo, m, h);
  }

  lemma ForTestLabels(c: Counters, s: Stmt, endLabel: string)
    requires s.ForStatement?
    ensures LabelsOf(LowerForTest(c, s, endLabel).code) == multiset{}
    ensures forall x :: x in TargetsOf(LowerForTest(c, s, endLabel).code) ==> x == Some(endLabel)
  {
    if s.cond.Some? {
      var e := LowerExpr(c, s.cond.value);
      ExprNoLabels(c, s.cond.value);
      OfConcat(e.code, [IfFalse(e.value, endLabel)]);
      OfOne(IfFalse(e.value, endLabel));
    }
  }

  lemma {:induction false} ParamsNoJumps(params: seq<string>, n: nat)
    requires n <= |params|
    ensures NoJumps(ParamCode(params, n))
  {
    if n > 0 {
      ParamsNoJumps(params, n - 1);
      assert ParamCode(params, n - 1) + [] == ParamCode(params, n - 1);
      NoJumpsAppend(ParamCode(params, n - 1), [], Unit("PARAM", params[n - 1]));
    }
  }

  /** An expression followed by one instruction that neither defines a label nor jumps. */
  lemma ExprThen(c: Counters, e: Expr, i: Tac)
    requires !IsLabel(i) && !IsJump(i)
    ensures WellLabelled(LowerExpr(c, e).code + [i], c.labels, c.labels)
  {
    ExprNoLabels(c, e);
    assert LowerExpr(c, e).code + [] == LowerExpr(c, e).code;
    NoJumpsAppend(LowerExpr(c, e).code, [], i);
  }

  /** The code of a statement defines exactly the labels it takes, each once, and jumps only
      to them. */
  lemma {:induction false} StmtLabels(c: Counters, s: Stmt)
    ensures WellLabelled(LowerStmt(c, s).code, c.labels, LowerStmt(c, s).next.labels)
    decreases s, 2
  {
    match s
    case VarDeclaration(name, _, init, _, _) =>
      if init.Some? {
        var e := LowerExpr(c, init.value);
        ExprThen(c, init.value, Assign(e.value, name));
        assert LowerStmt(c, s) == Lowered(e.code + [Assign(e.value, name)], e.next);
      } else {
        assert LowerStmt(c, s) == Lowered([], c);
        NoJumpsWellLabelled([], c.labels);
      }
    case Assignment(target, value, _, _) =>
      var e := LowerExpr(c, value);
      ExprThen(c, value, Assign(e.value, target));
      assert LowerStmt(c, s) == Lowered(e.code + [Assign(e.value, target)], e.next);
    case IfStatement(_, _, _, _, _) =>
      IfLabels(c, s);
      assert LowerStmt(c, s) == LowerIf(c, s);
    case WhileStatement(_, _, _, _) =>
      WhileLabels(c, s);
      assert LowerStmt(c, s) == LowerWhile(c, s);
    case ForStatement(_, _, _, _, _, _) =>
      ForLabels(c, s);
      assert LowerStmt(c, s) == LowerFor(c, s);
    case FunctionDeclaration(_, _, _, _, _) =>
      FunctionLabels(c, s);
      assert LowerStmt(c, s) == LowerFunction(c, s);
    case ReturnStatement(value, _, _) =>
      if value.Some? {
        var e := LowerExpr(c, value.value);
        ExprThen(c, value.value, Unit("RETURN", e.value));
        assert LowerStmt(c, s) == Lowered(e.code + [Unit("RETURN", e.value)], e.next);
      } else {
        assert LowerStmt(c, s) == Lowered([Return], c);
        OneNoJumps(Return);
        NoJumpsWellLabelled([Return], c.labels);
      }
    case PrintStatement(value, _, _) =>
      var e := LowerExpr(c, value);
      ExprThen(c, value, Unit("PRINT", e.value));
      assert LowerStmt(c, s) == Lowered(e.code + [Unit("PRINT", e.value)], e.next);
  }

  lemma {:induction false} StmtsLabels(c: Counters, ss: seq<Stmt>, n: nat)
    requires n <= |ss|
    ensures WellLabelled(LowerStmts(c, ss, n).code, c.labels, LowerStmts(c, ss, n).next.labels)
    decreases ss, n
  {
    if n > 0 {
      var a := LowerStmts(c, ss, n - 1);
      StmtsLabels(c, ss, n - 1);
      StmtLabels(a.next, ss[n - 1]);
      WellJoin(a.code, LowerStmt(a.next, ss[n - 1]).code, c.labels, a.next.labels, LowerStmt(a.next, ss[n - 1]).next.labels);
    }
  }

  lemma {:induction false} ElseLabels(c: Counters, s: Stmt)
    requires s.IfStatement?
    ensures WellLabelled(LowerElse(c, s).code, c.labels, LowerElse(c, s).next.labels)
    decreases s, 0
  {
    if s.elseBody.ElseStatements? {
      StmtsLabels(c, s.elseBody.body, |s.elseBody.body|);
    } else {
      NoJumpsWellLabelled([], c.labels);
    }
  }

  lemma {:induction false} IfLabels(c: Counters, s: Stmt)
    requires s.IfStatement?
    ensures WellLabelled(LowerIf(c, s).code, c.labels, LowerIf(c, s).next.labels)
    decreases s, 1
  {
    var e := LowerExpr(c, s.condition);
    ExprNoLabels(c, s.condition);
    var t := LowerStmts(e.next.(labels := e.next.labels + 2), s.thenBody, |s.thenBody|);
    StmtsLabels(e.next.(labels := e.next.labels + 2), s.thenBody, |s.thenBody|);
    var f := LowerElse(t.next, s);
    ElseLabels(t.next, s);
    var lo := e.next.labels;
    var code := e.code + [IfFalse(e.value, LabelName(lo + 1))] + t.code
                + [Goto(LabelName(lo + 2)), Label(LabelName(lo + 1))] + f.code + [Label(LabelName(lo + 2))];
    assert LowerIf(c, s) == Lowered(code, f.next);
    IfShape(e.code, e.value, t.code, f.code, lo, t.next.labels, f.next.labels);
    assert WellLabelled(code, c.labels, f.next.labels);
  }

  lemma {:induction false} WhileLabels(c: Counters, s: Stmt)
    requires s.WhileStatement?
    ensures WellLabelled(LowerWhile(c, s).code, c.labels, LowerWhile(c, s).next.labels)
    decreases s, 1
  {
    var e := LowerExpr(c.(labels := c.labels + 2), s.condition);
    ExprNoLabels(c.(labels := c.labels + 2), s.condition);
    var b := LowerStmts(e.next, s.body, |s.body|);
    StmtsLabels(e.next, s.body, |s.body|);
    var lo := c.labels;
    var code := [Label(LabelName(lo + 1))] + e.code + [IfFalse(e.value, LabelName(lo + 2))]
                + b.code + [Goto(LabelName(lo + 1)), Label(LabelName(lo + 2))];
    assert LowerWhile(c, s) == Lowered(code, b.next);
    WhileShape(e.code, e.value, b.code, lo, b.next.labels);
    assert WellLabelled(code, c.labels, b.next.labels);
  }

  lemma {:induction false} InitLabels(c: Counters, s: Stmt)
    requires s.ForStatement?
    ensures WellLabelled(LowerInit(c, s).code, c.labels, LowerInit(c, s).next.labels)
    decreases s, 0
  {
    if s.init.Some? {
      StmtLabels(c, s.init.value);
    } else {
      NoJumpsWellLabelled([], c.labels);
    }
  }

  lemma {:induction false} UpdateLabels(c: Counters, s: Stmt)
    requires s.ForStatement?
    ensures WellLabelled(LowerUpdate(c, s).code, c.labels, LowerUpdate(c, s).next.labels)
    decreases s, 0
  {
    if s.update.Some? {
      StmtLabels(c, s.update.value);
    } else {
      NoJumpsWellLabelled([], c.labels);
    }
  }

  lemma {:induction false} ForLabels(c: Counters, s: Stmt)
    requires s.ForStatement?
    ensures WellLabelled(LowerFor(c, s).code, c.labels, LowerFor(c, s).next.labels)
    decreases s, 1
  {
    var i := LowerInit(c, s);
    InitLabels(c, s);
    var lo := i.next.labels;
    var e := LowerForTest(i.next.(labels := lo + 2), s, LabelName(lo + 2));
    ForTestLabels(i.next.(labels := lo + 2), s, LabelName(lo + 2));
    var b := LowerStmts(e.next, s.body, |s.body|);
    StmtsLabels(e.next, s.body, |s.body|);
    var u := LowerUpdate(b.next, s);
    UpdateLabels(b.next, s);
    var code := i.code + [Label(LabelName(lo + 1))] + e.code + b.code + u.code
                + [Goto(LabelName(lo + 1)), Label(LabelName(lo + 2))];
    assert LowerFor(c, s) == Lowered(code, u.next);
    ForShape(i.code, e.code, b.code, u.code, c.labels, lo, b.next.labels, u.next.labels);
    assert WellLabelled(code, c.labels, u.next.labels);
  }

  lemma {:induction false} FunctionLabels(c: Counters, s: Stmt)
    requires s.FunctionDeclaration?
    ensures WellLabelled(LowerFunction(c, s).code, c.labels, LowerFunction(c, s).next.labels)
    decreases s, 1
  {
    var head := [Unit("FUNCTION", s.name)] + ParamCode(s.parameters, |s.parameters|);
    var b := LowerStmts(c, s.body, |s.body|);
    var code := head + b.code + [Return];
    assert LowerFunction(c, s) == Lowered(code, b.next);
    StmtsLabels(c, s.body, |s.body|);
    HeadNoJumps(s.name, s.parameters);
    NoJumpsWellLabelled(head, c.labels);
    OneNoJumps(Return);
    NoJumpsWellLabelled([Return], b.next.labels);
    WellJoin(head, b.code, c.labels, c.labels, b.next.labels);
    WellJoin(head + b.code, [Return], c.labels, b.next.labels, b.next.labels);
    assert WellLabelled(code, c.labels, b.next.labels);
  }

  /** FUNCTION and the PARAMs neither define a label nor jump. */
  lemma HeadNoJumps(name: string, params: seq<string>)
    ensures NoJumps([Unit("FUNCTION", name)] + ParamCode(params, |params|))
  {
    ParamsNoJumps(params, |params|);
    OneNoJumps(Unit("FUNCTION", name));
    OfConcat([Unit("FUNCTION", name)], ParamCode(params, |params|));
  }

  lemma OneNoJumps(i: Tac)
    requires !IsLabel(i) && !IsJump(i)
    ensures NoJumps([i])
  {
    OfOne(i);
  }

  /** The whole program: every label L1, …, Ln the generator takes is defined by exactly one
      LABEL, no other label is defined, and every IF_FALSE and GOTO goes to a defined label. */
  lemma ProgramLabels(p: Program)
    ensures var r := Generate(p);
            && (forall k :: 1 <= k <= r.next.labels ==> LabelsOf(r.code)[Some(LabelName(k))] == 1)
            && (forall x :: x in LabelsOf(r.code) ==> x in Names('L', 0, r.next.labels))
            && (forall x :: x in TargetsOf(r.code) ==> x in LabelsOf(r.code))
  {
    var r := Generate(p);
    StmtsLabels(Counters(0, 0), p.statements, |p.statements|);
    forall k | 1 <= k <= r.next.labels
      ensures LabelsOf(r.code)[Some(LabelName(k))] == 1
    {
      NamesOnce('L', 0, r.next.labels, k);
    }
  }
}
