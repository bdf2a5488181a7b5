/** The scoped symbol table used by the semantic analyzer, and the type rules of the checker.

    The table's dictionary is modelled as its list of (key, symbol) entries in insertion order,
    which is the order Python iterates a dict in. */
module Symbols {
  import opened Wrappers
  import opened Strings

  /** A declared name: its type name ("auto" for variables, "func" for functions), the scope
      level it was declared at, and whether it names a function. */
  datatype Symbol = Symbol(name: string, dataType: string, scope: nat, isFunction: bool)

  /** One dictionary entry: its key and its symbol. */
  type Entry = (string, Symbol)

  /** The key a declaration is stored under: the name, an underscore and the level in decimal. */
  function Key(name: string, level: nat): string {
    name + "_" + NatToString(level)
  }

  lemma KeyLayout(name: string, level: nat)
    ensures |Key(name, level)| == |name| + 1 + |NatToString(level)|
    ensures Key(name, level)[..|name|] == name
    ensures Key(name, level)[|name|] == '_'
    ensures Key(name, level)[|name| + 1..] == NatToString(level)
  {
  }

  /** When two keys agree, the second level's digits are no longer than the first's: otherwise
      the first key's underscore would sit among the second key's digits. */
  lemma KeyDigitsNotLonger(n1: string, l1: nat, n2: string, l2: nat)
    requires Key(n1, l1) == Key(n2, l2)
    ensures |NatToString(l2)| <= |NatToString(l1)|
  {
    KeyLayout(n1, l1);
    KeyLayout(n2, l2);
  }

  /** Keys are never shared: a key determines the name and the level it was built from,
      even though names may themselves contain underscores and digits. */
  lemma KeyInjective(n1: string, l1: nat, n2: string, l2: nat)
    requires Key(n1, l1) == Key(n2, l2)
    ensures n1 == n2 && l1 == l2
  {
    KeyDigitsNotLonger(n1, l1, n2, l2);
    KeyDigitsNotLonger(n2, l2, n1, l1);
    KeyLayout(n1, l1);
    KeyLayout(n2, l2);
    NatToStringInjective(l1, l2);
  }

  /** The state of a symbol table: its entries, the current level and the stack of open levels. */
  datatype Table = Table(symbols: seq<Entry>, scope: nat, scopeStack: seq<nat>)

  /** A fresh table: no symbols, level 0, and the stack holding only level 0. */
  function Initial(): Table {
    Table([], 0, [0])
  }

  /** Every entry sits under the key of its own symbol, and no key occurs twice. */
  predicate WellKeyed(entries: seq<Entry>) {
    && (forall i :: 0 <= i < |entries| ==> entries[i].0 == Key(entries[i].1.name, entries[i].1.scope))
    && (forall i, j :: 0 <= i < j < |entries| ==> entries[i].0 != entries[j].0)
  }

  /** The current level is the top of the stack, or 0 once the stack has been emptied. */
  predicate ScopeTracked(t: Table) {
    if t.scopeStack == [] then t.scope == 0 else t.scope == t.scopeStack[|t.scopeStack| - 1]
  }

  predicate Consistent(t: Table) {
    WellKeyed(t.symbols) && ScopeTracked(t)
  }

  /** While scopes are entered and exited in balance, the stack is 0, 1, …, depth. */
  predicate Nested(t: Table) {
    forall i :: 0 <= i < |t.scopeStack| ==> t.scopeStack[i] == i
  }

  /** Some entry holds `name` declared at exactly `level`. */
  predicate DeclaredAt(entries: seq<Entry>, name: string, level: nat) {
    exists i :: 0 <= i < |entries| && entries[i].1.name == name && entries[i].1.scope == level
  }

  predicate HasKey(entries: seq<Entry>, key: string) {
    exists i :: 0 <= i < |entries| && entries[i].0 == key
  }

  /** Python's `d[key] = v`: an existing key keeps its place and takes the new value, a new key
      goes last. */
  function Put(entries: seq<Entry>, key: string, v: Symbol): (r: seq<Entry>)
    ensures !HasKey(entries, key) ==> r == entries + [(key, v)]
    ensures HasKey(entries, key) ==> |r| == |entries| && (key, v) in r
    ensures forall x :: x in r && x.0 != key ==> x in entries
  {
    if entries == [] then [(key, v)]
    else if entries[0].0 == key then [(key, v)] + entries[1..]
    else
      assert HasKey(entries[1..], key) ==> HasKey(entries, key);
      assert !HasKey(entries, key) ==> !HasKey(entries[1..], key);
      [entries[0]] + Put(entries[1..], key, v)
  }

  /** When no symbol of `name` lives at `level`, no entry uses the key of that pair. */
  lemma FreshKey(entries: seq<Entry>, name: string, level: nat)
    requires WellKeyed(entries)
    requires !DeclaredAt(entries, name, level)
    ensures !HasKey(entries, Key(name, level))
  {
    if HasKey(entries, Key(name, level)) {
      var i :| 0 <= i < |entries| && entries[i].0 == Key(name, level);
      KeyInjective(entries[i].1.name, entries[i].1.scope, name, level);
      assert false;
    }
  }

  /** `declare`: refused, with nothing changed, when a symbol of that name already lives at the
      current level; otherwise the new symbol is stored after all the others. */
  function DeclareIn(t: Table, name: string, dataType: string, isFunction: bool): (r: (bool, Table))
    requires WellKeyed(t.symbols)
    ensures r.0 <==> !DeclaredAt(t.symbols, name, t.scope)
    ensures !r.0 ==> r.1 == t
    ensures r.0 ==> r.1 == t.(symbols := t.symbols + [(Key(name, t.scope), Symbol(name, dataType, t.scope, isFunction))])
  {
    if DeclaredAt(t.symbols, name, t.scope) then (false, t)
    else
      FreshKey(t.symbols, name, t.scope);
      (true, t.(symbols := Put(t.symbols, Key(name, t.scope), Symbol(name, dataType, t.scope, isFunction))))
  }

  /** A declaration keeps the table consistent: the new key is one no entry had. */
  lemma DeclareKeepsConsistent(t: Table, name: string, dataType: string, isFunction: bool)
    requires Consistent(t)
    ensures Consistent(DeclareIn(t, name, dataType, isFunction).1)
  {
    var r := DeclareIn(t, name, dataType, isFunction);
    if r.0 {
      FreshKey(t.symbols, name, t.scope);
      var e := r.1.symbols;
      forall i, j | 0 <= i < j < |e| ensures e[i].0 != e[j].0 {
        if j == |t.symbols| {
          assert e[i] == t.symbols[i];
        }
      }
    }
  }

  /** A symbol is found from `level` when it has the name and lives no deeper. */
  predicate Visible(s: Symbol, name: string, level: nat) {
    s.name == name && s.scope <= level
  }

  /** The position of the first entry, in insertion order, that is visible from `level`;
      |entries| when there is none. */
  function FirstVisible(entries: seq<Entry>, name: string, level: nat): (i: nat)
    ensures i <= |entries|
    ensures forall j :: 0 <= j < i ==> !Visible(entries[j].1, name, level)
    ensures i < |entries| ==> Visible(entries[i].1, name, level)
  {
    if entries == [] then 0
    else if Visible(entries[0].1, name, level) then 0
    else 1 + FirstVisible(entries[1..], name, level)
  }

  /** `lookup`: the first symbol in insertion order that has the name and a level no deeper
      than the current one, or nothing when there is none. */
  function LookupIn(t: Table, name: string): (r: Option<Symbol>)
    ensures r.None? <==> forall i :: 0 <= i < |t.symbols| ==> !Visible(t.symbols[i].1, name, t.scope)
    ensures r.Some? ==> exists i :: 0 <= i < |t.symbols| && t.symbols[i].1 == r.value
                                    && Visible(r.value, name, t.scope)
                                    && forall j :: 0 <= j < i ==> !Visible(t.symbols[j].1, name, t.scope)
  {
    var i := FirstVisible(t.symbols, name, t.scope);
    if i < |t.symbols| then Some(t.symbols[i].1) else None
  }

  /** A successful declaration never changes what an already visible name resolves to: an
      inner declaration of a name does not shadow the outer one. When the name was not visible,
      the new symbol is what it now resolves to. */
  lemma DeclareThenLookup(t: Table, name: string, dataType: string, isFunction: bool)
    requires WellKeyed(t.symbols)
    requires DeclareIn(t, name, dataType, isFunction).0
    ensures var t' := DeclareIn(t, name, dataType, isFunction).1;
            LookupIn(t', name) == if LookupIn(t, name).Some? then LookupIn(t, name)
                                  else Some(Symbol(name, dataType, t.scope, isFunction))
  {
    var t' := DeclareIn(t, name, dataType, isFunction).1;
    var e := t'.symbols;
    assert e[..|t.symbols|] == t.symbols;
    var i := FirstVisible(t.symbols, name, t.scope);
    var i' := FirstVisible(e, name, t.scope);
    assert Visible(e[|t.symbols|].1, name, t.scope);
    if i < |t.symbols| {
      assert e[i] == t.symbols[i];
      assert i' == i;
    } else {
      assert i' == |t.symbols|;
    }
  }

  /** The dictionary comprehension of `exit_scope`: every entry whose symbol lives at `level`
      is dropped, the rest stay. */
  function RemoveLevel(entries: seq<Entry>, level: nat): (r: seq<Entry>)
    ensures forall x :: x in r <==> x in entries && x.1.scope != level
    ensures |r| <= |entries|
  {
    if entries == [] then []
    else (if entries[0].1.scope == level then [] else [entries[0]]) + RemoveLevel(entries[1..], level)
  }

  /** Dropping a level works entry by entry, so the surviving entries keep their order. */
  lemma {:induction false} RemoveLevelAppend(a: seq<Entry>, b: seq<Entry>, level: nat)
    ensures RemoveLevel(a + b, level) == RemoveLevel(a, level) + RemoveLevel(b, level)
  {
    if a != [] {
      assert (a + b)[1..] == a[1..] + b;
      RemoveLevelAppend(a[1..], b, level);
    } else {
      assert a + b == b;
    }
  }

  /** Nothing is dropped when no entry lives at the level. */
  lemma {:induction false} RemoveAbsentLevel(entries: seq<Entry>, level: nat)
    requires forall i :: 0 <= i < |entries| ==> entries[i].1.scope != level
    ensures RemoveLevel(entries, level) == entries
  {
    if entries != [] {
      RemoveAbsentLevel(entries[1..], level);
    }
  }

  /** Dropping entries keeps keys unique and in step with their symbols. */
  lemma {:induction false} RemoveLevelWellKeyed(entries: seq<Entry>, level: nat)
    requires WellKeyed(entries)
    ensures WellKeyed(RemoveLevel(entries, level))
  {
    if entries != [] {
      var rest := entries[1..];
      assert WellKeyed(rest);
      RemoveLevelWellKeyed(rest, level);
      var r := RemoveLevel(rest, level);
      if entries[0].1.scope != level {
        var e := [entries[0]] + r;
        forall i, j | 0 <= i < j < |e| ensures e[i].0 != e[j].0 {
          if i == 0 {
            assert e[j] in rest;
          }
        }
      }
    }
  }

  /** `enter_scope`: one level deeper, and that level pushed. */
  function Entered(t: Table): (r: Table)
    ensures ScopeTracked(r)
    ensures r.symbols == t.symbols && r.scope == t.scope + 1
    ensures r.scopeStack == t.scopeStack + [r.scope]
  {
    Table(t.symbols, t.scope + 1, t.scopeStack + [t.scope + 1])
  }

  /** `exit_scope`: with an empty stack nothing happens; otherwise the top level is popped,
      every symbol living at it is dropped, and the current level becomes the new top (0 once
      the stack is empty). */
  function Exited(t: Table): (r: Table)
    ensures t.scopeStack != [] || ScopeTracked(t) ==> ScopeTracked(r)
    ensures t.scopeStack == [] ==> r == t
    ensures t.scopeStack != [] ==>
              && r.scopeStack == t.scopeStack[..|t.scopeStack| - 1]
              && forall x :: x in r.symbols <==> x in t.symbols && x.1.scope != t.scopeStack[|t.scopeStack| - 1]
  {
    if t.scopeStack == [] then t
    else
      var current := t.scopeStack[|t.scopeStack| - 1];
      var stack := t.scopeStack[..|t.scopeStack| - 1];
      Table(RemoveLevel(t.symbols, current), if stack != [] then stack[|stack| - 1] else 0, stack)
  }

  lemma ExitKeepsConsistent(t: Table)
    requires Consistent(t)
    ensures Consistent(Exited(t))
  {
    if t.scopeStack != [] {
      RemoveLevelWellKeyed(t.symbols, t.scopeStack[|t.scopeStack| - 1]);
    }
  }

  /** Entering from a nested table keeps it nested, and the level is the depth. */
  lemma EnterNests(t: Table)
    requires Nested(t) && ScopeTracked(t) && t.scopeStack != []
    ensures Nested(Entered(t))
    ensures Entered(t).scope == |Entered(t).scopeStack| - 1
  {
  }

  /** Exiting a nested table that is at least one level deep keeps it nested, and the level is
      the depth again. */
  lemma ExitNests(t: Table)
    requires Nested(t) && |t.scopeStack| >= 2
    ensures Nested(Exited(t))
    ensures Exited(t).scope == |Exited(t).scopeStack| - 1
  {
  }

  /** Entering and at once exiting a scope gives the table back when no symbol lives deeper than
      the current level. */
  lemma ExitUndoesEnter(t: Table)
    requires ScopeTracked(t)
    requires forall i :: 0 <= i < |t.symbols| ==> t.symbols[i].1.scope <= t.scope
    ensures Exited(Entered(t)) == t
  {
    RemoveAbsentLevel(t.symbols, t.scope + 1);
    assert (t.scopeStack + [t.scope + 1])[..|t.scopeStack|] == t.scopeStack;
  }

  /** Whatever was declared inside a scope is gone once that scope is exited. */
  lemma ExitForgetsInnerSymbols(t: Table, name: string)
    requires ScopeTracked(t) && t.scopeStack != []
    ensures !DeclaredAt(Exited(t).symbols, name, t.scope)
  {
    forall i | 0 <= i < |Exited(t).symbols|
      ensures Exited(t).symbols[i].1.scope != t.scope
    {
      assert Exited(t).symbols[i] in Exited(t).symbols;
    }
  }

  /** A name declared at an outer level and again at an inner one resolves, from the inner
      level, to the outer symbol: the first match in insertion order wins. */
  lemma LookupFindsOuterSymbol()
    ensures var t1 := DeclareIn(Initial(), "x", "auto", false).1;
            var t2 := DeclareIn(Entered(t1), "x", "func", true);
            && t2.0
            && LookupIn(t2.1, "x") == Some(Symbol("x", "auto", 0, false))
  {
    var t1 := DeclareIn(Initial(), "x", "auto", false).1;
    assert t1.symbols == [(Key("x", 0), Symbol("x", "auto", 0, false))];
    assert !DeclaredAt(Entered(t1).symbols, "x", 1);
    DeclareThenLookup(Entered(t1), "x", "func", true);
    assert LookupIn(Entered(t1), "x") == Some(Symbol("x", "auto", 0, false));
  }

  /** The mutable symbol table. */
  class SymbolTable {
    var symbols: seq<Entry>
    var scope: nat
    var scopeStack: seq<nat>

    function Value(): Table
      reads this
    {
      Table(symbols, scope, scopeStack)
    }

    ghost predicate Valid()
      reads this
    {
      Consistent(Value())
    }

    constructor()
      ensures Valid() && Value() == Initial()
    {
      symbols := [];
      scope := 0;
      scopeStack := [0];
    }

    method EnterScope()
      requires Valid()
      modifies this
      ensures Valid() && Value() == Entered(old(Value()))
    {
      scope := scope + 1;
      scopeStack := scopeStack + [scope];
    }

    method ExitScope()
      requires Valid()
      modifies this
      ensures Valid() && Value() == Exited(old(Value()))
    {
      if scopeStack != [] {
        var current := scopeStack[|scopeStack| - 1];
        scopeStack := scopeStack[..|scopeStack| - 1];
        symbols := RemoveLevel(symbols, current);
        scope := if scopeStack != [] then scopeStack[|scopeStack| - 1] else 0;
      }
      ExitKeepsConsistent(old(Value()));
    }

    method Declare(name: string, dataType: string, isFunction: bool := false) returns (ok: bool)
      requires Valid()
      modifies this
      ensures Valid()
      ensures ok == DeclareIn(old(Value()), name, dataType, isFunction).0
      ensures Value() == DeclareIn(old(Value()), name, dataType, isFunction).1
    {
      var key := Key(name, scope);
      for i := 0 to |symbols|
        invariant forall j :: 0 <= j < i ==> !(symbols[j].1.name == name && symbols[j].1.scope == scope)
      {
        var symbol := symbols[i].1;
        if symbol.name == name && symbol.scope == scope {
          return false;
        }
      }
      DeclareKeepsConsistent(Value(), name, dataType, isFunction);
      symbols := Put(symbols, key, Symbol(name, dataType, scope, isFunction));
      return true;
    }

    method Lookup(name: string) returns (r: Option<Symbol>)
      requires Valid()
      ensures r == LookupIn(Value(), name)
    {
      for i := 0 to |symbols|
        invariant forall j :: 0 <= j < i ==> !Visible(symbols[j].1, name, scope)
      {
        var symbol := symbols[i].1;
        if symbol.name == name && symbol.scope <= scope {
          return Some(symbol);
        }
      }
      return None;
    }
  }

  // ---------------------------------------------------------------------------------------
  // The type rules

  /** The primitive type names. */
  const PrimitiveTypes: set<string> := {"int", "float", "bool", "string"}

  predicate IsNumeric(t: string) {
    t == "int" || t == "float"
  }

  predicate IsComparison(op: string) {
    op in ["<", ">", "<=", ">=", "==", "!="]
  }

  predicate IsLogical(op: string) {
    op in ["&&", "||"]
  }

  predicate IsArithmetic(op: string) {
    op in ["+", "-", "*", "/", "%"]
  }

  function IsValidType(t: string): (b: bool)
    ensures b <==> t == "int" || t == "float" || t == "bool" || t == "string"
  {
    t in PrimitiveTypes
  }

  /** The type names the analyzer uses internally are not primitive types. */
  lemma InternalTypesAreNotPrimitive()
    ensures !IsValidType("auto") && !IsValidType("func") && !IsValidType("error") && !IsValidType("unknown")
  {
  }

  /** Two types are compatible when they are equal or both numeric. */
  function AreCompatible(t1: string, t2: string): (b: bool)
    ensures b <==> t1 == t2 || (IsNumeric(t1) && IsNumeric(t2))
  {
    if t1 == t2 then true
    else if IsNumeric(t1) && IsNumeric(t2) then true
    else false
  }

  /** Compatibility is an equivalence relation. */
  lemma CompatibilityIsEquivalence(a: string, b: string, c: string)
    ensures AreCompatible(a, a)
    ensures AreCompatible(a, b) == AreCompatible(b, a)
    ensures AreCompatible(a, b) && AreCompatible(b, c) ==> AreCompatible(a, c)
  {
  }

  /** The type of a unary operation: `!` always gives bool, `-` keeps a numeric type and
      rejects every other; any other operator is rejected. */
  function InferType(operand: string, op: string): (r: Option<string>)
    ensures op == "!" ==> r == Some("bool")
    ensures op == "-" ==> (r.Some? <==> IsNumeric(operand)) && (r.Some? ==> r.value == operand)
    ensures op != "!" && op != "-" ==> r == None
  {
    if op == "!" then Some("bool")
    else if op == "-" then (if operand in ["int", "float"] then Some(operand) else None)
    else None
  }

  /** Negating twice types like negating once. */
  lemma NegationIsStable(t: string)
    requires InferType(t, "-").Some?
    ensures InferType(InferType(t, "-").value, "-") == InferType(t, "-")
  {
  }

  /** The type of a binary operation. */
  function InferBinaryResultType(left: string, op: string, right: string): (r: Option<string>)
    ensures IsComparison(op) || IsLogical(op) ==> r == Some("bool")
    ensures !IsComparison(op) && !IsLogical(op) && !IsArithmetic(op) ==> r == None
    ensures IsArithmetic(op) && (left == "auto" || right == "auto") ==>
              && r.Some? && IsNumeric(r.value)
              && (IsNumeric(left) || IsNumeric(right) ==> r.value == left || r.value == right)
    ensures IsArithmetic(op) && (left == "auto" || right == "auto") && !IsNumeric(left) && !IsNumeric(right) ==>
              r == Some("int")
    ensures IsArithmetic(op) && left != "auto" && right != "auto" ==>
              && (r.Some? <==> IsNumeric(left) && IsNumeric(right))
              && (r.Some? ==> r.value == if left == right then left else "float")
  {
    if op in ["<", ">", "<=", ">=", "==", "!="] then Some("bool")
    else if op in ["&&", "||"] then Some("bool")
    else if (left == "auto" || right == "auto") && op in ["+", "-", "*", "/", "%"] then
      if left in ["int", "float"] then Some(left)
      else if right in ["int", "float"] then Some(right)
      else Some("int")
    else if op in ["+", "-", "*", "/", "%"] then
      if left == right && left in ["int", "float"] then Some(left)
      else if left in ["int", "float"] && right in ["int", "float"] then Some("float")
      else None
    else None
  }

  /** Swapping the operands never changes the inferred type. */
  lemma BinaryTypeIsSymmetric(left: string, op: string, right: string)
    ensures InferBinaryResultType(left, op, right) == InferBinaryResultType(right, op, left)
  {
  }

  /** Every inferred type is bool, int or float. */
  lemma BinaryTypesAreKnown(left: string, op: string, right: string)
    ensures InferBinaryResultType(left, op, right).Some? ==>
              InferBinaryResultType(left, op, right).value in {"bool", "int", "float"}
  {
  }

  /** Without an untyped operand, arithmetic is accepted exactly on compatible numeric types. */
  lemma ArithmeticNeedsCompatibleNumbers(left: string, op: string, right: string)
    requires IsArithmetic(op) && left != "auto" && right != "auto"
    ensures InferBinaryResultType(left, op, right).Some? <==> IsNumeric(left) && AreCompatible(left, right)
  {
  }
}
