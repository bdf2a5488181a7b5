/** The closed set of MiniScript token kinds, the token record and the keyword table. */
module TokenTypes {
  import opened Strings

  /** A token kind is the value `auto()` gives the enum member: 1, 2, … in declaration order.
      The enum is an integer subset type with one named constant per member rather than a
      43-constructor datatype: a datatype that large makes every proof obligation that mentions
      a token noticeably more expensive for the verifier, while equality on these constants
      distinguishes the members just as the enum does. */
  newtype TokenKind = k: int | 1 <= k <= 43 witness 1
  // literals
  const Ident: TokenKind := 1
  const IntLit: TokenKind := 2
  const FloatLit: TokenKind := 3
  const StringLit: TokenKind := 4
  const TrueLit: TokenKind := 5
  const FalseLit: TokenKind := 6
  // keywords
  const Var: TokenKind := 7
  const Int: TokenKind := 8
  const Float: TokenKind := 9
  const Bool: TokenKind := 10
  const String: TokenKind := 11
  const If: TokenKind := 12
  const Else: TokenKind := 13
  const While: TokenKind := 14
  const For: TokenKind := 15
  const Func: TokenKind := 16
  const Return: TokenKind := 17
  const Print: TokenKind := 18
  const Input: TokenKind := 19
  // arithmetic operators
  const Plus: TokenKind := 20
  const Minus: TokenKind := 21
  const Star: TokenKind := 22
  const Slash: TokenKind := 23
  const Percent: TokenKind := 24
  // comparison operators
  const Eq: TokenKind := 25
  const Ne: TokenKind := 26
  const Lt: TokenKind := 27
  const Gt: TokenKind := 28
  const Le: TokenKind := 29
  const Ge: TokenKind := 30
  // logical operators
  const And: TokenKind := 31
  const Or: TokenKind := 32
  const Not: TokenKind := 33
  // assignment
  const Assign: TokenKind := 34
  // delimiters
  const LParen: TokenKind := 35
  const RParen: TokenKind := 36
  const LBrace: TokenKind := 37
  const RBrace: TokenKind := 38
  const Semicolon: TokenKind := 39
  const Comma: TokenKind := 40
  const Colon: TokenKind := 41
  // special
  const Eof: TokenKind := 42
  const Newline: TokenKind := 43

  /** The enum members' names, in declaration order. */
  const KindNames: seq<string> := [
    "ID", "INT_LIT", "FLOAT_LIT", "STRING_LIT", "TRUE", "FALSE", "VAR", "INT", "FLOAT", "BOOL",
    "STRING", "IF", "ELSE", "WHILE", "FOR", "FUNC", "RETURN", "PRINT", "INPUT", "PLUS", "MINUS",
    "STAR", "SLASH", "PERCENT", "EQ", "NE", "LT", "GT", "LE", "GE", "AND", "OR", "NOT",
    "ASSIGN", "LPAREN", "RPAREN", "LBRACE", "RBRACE", "SEMICOLON", "COMMA", "COLON", "EOF",
    "NEWLINE"
  ]

  /** The enum member's name, as error messages and token dumps print it. */
  function KindName(k: TokenKind): string {
    KindNames[k as int - 1]
  }

  /** A dynamically typed literal value: Python's None, an int, a float (kept as its
      digit lexeme), a str or a bool. */
  datatype Value = NoneValue | IntValue(i: int) | FloatValue(text: string) | StrValue(s: string) | BoolValue(b: bool)

  /** Python's str() of a literal value. */
  function Str(v: Value): string {
    match v
    case NoneValue => "None"
    case IntValue(i) => IntToString(i)
    case FloatValue(text) => text
    case StrValue(s) => s
    case BoolValue(b) => if b then "True" else "False"
  }

  /** A token; literal, line and column default to None, 1 and 1. */
  datatype Token = Token(kind: TokenKind, lexeme: string, literal: Value := NoneValue, line: int := 1, column: int := 1)

  /** The textual dump of a token: the literal field is shown only when it is not None. */
  function Repr(t: Token): string {
    if t.literal != NoneValue then
      "Token(" + KindName(t.kind) + ", '" + t.lexeme + "', " + Str(t.literal) + ", "
        + IntToString(t.line) + ", " + IntToString(t.column) + ")"
    else
      "Token(" + KindName(t.kind) + ", '" + t.lexeme + "', " + IntToString(t.line) + ", "
        + IntToString(t.column) + ")"
  }

  /** The dump of a token with a literal is the dump of the same token without it, with the
      literal's text and a separator inserted right after the quoted lexeme. */
  lemma ReprInsertsLiteral(t: Token)
    requires t.literal != NoneValue
    ensures var short := Repr(t.(literal := NoneValue));
            var k := |"Token(" + KindName(t.kind) + ", '" + t.lexeme + "', "|;
            k <= |short| && Repr(t) == short[..k] + Str(t.literal) + ", " + short[k..]
  {
    var head := "Token(" + KindName(t.kind) + ", '" + t.lexeme + "', ";
    var tail := IntToString(t.line) + ", " + IntToString(t.column) + ")";
    var short := Repr(t.(literal := NoneValue));
    assert short == head + tail;
    assert short[..|head|] == head && short[|head|..] == tail;
  }

  lemma TokenDefaults(k: TokenKind, lexeme: string)
    ensures Token(k, lexeme).literal == NoneValue
    ensures Token(k, lexeme).line == 1 && Token(k, lexeme).column == 1
  {
  }

  /** The reserved words and the kinds they lex as. */
  function Keywords(): map<string, TokenKind> {
    map[
      "var" := Var, "int" := Int, "float" := Float, "bool" := Bool, "string" := String,
      "if" := If, "else" := Else, "while" := While, "for" := For, "func" := Func,
      "return" := Return, "print" := Print, "input" := Input, "true" := TrueLit, "false" := FalseLit
    ]
  }

  /** KEYWORDS.get(word, ID). */
  function KeywordKind(word: string): (k: TokenKind)
    ensures word in Keywords() ==> k == Keywords()[word] && k != Ident
    ensures word !in Keywords() ==> k == Ident
  {
    if word in Keywords() then Keywords()[word] else Ident
  }

  predicate IsLowerWord(s: string) {
    |s| > 0 && forall i :: 0 <= i < |s| ==> 'a' <= s[i] <= 'z'
  }

  /** Every reserved word is a non-empty lower-case word. */
  lemma KeywordsAreLowerCase()
    ensures forall w :: w in Keywords() ==> IsLowerWord(w)
  {
  }

  /** Distinct reserved words lex as distinct kinds. */
  lemma KeywordKindsDistinct()
    ensures forall w1, w2 :: w1 in Keywords() && w2 in Keywords() && w1 != w2 ==> Keywords()[w1] != Keywords()[w2]
  {
  }

  /** The type names and `input` are reserved even though no production uses them, so they can
      never lex as identifiers. */
  lemma TypeNamesAreReserved()
    ensures KeywordKind("int") == Int && KeywordKind("float") == Float
    ensures KeywordKind("bool") == Bool && KeywordKind("string") == String
    ensures KeywordKind("input") == Input
  {
  }
}
