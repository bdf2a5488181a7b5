/** Worked runs of the lexer: small sources tokenized end to end, pass by pass. */
module LexerProperties {
  import opened Wrappers
  import opened Strings
  import opened TokenTypes
  import opened Lexer

  /** A pass that goes on leaves the rest of the loop to the cursor it reached. */
  lemma ContinuedThen(src: string, c: Cursor, ts: seq<Token>, es: seq<string>, next: Cursor)
    requires c.pos < |src| && LexPass(src, c) == Continued(ts, es, next)
    ensures TokenizeFrom(src, c) == Prepend(ts, es, TokenizeFrom(src, next))
  {
  }

  /** A pass that meets a token after whitespace emits it and goes on after it. */
  lemma EmitsAfter(src: string, c: Cursor, c1: Cursor, t: Token, c2: Cursor)
    requires c.pos < |src| && AfterWhitespace(src, c) == c1 && c1.pos < |src|
    requires !IsCommentStart(src, c1.pos) && ScanToken(src, c1) == Emitted(t, c2)
    ensures LexPass(src, c) == Continued([t], [], c2)
  {
  }

  /** A word that ends at `e` is scanned as that word. */
  lemma WordEndsAt(src: string, c: Cursor, e: nat)
    requires c.pos < e <= |src| && (IsAlpha(src[c.pos]) || src[c.pos] == '_')
    requires forall k :: c.pos <= k < e ==> IsWordChar(src[k])
    requires e == |src| || !IsWordChar(src[e])
    ensures ScanToken(src, c) ==
              Emitted(Token(KeywordKind(src[c.pos..e]), src[c.pos..e], WordLiteral(KeywordKind(src[c.pos..e])), c.line, c.column),
                      Cursor(e, c.line, c.column + (e - c.pos)))
  {
    WordRunEndAt(src, c.pos, e);
  }

  /** A digit run that ends at `e`, with no fraction after it, is scanned as an integer. */
  lemma IntEndsAt(src: string, c: Cursor, e: nat)
    requires c.pos < e <= |src|
    requires forall k :: c.pos <= k < e ==> IsDigit(src[k])
    requires e == |src| || (!IsDigit(src[e]) && src[e] != '.')
    ensures ScanToken(src, c) ==
              Emitted(Token(IntLit, src[c.pos..e], IntValue(DigitsValue(src[c.pos..e])), c.line, c.column),
                      Cursor(e, c.line, c.column + (e - c.pos)))
  {
    DigitRunEndAt(src, c.pos, e);
    ScanNumberInt(src, c, e);
  }

  /** Blanks before a non-blank character are skipped, one column each. */
  lemma {:induction false} BlanksThen(src: string, c: Cursor, s: nat)
    requires c.pos <= s < |src| && !IsWhitespace(src[s])
    requires forall k :: c.pos <= k < s ==> src[k] == ' '
    ensures AfterWhitespace(src, c) == Cursor(s, c.line, c.column + (s - c.pos))
    decreases s - c.pos
  {
    if c.pos < s {
      BlanksThen(src, Adv(c, src[c.pos]), s);
    }
  }

  /** A pass over blanks and then a word emits the word's token. */
  lemma WordPass(src: string, c: Cursor, s: nat, e: nat)
    requires c.pos <= s < e <= |src| && (IsAlpha(src[s]) || src[s] == '_')
    requires forall k :: c.pos <= k < s ==> src[k] == ' '
    requires forall k :: s <= k < e ==> IsWordChar(src[k])
    requires e == |src| || !IsWordChar(src[e])
    ensures LexPass(src, c) ==
              Continued([Token(KeywordKind(src[s..e]), src[s..e], WordLiteral(KeywordKind(src[s..e])), c.line, c.column + (s - c.pos))],
                        [], Cursor(e, c.line, c.column + (e - c.pos)))
  {
    var c1 := Cursor(s, c.line, c.column + (s - c.pos));
    BlanksThen(src, c, s);
    WordEndsAt(src, c1, e);
    EmitsAfter(src, c, c1, Token(KeywordKind(src[s..e]), src[s..e], WordLiteral(KeywordKind(src[s..e])), c1.line, c1.column),
               Cursor(e, c.line, c.column + (e - c.pos)));
  }

  /** A pass over blanks and then a digit run without a fraction emits an integer token. */
  lemma IntPass(src: string, c: Cursor, s: nat, e: nat)
    requires c.pos <= s < e <= |src|
    requires forall k :: c.pos <= k < s ==> src[k] == ' '
    requires forall k :: s <= k < e ==> IsDigit(src[k])
    requires e == |src| || (!IsDigit(src[e]) && src[e] != '.')
    ensures LexPass(src, c) ==
              Continued([Token(IntLit, src[s..e], IntValue(DigitsValue(src[s..e])), c.line, c.column + (s - c.pos))],
                        [], Cursor(e, c.line, c.column + (e - c.pos)))
  {
    var c1 := Cursor(s, c.line, c.column + (s - c.pos));
    BlanksThen(src, c, s);
    IntEndsAt(src, c1, e);
    EmitsAfter(src, c, c1, Token(IntLit, src[s..e], IntValue(DigitsValue(src[s..e])), c1.line, c1.column),
               Cursor(e, c.line, c.column + (e - c.pos)));
  }

  /** A pass over blanks and then a one-character operator that starts no two-character one
      emits that operator. */
  lemma OperatorPass(src: string, c: Cursor, s: nat)
    requires c.pos <= s < |src| && [src[s]] in Operators && src[s] != '/'
    requires forall k :: c.pos <= k < s ==> src[k] == ' '
    requires !(s + 1 < |src| && [src[s], src[s + 1]] in Operators)
    ensures LexPass(src, c) ==
              Continued([Token(Operators[[src[s]]], [src[s]], NoneValue, c.line, c.column + (s - c.pos))],
                        [], Cursor(s + 1, c.line, c.column + (s + 1 - c.pos)))
  {
    var c1 := Cursor(s, c.line, c.column + (s - c.pos));
    BlanksThen(src, c, s);
    OneCharOperator(src, c1);
    EmitsAfter(src, c, c1, Token(Operators[[src[s]]], [src[s]], NoneValue, c1.line, c1.column),
               Cursor(s + 1, c.line, c.column + (s + 1 - c.pos)));
  }

  /** A string without escapes, newlines or inner quotes reads as its own characters. */
  lemma {:induction false} PlainStringBody(src: string, c: Cursor, quote: char, acc: string, e: nat)
    requires c.pos <= e < |src| && src[e] == quote && quote != '\n'
    requires forall k :: c.pos <= k < e ==> src[k] != quote && src[k] != '\\' && src[k] != '\n'
    ensures StringBody(src, c, quote, acc) == (Closed(acc + src[c.pos..e]), Cursor(e + 1, c.line, c.column + (e + 1 - c.pos)))
    decreases e - c.pos
  {
    if c.pos < e {
      PlainStringBody(src, Adv(c, src[c.pos]), quote, acc + [src[c.pos]], e);
      assert acc + [src[c.pos]] + src[c.pos + 1..e] == acc + src[c.pos..e];
    } else {
      assert acc + src[c.pos..e] == acc;
    }
  }

  /** A backslash and the character after it decode to one character, two columns on. */
  lemma EscapeStep(src: string, c: Cursor, quote: char, acc: string)
    requires c.pos + 1 < |src| && src[c.pos] == '\\' && src[c.pos + 1] != '\n' && quote != '\\'
    ensures StringBody(src, c, quote, acc) ==
              StringBody(src, Cursor(c.pos + 2, c.line, c.column + 2), quote, acc + [Unescape(src[c.pos + 1], quote)])
  {
  }

  /** Up to the first newline, skipping a comment only moves the column. */
  lemma {:induction false} ToNewlineAt(src: string, c: Cursor, e: nat)
    requires c.pos <= e < |src| && src[e] == '\n'
    requires forall k :: c.pos <= k < e ==> src[k] != '\n'
    ensures ToNewline(src, c) == Cursor(e, c.line, c.column + (e - c.pos))
    decreases e - c.pos
  {
    if c.pos < e {
      ToNewlineAt(src, Adv(c, src[c.pos]), e);
    }
  }

  /** A string without escapes, newlines or inner quotes is scanned as a STRING_LIT whose
      lexeme runs from quote to quote and whose literal is the text between them. */
  lemma PlainStringToken(src: string, c: Cursor, e: nat)
    requires c.pos < e < |src| && IsQuote(src[c.pos]) && src[e] == src[c.pos]
    requires forall k :: c.pos < k < e ==> src[k] != src[c.pos] && src[k] != '\\' && src[k] != '\n'
    ensures ScanToken(src, c) ==
              Emitted(Token(StringLit, src[c.pos..e + 1], StrValue(src[c.pos + 1..e]), c.line, c.column),
                      Cursor(e + 1, c.line, c.column + (e + 1 - c.pos)))
  {
    PlainStringBody(src, Adv(c, src[c.pos]), src[c.pos], "", e);
    EmptyConcat(src[c.pos + 1..e]);
    Bracketed(src, c.pos, e);
  }

  /** A pass over blanks and then a string without escapes, newlines or inner quotes emits a
      STRING_LIT holding the characters between the quotes. */
  lemma StringPass(src: string, c: Cursor, s: nat, e: nat)
    requires c.pos <= s < e < |src| && IsQuote(src[s]) && src[e] == src[s]
    requires forall k :: c.pos <= k < s ==> src[k] == ' '
    requires forall k :: s < k < e ==> src[k] != src[s] && src[k] != '\\' && src[k] != '\n'
    ensures LexPass(src, c) ==
              Continued([Token(StringLit, src[s..e + 1], StrValue(src[s + 1..e]), c.line, c.column + (s - c.pos))],
                        [], Cursor(e + 1, c.line, c.column + (e + 1 - c.pos)))
  {
    var c1 := Cursor(s, c.line, c.column + (s - c.pos));
    BlanksThen(src, c, s);
    PlainStringToken(src, c1, e);
    EmitsAfter(src, c, c1, Token(StringLit, src[s..e + 1], StrValue(src[s + 1..e]), c1.line, c1.column),
               Cursor(e + 1, c.line, c.column + (e + 1 - c.pos)));
  }

  lemma Bracketed<T>(s: seq<T>, i: nat, j: nat)
    requires i < j < |s|
    ensures [s[i]] + s[i + 1..j] + [s[j]] == s[i..j + 1]
  {
  }

  lemma SliceLeft<T>(a: seq<T>, b: seq<T>, i: nat, j: nat)
    requires i <= j <= |a|
    ensures (a + b)[i..j] == a[i..j]
  {
  }

  lemma SliceRight<T>(a: seq<T>, b: seq<T>, i: nat, j: nat)
    requires |a| <= i <= j <= |a| + |b|
    ensures (a + b)[i..j] == b[i - |a|..j - |a|]
  {
  }

  lemma Cons5<T>(a: T, b: T, c: T, d: T, e: T, r: seq<T>)
    ensures [a] + ([b] + ([c] + ([d] + ([e] + r)))) == [a, b, c, d, e] + r
  {
  }

  lemma Nest<T>(a: T, b: T, c: T, d: T)
    ensures [a] + ([b] + ([c] + [d])) == [a, b, c, d]
  {
  }

  lemma Flatten<T>(a: T, b: T, c: T, d: T, e: T, f: T)
    ensures [a] + ([b] + ([c] + [d, e, f])) == [a, b, c, d, e, f]
  {
  }

  // ---------------------------------------------------------------------------------------
  // `1.`: a dot not followed by a digit is no fraction

  lemma IntBeforeDot()
    ensures LexPass("1.", Cursor(0, 1, 1)) == Continued([Token(IntLit, "1", IntValue(1), 1, 1)], [], Cursor(1, 1, 2))
  {
    var src := "1.";
    DigitRunEndAt(src, 0, 1);
    ScanNumberInt(src, Cursor(0, 1, 1), 1);
    assert DigitsValue("1") == 1;
    assert AfterWhitespace(src, Cursor(0, 1, 1)) == Cursor(0, 1, 1);
    assert !IsCommentStart(src, 0);
    assert ScanToken(src, Cursor(0, 1, 1)) == Emitted(Token(IntLit, "1", IntValue(1), 1, 1), Cursor(1, 1, 2));
  }

  lemma DotMessage()
    ensures UnexpectedMessage('.', Cursor(1, 1, 2)) == "Unexpected character '.' at line 1, column 2"
  {
    assert IntToString(1) == "1" && IntToString(2) == "2";
  }

  lemma DotUnexpected()
    ensures LexPass("1.", Cursor(1, 1, 2)) == Continued([], ["Unexpected character '.' at line 1, column 2"], Cursor(2, 1, 3))
  {
    var c := Cursor(1, 1, 2);
    assert AfterWhitespace("1.", c) == c;
    assert !IsCommentStart("1.", 1);
    assert !StartsToken("1.", 1);
    LexPassUnexpected("1.", c);
    DotMessage();
  }

  /** `1.` is the integer 1, then one error for the dot, then EOF: the lexer takes a fraction
      only when a digit follows the dot. */
  lemma TrailingDotIsNoFraction()
    ensures Lex("1.") == Lexed([Token(IntLit, "1", IntValue(1), 1, 1), EofToken(Cursor(2, 1, 3))],
                               ["Unexpected character '.' at line 1, column 2"], Cursor(2, 1, 3), false)
  {
    IntBeforeDot();
    DotUnexpected();
    ContinuedThen("1.", Cursor(0, 1, 1), [Token(IntLit, "1", IntValue(1), 1, 1)], [], Cursor(1, 1, 2));
    ContinuedThen("1.", Cursor(1, 1, 2), [], ["Unexpected character '.' at line 1, column 2"], Cursor(2, 1, 3));
  }

  // ---------------------------------------------------------------------------------------
  // `var x = 10;`

  const Decl := "var x = 10;"

  lemma DeclVar()
    ensures LexPass(Decl, Cursor(0, 1, 1)) == Continued([Token(Var, "var", NoneValue, 1, 1)], [], Cursor(3, 1, 4))
  {
    assert Decl[0] == 'v' && Decl[1] == 'a' && Decl[2] == 'r' && Decl[3] == ' ';
    WordPass(Decl, Cursor(0, 1, 1), 0, 3);
    assert Decl[0..3] == "var";
  }

  lemma DeclName()
    ensures LexPass(Decl, Cursor(3, 1, 4)) == Continued([Token(Ident, "x", NoneValue, 1, 5)], [], Cursor(5, 1, 6))
  {
    assert Decl[3] == ' ' && Decl[4] == 'x' && Decl[5] == ' ';
    WordPass(Decl, Cursor(3, 1, 4), 4, 5);
    assert Decl[4..5] == "x";
  }

  lemma DeclAssign()
    ensures LexPass(Decl, Cursor(5, 1, 6)) == Continued([Token(Assign, "=", NoneValue, 1, 7)], [], Cursor(7, 1, 8))
  {
    assert Decl[5] == ' ' && Decl[6] == '=' && Decl[7] == ' ';
    OperatorPass(Decl, Cursor(5, 1, 6), 6);
  }

  lemma DeclValue()
    ensures LexPass(Decl, Cursor(7, 1, 8)) == Continued([Token(IntLit, "10", IntValue(10), 1, 9)], [], Cursor(10, 1, 11))
  {
    assert Decl[7] == ' ' && Decl[8] == '1' && Decl[9] == '0' && Decl[10] == ';';
    IntPass(Decl, Cursor(7, 1, 8), 8, 10);
    assert Decl[8..10] == "10";
    assert DigitsValue("10") == 10;
  }

  lemma DeclEnd()
    ensures LexPass(Decl, Cursor(10, 1, 11)) == Continued([Token(Semicolon, ";", NoneValue, 1, 11)], [], Cursor(11, 1, 12))
  {
    assert |Decl| == 11 && Decl[10] == ';';
    OperatorPass(Decl, Cursor(10, 1, 11), 10);
  }

  lemma DeclRest()
    ensures TokenizeFrom(Decl, Cursor(7, 1, 8)) ==
              Lexed([Token(IntLit, "10", IntValue(10), 1, 9), Token(Semicolon, ";", NoneValue, 1, 11), EofToken(Cursor(11, 1, 12))],
                    [], Cursor(11, 1, 12), false)
  {
    DeclValue();
    DeclEnd();
    var last := TokenizeFrom(Decl, Cursor(11, 1, 12));
    assert last == Lexed([EofToken(Cursor(11, 1, 12))], [], Cursor(11, 1, 12), false);
    ContinuedThen(Decl, Cursor(10, 1, 11), [Token(Semicolon, ";", NoneValue, 1, 11)], [], Cursor(11, 1, 12));
    ContinuedThen(Decl, Cursor(7, 1, 8), [Token(IntLit, "10", IntValue(10), 1, 9)], [], Cursor(10, 1, 11));
  }

  /** `var x = 10;` lexes as VAR, ID `x`, ASSIGN, INT_LIT 10 and SEMICOLON, each at its column,
      then EOF, with no errors. */
  lemma DeclarationTokens()
    ensures Lex(Decl) == Lexed([Token(Var, "var", NoneValue, 1, 1), Token(Ident, "x", NoneValue, 1, 5),
                                Token(Assign, "=", NoneValue, 1, 7), Token(IntLit, "10", IntValue(10), 1, 9),
                                Token(Semicolon, ";", NoneValue, 1, 11), EofToken(Cursor(11, 1, 12))],
                               [], Cursor(11, 1, 12), false)
  {
    var t0, t1, t2 := Token(Var, "var", NoneValue, 1, 1), Token(Ident, "x", NoneValue, 1, 5), Token(Assign, "=", NoneValue, 1, 7);
    var rest := [Token(IntLit, "10", IntValue(10), 1, 9), Token(Semicolon, ";", NoneValue, 1, 11), EofToken(Cursor(11, 1, 12))];
    var e := Cursor(11, 1, 12);
    DeclRest();
    DeclAssign();
    ContinuedThen(Decl, Cursor(5, 1, 6), [t2], [], Cursor(7, 1, 8));
    assert TokenizeFrom(Decl, Cursor(5, 1, 6)) == Lexed([t2] + rest, [], e, false);
    DeclName();
    ContinuedThen(Decl, Cursor(3, 1, 4), [t1], [], Cursor(5, 1, 6));
    assert TokenizeFrom(Decl, Cursor(3, 1, 4)) == Lexed([t1] + ([t2] + rest), [], e, false);
    DeclVar();
    ContinuedThen(Decl, Cursor(0, 1, 1), [t0], [], Cursor(3, 1, 4));
    assert TokenizeFrom(Decl, Cursor(0, 1, 1)) == Lexed([t0] + ([t1] + ([t2] + rest)), [], e, false);
    Flatten(t0, t1, t2, rest[0], rest[1], rest[2]);
  }

  // ---------------------------------------------------------------------------------------
  // `print "hello";`

  const Hello := "hello"
  const Quoted := "\"" + Hello + "\""
  const Greeting := "print " + Quoted + ";"

  lemma GreetingPrint()
    ensures LexPass(Greeting, Cursor(0, 1, 1)) == Continued([Token(Print, "print", NoneValue, 1, 1)], [], Cursor(5, 1, 6))
  {
    SliceLeft("print " + Quoted, ";", 0, 5);
    SliceLeft("print ", Quoted, 0, 5);
    assert Greeting[0] == 'p' && Greeting[1] == 'r' && Greeting[2] == 'i' && Greeting[3] == 'n' && Greeting[4] == 't';
    assert Greeting[5] == ' ';
    WordPass(Greeting, Cursor(0, 1, 1), 0, 5);
    assert "print "[0..5] == "print";
  }

  lemma GreetingString()
    ensures LexPass(Greeting, Cursor(5, 1, 6)) == Continued([Token(StringLit, Quoted, StrValue(Hello), 1, 7)], [], Cursor(13, 1, 14))
  {
    assert |Quoted| == 7 && Quoted[0] == '"' && Quoted[6] == '"';
    assert forall k :: 1 <= k < 6 ==> Quoted[k] == Hello[k - 1];
    assert Greeting[5] == ' ' && Greeting[6] == '"' && Greeting[12] == '"';
    StringPass(Greeting, Cursor(5, 1, 6), 6, 12);
    SliceLeft("print " + Quoted, ";", 6, 13);
    SliceRight("print ", Quoted, 6, 13);
    SliceLeft("print " + Quoted, ";", 7, 12);
    SliceRight("print ", Quoted, 7, 12);
    SliceLeft("\"" + Hello, "\"", 1, 6);
    SliceRight("\"", Hello, 1, 6);
  }

  lemma GreetingEnd()
    ensures LexPass(Greeting, Cursor(13, 1, 14)) == Continued([Token(Semicolon, ";", NoneValue, 1, 14)], [], Cursor(14, 1, 15))
  {
    assert |Greeting| == 14 && Greeting[13] == ';';
    OperatorPass(Greeting, Cursor(13, 1, 14), 13);
  }

  /** `print "hello";` lexes as PRINT, a STRING_LIT whose literal is `hello` and whose lexeme
      keeps the quotes, SEMICOLON and EOF. */
  lemma GreetingTokens()
    ensures Lex(Greeting) == Lexed([Token(Print, "print", NoneValue, 1, 1), Token(StringLit, Quoted, StrValue(Hello), 1, 7),
                                    Token(Semicolon, ";", NoneValue, 1, 14), EofToken(Cursor(14, 1, 15))],
                                   [], Cursor(14, 1, 15), false)
  {
    var e := Cursor(14, 1, 15);
    GreetingEnd();
    ContinuedThen(Greeting, Cursor(13, 1, 14), [Token(Semicolon, ";", NoneValue, 1, 14)], [], e);
    assert TokenizeFrom(Greeting, e) == Lexed([EofToken(e)], [], e, false);
    GreetingString();
    ContinuedThen(Greeting, Cursor(5, 1, 6), [Token(StringLit, Quoted, StrValue(Hello), 1, 7)], [], Cursor(13, 1, 14));
    GreetingPrint();
    ContinuedThen(Greeting, Cursor(0, 1, 1), [Token(Print, "print", NoneValue, 1, 1)], [], Cursor(5, 1, 6));
    Nest(Token(Print, "print", NoneValue, 1, 1), Token(StringLit, Quoted, StrValue(Hello), 1, 7),
         Token(Semicolon, ";", NoneValue, 1, 14), EofToken(e));
  }

  // ---------------------------------------------------------------------------------------
  // Escapes: `"\n\t\q"`

  const Escapes := "\"\\n\\t\\q\""

  /** Inside a string, `\n` and `\t` decode to a newline and a tab, and a backslash before any
      other character stands for that character. */
  lemma EscapesDecode()
    ensures ScanString(Escapes, Cursor(0, 1, 1), '"') == (Closed("\n\tq"), Cursor(8, 1, 9))
  {
    assert |Escapes| == 8 && Escapes[1] == '\\' && Escapes[2] == 'n';
    assert StringBody(Escapes, Cursor(7, 1, 8), '"', "\n\tq") == (Closed("\n\tq"), Cursor(8, 1, 9));
    EscapeStep(Escapes, Cursor(5, 1, 6), '"', "\n\t");
    assert "\n\t" + [Unescape('q', '"')] == "\n\tq";
    EscapeStep(Escapes, Cursor(3, 1, 4), '"', "\n");
    assert "\n" + [Unescape('t', '"')] == "\n\t";
    EscapeStep(Escapes, Cursor(1, 1, 2), '"', "");
    assert "" + [Unescape('n', '"')] == "\n";
  }

  /** The source `"\n\t\q"` lexes as one STRING_LIT holding a newline, a tab and `q`, then EOF. */
  lemma EscapesTokens()
    ensures Lex(Escapes) == Lexed([Token(StringLit, "\"\n\tq\"", StrValue("\n\tq"), 1, 1), EofToken(Cursor(8, 1, 9))],
                                  [], Cursor(8, 1, 9), false)
  {
    var e := Cursor(8, 1, 9);
    var t := Token(StringLit, "\"\n\tq\"", StrValue("\n\tq"), 1, 1);
    EscapesDecode();
    assert AfterWhitespace(Escapes, Cursor(0, 1, 1)) == Cursor(0, 1, 1);
    assert ScanToken(Escapes, Cursor(0, 1, 1)) == Emitted(t, e);
    EmitsAfter(Escapes, Cursor(0, 1, 1), Cursor(0, 1, 1), t, e);
    ContinuedThen(Escapes, Cursor(0, 1, 1), [t], [], e);
    assert TokenizeFrom(Escapes, e) == Lexed([EofToken(e)], [], e, false);
  }

  // ---------------------------------------------------------------------------------------
  // A comment between two declarations

  const Comment := " // This is a comment\n"
  const SecondDecl := "var y = 20;"
  const Commented := Decl + Comment + SecondDecl

  /** The tokens of the first line, and of the second line once the comment is skipped. */
  const FirstLine := [Token(Var, "var", NoneValue, 1, 1), Token(Ident, "x", NoneValue, 1, 5),
                      Token(Assign, "=", NoneValue, 1, 7), Token(IntLit, "10", IntValue(10), 1, 9),
                      Token(Semicolon, ";", NoneValue, 1, 11)]
  const SecondLine := [Token(Var, "var", NoneValue, 2, 1), Token(Ident, "y", NoneValue, 2, 5),
                       Token(Assign, "=", NoneValue, 2, 7), Token(IntLit, "20", IntValue(20), 2, 9),
                       Token(Semicolon, ";", NoneValue, 2, 11)]

  /** Where the characters of the first line sit in the source. */
  lemma FirstLayout()
    ensures |Commented| == 44
    ensures Commented[0] == 'v' && Commented[1] == 'a' && Commented[2] == 'r' && Commented[3] == ' '
    ensures Commented[4] == 'x' && Commented[5] == ' ' && Commented[6] == '=' && Commented[7] == ' '
    ensures Commented[8] == '1' && Commented[9] == '0' && Commented[10] == ';' && Commented[11] == ' '
    ensures Commented[0..3] == "var" && Commented[4..5] == "x" && Commented[8..10] == "10"
  {
    SliceLeft(Decl + Comment, SecondDecl, 0, 11);
    SliceLeft(Decl, Comment, 0, 11);
    assert Decl[0..3] == "var" && Decl[4..5] == "x" && Decl[8..10] == "10";
  }

  /** Where the comment sits in the source: after a blank, from `//` to the newline at 32. */
  lemma CommentLayout()
    ensures |Commented| == 44 && Commented[11] == ' ' && Commented[12] == '/' && Commented[13] == '/'
    ensures Commented[32] == '\n' && forall k :: 12 <= k < 32 ==> Commented[k] != '\n'
  {
    assert forall k :: 1 <= k < 21 ==> Comment[k] != '\n';
  }

  /** Where the characters of the second line sit in the source. */
  lemma SecondLayout()
    ensures |Commented| == 44
    ensures Commented[33] == 'v' && Commented[34] == 'a' && Commented[35] == 'r' && Commented[36] == ' '
    ensures Commented[37] == 'y' && Commented[38] == ' ' && Commented[39] == '=' && Commented[40] == ' '
    ensures Commented[41] == '2' && Commented[42] == '0' && Commented[43] == ';'
    ensures Commented[33..36] == "var" && Commented[37..38] == "y" && Commented[41..43] == "20"
  {
    SliceRight(Decl + Comment, SecondDecl, 33, 44);
    assert SecondDecl[0..3] == "var" && SecondDecl[4..5] == "y" && SecondDecl[8..10] == "20";
  }

  lemma FirstVar()
    ensures LexPass(Commented, Cursor(0, 1, 1)) == Continued([FirstLine[0]], [], Cursor(3, 1, 4))
  {
    FirstLayout();
    WordPass(Commented, Cursor(0, 1, 1), 0, 3);
  }

  lemma FirstName()
    ensures LexPass(Commented, Cursor(3, 1, 4)) == Continued([FirstLine[1]], [], Cursor(5, 1, 6))
  {
    FirstLayout();
    WordPass(Commented, Cursor(3, 1, 4), 4, 5);
  }

  lemma FirstAssign()
    ensures LexPass(Commented, Cursor(5, 1, 6)) == Continued([FirstLine[2]], [], Cursor(7, 1, 8))
  {
    FirstLayout();
    OperatorPass(Commented, Cursor(5, 1, 6), 6);
  }

  lemma FirstValue()
    ensures LexPass(Commented, Cursor(7, 1, 8)) == Continued([FirstLine[3]], [], Cursor(10, 1, 11))
  {
    FirstLayout();
    IntPass(Commented, Cursor(7, 1, 8), 8, 10);
    assert DigitsValue("10") == 10;
  }

  lemma FirstEnd()
    ensures LexPass(Commented, Cursor(10, 1, 11)) == Continued([FirstLine[4]], [], Cursor(11, 1, 12))
  {
    FirstLayout();
    OperatorPass(Commented, Cursor(10, 1, 11), 10);
  }

  /** The comment is skipped through its newline, emitting and reporting nothing. */
  lemma CommentSkipped()
    ensures LexPass(Commented, Cursor(11, 1, 12)) == Continued([], [], Cursor(33, 2, 1))
  {
    CommentLayout();
    assert AfterWhitespace(Commented, Cursor(11, 1, 12)) == Cursor(12, 1, 13);
    assert IsCommentStart(Commented, 12);
    ToNewlineAt(Commented, Cursor(12, 1, 13), 32);
    assert AfterComment(Commented, Cursor(12, 1, 13)) == Cursor(33, 2, 1);
  }

  lemma SecondVar()
    ensures LexPass(Commented, Cursor(33, 2, 1)) == Continued([SecondLine[0]], [], Cursor(36, 2, 4))
  {
    SecondLayout();
    WordPass(Commented, Cursor(33, 2, 1), 33, 36);
  }

  lemma SecondName()
    ensures LexPass(Commented, Cursor(36, 2, 4)) == Continued([SecondLine[1]], [], Cursor(38, 2, 6))
  {
    SecondLayout();
    WordPass(Commented, Cursor(36, 2, 4), 37, 38);
  }

  lemma SecondAssign()
    ensures LexPass(Commented, Cursor(38, 2, 6)) == Continued([SecondLine[2]], [], Cursor(40, 2, 8))
  {
    SecondLayout();
    OperatorPass(Commented, Cursor(38, 2, 6), 39);
  }

  lemma SecondValue()
    ensures LexPass(Commented, Cursor(40, 2, 8)) == Continued([SecondLine[3]], [], Cursor(43, 2, 11))
  {
    SecondLayout();
    IntPass(Commented, Cursor(40, 2, 8), 41, 43);
    assert DigitsValue("20") == 20;
  }

  lemma SecondEnd()
    ensures LexPass(Commented, Cursor(43, 2, 11)) == Continued([SecondLine[4]], [], Cursor(44, 2, 12))
  {
    SecondLayout();
    OperatorPass(Commented, Cursor(43, 2, 11), 43);
  }

  /** From the start of the second line on: its five tokens, then EOF. */
  lemma SecondLineTokens()
    ensures TokenizeFrom(Commented, Cursor(33, 2, 1)) ==
              Lexed(SecondLine + [EofToken(Cursor(44, 2, 12))], [], Cursor(44, 2, 12), false)
  {
    var e := Cursor(44, 2, 12);
    assert TokenizeFrom(Commented, e) == Lexed([EofToken(e)], [], e, false);
    SecondEnd();
    ContinuedThen(Commented, Cursor(43, 2, 11), [SecondLine[4]], [], e);
    SecondValue();
    ContinuedThen(Commented, Cursor(40, 2, 8), [SecondLine[3]], [], Cursor(43, 2, 11));
    SecondAssign();
    ContinuedThen(Commented, Cursor(38, 2, 6), [SecondLine[2]], [], Cursor(40, 2, 8));
    SecondName();
    ContinuedThen(Commented, Cursor(36, 2, 4), [SecondLine[1]], [], Cursor(38, 2, 6));
    SecondVar();
    ContinuedThen(Commented, Cursor(33, 2, 1), [SecondLine[0]], [], Cursor(36, 2, 4));
    Cons5(SecondLine[0], SecondLine[1], SecondLine[2], SecondLine[3], SecondLine[4], [EofToken(e)]);
  }

  /** From the end of the first line on: the comment is skipped and the second line follows. */
  lemma AfterFirstLine()
    ensures TokenizeFrom(Commented, Cursor(11, 1, 12)) ==
              Lexed(SecondLine + [EofToken(Cursor(44, 2, 12))], [], Cursor(44, 2, 12), false)
  {
    CommentSkipped();
    ContinuedThen(Commented, Cursor(11, 1, 12), [], [], Cursor(33, 2, 1));
    SecondLineTokens();
    EmptyConcat(SecondLine + [EofToken(Cursor(44, 2, 12))]);
    EmptyConcat<string>([]);
  }

  /** A `//` comment runs to the end of its line: `var x = 10; // …` followed by `var y = 20;`
      on the next line lexes as both declarations, two VAR tokens among them, the second line's
      tokens placed on line 2, then EOF, with no errors. */
  lemma CommentedTokens()
    ensures Lex(Commented) ==
              Lexed(FirstLine + (SecondLine + [EofToken(Cursor(44, 2, 12))]), [], Cursor(44, 2, 12), false)
  {
    var rest := SecondLine + [EofToken(Cursor(44, 2, 12))];
    AfterFirstLine();
    FirstEnd();
    ContinuedThen(Commented, Cursor(10, 1, 11), [FirstLine[4]], [], Cursor(11, 1, 12));
    FirstValue();
    ContinuedThen(Commented, Cursor(7, 1, 8), [FirstLine[3]], [], Cursor(10, 1, 11));
    FirstAssign();
    ContinuedThen(Commented, Cursor(5, 1, 6), [FirstLine[2]], [], Cursor(7, 1, 8));
    FirstName();
    ContinuedThen(Commented, Cursor(3, 1, 4), [FirstLine[1]], [], Cursor(5, 1, 6));
    FirstVar();
    ContinuedThen(Commented, Cursor(0, 1, 1), [FirstLine[0]], [], Cursor(3, 1, 4));
    Cons5(FirstLine[0], FirstLine[1], FirstLine[2], FirstLine[3], FirstLine[4], rest);
  }
}
