/** The MiniScript lexer: turns source text into tokens, tracking line and column, skipping
    `//` comments, decoding string escapes and recording errors instead of stopping at the
    first bad character.

    The first half gives each step of the lexer as a function of the source and a cursor;
    the class `Lexer` at the end updates its fields in place, loop by loop, and each of its
    methods is proved to do what the corresponding function says. */
module Lexer {
  import opened Strings
  import opened Wrappers
  import opened TokenTypes

  /** Position in the source, with the 1-based line and column of that position. */
  datatype Cursor = Cursor(pos: nat, line: nat, column: nat)

  /** The cursor after moving over one character: a newline starts a new line at column 1,
      any other character moves one column to the right. */
  function Adv(c: Cursor, ch: char): Cursor {
    if ch == '\n' then Cursor(c.pos + 1, c.line + 1, 1) else Cursor(c.pos + 1, c.line, c.column + 1)
  }

  /** The cursor after moving over the characters of `src` from `c.pos` up to `j`, one by one. */
  function Walk(src: string, c: Cursor, j: nat): (d: Cursor)
    requires c.pos <= j <= |src|
    ensures d.pos == j
    decreases j - c.pos
  {
    if c.pos == j then c else Walk(src, Adv(c, src[c.pos]), j)
  }

  /** The number of newline characters in `src[i..j]`. */
  function NewlinesBetween(src: string, i: nat, j: nat): nat
    requires i <= j <= |src|
    decreases j - i
  {
    if i == j then 0 else (if src[i] == '\n' then 1 else 0) + NewlinesBetween(src, i + 1, j)
  }

  /** Walking to `j` and then on to `k` is walking to `k`. */
  lemma {:induction false} WalkTrans(src: string, c: Cursor, j: nat, k: nat)
    requires c.pos <= j <= k <= |src|
    ensures Walk(src, Walk(src, c, j), k) == Walk(src, c, k)
    decreases j - c.pos
  {
    if c.pos < j {
      WalkTrans(src, Adv(c, src[c.pos]), j, k);
    }
  }

  /** Walking one character further is one more advance. */
  lemma WalkStep(src: string, c: Cursor, j: nat)
    requires c.pos <= j < |src|
    ensures Walk(src, c, j + 1) == Adv(Walk(src, c, j), src[j])
  {
    WalkTrans(src, c, j, j + 1);
  }

  /** Across text without newlines only the column moves, by the length of the text. */
  lemma {:induction false} WalkFlat(src: string, c: Cursor, j: nat)
    requires c.pos <= j <= |src|
    requires forall i :: c.pos <= i < j ==> src[i] != '\n'
    ensures Walk(src, c, j) == Cursor(j, c.line, c.column + (j - c.pos))
    decreases j - c.pos
  {
    if c.pos < j {
      WalkFlat(src, Adv(c, src[c.pos]), j);
    }
  }

  /** The line grows by the number of newlines crossed. */
  lemma {:induction false} WalkCounts(src: string, c: Cursor, j: nat)
    requires c.pos <= j <= |src|
    ensures Walk(src, c, j).line == c.line + NewlinesBetween(src, c.pos, j)
    decreases j - c.pos
  {
    if c.pos < j {
      WalkCounts(src, Adv(c, src[c.pos]), j);
    }
  }

  /** After the last newline crossed the column restarts at 1 and counts the characters since. */
  lemma WalkAfterNewline(src: string, c: Cursor, k: nat, j: nat)
    requires c.pos <= k < j <= |src| && src[k] == '\n'
    requires forall i :: k < i < j ==> src[i] != '\n'
    ensures Walk(src, c, j).column == j - k
  {
    WalkStep(src, c, k);
    WalkTrans(src, c, k + 1, j);
    WalkFlat(src, Walk(src, c, k + 1), j);
  }

  /** current_char / peek_char: the character at `pos`, or None past the end. */
  function CharAt(src: string, pos: nat): Option<char> {
    if pos >= |src| then None else Some(src[pos])
  }

  /** advance: at the end of the input nothing changes and there is no character; otherwise
      the character is consumed, a newline moving to column 1 of the next line and any other
      character one column to the right. */
  function Step(src: string, c: Cursor): (r: (Option<char>, Cursor))
    requires c.pos <= |src|
    ensures c.pos == |src| ==> r == (None, c)
    ensures c.pos < |src| ==> r == (Some(src[c.pos]), Adv(c, src[c.pos]))
  {
    if c.pos >= |src| then (None, c)
    else (Some(src[c.pos]), Adv(c, src[c.pos]))
  }

  predicate IsWhitespace(ch: char) {
    ch == ' ' || ch == '\t' || ch == '\r' || ch == '\n'
  }

  /** skip_whitespace: the cursor moves over the longest run of blanks, tabs, carriage
      returns and newlines. */
  function AfterWhitespace(src: string, c: Cursor): (r: Cursor)
    requires c.pos <= |src|
    ensures c.pos <= r.pos <= |src|
    ensures forall i :: c.pos <= i < r.pos ==> IsWhitespace(src[i])
    ensures r.pos == |src| || !IsWhitespace(src[r.pos])
    decreases |src| - c.pos
  {
    if c.pos < |src| && IsWhitespace(src[c.pos]) then AfterWhitespace(src, Step(src, c).1) else c
  }

  predicate IsCommentStart(src: string, pos: nat) {
    CharAt(src, pos) == Some('/') && CharAt(src, pos + 1) == Some('/')
  }

  /** The loop of skip_comment: moves up to the next newline or the end of the input. */
  function ToNewline(src: string, c: Cursor): (r: Cursor)
    requires c.pos <= |src|
    ensures c.pos <= r.pos <= |src|
    ensures forall i :: c.pos <= i < r.pos ==> src[i] != '\n'
    ensures r.pos == |src| || src[r.pos] == '\n'
    decreases |src| - c.pos
  {
    if c.pos < |src| && src[c.pos] != '\n' then ToNewline(src, Step(src, c).1) else c
  }

  /** skip_comment: at `//` everything up to and including the next newline is skipped (up
      to the end of the input when there is none); anywhere else nothing moves. */
  function AfterComment(src: string, c: Cursor): (r: Cursor)
    requires c.pos <= |src|
    ensures !IsCommentStart(src, c.pos) ==> r == c
    ensures IsCommentStart(src, c.pos) ==>
              c.pos + 2 <= r.pos <= |src| &&
              (forall i :: c.pos <= i < r.pos - 1 ==> src[i] != '\n') &&
              (r.pos == |src| || src[r.pos - 1] == '\n')
  {
    if IsCommentStart(src, c.pos) then
      var e := ToNewline(src, c);
      if e.pos < |src| then Step(src, e).1 else e
    else c
  }

  /** Skipping whitespace is walking over it. */
  lemma {:induction false} AfterWhitespaceWalk(src: string, c: Cursor)
    requires c.pos <= |src|
    ensures AfterWhitespace(src, c) == Walk(src, c, AfterWhitespace(src, c).pos)
    decreases |src| - c.pos
  {
    if c.pos < |src| && IsWhitespace(src[c.pos]) {
      AfterWhitespaceWalk(src, Step(src, c).1);
    }
  }

  lemma {:induction false} ToNewlineWalk(src: string, c: Cursor)
    requires c.pos <= |src|
    ensures ToNewline(src, c) == Walk(src, c, ToNewline(src, c).pos)
    decreases |src| - c.pos
  {
    if c.pos < |src| && src[c.pos] != '\n' {
      ToNewlineWalk(src, Step(src, c).1);
    }
  }

  /** Skipping a comment is walking over it, so the newline that ends it is counted. */
  lemma AfterCommentWalk(src: string, c: Cursor)
    requires c.pos <= |src|
    ensures AfterComment(src, c) == Walk(src, c, AfterComment(src, c).pos)
  {
    if IsCommentStart(src, c.pos) {
      var e := ToNewline(src, c);
      ToNewlineWalk(src, c);
      if e.pos < |src| {
        WalkStep(src, c, e.pos);
      }
    }
  }

  /** How the character after a backslash is decoded inside a string quoted by `quote`. */
  function Unescape(n: char, quote: char): char {
    if n == 'n' then '\n'
    else if n == 't' then '\t'
    else if n == '\\' then '\\'
    else if n == quote then quote
    else n
  }

  /** The outcome of read_string. A backslash as the very last character of the input makes
      the source fail with an uncaught type error (it appends None to the value): that is
      BackslashAtEnd. */
  datatype StringScan = Closed(value: string) | Unterminated(message: string) | BackslashAtEnd

  function UnterminatedMessage(line: nat): string {
    "Unterminated string at line " + IntToString(line)
  }

  /** The loop of read_string, with `acc` the value decoded so far. */
  function StringBody(src: string, c: Cursor, quote: char, acc: string): (r: (StringScan, Cursor))
    requires c.pos <= |src|
    ensures c.pos <= r.1.pos <= |src|
    ensures r.0.Unterminated? || r.0.BackslashAtEnd? ==> r.1.pos == |src|
    ensures r.0.Unterminated? ==> r.0.message == UnterminatedMessage(r.1.line)
    ensures r.0.Closed? ==> c.pos < r.1.pos && src[r.1.pos - 1] == quote
    decreases |src| - c.pos
  {
    if c.pos == |src| then
      (Unterminated(UnterminatedMessage(c.line)), c)
    else
      var ch := src[c.pos];
      var c1 := Step(src, c).1;
      if ch == quote then (Closed(acc), c1)
      else if ch == '\\' then
        if c1.pos == |src| then (BackslashAtEnd, c1)
        else
          var c2 := Step(src, c1).1;
          StringBody(src, c2, quote, acc + [Unescape(src[c1.pos], quote)])
      else
        StringBody(src, c1, quote, acc + [ch])
  }

  /** read_string: skip the opening quote, then decode up to the closing one. */
  function ScanString(src: string, c: Cursor, quote: char): (r: (StringScan, Cursor))
    requires c.pos < |src|
    ensures c.pos < r.1.pos <= |src|
  {
    StringBody(src, Step(src, c).1, quote, "")
  }

  /** The cursor after a string is where walking over its characters leads. */
  lemma {:induction false} StringBodyWalk(src: string, c: Cursor, quote: char, acc: string)
    requires c.pos <= |src|
    ensures StringBody(src, c, quote, acc).1 == Walk(src, c, StringBody(src, c, quote, acc).1.pos)
    decreases |src| - c.pos
  {
    if c.pos < |src| && src[c.pos] != quote {
      var c1 := Step(src, c).1;
      if src[c.pos] == '\\' {
        if c1.pos < |src| {
          var c2 := Step(src, c1).1;
          StringBodyWalk(src, c2, quote, acc + [Unescape(src[c1.pos], quote)]);
          assert Walk(src, c1, StringBody(src, c2, quote, acc + [Unescape(src[c1.pos], quote)]).1.pos) ==
                 Walk(src, c2, StringBody(src, c2, quote, acc + [Unescape(src[c1.pos], quote)]).1.pos);
        }
      } else {
        StringBodyWalk(src, c1, quote, acc + [src[c.pos]]);
      }
    }
  }

  /** The way to write one character between `quote` characters: backslashes and the quote
      itself are preceded by a backslash, every other character stands for itself. */
  function EscapeChar(ch: char, quote: char): (e: string)
    ensures 1 <= |e| <= 2 && e[|e| - 1] == ch
    ensures |e| == 2 <==> ch == '\\' || ch == quote
  {
    if ch == '\\' || ch == quote then ['\\', ch] else [ch]
  }

  /** The way to write `s` between `quote` characters. */
  function Escape(s: string, quote: char): string {
    if s == [] then [] else EscapeChar(s[0], quote) + Escape(s[1..], quote)
  }

  /** `src` holds the text `e` at position `i`. */
  predicate HoldsAt(src: string, i: nat, e: string)
    decreases |e|
  {
    |e| == 0 || (i < |src| && src[i] == e[0] && HoldsAt(src, i + 1, e[1..]))
  }

  /** Text held at `i` splits into its two parts, held one after the other. */
  lemma {:induction false} HoldsAtSplit(src: string, i: nat, a: string, b: string)
    requires HoldsAt(src, i, a + b)
    ensures HoldsAt(src, i, a) && HoldsAt(src, i + |a|, b)
    decreases |a|
  {
    if |a| > 0 {
      assert (a + b)[0] == a[0];
      assert (a + b)[1..] == a[1..] + b;
      HoldsAtSplit(src, i + 1, a[1..], b);
    } else {
      assert a + b == b;
    }
  }

  /** The text in the middle of a concatenation is held right after the first part. */
  lemma {:induction false} HoldsAtMiddle(p: string, e: string, r: string)
    ensures HoldsAt(p + e + r, |p|, e)
    decreases |e|
  {
    if |e| > 0 {
      assert (p + e + r)[|p|] == e[0];
      assert p + e + r == (p + [e[0]]) + e[1..] + r;
      HoldsAtMiddle(p + [e[0]], e[1..], r);
    }
  }

  lemma HoldsAtSplit3(src: string, i: nat, a: string, b: string, c: string)
    requires HoldsAt(src, i, a + b + c)
    ensures HoldsAt(src, i, a) && HoldsAt(src, i + |a|, b + c)
  {
    AppendAssoc(a, b, c);
    HoldsAtSplit(src, i, a, b + c);
  }

  /** Reading the escaped form of one character decodes it and moves past the escape. */
  lemma StringBodyEscaped(src: string, c: Cursor, quote: char, acc: string, ch: char) returns (next: Cursor)
    requires quote != 'n' && quote != 't' && quote != '\\'
    requires HoldsAt(src, c.pos, EscapeChar(ch, quote)) && c.pos + |EscapeChar(ch, quote)| < |src|
    ensures next.pos == c.pos + |EscapeChar(ch, quote)|
    ensures StringBody(src, c, quote, acc) == StringBody(src, next, quote, acc + [ch])
  {
    var e := EscapeChar(ch, quote);
    assert src[c.pos + 0] == e[0];
    if |e| == 2 {
      assert src[c.pos + 1] == e[1];
      assert Unescape(ch, quote) == ch;
      next := Step(src, Step(src, c).1).1;
    } else {
      next := Step(src, c).1;
    }
  }

  /** An escaped non-empty text followed by the quote is the escape of its first character
      followed by the escaped rest and the quote. */
  lemma HoldsAtEscape(src: string, i: nat, s: string, quote: char)
    requires s != [] && HoldsAt(src, i, Escape(s, quote) + [quote])
    ensures HoldsAt(src, i, EscapeChar(s[0], quote))
    ensures HoldsAt(src, i + |EscapeChar(s[0], quote)|, Escape(s[1..], quote) + [quote])
    ensures |Escape(s, quote)| == |EscapeChar(s[0], quote)| + |Escape(s[1..], quote)|
  {
    var h, t := EscapeChar(s[0], quote), Escape(s[1..], quote);
    assert Escape(s, quote) == h + t;
    HoldsAtSplit3(src, i, h, t, [quote]);
  }

  /** Reading an escaped non-empty text decodes its first character and leaves the cursor
      before the escaped rest. */
  lemma StringBodyEscapedFirst(src: string, c: Cursor, quote: char, acc: string, s: string)
    returns (next: Cursor)
    requires quote != 'n' && quote != 't' && quote != '\\'
    requires s != [] && HoldsAt(src, c.pos, Escape(s, quote) + [quote])
    ensures next.pos + |Escape(s[1..], quote)| == c.pos + |Escape(s, quote)|
    ensures HoldsAt(src, next.pos, Escape(s[1..], quote) + [quote])
    ensures StringBody(src, c, quote, acc) == StringBody(src, next, quote, acc + [s[0]])
  {
    HoldsAtEscape(src, c.pos, s, quote);
    next := StringBodyEscaped(src, c, quote, acc, s[0]);
  }

  /** Decoding undoes escaping: reading an escaped text followed by the quote gives back the
      text, with the cursor just after the closing quote. */
  lemma {:induction false} StringBodyOfEscaped(src: string, c: Cursor, quote: char, acc: string, s: string)
    requires quote != 'n' && quote != 't' && quote != '\\'
    requires HoldsAt(src, c.pos, Escape(s, quote) + [quote])
    ensures StringBody(src, c, quote, acc).0 == Closed(acc + s)
    ensures StringBody(src, c, quote, acc).1.pos == c.pos + |Escape(s, quote)| + 1
    decreases |s|
  {
    if s == [] {
      assert src[c.pos + 0] == (Escape(s, quote) + [quote])[0] == quote;
    } else {
      var next := StringBodyEscapedFirst(src, c, quote, acc, s);
      StringBodyOfEscaped(src, next, quote, acc + [s[0]], s[1..]);
      ConsConcat(acc, s);
    }
  }

  /** Round trip: a quoted, escaped text reads back as the text itself. */
  lemma ScanStringOfEscaped(s: string, quote: char, rest: string)
    requires quote == '"' || quote == '\''
    ensures var src := [quote] + Escape(s, quote) + [quote] + rest;
            ScanString(src, Cursor(0, 1, 1), quote).0 == Closed(s) &&
            ScanString(src, Cursor(0, 1, 1), quote).1.pos == |Escape(s, quote)| + 2
  {
    var e := Escape(s, quote);
    var src := [quote] + e + [quote] + rest;
    AppendAssoc([quote], e, [quote]);
    HoldsAtMiddle([quote], e + [quote], rest);
    StringBodyOfEscaped(src, Step(src, Cursor(0, 1, 1)).1, quote, "", s);
  }

  /** The end of the run of decimal digits that starts at `i`. */
  function DigitRunEnd(src: string, i: nat): (j: nat)
    requires i <= |src|
    ensures i <= j <= |src|
    ensures forall k :: i <= k < j ==> IsDigit(src[k])
    ensures j == |src| || !IsDigit(src[j])
    decreases |src| - i
  {
    if i < |src| && IsDigit(src[i]) then DigitRunEnd(src, i + 1) else i
  }

  /** Whether the digit run ending at `e` continues as a fraction: a dot followed by a digit. */
  predicate HasFraction(src: string, e: nat) {
    e + 1 < |src| && src[e] == '.' && IsDigit(src[e + 1])
  }

  /** read_number: the digit run at the cursor, extended by the dot and the digit run after it
      when a digit follows the dot. A fraction makes a FLOAT_LIT whose literal is the lexeme
      itself; otherwise the token is an INT_LIT whose literal is the run's integer value. The
      token is placed at the first digit. */
  function ScanNumber(src: string, c: Cursor): (r: (Token, Cursor))
    requires c.pos < |src| && IsDigit(src[c.pos])
    ensures c.pos < r.1.pos <= |src|
    ensures r.0.kind == IntLit || r.0.kind == FloatLit
    ensures r.0.lexeme == src[c.pos..r.1.pos]
    ensures r.0.line == c.line && r.0.column == c.column
    ensures r.1 == Cursor(r.1.pos, c.line, c.column + (r.1.pos - c.pos))
  {
    var e := DigitRunEnd(src, c.pos);
    if HasFraction(src, e) then
      var f := DigitRunEnd(src, e + 1);
      (Token(FloatLit, src[c.pos..f], FloatValue(src[c.pos..f]), c.line, c.column), Cursor(f, c.line, c.column + (f - c.pos)))
    else
      (Token(IntLit, src[c.pos..e], IntValue(DigitsValue(src[c.pos..e])), c.line, c.column), Cursor(e, c.line, c.column + (e - c.pos)))
  }

  /** A digit run is recognised wherever it ends: at the end of the input or before a
      character that is not a digit. */
  lemma {:induction false} DigitRunEndAt(src: string, i: nat, j: nat)
    requires i <= j <= |src|
    requires forall k :: i <= k < j ==> IsDigit(src[k])
    requires j == |src| || !IsDigit(src[j])
    ensures DigitRunEnd(src, i) == j
    decreases j - i
  {
    if i < j {
      DigitRunEndAt(src, i + 1, j);
    }
  }

  /** A run of digits placed after `p` and followed by anything that does not start with a
      digit is recognised as one run. */
  lemma DigitRunOver(src: string, p: string, d: string, r: string)
    requires src == p + d + r && AllDigits(d)
    requires |r| > 0 ==> !IsDigit(r[0])
    ensures DigitRunEnd(src, |p|) == |p| + |d|
  {
    forall k | |p| <= k < |p| + |d| ensures IsDigit(src[k]) {
      assert src[k] == d[k - |p|];
    }
    if |r| > 0 {
      assert src[|p| + |d|] == r[0];
    }
    DigitRunEndAt(src, |p|, |p| + |d|);
  }

  /** How a number is read once the ends of its digit runs are known: without a fraction. */
  lemma ScanNumberInt(src: string, c: Cursor, e: nat)
    requires c.pos < |src| && IsDigit(src[c.pos])
    requires DigitRunEnd(src, c.pos) == e && !HasFraction(src, e)
    ensures ScanNumber(src, c).0 ==
              Token(IntLit, src[c.pos..e], IntValue(DigitsValue(src[c.pos..e])), c.line, c.column)
    ensures ScanNumber(src, c).1 == Cursor(e, c.line, c.column + (e - c.pos))
  {
  }

  /** How a number is read once the ends of its digit runs are known: with a fraction. */
  lemma ScanNumberFloat(src: string, c: Cursor, e: nat, f: nat)
    requires c.pos < |src| && IsDigit(src[c.pos])
    requires DigitRunEnd(src, c.pos) == e && HasFraction(src, e) && DigitRunEnd(src, e + 1) == f
    ensures ScanNumber(src, c).0 == Token(FloatLit, src[c.pos..f], FloatValue(src[c.pos..f]), c.line, c.column)
    ensures ScanNumber(src, c).1 == Cursor(f, c.line, c.column + (f - c.pos))
  {
  }

  /** The decimal rendering of `n` followed by `rest` starts with one digit run, the whole
      rendering, and no fraction follows it. */
  lemma NatLayout(n: nat, rest: string)
    requires |rest| > 0 ==> !IsDigit(rest[0]) && rest[0] != '.'
    ensures var d := NatToString(n);
            var src := d + rest;
            IsDigit(src[0]) && DigitRunEnd(src, 0) == |d| && !HasFraction(src, |d|) && src[0..|d|] == d
  {
    var d := NatToString(n);
    var src := d + rest;
    EmptyConcat(d);
    assert src[0] == d[0];
    DigitRunOver(src, [], d, rest);
    if |rest| > 0 {
      assert src[|d|] == rest[0];
    }
    PrefixOfConcat(d, rest);
  }

  /** Round trip: the decimal rendering of a natural number, followed by anything that neither
      continues the digit run nor starts a fraction, reads back as an INT_LIT carrying that
      number. */
  lemma ScanNumberOfNat(n: nat, rest: string)
    requires |rest| > 0 ==> !IsDigit(rest[0]) && rest[0] != '.'
    ensures var d := NatToString(n);
            var r := ScanNumber(d + rest, Cursor(0, 1, 1));
            r.0 == Token(IntLit, d, IntValue(n), 1, 1) && r.1 == Cursor(|d|, 1, 1 + |d|)
  {
    var d := NatToString(n);
    NatLayout(n, rest);
    ScanNumberInt(d + rest, Cursor(0, 1, 1), |d|);
    DigitsValueOfNatToString(n);
  }

  /** Two renderings joined by a dot and followed by `rest` start with a digit run, the dot,
      and a second digit run that ends with the second rendering. */
  lemma FractionLayout(a: string, b: string, rest: string)
    requires |a| > 0 && |b| > 0 && AllDigits(a) && AllDigits(b)
    requires |rest| > 0 ==> !IsDigit(rest[0])
    ensures var f := a + "." + b;
            var src := f + rest;
            IsDigit(src[0]) && DigitRunEnd(src, 0) == |a| && HasFraction(src, |a|) &&
            DigitRunEnd(src, |a| + 1) == |f| && src[0..|f|] == f
  {
    var f := a + "." + b;
    var src := f + rest;
    Regroup(a, ".", b, rest);
    assert src[0] == a[0];
    DigitRunOver(src, [], a, "." + b + rest);
    assert src[|a|] == '.' && src[|a| + 1] == b[0];
    DigitRunOver(src, a + ".", b, rest);
    PrefixOfConcat(f, rest);
  }

  /** Round trip: two renderings joined by a dot, followed by anything that does not continue
      the second digit run, read back as one FLOAT_LIT whose lexeme is the joined text. */
  lemma ScanNumberOfFraction(m: nat, n: nat, rest: string)
    requires |rest| > 0 ==> !IsDigit(rest[0])
    ensures var f := NatToString(m) + "." + NatToString(n);
            var r := ScanNumber(f + rest, Cursor(0, 1, 1));
            r.0 == Token(FloatLit, f, FloatValue(f), 1, 1) && r.1 == Cursor(|f|, 1, 1 + |f|)
  {
    var a, b := NatToString(m), NatToString(n);
    var f := a + "." + b;
    FractionLayout(a, b, rest);
    ScanNumberFloat(f + rest, Cursor(0, 1, 1), |a|, |f|);
  }

  /** Walking over a run of digits only moves the column. */
  lemma {:induction false} WalkDigits(src: string, c: Cursor, j: nat)
    requires c.pos <= j <= |src|
    requires forall k :: c.pos <= k < j ==> IsDigit(src[k])
    ensures Walk(src, c, j) == Cursor(j, c.line, c.column + (j - c.pos))
    decreases j - c.pos
  {
    if c.pos < j {
      WalkDigits(src, Adv(c, src[c.pos]), j);
    }
  }

  /** Scanning a number crosses no newline. */
  lemma ScanNumberWalk(src: string, c: Cursor)
    requires c.pos < |src| && IsDigit(src[c.pos])
    ensures ScanNumber(src, c).1 == Walk(src, c, ScanNumber(src, c).1.pos)
  {
    var e := DigitRunEnd(src, c.pos);
    WalkDigits(src, c, e);
    if HasFraction(src, e) {
      var c1 := Walk(src, c, e);
      var f := DigitRunEnd(src, e + 1);
      WalkDigits(src, Adv(c1, src[e]), f);
      WalkTrans(src, c, e, f);
    }
  }

  predicate IsWordChar(ch: char) {
    IsAlnum(ch) || ch == '_'
  }

  /** The end of the run of letters, digits and underscores that starts at `i`. */
  function WordRunEnd(src: string, i: nat): (j: nat)
    requires i <= |src|
    ensures i <= j <= |src|
    ensures forall k :: i <= k < j ==> IsWordChar(src[k])
    ensures j == |src| || !IsWordChar(src[j])
    decreases |src| - i
  {
    if i < |src| && IsWordChar(src[i]) then WordRunEnd(src, i + 1) else i
  }

  /** The literal an identifier-like word carries: True and False for the two boolean words. */
  function WordLiteral(kind: TokenKind): Value {
    if kind == TrueLit then BoolValue(true)
    else if kind == FalseLit then BoolValue(false)
    else NoneValue
  }

  /** read_identifier: the longest run of letters, digits and underscores, looked up in the
      keyword table (ID when absent); `true` and `false` carry their boolean value. */
  function ScanIdentifier(src: string, c: Cursor): (r: (Token, Cursor))
    requires c.pos < |src|
    ensures r.1.pos == WordRunEnd(src, c.pos)
    ensures r.0.lexeme == src[c.pos..r.1.pos]
    ensures r.0.kind == KeywordKind(r.0.lexeme) && r.0.literal == WordLiteral(r.0.kind)
    ensures r.0.line == c.line && r.0.column == c.column
    ensures r.1 == Cursor(r.1.pos, c.line, c.column + (r.1.pos - c.pos))
  {
    var e := WordRunEnd(src, c.pos);
    var word := src[c.pos..e];
    var kind := KeywordKind(word);
    (Token(kind, word, WordLiteral(kind), c.line, c.column), Cursor(e, c.line, c.column + (e - c.pos)))
  }

  /** Scanning a word crosses no newline. */
  lemma ScanIdentifierWalk(src: string, c: Cursor)
    requires c.pos < |src|
    ensures ScanIdentifier(src, c).1 == Walk(src, c, ScanIdentifier(src, c).1.pos)
  {
    WalkFlat(src, c, WordRunEnd(src, c.pos));
  }

  /** Round trip: a word of letters, digits and underscores that does not start with a digit,
      followed by anything that does not continue it, reads back as one token whose lexeme is
      the word: the keyword's kind for a reserved word (with True and False as the literals of
      `true` and `false`), ID otherwise. */
  lemma ScanIdentifierOfWord(w: string, rest: string)
    requires |w| > 0 && (IsAlpha(w[0]) || w[0] == '_')
    requires forall i :: 0 <= i < |w| ==> IsWordChar(w[i])
    requires |rest| > 0 ==> !IsWordChar(rest[0])
    ensures var r := ScanIdentifier(w + rest, Cursor(0, 1, 1));
            r.0 == Token(KeywordKind(w), w, WordLiteral(KeywordKind(w)), 1, 1) &&
            r.1 == Cursor(|w|, 1, 1 + |w|)
  {
    var src := w + rest;
    WordLayout(w, rest);
  }

  /** A word followed by anything that does not continue it is one run of word characters. */
  lemma WordLayout(w: string, rest: string)
    requires forall i :: 0 <= i < |w| ==> IsWordChar(w[i])
    requires |rest| > 0 ==> !IsWordChar(rest[0])
    ensures WordRunEnd(w + rest, 0) == |w| && (w + rest)[0..|w|] == w
  {
    var src := w + rest;
    forall k | 0 <= k < |w| ensures IsWordChar(src[k]) {
      assert src[k] == w[k];
    }
    if |rest| > 0 {
      assert src[|w|] == rest[0];
    }
    WordRunEndAt(src, 0, |w|);
    PrefixOfConcat(w, rest);
  }

  /** A word run is recognised wherever it ends: at the end of the input or before a
      character that cannot continue it. */
  lemma {:induction false} WordRunEndAt(src: string, i: nat, j: nat)
    requires i <= j <= |src|
    requires forall k :: i <= k < j ==> IsWordChar(src[k])
    requires j == |src| || !IsWordChar(src[j])
    ensures WordRunEnd(src, i) == j
    decreases j - i
  {
    if i < j {
      WordRunEndAt(src, i + 1, j);
    }
  }

  /** The two-character operators, tried before any one-character operator. */
  function TwoCharKind(a: char, b: char): Option<TokenKind> {
    if a == '=' && b == '=' then Some(Eq)
    else if a == '!' && b == '=' then Some(Ne)
    else if a == '<' && b == '=' then Some(Le)
    else if a == '>' && b == '=' then Some(Ge)
    else if a == '&' && b == '&' then Some(And)
    else if a == '|' && b == '|' then Some(Or)
    else None
  }

  /** The one-character operators and delimiters. */
  function SingleCharKind(a: char): Option<TokenKind> {
    match a
    case '+' => Some(Plus)
    case '-' => Some(Minus)
    case '*' => Some(Star)
    case '/' => Some(Slash)
    case '%' => Some(Percent)
    case '<' => Some(Lt)
    case '>' => Some(Gt)
    case '!' => Some(Not)
    case '=' => Some(Assign)
    case '(' => Some(LParen)
    case ')' => Some(RParen)
    case '{' => Some(LBrace)
    case '}' => Some(RBrace)
    case ';' => Some(Semicolon)
    case ',' => Some(Comma)
    case ':' => Some(Colon)
    case _ => None
  }

  function UnexpectedMessage(ch: char, c: Cursor): string {
    "Unexpected character '" + [ch] + "' at line " + IntToString(c.line) + ", column " + IntToString(c.column)
  }

  /** What one pass of the body of tokenize's loop produces once whitespace and comments
      are behind it. */
  datatype Scan =
    | Emitted(token: Token, next: Cursor)
    | Unexpected(message: string, next: Cursor)
    | Unclosed(message: string, next: Cursor)
    | Crashed(next: Cursor)

  predicate IsQuote(ch: char) {
    ch == '"' || ch == '\''
  }

  /** The token that starts at the cursor (the `try` block of tokenize). */
  function ScanToken(src: string, c: Cursor): (r: Scan)
    requires c.pos < |src|
    ensures c.pos < r.next.pos <= |src|
    ensures r.Emitted? ==> r.token.kind != Eof && r.token.line == c.line && r.token.column == c.column
    ensures r.Unexpected? ==> r.next.pos == c.pos + 1
    ensures r.Unclosed? || r.Crashed? ==> r.next.pos == |src|
  {
    var ch := src[c.pos];
    if IsQuote(ch) then
      var (s, c2) := ScanString(src, c, ch);
      match s
      case Closed(v) => Emitted(Token(StringLit, [ch] + v + [ch], StrValue(v), c.line, c.column), c2)
      case Unterminated(msg) => Unclosed(msg, c2)
      case BackslashAtEnd => Crashed(c2)
    else if IsDigit(ch) then
      var (t, c2) := ScanNumber(src, c);
      Emitted(t, c2)
    else if IsAlpha(ch) || ch == '_' then
      var (t, c2) := ScanIdentifier(src, c);
      Emitted(t, c2)
    else if c.pos + 1 < |src| && TwoCharKind(ch, src[c.pos + 1]).Some? then
      var c2 := Step(src, Step(src, c).1).1;
      Emitted(Token(TwoCharKind(ch, src[c.pos + 1]).value, [ch, src[c.pos + 1]], NoneValue, c.line, c.column), c2)
    else if SingleCharKind(ch).Some? then
      Emitted(Token(SingleCharKind(ch).value, [ch], NoneValue, c.line, c.column), Step(src, c).1)
    else
      Unexpected(UnexpectedMessage(ch, c), Step(src, c).1)
  }

  /** The cursor after a token is where walking over the token's characters leads. */
  lemma ScanTokenWalk(src: string, c: Cursor)
    requires c.pos < |src|
    ensures ScanToken(src, c).next == Walk(src, c, ScanToken(src, c).next.pos)
  {
    var ch := src[c.pos];
    if IsQuote(ch) {
      StringBodyWalk(src, Step(src, c).1, ch, "");
    }
    if !IsQuote(ch) && IsDigit(ch) {
      ScanNumberWalk(src, c);
    }
    if !IsQuote(ch) && !IsDigit(ch) && (IsAlpha(ch) || ch == '_') {
      ScanIdentifierWalk(src, c);
    }
    if !IsQuote(ch) && !IsDigit(ch) && !(IsAlpha(ch) || ch == '_') &&
       c.pos + 1 < |src| && TwoCharKind(ch, src[c.pos + 1]).Some? {
      var c1 := Step(src, c).1;
      assert Walk(src, c1, c.pos + 2) == Step(src, c1).1;
    }
  }

  /** The operator and delimiter spellings of MiniScript with their kinds, one entry per
      spelling. */
  const Operators: map<string, TokenKind> := map[
    "==" := Eq, "!=" := Ne, "<=" := Le, ">=" := Ge, "&&" := And, "||" := Or,
    "+" := Plus, "-" := Minus, "*" := Star, "/" := Slash, "%" := Percent,
    "<" := Lt, ">" := Gt, "!" := Not, "=" := Assign,
    "(" := LParen, ")" := RParen, "{" := LBrace, "}" := RBrace,
    ";" := Semicolon, "," := Comma, ":" := Colon]

  /** The two-character dispatch recognises exactly the two-character spellings. */
  lemma TwoCharKindIsTable(a: char, b: char)
    ensures TwoCharKind(a, b).Some? <==> [a, b] in Operators
    ensures TwoCharKind(a, b).Some? ==> TwoCharKind(a, b).value == Operators[[a, b]]
  {
    if [a, b] in Operators {
      var k :| k in Operators && k == [a, b];
      assert k[0] == a && k[1] == b;
    }
  }

  /** The one-character dispatch recognises exactly the one-character spellings. */
  lemma SingleCharKindIsTable(a: char)
    ensures SingleCharKind(a).Some? <==> [a] in Operators
    ensures SingleCharKind(a).Some? ==> SingleCharKind(a).value == Operators[[a]]
  {
    if [a] in Operators {
      var k :| k in Operators && k == [a];
      assert k[0] == a;
    }
  }

  /** A character that can start a token: a quote, a letter, a digit, an underscore, a
      one-character operator, or the first of a two-character operator written in full. */
  predicate StartsToken(src: string, i: nat)
    requires i < |src|
  {
    IsQuote(src[i]) || IsAlnum(src[i]) || src[i] == '_' || [src[i]] in Operators ||
    (i + 1 < |src| && [src[i], src[i + 1]] in Operators)
  }

  /** A two-character operator is taken as one token, even where its first character is an
      operator of its own. */
  lemma TwoCharOperatorFirst(src: string, c: Cursor)
    requires c.pos + 1 < |src| && [src[c.pos], src[c.pos + 1]] in Operators
    ensures ScanToken(src, c) ==
              Emitted(Token(Operators[[src[c.pos], src[c.pos + 1]]], [src[c.pos], src[c.pos + 1]], NoneValue, c.line, c.column),
                      Cursor(c.pos + 2, c.line, c.column + 2))
  {
    TwoCharKindIsTable(src[c.pos], src[c.pos + 1]);
  }

  /** A one-character operator not starting a two-character one is a token of one character. */
  lemma OneCharOperator(src: string, c: Cursor)
    requires c.pos < |src| && [src[c.pos]] in Operators
    requires !(c.pos + 1 < |src| && [src[c.pos], src[c.pos + 1]] in Operators)
    ensures ScanToken(src, c) ==
              Emitted(Token(Operators[[src[c.pos]]], [src[c.pos]], NoneValue, c.line, c.column),
                      Cursor(c.pos + 1, c.line, c.column + 1))
  {
    SingleCharKindIsTable(src[c.pos]);
    if c.pos + 1 < |src| {
      TwoCharKindIsTable(src[c.pos], src[c.pos + 1]);
    }
  }

  /** A character is reported as unexpected exactly when it cannot start a token; the report
      names the character and its position, and scanning goes on after that one character. */
  lemma UnexpectedExactly(src: string, c: Cursor)
    requires c.pos < |src|
    ensures ScanToken(src, c).Unexpected? <==> !StartsToken(src, c.pos)
    ensures ScanToken(src, c).Unexpected? ==>
              ScanToken(src, c) == Unexpected(UnexpectedMessage(src[c.pos], c), Adv(c, src[c.pos]))
  {
    SingleCharKindIsTable(src[c.pos]);
    if c.pos + 1 < |src| {
      TwoCharKindIsTable(src[c.pos], src[c.pos + 1]);
    }
  }

  /** A single `&` or `|` is no operator: only the doubled forms are. */
  lemma LoneAndOrBarUnexpected(src: string, c: Cursor)
    requires c.pos < |src| && (src[c.pos] == '&' || src[c.pos] == '|')
    requires c.pos + 1 == |src| || src[c.pos + 1] != src[c.pos]
    ensures ScanToken(src, c) == Unexpected(UnexpectedMessage(src[c.pos], c), Cursor(c.pos + 1, c.line, c.column + 1))
  {
    UnexpectedExactly(src, c);
  }

  /** A string token spells the decoded value between two copies of its quote, whatever
      escapes the source used, and carries the value as its literal. */
  lemma StringTokenOfEscaped(s: string, quote: char, rest: string)
    requires quote == '"' || quote == '\''
    ensures var src := [quote] + Escape(s, quote) + [quote] + rest;
            var r := ScanToken(src, Cursor(0, 1, 1));
            r.Emitted? && r.token == Token(StringLit, [quote] + s + [quote], StrValue(s), 1, 1) &&
            r.next.pos == |Escape(s, quote)| + 2
  {
    ScanStringOfEscaped(s, quote, rest);
  }

  /** Where tokenize ends: the tokens and errors it collected, the final cursor, and whether
      an uncaught exception escaped before the end-of-input token was added. */
  datatype Lexed = Lexed(tokens: seq<Token>, errors: seq<string>, cursor: Cursor, crashed: bool)

  function EofToken(c: Cursor): Token {
    Token(Eof, "", NoneValue, c.line, c.column)
  }

  /** One pass of tokenize's loop: it either finishes the loop, with the last tokens and
      errors, or continues from `next` after appending `emitted` and `reported`. */
  datatype Pass =
    | Finished(result: Lexed)
    | Continued(emitted: seq<Token>, reported: seq<string>, next: Cursor)

  /** The body of tokenize's loop, entered while the cursor is before the end of the input:
      skip whitespace (finishing with EOF at the end of the input), skip a comment, or scan one
      token. A pass that continues has moved and appended at most one token, never EOF; a pass
      that finishes has appended exactly the EOF token, or nothing when it crashed. */
  function LexPass(src: string, c: Cursor): (p: Pass)
    requires c.pos < |src|
    ensures p.Continued? ==> c.pos < p.next.pos <= |src|
    ensures p.Continued? ==> p.emitted == [] || (|p.emitted| == 1 && p.emitted[0].kind != Eof)
    ensures p.Finished? ==> c.pos <= p.result.cursor.pos <= |src|
    ensures p.Finished? && p.result.crashed ==> p.result.tokens == []
    ensures p.Finished? && !p.result.crashed ==>
              p.result.tokens == [EofToken(p.result.cursor)] && p.result.cursor.pos == |src|
    ensures p.Continued? ==> |p.reported| <= 1 && (p.reported != [] ==> p.emitted == [])
    ensures p.Finished? ==> |p.result.errors| <= 1 && (p.result.crashed ==> p.result.errors == [])
  {
    var c1 := AfterWhitespace(src, c);
    if c1.pos >= |src| then Finished(Lexed([EofToken(c1)], [], c1, false))
    else if IsCommentStart(src, c1.pos) then Continued([], [], AfterComment(src, c1))
    else
      match ScanToken(src, c1)
      case Emitted(t, c2) => Continued([t], [], c2)
      case Unexpected(msg, c2) => Continued([], [msg], c2)
      case Unclosed(msg, c2) => Finished(Lexed([EofToken(c2)], [msg], c2, false))
      case Crashed(c2) => Finished(Lexed([], [], c2, true))
  }

  /** A pass reports an error and goes on exactly when, after whitespace, it meets a character
      that starts neither a comment nor a token: the one message names that character and its
      position, no token is emitted and scanning resumes after the character. */
  lemma LexPassUnexpected(src: string, c: Cursor)
    requires c.pos < |src|
    ensures var p := LexPass(src, c);
            var c1 := AfterWhitespace(src, c);
            (p.Continued? && p.reported != []) <==>
              (c1.pos < |src| && !IsCommentStart(src, c1.pos) && !StartsToken(src, c1.pos))
    ensures var p := LexPass(src, c);
            var c1 := AfterWhitespace(src, c);
            c1.pos < |src| && !IsCommentStart(src, c1.pos) && !StartsToken(src, c1.pos) ==>
              p == Continued([], [UnexpectedMessage(src[c1.pos], c1)], Adv(c1, src[c1.pos]))
  {
    var c1 := AfterWhitespace(src, c);
    if c1.pos < |src| {
      UnexpectedExactly(src, c1);
    }
  }

  /** A pass ends the loop with an error exactly when, after whitespace, it meets a string that
      is never closed: the one message gives the line reached at the end of the input, and the
      EOF token still follows. */
  lemma LexPassUnterminated(src: string, c: Cursor)
    requires c.pos < |src|
    ensures var p := LexPass(src, c);
            var c1 := AfterWhitespace(src, c);
            (p.Finished? && p.result.errors != []) <==>
              (c1.pos < |src| && IsQuote(src[c1.pos]) && ScanString(src, c1, src[c1.pos]).0.Unterminated?)
    ensures var p := LexPass(src, c);
            p.Finished? && p.result.errors != [] ==>
              p.result == Lexed([EofToken(p.result.cursor)], [UnterminatedMessage(p.result.cursor.line)], p.result.cursor, false) &&
              p.result.cursor.pos == |src|
  {
  }

  /** The loop of tokenize from cursor `c`: the tokens and errors it appends from there on. */
  function TokenizeFrom(src: string, c: Cursor): (r: Lexed)
    requires c.pos <= |src|
    ensures c.pos <= r.cursor.pos <= |src|
    ensures !r.crashed ==> r.cursor.pos == |src|
    decreases |src| - c.pos
  {
    if c.pos >= |src| then Lexed([EofToken(c)], [], c, false)
    else
      match LexPass(src, c)
      case Finished(l) => l
      case Continued(ts, es, c2) => Prepend(ts, es, TokenizeFrom(src, c2))
  }

  /** The outcome `l` of a later part of the loop, after `ts` and `es` were appended first. */
  function Prepend(ts: seq<Token>, es: seq<string>, l: Lexed): Lexed {
    Lexed(ts + l.tokens, es + l.errors, l.cursor, l.crashed)
  }

  lemma PrependTwice(ts1: seq<Token>, es1: seq<string>, ts2: seq<Token>, es2: seq<string>, l: Lexed)
    ensures Prepend(ts1, es1, Prepend(ts2, es2, l)) == Prepend(ts1 + ts2, es1 + es2, l)
  {
    assert ts1 + (ts2 + l.tokens) == (ts1 + ts2) + l.tokens;
    assert es1 + (es2 + l.errors) == (es1 + es2) + l.errors;
  }

  /** `ts` ends with the EOF token placed at `c`, and holds no other EOF token. */
  predicate EndsWithOneEof(ts: seq<Token>, c: Cursor) {
    |ts| > 0 && ts[|ts| - 1] == EofToken(c) && forall i :: 0 <= i < |ts| - 1 ==> ts[i].kind != Eof
  }

  lemma PrependKeepsOneEof(ts: seq<Token>, rest: seq<Token>, c: Cursor)
    requires forall i :: 0 <= i < |ts| ==> ts[i].kind != Eof
    requires EndsWithOneEof(rest, c)
    ensures EndsWithOneEof(ts + rest, c)
  {
    var all := ts + rest;
    assert all[|all| - 1] == rest[|rest| - 1];
    forall i | 0 <= i < |all| - 1 ensures all[i].kind != Eof {
      if i >= |ts| { assert all[i] == rest[i - |ts|]; }
    }
  }

  /** Unless the loop crashes, it appends exactly one EOF token, last, carrying the final
      position. */
  lemma {:induction false} TokenizeFromEof(src: string, c: Cursor)
    requires c.pos <= |src|
    ensures var r := TokenizeFrom(src, c);
            !r.crashed ==> EndsWithOneEof(r.tokens, r.cursor)
    decreases |src| - c.pos
  {
    if c.pos < |src| {
      var p := LexPass(src, c);
      if p.Continued? {
        TokenizeFromEof(src, p.next);
        var r := TokenizeFrom(src, p.next);
        assert TokenizeFrom(src, c) == Prepend(p.emitted, p.reported, r);
        if !r.crashed {
          PrependKeepsOneEof(p.emitted, r.tokens, r.cursor);
        }
      }
    }
  }

  /** A pass moves the cursor as walking over the characters it consumed does. */
  lemma LexPassWalk(src: string, c: Cursor)
    requires c.pos < |src|
    ensures var p := LexPass(src, c);
            (p.Continued? ==> p.next == Walk(src, c, p.next.pos)) &&
            (p.Finished? ==> p.result.cursor == Walk(src, c, p.result.cursor.pos))
  {
    var c1 := AfterWhitespace(src, c);
    AfterWhitespaceWalk(src, c);
    if c1.pos < |src| {
      if IsCommentStart(src, c1.pos) {
        var c2 := AfterComment(src, c1);
        AfterCommentWalk(src, c1);
        WalkTrans(src, c, c1.pos, c2.pos);
      } else {
        ScanTokenWalk(src, c1);
        WalkTrans(src, c, c1.pos, ScanToken(src, c1).next.pos);
      }
    }
  }

  /** The final cursor is where walking the source from `c` to the final position leads. */
  lemma {:induction false} TokenizeFromCursor(src: string, c: Cursor)
    requires c.pos <= |src|
    ensures var r := TokenizeFrom(src, c);
            r.cursor == Walk(src, c, r.cursor.pos)
    decreases |src| - c.pos
  {
    if c.pos < |src| {
      var p := LexPass(src, c);
      LexPassWalk(src, c);
      if p.Continued? {
        TokenizeFromCursor(src, p.next);
        WalkTrans(src, c, p.next.pos, TokenizeFrom(src, p.next).cursor.pos);
      }
    }
  }

  lemma WalkChain(src: string, c0: Cursor, c1: Cursor, c2: Cursor, c3: Cursor)
    requires c0.pos <= c1.pos <= c2.pos <= c3.pos <= |src|
    requires c1 == Walk(src, c0, c1.pos)
    requires c2 == Walk(src, c1, c2.pos)
    requires c3 == Walk(src, c2, c3.pos)
    ensures c3 == Walk(src, c0, c3.pos)
  {
    WalkTrans(src, c0, c1.pos, c2.pos);
    WalkTrans(src, c0, c2.pos, c3.pos);
  }

  /** The whole tokenize of a fresh lexer. */
  function Lex(src: string): Lexed {
    TokenizeFrom(src, Cursor(0, 1, 1))
  }

  /** The number of characters after the last newline of `s`, or all of them without one. */
  function LastLineLength(s: string): nat {
    if s == [] || s[|s| - 1] == '\n' then 0 else 1 + LastLineLength(s[..|s| - 1])
  }

  /** Walking from the start of the source, the column is one past the length of the current
      line so far. */
  lemma {:induction false} WalkColumn(src: string, j: nat)
    requires j <= |src|
    ensures Walk(src, Cursor(0, 1, 1), j).column == 1 + LastLineLength(src[..j])
  {
    if j > 0 {
      WalkColumn(src, j - 1);
      WalkStep(src, Cursor(0, 1, 1), j - 1);
      assert src[..j][..j - 1] == src[..j - 1];
    }
  }

  /** Unless an uncaught exception escapes, the token list ends with exactly one EOF token, even
      after errors, and that token sits on line 1 plus the number of newlines in the source, one
      column past the characters after the last newline (one past the length of a source
      without newlines). */
  lemma LexEndsWithOneEof(src: string)
    ensures var r := Lex(src);
            !r.crashed ==>
              |r.tokens| > 0 && r.tokens[|r.tokens| - 1].kind == Eof &&
              (forall i :: 0 <= i < |r.tokens| - 1 ==> r.tokens[i].kind != Eof) &&
              r.tokens[|r.tokens| - 1].line == 1 + NewlinesBetween(src, 0, |src|) &&
              r.tokens[|r.tokens| - 1].column == 1 + LastLineLength(src) &&
              ((forall i :: 0 <= i < |src| ==> src[i] != '\n') ==> r.tokens[|r.tokens| - 1].column == |src| + 1)
  {
    var r := Lex(src);
    TokenizeFromEof(src, Cursor(0, 1, 1));
    TokenizeFromCursor(src, Cursor(0, 1, 1));
    if !r.crashed {
      WalkCounts(src, Cursor(0, 1, 1), |src|);
      WalkColumn(src, |src|);
      assert src[..|src|] == src;
      if forall i :: 0 <= i < |src| ==> src[i] != '\n' {
        WalkFlat(src, Cursor(0, 1, 1), |src|);
      }
    }
  }

  /** The lexer object: the source text, the cursor fields that `advance` updates, and the
      token and error lists that the scanning methods append to. */
  class Lexer {
    const source: string
    var pos: nat
    var line: nat
    var column: nat
    var tokens: seq<Token>
    var errors: seq<string>

    function Cur(): Cursor
      reads this
    {
      Cursor(pos, line, column)
    }

    constructor (source: string)
      ensures this.source == source && Cur() == Cursor(0, 1, 1) && tokens == [] && errors == []
    {
      this.source := source;
      pos, line, column := 0, 1, 1;
      tokens, errors := [], [];
    }

    /** has_errors */
    function HasErrors(): bool
      reads this
    {
      |errors| > 0
    }

    /** advance */
    method Advance() returns (ch: Option<char>)
      requires pos <= |source|
      modifies this
      ensures (ch, Cur()) == Step(source, old(Cur()))
      ensures tokens == old(tokens) && errors == old(errors)
    {
      if pos >= |source| {
        return None;
      }
      ch := Some(source[pos]);
      pos := pos + 1;
      if ch.value == '\n' {
        line := line + 1;
        column := 1;
      } else {
        column := column + 1;
      }
    }

    /** skip_whitespace */
    method SkipWhitespace()
      requires pos <= |source|
      modifies this
      ensures Cur() == AfterWhitespace(source, old(Cur()))
      ensures tokens == old(tokens) && errors == old(errors)
    {
      while CharAt(source, pos).Some? && IsWhitespace(CharAt(source, pos).value)
        invariant pos <= |source|
        invariant AfterWhitespace(source, Cur()) == AfterWhitespace(source, old(Cur()))
        invariant tokens == old(tokens) && errors == old(errors)
        decreases |source| - pos
      {
        var _ := Advance();
      }
    }

    /** skip_comment */
    method SkipComment()
      requires pos <= |source|
      modifies this
      ensures Cur() == AfterComment(source, old(Cur()))
      ensures tokens == old(tokens) && errors == old(errors)
    {
      if CharAt(source, pos) == Some('/') && CharAt(source, pos + 1) == Some('/') {
        while CharAt(source, pos).Some? && CharAt(source, pos).value != '\n'
          invariant pos <= |source|
          invariant ToNewline(source, Cur()) == ToNewline(source, old(Cur()))
          invariant tokens == old(tokens) && errors == old(errors)
          decreases |source| - pos
        {
          var _ := Advance();
        }
        if CharAt(source, pos) == Some('\n') {
          var _ := Advance();
        }
      }
    }

    /** read_string: the decoded value, or the error that ends it. */
    method ReadString(quote: char) returns (s: StringScan)
      requires pos < |source|
      modifies this
      ensures (s, Cur()) == ScanString(source, old(Cur()), quote)
      ensures tokens == old(tokens) && errors == old(errors)
    {
      var value := "";
      var _ := Advance();
      ghost var start := Cur();
      while CharAt(source, pos).Some? && CharAt(source, pos).value != quote
        invariant pos <= |source|
        invariant StringBody(source, Cur(), quote, value) == StringBody(source, start, quote, "")
        invariant tokens == old(tokens) && errors == old(errors)
        decreases |source| - pos
      {
        if CharAt(source, pos).value == '\\' {
          var _ := Advance();
          var next := CharAt(source, pos);
          if next.None? {
            // `value += None` raises a type error that nothing catches
            return BackslashAtEnd;
          }
          value := value + [Unescape(next.value, quote)];
          var _ := Advance();
        } else {
          value := value + [CharAt(source, pos).value];
          var _ := Advance();
        }
      }
      if CharAt(source, pos).None? {
        return Unterminated(UnterminatedMessage(line));
      }
      var _ := Advance();
      return Closed(value);
    }

    /** The two digit loops of read_number: the digit run at the cursor. */
    method ReadDigits() returns (digits: string)
      requires pos <= |source|
      modifies this
      ensures pos == DigitRunEnd(source, old(pos))
      ensures digits == source[old(pos)..pos]
      ensures Cur() == Cursor(pos, old(line), old(column) + (pos - old(pos)))
      ensures tokens == old(tokens) && errors == old(errors)
    {
      digits := "";
      while CharAt(source, pos).Some? && IsDigit(CharAt(source, pos).value)
        invariant old(pos) <= pos <= |source|
        invariant DigitRunEnd(source, pos) == DigitRunEnd(source, old(pos))
        invariant digits == source[old(pos)..pos]
        invariant Cur() == Cursor(pos, old(line), old(column) + (pos - old(pos)))
        invariant tokens == old(tokens) && errors == old(errors)
        decreases |source| - pos
      {
        digits := digits + [CharAt(source, pos).value];
        var _ := Advance();
      }
    }

    /** The second half of read_number, entered at a dot followed by a digit: the dot and the
        digit run after it. */
    method ReadFraction() returns (fraction: string)
      requires pos + 1 < |source| && source[pos] == '.' && IsDigit(source[pos + 1])
      modifies this
      ensures pos == DigitRunEnd(source, old(pos) + 1)
      ensures fraction == source[old(pos)..pos]
      ensures Cur() == Cursor(pos, old(line), old(column) + (pos - old(pos)))
      ensures tokens == old(tokens) && errors == old(errors)
    {
      ghost var dot := pos;
      var _ := Advance();
      var digits := ReadDigits();
      fraction := ['.'] + digits;
      SliceFirst(source, dot, pos);
    }

    /** read_number */
    method ReadNumber() returns (t: Token)
      requires pos < |source| && IsDigit(source[pos])
      modifies this
      ensures (t, Cur()) == ScanNumber(source, old(Cur()))
      ensures tokens == old(tokens) && errors == old(errors)
    {
      var startLine, startCol, start := line, column, pos;
      var value := ReadDigits();
      if pos + 1 < |source| && source[pos] == '.' && IsDigit(source[pos + 1]) {
        ghost var dot := pos;
        var fraction := ReadFraction();
        SliceSplit(source, start, dot, pos);
        value := value + fraction;
        return Token(FloatLit, value, FloatValue(value), startLine, startCol);
      }
      return Token(IntLit, value, IntValue(DigitsValue(value)), startLine, startCol);
    }

    /** The loop of read_identifier: the run of letters, digits and underscores at the cursor. */
    method ReadWord() returns (word: string)
      requires pos <= |source|
      modifies this
      ensures pos == WordRunEnd(source, old(pos))
      ensures word == source[old(pos)..pos]
      ensures Cur() == Cursor(pos, old(line), old(column) + (pos - old(pos)))
      ensures tokens == old(tokens) && errors == old(errors)
    {
      word := "";
      while CharAt(source, pos).Some? && IsWordChar(CharAt(source, pos).value)
        invariant old(pos) <= pos <= |source|
        invariant WordRunEnd(source, pos) == WordRunEnd(source, old(pos))
        invariant word == source[old(pos)..pos]
        invariant Cur() == Cursor(pos, old(line), old(column) + (pos - old(pos)))
        invariant tokens == old(tokens) && errors == old(errors)
        decreases |source| - pos
      {
        word := word + [CharAt(source, pos).value];
        var _ := Advance();
      }
    }

    /** read_identifier */
    method ReadIdentifier() returns (t: Token)
      requires pos < |source|
      modifies this
      ensures (t, Cur()) == ScanIdentifier(source, old(Cur()))
      ensures tokens == old(tokens) && errors == old(errors)
    {
      var startLine, startCol := line, column;
      var value := ReadWord();
      var kind := KeywordKind(value);
      if kind == TrueLit {
        return Token(kind, value, BoolValue(true), startLine, startCol);
      } else if kind == FalseLit {
        return Token(kind, value, BoolValue(false), startLine, startCol);
      }
      return Token(kind, value, NoneValue, startLine, startCol);
    }

    /** The `try` block of tokenize's loop: scan the token that starts at the cursor. */
    method ScanOne() returns (sc: Scan)
      requires pos < |source|
      modifies this
      ensures sc == ScanToken(source, old(Cur())) && Cur() == sc.next
      ensures tokens == old(tokens) && errors == old(errors)
    {
      var ch := source[pos];
      var startLine, startCol := line, column;
      if IsQuote(ch) {
        var s := ReadString(ch);
        match s {
          case Closed(v) => return Emitted(Token(StringLit, [ch] + v + [ch], StrValue(v), startLine, startCol), Cur());
          case Unterminated(msg) => return Unclosed(msg, Cur());
          case BackslashAtEnd => return Crashed(Cur());
        }
      } else if IsDigit(ch) {
        var t := ReadNumber();
        return Emitted(t, Cur());
      } else if IsAlpha(ch) || ch == '_' {
        var t := ReadIdentifier();
        return Emitted(t, Cur());
      }
      var next := CharAt(source, pos + 1);
      if next.Some? && TwoCharKind(ch, next.value).Some? {
        var _ := Advance();
        var _ := Advance();
        return Emitted(Token(TwoCharKind(ch, next.value).value, [ch, next.value], NoneValue, startLine, startCol), Cur());
      } else if SingleCharKind(ch).Some? {
        var _ := Advance();
        return Emitted(Token(SingleCharKind(ch).value, [ch], NoneValue, startLine, startCol), Cur());
      }
      var msg := UnexpectedMessage(ch, Cur());
      var _ := Advance();
      return Unexpected(msg, Cur());
    }

    /** The body of tokenize's loop: one pass, as `LexPass` describes it. */
    method TokenizePass() returns (p: Pass)
      requires pos < |source|
      modifies this
      ensures p == LexPass(source, old(Cur()))
      ensures p.Continued? ==> Cur() == p.next && tokens == old(tokens) + p.emitted && errors == old(errors) + p.reported
      ensures p.Finished? && !p.result.crashed ==>
                Cur() == p.result.cursor && tokens == old(tokens) && errors == old(errors) + p.result.errors
      ensures p.Finished? && p.result.crashed ==> Cur() == p.result.cursor && tokens == old(tokens) && errors == old(errors)
    {
      SkipWhitespace();
      if pos >= |source| {
        return Finished(Lexed([EofToken(Cur())], [], Cur(), false));
      }
      if CharAt(source, pos) == Some('/') && CharAt(source, pos + 1) == Some('/') {
        SkipComment();
        return Continued([], [], Cur());
      }
      var sc := ScanOne();
      match sc {
        case Emitted(t, _) =>
          tokens := tokens + [t];
          return Continued([t], [], Cur());
        case Unexpected(msg, _) =>
          errors := errors + [msg];
          return Continued([], [msg], Cur());
        case Unclosed(msg, _) =>
          errors := errors + [msg];
          return Finished(Lexed([EofToken(Cur())], [msg], Cur(), false));
        case Crashed(_) =>
          return Finished(Lexed([], [], Cur(), true));
      }
    }

    /** tokenize: the token list, ending with EOF, or None when an uncaught exception escapes
        (a backslash at the very end of a string). */
    method Tokenize() returns (r: Option<seq<Token>>)
      requires pos <= |source|
      modifies this
      ensures var l := Prepend(old(tokens), old(errors), TokenizeFrom(source, old(Cur())));
              Cur() == l.cursor && tokens == l.tokens && errors == l.errors &&
              r == (if l.crashed then None else Some(tokens))
    {
      ghost var goal := Prepend(tokens, errors, TokenizeFrom(source, Cur()));
      while pos < |source|
        invariant pos <= |source|
        invariant Prepend(tokens, errors, TokenizeFrom(source, Cur())) == goal
        decreases |source| - pos
      {
        ghost var ts, es, c := tokens, errors, Cur();
        var p := TokenizePass();
        if p.Finished? {
          if p.result.crashed {
            return None;
          }
          tokens := tokens + [EofToken(Cur())];
          return Some(tokens);
        }
        assert TokenizeFrom(source, c) == Prepend(p.emitted, p.reported, TokenizeFrom(source, Cur()));
        PrependTwice(ts, es, p.emitted, p.reported, TokenizeFrom(source, Cur()));
      }
      tokens := tokens + [EofToken(Cur())];
      return Some(tokens);
    }
  }

  /** Lexing a whole source with a fresh lexer. */
  method LexSource(src: string) returns (r: Option<seq<Token>>)
    ensures r == (if Lex(src).crashed then None else Some(Lex(src).tokens))
  {
    var lexer := new Lexer(src);
    r := lexer.Tokenize();
    assert Prepend([], [], Lex(src)) == Lex(src);
  }
}
