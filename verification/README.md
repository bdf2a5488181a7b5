# MiniScript front end and TAC lowering in Dafny

This project models the core of the MiniScript compiler:

- **Lexer.** The lexer turns source text into tokens with line and column positions.
- **Parser.** The recursive-descent parser turns tokens into a syntax tree. It has six binary precedence levels, unary operators, calls and statements.
- **Symbol table.** The symbol table keeps one dictionary of symbols keyed by `name_level`, plus a stack of scope levels.
- **Semantic analyzer.** The analyzer walks the tree, declares names, looks them up and type-checks operators, collecting error messages.
- **TAC generator.** The generator lowers the tree to three-address code. It uses two counters, one for temporaries `tN` and one for labels `Lk`.

## Form of the model

Each phase that updates state in place is a Dafny `class` with the same fields:

- `Lexer.Lexer`: source, position, line, column, tokens, errors;
- `Parser.Parser`: tokens, position, errors;
- `Symbols.SymbolTable`: the dictionary as a sequence of entries, the level and the level stack;
- `Semantics.SemanticAnalyzer`: the symbol table and the error list;
- `TacGeneration.TacGenerator`: the code buffer and the two counters.

Every method is proved equal to a pure specification function of the old state. The compiler's properties are then proved as lemmas about those functions.

Other representations:

- Python exceptions are result values. `ParseError` is the outcome `Raised`, and the unterminated-string `LexicalError` is the scan result `Unterminated`.
- A string ending in a backslash makes Python fail with a `TypeError` (`value += None`). The model records this as `crashed`, with no token list returned.
- A parse that makes no progress would loop forever in Python. The model gives it the outcome `Diverged`, and `ParserProperties.StrayTokenStallsParse` proves that the state then repeats exactly.

Behaviour the model keeps exactly as the code has it, including surprising cases:

- `lookup` scans the dictionary in insertion order and returns the first symbol declared at or below the current level. A shadowed name therefore resolves to the outermost declaration, not the innermost (`Symbols.LookupFindsOuterSymbol`, `SemanticProperties.OuterVariableShadowsInnerFunction`).
- Only `for` loops and function declarations open a scope. The bodies of `if` and `while` do not, so a variable declared in them stays visible afterwards (`SemanticProperties.IfBodyDeclarationVisibleAfter`).
- An `if` without `else` still takes two labels and emits `GOTO` to the end label, then both labels (`TacProperties.IfWithoutElse`).
- A bare `{ ... }` block at statement level is parsed and then dropped. The same happens to an expression statement that is not `name = ...` (`ParserProperties.BareBlockIsDropped`, `ParserProperties.NonAssignmentIsDropped`).
- Errors are collected as messages, never raised. An undeclared name gets the type `error` and the analysis goes on.

Source positions below are paths inside the compiler's repository.

## Model

| member | source | states |
|---|---|---|
| TokenTypes.KeywordKind | src/token_types.py:87-103 | A word in the keyword table gets that keyword's kind, which is never ID; every other word gets ID (`KEYWORDS.get(word, ID)`) |
| TokenTypes.KeywordsAreLowerCase | src/token_types.py:87-103 | Every keyword is spelled in lower-case letters only |
| TokenTypes.KeywordKindsDistinct | src/token_types.py:87-103 | No two keywords map to the same token kind |
| TokenTypes.TypeNamesAreReserved | src/token_types.py:89-92 | `int`, `float`, `bool`, `string` and `input` lex as their keyword kinds, not as identifiers |
| TokenTypes.ReprInsertsLiteral | src/token_types.py:81-84 | A token with a literal renders as the literal-free rendering with `literal, ` inserted right after the quoted lexeme |
| TokenTypes.TokenDefaults | src/token_types.py:71-79 | A token built from kind and lexeme alone has no literal and sits at line 1, column 1 |
| Ast.NodeDefaults | src/ast_nodes.py:7-18 | Nodes built without a position sit at line 1, column 1 |
| Strings.NatToString | src/tac_generator.py:205 | `str` of a natural number is a non-empty string of decimal digits |
| Strings.IntToString | src/tac_generator.py:205 | `str` of a negative integer is `-` followed by the digits of its magnitude; otherwise it is the digits |
| Strings.DigitsValueOfNatToString | src/lexer.py:122 | `int(str(n)) == n`: reading the digits back gives the number |
| Strings.NatToStringInjective | src/tac_generator.py:49-57 | Different numbers render differently |
| Strings.Lower | src/tac_generator.py:211 | `.lower()` keeps the length and lowers each character |
| Strings.DigitChar | src/tac_generator.py:205 | The digit character for `d` is a digit whose code is `'0' + d` |
| Lexer.Walk | src/lexer.py:42-56 | Advancing from a cursor to index `j` ends at `j` |
| Lexer.WalkCounts | src/lexer.py:50-54 | After walking, the line has grown by the number of newlines passed |
| Lexer.WalkFlat | src/lexer.py:53-54 | Over a stretch without newlines, the line stays and the column grows by the number of characters |
| Lexer.WalkAfterNewline | src/lexer.py:50-52 | After a newline, the column counts the characters since that newline, starting at 1 |
| Lexer.WalkTrans | src/lexer.py:42-56 | Walking to `j` and then on to `k` is the same as walking straight to `k` |
| Lexer.WalkStep | src/lexer.py:42-56 | Walking one character further is one `advance` |
| Lexer.Step | src/lexer.py:42-56 | `advance` at the end returns None and changes nothing; otherwise it returns the character and moves past it, with a newline starting a new line at column 1 |
| Lexer.AfterWhitespace | src/lexer.py:58-61 | Stops at the first character that is not a space, tab, CR or LF, or at the end, skipping only whitespace |
| Lexer.AfterWhitespaceWalk | src/lexer.py:58-61 | Skipping whitespace updates line and column as `advance` does |
| Lexer.ToNewline | src/lexer.py:66-67 | Stops at the first newline or at the end, passing no newline |
| Lexer.ToNewlineWalk | src/lexer.py:66-67 | The skip to the newline updates line and column as `advance` does |
| Lexer.AfterComment | src/lexer.py:63-69 | Without `//` nothing moves; with it, the cursor moves past the first newline, or to the end if there is none |
| Lexer.AfterCommentWalk | src/lexer.py:63-69 | Skipping a comment updates line and column as `advance` does |
| Lexer.StringBody | src/lexer.py:76-99 | The loop of `read_string`. A closed string ends just past its closing quote. An unterminated string, or a backslash at the very end, consumes the rest of the source, and the unterminated error names the line reached at the end |
| Lexer.ScanString | src/lexer.py:71-99 | `read_string` always consumes at least the opening quote |
| Lexer.StringBodyWalk | src/lexer.py:71-99 | Reading a string updates line and column as `advance` does, newlines inside the string included |
| Lexer.EscapeChar | src/lexer.py:77-90 | The escape of a character ends with that character, and it has a backslash in front exactly for a backslash or the quote |
| Lexer.StringBodyOfEscaped | src/lexer.py:76-99 | The loop reads back, unchanged, any text written with its backslashes and quotes escaped, and stops just past the closing quote |
| Lexer.ScanStringOfEscaped | src/lexer.py:71-99 | Round trip: quote + escaped text + quote lexes back to the original text, consuming exactly those characters |
| Lexer.DigitRunEnd | src/lexer.py:107-109 | The end of the maximal run of digits from `i` |
| Lexer.ScanNumber | src/lexer.py:101-122 | `read_number` gives an INT_LIT or FLOAT_LIT token. Its lexeme is exactly the consumed text, and it sits at the start position. Line and column advance by the length, on the same line |
| Lexer.ScanNumberInt | src/lexer.py:107-122 | Digits not followed by `.digit` give an INT_LIT whose value is the digits read as a decimal number |
| Lexer.ScanNumberFloat | src/lexer.py:112-120 | Digits, `.` and digits give a FLOAT_LIT spanning both digit runs |
| Lexer.ScanNumberOfNat | src/lexer.py:101-122 | Round trip: the decimal text of `n` lexes back to the INT_LIT with value `n` and lexeme `str(n)` |
| Lexer.ScanNumberOfFraction | src/lexer.py:112-120 | Round trip: `m.n` lexes back to one FLOAT_LIT with exactly that lexeme |
| Lexer.ScanNumberWalk | src/lexer.py:101-122 | Reading a number updates line and column as `advance` does |
| Lexer.WordRunEnd | src/lexer.py:130-132 | The end of the maximal run of letters, digits and underscores from `i` |
| Lexer.ScanIdentifier | src/lexer.py:124-143 | `read_identifier` consumes the maximal word and gives its keyword kind. The literal is True/False for `true`/`false` and None otherwise, and the token sits at the start position |
| Lexer.ScanIdentifierWalk | src/lexer.py:124-143 | Reading a word updates line and column as `advance` does |
| Lexer.ScanIdentifierOfWord | src/lexer.py:124-143 | Round trip: a word followed by a non-word character lexes back to one token with that lexeme and its keyword kind |
| Lexer.ScanToken | src/lexer.py:158-279 | One dispatch step always consumes at least one character. An emitted token is never EOF and carries the start position. An unexpected character consumes exactly one character. An unterminated string or a crash consumes the rest |
| Lexer.ScanTokenWalk | src/lexer.py:158-279 | One dispatch step updates line and column as `advance` does |
| Lexer.TwoCharKindIsTable | src/lexer.py:176-205 | The two-character branches recognise exactly `==`, `!=`, `<=`, `>=`, `&&` and the doubled bar, each with its own kind |
| Lexer.SingleCharKindIsTable | src/lexer.py:207-270 | The one-character branches recognise exactly the sixteen one-character operators and delimiters, each with its own kind |
| Lexer.TwoCharOperatorFirst | src/lexer.py:176-205 | A two-character operator is one token of two characters, even where its first character is an operator of its own (`==` is never `=` `=`) |
| Lexer.OneCharOperator | src/lexer.py:207-270 | A one-character operator that does not start a two-character one is a token of that one character, one column on |
| Lexer.UnexpectedExactly | src/lexer.py:272-275 | A character is reported as unexpected exactly when it starts no string, number, word or operator; the message names the character, line and column, and scanning resumes one character on |
| Lexer.LoneAndOrBarUnexpected | src/lexer.py:197-205 | A single `&` or bar character not doubled is an unexpected character, not an operator |
| Lexer.StringTokenOfEscaped | src/lexer.py:164-166 | A STRING_LIT's lexeme is the decoded value between two copies of its quote, whatever escapes the source used, and its literal is the value |
| Lexer.LexPass | src/lexer.py:147-279 | One turn of the `tokenize` loop either moves forward, emitting at most one non-EOF token or reporting at most one error and never both, or ends the loop. The loop ends with just EOF, at the end of the source, and at most one error, unless it crashed, when nothing is returned and no error is added |
| Lexer.LexPassWalk | src/lexer.py:147-279 | One turn of the loop updates line and column as `advance` does |
| Lexer.LexPassUnexpected | src/lexer.py:272-275 | A turn reports an error and goes on exactly when, after whitespace, it meets a character that starts neither a comment nor a token; it then reports that one message, emits nothing and resumes after the character |
| Lexer.LexPassUnterminated | src/lexer.py:277-281 | A turn ends the loop with an error exactly when it meets a string that is never closed; the one message names the line at the end of the source, and EOF still follows |
| Lexer.TokenizeFrom | src/lexer.py:145-282 | The rest of `tokenize` ends inside the source, and at its end unless it crashed |
| Lexer.TokenizeFromEof | src/lexer.py:145-282 | Unless it crashed, the token list ends with exactly one EOF |
| Lexer.TokenizeFromCursor | src/lexer.py:145-282 | The final cursor is the one `advance` would give over the whole consumed text |
| Lexer.WalkColumn | src/lexer.py:42-56 | From the start of the source, the column is 1 + the number of characters since the last newline |
| Lexer.LexEndsWithOneEof | src/lexer.py:145-282 | Unless it crashed, `tokenize` returns tokens whose only EOF is the last one. That EOF sits on line 1 + the number of newlines in the source, at column 1 + the number of characters after the last newline (length + 1 when there is no newline) |
| Lexer.Lexer.constructor | src/lexer.py:16-27 | A new lexer starts at position 0, line 1, column 1, with no tokens and no errors |
| Lexer.Lexer.Advance | src/lexer.py:42-56 | `advance` returns and moves exactly as `Step` says and touches neither tokens nor errors |
| Lexer.Lexer.SkipWhitespace | src/lexer.py:58-61 | The loop, reading characters as `current_char` does (lexer.py:29-33, none past the end), ends where `AfterWhitespace` says |
| Lexer.Lexer.SkipComment | src/lexer.py:63-69 | The method, testing `current_char` and `peek_char` (lexer.py:29-40, none past the end), ends where `AfterComment` says |
| Lexer.Lexer.ReadString | src/lexer.py:71-99 | The loop, stopping when `current_char` (lexer.py:29-33) gives none past the end, gives the value and position `ScanString` gives |
| Lexer.Lexer.ReadDigits | src/lexer.py:107-109 | The loop collects exactly the digit run and moves the column by its length |
| Lexer.Lexer.ReadFraction | src/lexer.py:112-118 | The loop collects `.` and the following digit run |
| Lexer.Lexer.ReadNumber | src/lexer.py:101-122 | The method returns the token and position `ScanNumber` gives |
| Lexer.Lexer.ReadWord | src/lexer.py:130-132 | The loop collects exactly the word run |
| Lexer.Lexer.ReadIdentifier | src/lexer.py:124-143 | The method returns the token and position `ScanIdentifier` gives |
| Lexer.Lexer.ScanOne | src/lexer.py:158-279 | One dispatch step gives the result `ScanToken` gives |
| Lexer.Lexer.TokenizePass | src/lexer.py:147-279 | One turn of the loop appends the emitted token and reported error, or ends, as `LexPass` says |
| Lexer.Lexer.Tokenize | src/lexer.py:145-282 | `tokenize` appends what `TokenizeFrom` gives to the existing tokens and errors. It returns the token list, or nothing on a crash |
| Lexer.LexSource | src/lexer.py:16-27 | A fresh lexer over `src` returns `Lex(src)`'s tokens unless it crashed |
| LexerProperties.BlanksThen | src/lexer.py:58-61 | Blanks before a non-blank character are skipped, one column each |
| LexerProperties.WordPass | src/lexer.py:147-174 | A turn over blanks and then a maximal word emits the word's token, with its keyword kind, at the word's column |
| LexerProperties.IntPass | src/lexer.py:147-170 | A turn over blanks and then a digit run not followed by `.` emits an INT_LIT with the run's value |
| LexerProperties.OperatorPass | src/lexer.py:147-270 | A turn over blanks and then a one-character operator that starts no two-character one emits that operator |
| LexerProperties.PlainStringBody | src/lexer.py:76-99 | A string without escapes, newlines or inner quotes decodes to its own characters and ends just past the closing quote |
| LexerProperties.PlainStringToken | src/lexer.py:164-166 | Such a string is a STRING_LIT whose lexeme runs from quote to quote and whose literal is the text between them |
| LexerProperties.StringPass | src/lexer.py:147-166 | A turn over blanks and then such a string emits that STRING_LIT |
| LexerProperties.EscapeStep | src/lexer.py:80-90 | A backslash and the character after it decode to one character, two columns on |
| LexerProperties.ToNewlineAt | src/lexer.py:63-69 | Skipping a comment up to its newline only moves the column |
| LexerProperties.TrailingDotIsNoFraction | src/lexer.py:112-120 | `1.` lexes as INT_LIT 1, an unexpected-character error for `.` at column 2, then EOF at column 3 |
| LexerProperties.DeclarationTokens | tests/test_compiler.py:20-29 | `var x = 10;` lexes as VAR, ID `x`, ASSIGN, INT_LIT 10, SEMICOLON at columns 1, 5, 7, 9, 11, then EOF at column 12, with no errors |
| LexerProperties.GreetingTokens | tests/test_compiler.py:32-39 | `print "hello";` lexes as PRINT, a STRING_LIT with lexeme `"hello"` and literal `hello`, SEMICOLON, then EOF, with no errors |
| LexerProperties.EscapesDecode | src/lexer.py:80-90 | Inside a string, `\n` and `\t` decode to a newline and a tab, and `\q` to `q` |
| LexerProperties.EscapesTokens | src/lexer.py:164-166 | The source `"\n\t\q"` lexes as one STRING_LIT whose literal is newline, tab, `q`, then EOF |
| LexerProperties.CommentSkipped | src/lexer.py:153-156 | A `//` comment is skipped through its newline, emitting and reporting nothing |
| LexerProperties.CommentedTokens | tests/test_compiler.py:54-60 | `var x = 10; // This is a comment` and `var y = 20;` on the next line lex as both declarations, the second on line 2, then EOF, with no errors |
| Parser.Advanced | src/parser.py:39-44 | `advance` moves one token forward unless it is on EOF or the last token, and never changes the errors |
| Parser.ConsumeAt | src/parser.py:50-60 | `consume` succeeds exactly when the current token has the expected kind, returning it and advancing. Otherwise it records the expected/got message and raises, without moving |
| Parser.SyncFrom | src/parser.py:62-70 | The first index from `pos` holding EOF or a statement keyword |
| Parser.SynchronizeAt | src/parser.py:62-70 | `synchronize` skips at least one token and stops on EOF or the first statement keyword, keeping the errors |
| Parser.ExpressionAt | src/parser.py:264-266 | `expression` moves forward and never diverges. A success consumes a token and builds no array access. A failure without movement records no message |
| Parser.BinaryAt | src/parser.py:268-338 | Each of the six binary levels keeps the same guarantee |
| Parser.OperandAt | src/parser.py:268-338 | The operand of a level (the next tighter level, or `unary`) keeps the same guarantee |
| Parser.BinaryTailAt | src/parser.py:271-277 | The operator loop of a level moves forward, never diverges and builds no array access |
| Parser.UnaryAt | src/parser.py:340-348 | `unary` keeps the expression guarantee |
| Parser.CallAt | src/parser.py:350-372 | `call` keeps the expression guarantee |
| Parser.CallTailAt | src/parser.py:353-371 | The call loop moves forward, never diverges and builds no array access |
| Parser.ArgumentsAt | src/parser.py:357-367 | The argument list moves forward, never diverges and builds no array access |
| Parser.ArgumentsTailAt | src/parser.py:361-364 | The argument loop keeps the arguments already read as a prefix |
| Parser.PrimaryAt | src/parser.py:374-403 | `primary` keeps the expression guarantee |
| Parser.StatementAt | src/parser.py:86-115 | `statement` never lets ParseError escape. When it does not move, it yields no statement and leaves the state untouched |
| Parser.BareBlockAt | src/parser.py:103-111 | A bare block moves strictly forward |
| Parser.BlockAt | src/parser.py:253-262 | `block` moves forward and never raises |
| Parser.BlockFromAt | src/parser.py:256-262 | The block loop keeps the statements already read as a prefix |
| Parser.BracedAt | src/parser.py:253-262 | A braced block moves forward, and strictly forward when it succeeds |
| Parser.ConditionAt | src/parser.py:135-137 | A parenthesised condition moves forward and never diverges |
| Parser.VarDeclarationAt | src/parser.py:117-130 | `var_declaration` moves on `var`. A success is a declaration without a data type |
| Parser.InitializerAt | src/parser.py:124-126 | The optional initialiser moves forward and never diverges |
| Parser.IfAt | src/parser.py:132-151 | `if_statement` moves on `if`; its node holds the else body, absent or present, as `IfStatement` of ast_nodes.py:49-55 does |
| Parser.ElseAt | src/parser.py:144-149 | The optional else branch moves forward |
| Parser.WhileAt | src/parser.py:153-165 | `while_statement` moves on `while` |
| Parser.ForAt | src/parser.py:167-196 | `for_statement` moves on `for` |
| Parser.ForHeaderAt | src/parser.py:170-192 | The three optional header parts move forward and never diverge |
| Parser.ForInitAt | src/parser.py:172-179 | The for-loop initialiser (a declaration, an expression statement or a bare `;`) moves forward and never diverges |
| Parser.ForConditionAt | src/parser.py:181-184 | The optional condition and its `;` never diverge |
| Parser.ForUpdateAt | src/parser.py:186-189 | The optional update never diverges |
| Parser.FunctionAt | src/parser.py:198-218 | `function_declaration` moves on `func` |
| Parser.ParametersAt | src/parser.py:205-211 | The parameter list moves forward and never diverges |
| Parser.ParameterListAt | src/parser.py:206-210 | A non-empty parameter list never diverges |
| Parser.ParameterTailAt | src/parser.py:208-210 | The parameter loop keeps the names already read as a prefix |
| Parser.ReturnAt | src/parser.py:220-229 | `return_statement` moves on `return` and never diverges |
| Parser.PrintAt | src/parser.py:231-237 | `print_statement` moves on `print` and never diverges |
| Parser.ExpressionStatementAt | src/parser.py:239-251 | A success is an assignment that ends just after a `;`. Without movement no message is recorded |
| Parser.ParseAt | src/parser.py:72-84 | `parse` never lets ParseError escape. A finished parse stops on EOF |
| Parser.ParseFromAt | src/parser.py:75-82 | The parse loop keeps the statements already read as a prefix and stops on EOF |
| Parser.Parser.constructor | src/parser.py:16-24 | A new parser starts at token 0 with no errors |
| Parser.Parser.CurrentToken | src/parser.py:26-30 | Returns the token under the cursor, or the last token past the end |
| Parser.Parser.PeekToken | src/parser.py:32-37 | Returns the token `offset` ahead, or the last token past the end |
| Parser.Parser.Advance | src/parser.py:39-44 | Returns the token under the cursor and moves as `Advanced` says |
| Parser.Parser.Consume | src/parser.py:50-60 | Ends as `ConsumeAt` says |
| Parser.Parser.Synchronize | src/parser.py:62-70 | Ends as `SynchronizeAt` says |
| Parser.Parser.Parse | src/parser.py:72-84 | Ends as `ParseFromAt` says, so the loop on a statement that makes no progress is `Diverged` |
| Parser.Parser.Statement | src/parser.py:86-115 | Ends as `StatementAt` says |
| Parser.Parser.Block | src/parser.py:253-262 | Ends as `BlockAt` says |
| Parser.Parser.Braced | src/parser.py:253-262 | Ends as `BracedAt` says |
| Parser.Parser.Condition | src/parser.py:135-137 | Ends as `ConditionAt` says |
| Parser.Parser.VarDeclaration | src/parser.py:117-130 | Ends as `VarDeclarationAt` says |
| Parser.Parser.Initializer | src/parser.py:124-126 | Ends as `InitializerAt` says |
| Parser.Parser.IfStatement | src/parser.py:132-151 | Ends as `IfAt` says |
| Parser.Parser.ElseBranch | src/parser.py:144-149 | Ends as `ElseAt` says |
| Parser.Parser.WhileStatement | src/parser.py:153-165 | Ends as `WhileAt` says |
| Parser.Parser.ForStatement | src/parser.py:167-196 | Ends as `ForAt` says |
| Parser.Parser.ForHeader | src/parser.py:170-192 | Ends as `ForHeaderAt` says |
| Parser.Parser.ForInit | src/parser.py:172-179 | Ends as `ForInitAt` says |
| Parser.Parser.ForCondition | src/parser.py:181-184 | Ends as `ForConditionAt` says |
| Parser.Parser.ForUpdate | src/parser.py:186-189 | Ends as `ForUpdateAt` says |
| Parser.Parser.FunctionDeclaration | src/parser.py:198-218 | Ends as `FunctionAt` says |
| Parser.Parser.Parameters | src/parser.py:205-211 | Ends as `ParametersAt` says |
| Parser.Parser.ParameterList | src/parser.py:206-210 | Ends as `ParameterListAt` says |
| Parser.Parser.ReturnStatement | src/parser.py:220-229 | Ends as `ReturnAt` says |
| Parser.Parser.PrintStatement | src/parser.py:231-237 | Ends as `PrintAt` says |
| Parser.Parser.ExpressionStatement | src/parser.py:239-251 | Ends as `ExpressionStatementAt` says |
| Parser.Parser.Expression | src/parser.py:264-266 | Ends as `ExpressionAt` says |
| Parser.Parser.Binary | src/parser.py:268-338 | Ends as `BinaryAt` says for the given level |
| Parser.Parser.Operand | src/parser.py:268-338 | Ends as `OperandAt` says |
| Parser.Parser.Unary | src/parser.py:340-348 | Ends as `UnaryAt` says |
| Parser.Parser.Call | src/parser.py:350-372 | Ends as `CallAt` says |
| Parser.Parser.Arguments | src/parser.py:357-367 | Ends as `ArgumentsAt` says |
| Parser.Parser.Primary | src/parser.py:374-403 | Ends as `PrimaryAt` says |
| Parser.ParseTokens | src/parser.py:16-24 | A fresh parser over `ts` returns `ParseAt(ts)`'s outcome and errors |
| ParserProperties.UnaryIsPrimary | src/parser.py:340-348 | Without `!`, `-` or a following `(`, `unary` is just `primary` |
| ParserProperties.LevelIsOperand | src/parser.py:268-338 | An operand followed by no operator of its level is the whole level |
| ParserProperties.EofEndsEveryLevel | src/parser.py:268-338 | EOF is an operator of no level |
| ParserProperties.SingleTokenExpression | src/parser.py:264-403 | A literal or name followed by a closing token is the whole expression and consumes one token |
| ParserProperties.LooserLevelsPassThrough | src/parser.py:268-338 | Every looser level returns what a tighter level parsed when none of their operators follows |
| ParserProperties.SumOfProductOperands | src/parser.py:316-338 | The operands of `2 + 3 * 4`, each at its level |
| ParserProperties.TighterLevelBindsFirst | src/parser.py:316-338 | `2 + 3 * 4` parses as `2 + (3 * 4)` |
| ParserProperties.DifferenceOperands | src/parser.py:316-326 | The operands of `a - b - c` |
| ParserProperties.SameLevelFoldsLeft | src/parser.py:316-326 | `a - b - c` parses as `(a - b) - c` |
| ParserProperties.NoOperandRaises | src/parser.py:374-403 | On a token that cannot start an expression, every level raises at once, without moving or recording a message |
| ParserProperties.StrayTokenStallsParse | src/parser.py:75-82 | A stray token at statement level yields no statement with the state untouched, so the parse loop diverges |
| ParserProperties.StrayTokenStallsBlock | src/parser.py:256-262 | The same stray token inside a block makes the block loop diverge |
| ParserProperties.PrintWithoutValueStalls | src/parser.py:231-237 | `print ;` raises without a message, `statement` swallows it after consuming `print`, and the parse then stalls on `;` |
| ParserProperties.BareBlockIsDropped | src/parser.py:103-111 | A bare block yields no statement (or diverges) and ends where the bare block ends |
| ParserProperties.NonAssignmentIsDropped | src/parser.py:239-251 | An expression statement that is not `name = ...` is consumed through its `;` and yields no statement |
| ParserProperties.CallNeedsName | src/parser.py:353-371 | An argument list after anything but a name does not succeed |
| ParserProperties.ParenthesesLeaveNoNode | src/parser.py:395-399 | A parenthesised expression is the inner expression itself, ending after `)` |
| ParserProperties.CursorStopsAtEof | src/parser.py:26-44 | On or past the last token, current and peek give EOF and advance stays put |
| ParserProperties.DeclarationStatement | src/parser.py:117-130 | `var x = 10;` is one declaration without a type, initialised with the literal 10, consuming five tokens |
| ParserProperties.DeclarationParses | src/parser.py:72-84 | `var x = 10;` parses to a one-statement program ending on EOF |
| ParserProperties.ForWithNothingParses | src/parser.py:167-196 | `for (;;) { }` is a for-loop with no parts and an empty body |
| ParserProperties.EmptyForHeader | src/parser.py:170-192 | The header `(;;)` gives three missing parts and ends after `)` |
| ParserProperties.ForUpdateEndsWithSemicolon | src/parser.py:186-189 | A for-loop update, when present, is an assignment that consumed a `;` |
| Symbols.KeyLayout | src/symbol_table.py:59 | The key is the name, `_`, and the decimal level |
| Symbols.KeyDigitsNotLonger | src/symbol_table.py:59 | Equal keys have levels of equal digit length |
| Symbols.KeyInjective | src/symbol_table.py:59 | Equal keys have equal names and levels, because digits are never `_` |
| Symbols.Put | src/symbol_table.py:66 | Dictionary assignment appends a new key, replaces an existing key's value in place, and keeps every other entry |
| Symbols.FreshKey | src/symbol_table.py:59-66 | A name not yet declared at the level has no key in the dictionary |
| Symbols.DeclareIn | src/symbol_table.py:48-67 | `declare` succeeds exactly when the name is not declared at the current level. On success it appends the new symbol at the current level; on failure nothing changes |
| Symbols.DeclareKeepsConsistent | src/symbol_table.py:48-67 | `declare` keeps keys unique and matching their symbols |
| Symbols.FirstVisible | src/symbol_table.py:79-81 | The index of the first symbol with the name at a level no deeper than the current one |
| Symbols.LookupIn | src/symbol_table.py:69-82 | `lookup` is None exactly when no symbol with the name is visible. Otherwise it is the first visible one in dictionary order |
| Symbols.DeclareThenLookup | src/symbol_table.py:48-82 | After a successful declaration, lookup gives the new symbol unless an earlier symbol with the name was already visible, which it keeps giving |
| Symbols.LookupFindsOuterSymbol | src/symbol_table.py:69-82 | With `x` declared at level 0 and again at level 1, lookup at level 1 returns the level-0 symbol |
| Symbols.RemoveLevel | src/symbol_table.py:44-45 | The filter keeps exactly the entries not at the level, in order |
| Symbols.RemoveLevelAppend | src/symbol_table.py:44-45 | Filtering distributes over concatenation |
| Symbols.RemoveAbsentLevel | src/symbol_table.py:44-45 | Filtering a level nobody uses changes nothing |
| Symbols.RemoveLevelWellKeyed | src/symbol_table.py:44-45 | Filtering keeps keys unique and matching |
| Symbols.Entered | src/symbol_table.py:34-37 | `enter_scope` raises the level by one and pushes it, keeping the symbols |
| Symbols.Exited | src/symbol_table.py:39-46 | `exit_scope` on an empty stack does nothing. Otherwise it pops the top level, drops exactly the symbols of that level and returns to the new top |
| Symbols.ExitKeepsConsistent | src/symbol_table.py:39-46 | `exit_scope` keeps the table consistent |
| Symbols.EnterNests | src/symbol_table.py:34-37 | Entering keeps the stack `0, 1, ..., depth`, with the level as depth |
| Symbols.ExitNests | src/symbol_table.py:39-46 | Exiting an inner scope keeps the stack `0, 1, ..., depth` |
| Symbols.ExitUndoesEnter | src/symbol_table.py:34-46 | Exiting right after entering restores the table exactly |
| Symbols.ExitForgetsInnerSymbols | src/symbol_table.py:39-46 | After exiting, nothing is declared at the level just left |
| Symbols.SymbolTable.constructor | src/symbol_table.py:28-32 | A new table is empty, at level 0, with stack `[0]` |
| Symbols.SymbolTable.EnterScope | src/symbol_table.py:34-37 | Updates the fields as `Entered` says |
| Symbols.SymbolTable.ExitScope | src/symbol_table.py:39-46 | Updates the fields as `Exited` says |
| Symbols.SymbolTable.Declare | src/symbol_table.py:48-67 | Its duplicate-check loop and insertion give the answer and the new table `DeclareIn` gives |
| Symbols.SymbolTable.Lookup | src/symbol_table.py:69-82 | Its loop returns what `LookupIn` gives |
| Symbols.IsValidType | src/symbol_table.py:94-97 | Exactly `int`, `float`, `bool` and `string` are valid |
| Symbols.InternalTypesAreNotPrimitive | src/symbol_table.py:92-97 | `auto`, `func`, `error` and `unknown` are not valid types |
| Symbols.AreCompatible | src/symbol_table.py:99-117 | Two types are compatible exactly when they are equal or both numeric |
| Symbols.CompatibilityIsEquivalence | src/symbol_table.py:99-117 | Compatibility is reflexive, symmetric and transitive |
| Symbols.InferType | src/symbol_table.py:119-134 | `!` gives bool. `-` gives the operand's type exactly when it is numeric. Any other operator gives None |
| Symbols.NegationIsStable | src/symbol_table.py:132-133 | Negating a negation gives the same type |
| Symbols.InferBinaryResultType | src/symbol_table.py:136-174 | Comparisons and logical operators give bool, and unknown operators give None. Arithmetic with `auto` gives a numeric type, taken from a numeric operand if there is one, and `int` when neither operand is numeric. Otherwise arithmetic needs two numeric operands and gives their type if equal, else float |
| Symbols.BinaryTypeIsSymmetric | src/symbol_table.py:136-174 | Swapping the operands gives the same result type |
| Symbols.BinaryTypesAreKnown | src/symbol_table.py:136-174 | A binary result type is always bool, int or float |
| Symbols.ArithmeticNeedsCompatibleNumbers | src/symbol_table.py:167-174 | Without `auto`, arithmetic has a type exactly when the operands are numeric and compatible |
| Semantics.ArgsErrorsStep | src/semantic_analyzer.py:275-276 | The errors of the arguments grow by the next argument's errors |
| Semantics.TableKeepsReady | src/semantic_analyzer.py:51-68 | What a statement may do to the table keeps it ready for the next statement |
| Semantics.TableKeepsTransitive | src/semantic_analyzer.py:46-49 | Two statements in a row together keep the table |
| Semantics.KeepsTransitive | src/semantic_analyzer.py:46-49 | Two statements in a row keep the analysis, errors only added |
| Semantics.DeclareKeeps | src/semantic_analyzer.py:73 | A declaration only adds symbols at the current level |
| Semantics.EnterReady | src/semantic_analyzer.py:127 | Entering a scope keeps the table ready |
| Semantics.ExitRestores | src/semantic_analyzer.py:127-148 | Entering a scope, declaring inside it, and exiting restores the table exactly |
| Semantics.DeclareAll | src/semantic_analyzer.py:161-162 | Declaring the parameters (duplicates silently ignored) only adds symbols at the current level |
| Semantics.AfterStatement | src/semantic_analyzer.py:51-68 | Each statement keeps the table's level and stack, keeps every symbol, adds symbols only at the current level, and only appends errors |
| Semantics.StatementsStep | src/semantic_analyzer.py:46-49 | Analysing one more statement is one more `visit_statement` |
| Semantics.AfterStatements | src/semantic_analyzer.py:46-49 | A statement list keeps the analysis in the same way |
| Semantics.AfterVarDeclaration | src/semantic_analyzer.py:70-82 | A declaration keeps the analysis |
| Semantics.AfterAssignment | src/semantic_analyzer.py:84-95 | An assignment never changes the table |
| Semantics.AfterIf | src/semantic_analyzer.py:97-111 | An if-statement keeps the analysis: it opens no scope, so its branches may only add symbols at the current level, and they stay |
| Semantics.AfterWhile | src/semantic_analyzer.py:113-122 | A while-statement keeps the analysis |
| Semantics.AfterForHeader | src/semantic_analyzer.py:129-141 | The for-loop's init, condition and update keep the analysis inside its scope |
| Semantics.AfterFor | src/semantic_analyzer.py:124-148 | A for-loop leaves the table exactly as it found it |
| Semantics.AfterFunction | src/semantic_analyzer.py:150-169 | A function declaration leaves the table with only its own name declared (or unchanged, when the name is taken) |
| Semantics.AfterReturn | src/semantic_analyzer.py:171-175 | A return never changes the table |
| Semantics.AfterPrint | src/semantic_analyzer.py:177-181 | A print never changes the table |
| Semantics.InitialReady | src/semantic_analyzer.py:16-20 | The analyzer starts from an empty, ready table |
| Semantics.AnalyzeProgram | src/semantic_analyzer.py:22-49 | A whole program only appends errors and declares at level 0 |
| Semantics.SemanticAnalyzer.constructor | src/semantic_analyzer.py:16-20 | A new analyzer has an empty table and no errors |
| Semantics.SemanticAnalyzer.Analyze | src/semantic_analyzer.py:22-36 | `analyze` ends in the state `AfterStatements` gives, and answers true exactly when there are no errors |
| Semantics.SemanticAnalyzer.AddError | src/semantic_analyzer.py:38-44 | Appends `Line l, Column c: message` |
| Semantics.SemanticAnalyzer.VisitStatements | src/semantic_analyzer.py:46-49 | Its loop ends in the state `AfterStatements` gives |
| Semantics.SemanticAnalyzer.VisitStatement | src/semantic_analyzer.py:51-68 | Ends in the state `AfterStatement` gives |
| Semantics.SemanticAnalyzer.VisitVarDeclaration | src/semantic_analyzer.py:70-82 | Ends in the state `AfterVarDeclaration` gives |
| Semantics.SemanticAnalyzer.VisitAssignment | src/semantic_analyzer.py:84-95 | Ends in the state `AfterAssignment` gives |
| Semantics.SemanticAnalyzer.VisitCondition | src/semantic_analyzer.py:100-102 | Appends the condition's errors, then `... condition must be bool` unless its type is bool |
| Semantics.SemanticAnalyzer.VisitIfStatement | src/semantic_analyzer.py:97-111 | Ends in the state `AfterIf` gives |
| Semantics.SemanticAnalyzer.VisitWhileStatement | src/semantic_analyzer.py:113-122 | Ends in the state `AfterWhile` gives |
| Semantics.SemanticAnalyzer.VisitForStatement | src/semantic_analyzer.py:124-148 | Ends in the state `AfterFor` gives |
| Semantics.SemanticAnalyzer.VisitForHeader | src/semantic_analyzer.py:129-141 | Ends in the state `AfterForHeader` gives |
| Semantics.SemanticAnalyzer.VisitFunctionDeclaration | src/semantic_analyzer.py:150-169 | Ends in the state `AfterFunction` gives |
| Semantics.SemanticAnalyzer.DeclareParameters | src/semantic_analyzer.py:161-162 | Its loop ends with the table `DeclareAll` gives |
| Semantics.SemanticAnalyzer.VisitReturnStatement | src/semantic_analyzer.py:171-175 | Ends in the state `AfterReturn` gives |
| Semantics.SemanticAnalyzer.VisitPrintStatement | src/semantic_analyzer.py:177-181 | Ends in the state `AfterPrint` gives |
| Semantics.SemanticAnalyzer.VisitExpression | src/semantic_analyzer.py:183-202 | Returns `TypeOf` and appends `ErrorsOf` |
| Semantics.SemanticAnalyzer.VisitBinaryOp | src/semantic_analyzer.py:204-216 | Returns `TypeOf` and appends `ErrorsOf` for a binary operation |
| Semantics.SemanticAnalyzer.VisitUnaryOp | src/semantic_analyzer.py:218-229 | Returns `TypeOf` and appends `ErrorsOf` for a unary operation |
| Semantics.SemanticAnalyzer.VisitIdentifier | src/semantic_analyzer.py:231-240 | Returns `TypeOf` and appends `ErrorsOf` for a name |
| Semantics.SemanticAnalyzer.VisitFunctionCall | src/semantic_analyzer.py:262-279 | Returns `TypeOf` and appends `ErrorsOf` for a call |
| Semantics.SemanticAnalyzer.VisitArguments | src/semantic_analyzer.py:275-276 | Its loop appends the errors of every argument in order |
| SemanticProperties.ErrorTypeIsReported | src/semantic_analyzer.py:204-279 | When no symbol has type `error`, an expression typed `error` has reported at least one error |
| SemanticProperties.ComparisonsTypeCheck | src/symbol_table.py:148-150 | A comparison is bool and reports only its operands' errors, whatever their types |
| SemanticProperties.ComparisonConditionAccepted | src/semantic_analyzer.py:100-102 | A comparison used as a condition adds no condition error |
| SemanticProperties.VariableConditionRejected | src/semantic_analyzer.py:100-102 | A declared variable (type `auto`) used as a condition is rejected as `auto` |
| SemanticProperties.CallingVariableReported | src/semantic_analyzer.py:270-272 | Calling a variable is typed `error` with exactly the `is not a function` message |
| SemanticProperties.RedeclarationReported | src/semantic_analyzer.py:70-75 | Redeclaring a variable at the same level reports once and changes nothing else |
| SemanticProperties.FunctionRedeclarationReported | src/semantic_analyzer.py:150-155 | Declaring a function again at the same level reports one error and changes nothing else: no scope, parameters or body are visited |
| SemanticProperties.AssignmentTargetChecked | src/semantic_analyzer.py:84-95 | Assigning to an undeclared name reports exactly one error and skips the value; assigning to a declared name reports exactly the value's errors and leaves the table alone |
| SemanticProperties.ForDeclaresNothing | src/semantic_analyzer.py:124-148 | A for-loop leaves the table as it found it |
| SemanticProperties.FunctionDeclaresOnlyItsName | src/semantic_analyzer.py:150-169 | After a function declaration, the table holds its name and nothing from its parameters or body |
| SemanticProperties.EmptyFunctionReportsNothing | src/semantic_analyzer.py:150-169 | A fresh function with an empty body adds its name and reports nothing |
| SemanticProperties.FunctionBody | src/semantic_analyzer.py:153-169 | A function's errors are its body's errors, analysed with the parameters declared in a new scope |
| SemanticProperties.DuplicateParametersAccepted | src/semantic_analyzer.py:161-162 | Repeated parameter names are not reported |
| SemanticProperties.UndeclaredPrintReported | src/semantic_analyzer.py:231-237 | Printing an undeclared name reports it at the name's position |
| SemanticProperties.DeclaredPrintPasses | src/semantic_analyzer.py:177-181 | Printing a declared name changes nothing |
| SemanticProperties.PrintAddsItsErrors | src/semantic_analyzer.py:177-181 | A print adds exactly its value's errors |
| SemanticProperties.WithVariableFinds | src/symbol_table.py:69-82 | A table holding one variable finds it |
| SemanticProperties.VariableCallReported | src/semantic_analyzer.py:84-95 | `f = f();` with `f` a variable reports only `'f' is not a function` |
| SemanticProperties.OneStatement | src/semantic_analyzer.py:46-49 | A one-statement list is that statement |
| SemanticProperties.TwoStatements | src/semantic_analyzer.py:46-49 | A two-statement list runs them in order |
| SemanticProperties.DeclareInFresh | src/semantic_analyzer.py:70-82 | `var x = <int>;` in a fresh analyzer declares `x` as `auto` at level 0 with no error |
| SemanticProperties.DeclaredVariablePasses | src/semantic_analyzer.py:22-49 | `var x = 10; print x;` has no errors |
| SemanticProperties.UndeclaredVariableReported | src/semantic_analyzer.py:231-237 | `print y;` reports `Line 1, Column 7: Undeclared variable 'y'` |
| SemanticProperties.IntConditionRejected | src/semantic_analyzer.py:97-103 | `if (5) { }` reports `If condition must be bool, got int` |
| SemanticProperties.PositionRendering | src/semantic_analyzer.py:40-41 | An error text `Line l, Column c: message` determines its line, column and message: two texts are equal exactly when all three are |
| SemanticProperties.DigitsThenSplit | src/semantic_analyzer.py:40-41 | A digit run followed by a non-digit is recovered uniquely from the text, so the line number ends where `, Column` starts |
| SemanticProperties.IfBodyDeclarationVisibleAfter | src/semantic_analyzer.py:97-111 | A variable declared in an if-body is still visible after the if |
| SemanticProperties.IfDeclares | src/semantic_analyzer.py:97-111 | That if-statement declares `y` at level 0 |
| SemanticProperties.ForVariableGoneAfter | src/semantic_analyzer.py:124-148 | `for (var i = 0; ; ) {} print i;`, with the parser's positions, reports only `Line 1, Column 30: Undeclared variable 'i'`: a variable declared in a for-loop's initialiser is undeclared after the loop |
| SemanticProperties.ForLoopPasses | src/semantic_analyzer.py:124-148 | That for-loop changes nothing |
| SemanticProperties.ForBody | src/semantic_analyzer.py:124-148 | A for-loop's errors are those of its header and body, analysed in a new scope, and its table is the old one |
| SemanticProperties.OuterVariableShadowsInnerFunction | src/symbol_table.py:79-81 | `var f = 1; func g() { func f() {} f = f(); }`, with the parser's positions, reports only `'f' is not a function` at the call's name, line 1, column 39: inside `g`, lookup finds the outer variable |
| SemanticProperties.InnerFunctionShadowed | src/symbol_table.py:79-81 | In general, a function declared in an inner scope is hidden by an outer variable of the same name |
| SemanticProperties.InnerCallReported | src/semantic_analyzer.py:150-169 | The body of `g` reports exactly that one error |
| SemanticProperties.InsideG | src/symbol_table.py:69-82 | Inside `g`, `f` is not declared at level 1 and lookup gives the outer variable |
| SemanticProperties.InnerBody | src/semantic_analyzer.py:165-166 | The two statements of `g`'s body report exactly that one error |
| ThreeAddress.Repr | src/tac_generator.py:25-37 | A rendering with a result starts with the result; without one it starts with the op; with no operands it is the op alone |
| ThreeAddress.CountedInjective | src/tac_generator.py:49-57 | Two counter names are equal only for the same counter and value: temporaries and labels never collide and are never reused |
| ThreeAddress.NamesLast | src/tac_generator.py:49-57 | The names lo+1..hi are lo+1..hi-1 and then hi |
| ThreeAddress.NamesEmpty | src/tac_generator.py:49-57 | No counter bump gives no names |
| ThreeAddress.NamesSplit | src/tac_generator.py:49-57 | The names of consecutive counter ranges add up |
| ThreeAddress.OutsideNames | src/tac_generator.py:49-57 | A counter value outside a range names nothing in it |
| ThreeAddress.NamesOnce | src/tac_generator.py:49-57 | Each counter value in a range names exactly one entry |
| ThreeAddress.LowerExpr | src/tac_generator.py:196-215 | Lowering an expression only bumps the temporary counter, never the label counter |
| ThreeAddress.LowerBinary | src/tac_generator.py:217-224 | The same for a binary operation |
| ThreeAddress.LowerUnary | src/tac_generator.py:226-232 | The same for a unary operation |
| ThreeAddress.LowerCall | src/tac_generator.py:234-244 | The same for a call |
| ThreeAddress.LowerArgs | src/tac_generator.py:239-241 | The same for the argument loop |
| ThreeAddress.LowerStmt | src/tac_generator.py:82-99 | Lowering a statement only moves the counters forward |
| ThreeAddress.LowerStmts | src/tac_generator.py:76-80 | The same for a statement list |
| ThreeAddress.LowerIf | src/tac_generator.py:112-131 | The same for an if-statement |
| ThreeAddress.LowerElse | src/tac_generator.py:127-129 | The same for the else branch |
| ThreeAddress.LowerWhile | src/tac_generator.py:133-146 | The same for a while-statement |
| ThreeAddress.LowerForTest | src/tac_generator.py:158-160 | The for-loop test takes no label |
| ThreeAddress.LowerInit | src/tac_generator.py:150-151 | The same for the for-loop initialiser |
| ThreeAddress.LowerUpdate | src/tac_generator.py:165-166 | The same for the for-loop update |
| ThreeAddress.LowerFor | src/tac_generator.py:148-169 | The same for a for-loop |
| ThreeAddress.ParamCode | src/tac_generator.py:175-176 | One PARAM per parameter, in order |
| ThreeAddress.LowerFunction | src/tac_generator.py:171-181 | The same for a function declaration |
| ThreeAddress.OfConcat | src/tac_generator.py:72-73 | Labels, jump targets and results of appended code add up |
| ThreeAddress.OfOne | src/tac_generator.py:72-73 | A single instruction defines its label, jumps to its target, or assigns its result |
| ThreeAddress.ExprNoLabels | src/tac_generator.py:196-244 | Expression code contains no label and no jump |
| ThreeAddress.ArgsNoLabels | src/tac_generator.py:239-241 | Argument code contains no label and no jump |
| ThreeAddress.ExprTemps | src/tac_generator.py:196-244 | Expression code assigns each temporary it takes exactly once, and nothing else. The value of an operation or call is one of those temporaries. A name or literal emits nothing and takes nothing |
| ThreeAddress.LeafTemps | src/tac_generator.py:202-211 | A name or literal emits no code and takes no temporary |
| ThreeAddress.BinaryTemps | src/tac_generator.py:217-224 | A binary operation assigns its operands' temporaries and then its own |
| ThreeAddress.UnaryTemps | src/tac_generator.py:226-232 | A unary operation assigns its operand's temporaries and then its own |
| ThreeAddress.CallTemps | src/tac_generator.py:234-244 | A call takes its temporary first, then its arguments' temporaries |
| ThreeAddress.ArgsTemps | src/tac_generator.py:239-241 | The argument loop assigns each temporary it takes exactly once |
| ThreeAddress.OperatorTempLast | src/tac_generator.py:217-224 | A binary operation's value is the last temporary taken, assigned by the last instruction, and never assigned before it |
| ThreeAddress.CallTempFirst | src/tac_generator.py:234-244 | A call's value is the first temporary it takes, assigned by the final CALL and by no argument |
| ThreeAddress.NoJumpsWellLabelled | src/tac_generator.py:196-244 | Code without labels or jumps is well labelled for an empty label range |
| ThreeAddress.WellJoin | src/tac_generator.py:76-80 | Well-labelled code over consecutive label ranges stays well labelled when appended |
| ThreeAddress.IfShape | src/tac_generator.py:112-131 | The if layout defines its two labels once and jumps only to labels of its range |
| ThreeAddress.WhileShape | src/tac_generator.py:133-146 | The while layout does the same |
| ThreeAddress.ForShape | src/tac_generator.py:148-169 | The for layout does the same |
| ThreeAddress.ForTestLabels | src/tac_generator.py:158-160 | The for test defines no label and jumps only to the end label |
| ThreeAddress.ParamsNoJumps | src/tac_generator.py:175-176 | Parameter code has no label and no jump |
| ThreeAddress.ExprThen | src/tac_generator.py:101-110 | Expression code followed by a plain instruction is well labelled |
| ThreeAddress.StmtLabels | src/tac_generator.py:82-194 | A statement's code defines exactly the labels it takes, each once, and jumps only to them |
| ThreeAddress.StmtsLabels | src/tac_generator.py:76-80 | The same for a statement list |
| ThreeAddress.ElseLabels | src/tac_generator.py:127-129 | The same for an else branch |
| ThreeAddress.IfLabels | src/tac_generator.py:112-131 | The same for an if-statement |
| ThreeAddress.WhileLabels | src/tac_generator.py:133-146 | The same for a while-statement |
| ThreeAddress.InitLabels | src/tac_generator.py:150-151 | The same for a for-loop initialiser |
| ThreeAddress.UpdateLabels | src/tac_generator.py:165-166 | The same for a for-loop update |
| ThreeAddress.ForLabels | src/tac_generator.py:148-169 | The same for a for-loop |
| ThreeAddress.FunctionLabels | src/tac_generator.py:171-181 | The same for a function declaration |
| ThreeAddress.ProgramLabels | src/tac_generator.py:76-80 | In a generated program every label L1..Ln is defined exactly once, no other label is defined, and every jump targets a defined label |
| TacGeneration.TacGenerator.constructor | src/tac_generator.py:43-47 | A new generator has no code and both counters at zero |
| TacGeneration.TacGenerator.NewTemp | src/tac_generator.py:49-52 | Bumps only the temporary counter and returns `t` plus its new value |
| TacGeneration.TacGenerator.NewLabel | src/tac_generator.py:54-57 | Bumps only the label counter and returns `L` plus its new value |
| TacGeneration.TacGenerator.Emit | src/tac_generator.py:59-74 | Appends exactly one instruction and returns its result, or `""` when the result is empty or missing |
| TacGeneration.TacGenerator.Generate | src/tac_generator.py:76-80 | Appends the program's lowering. On a fresh generator it returns `Generate(program)`'s code, whose labels `ProgramLabels` proves well formed |
| TacGeneration.TacGenerator.VisitStatements | src/tac_generator.py:78-79 | Its loop appends the list's lowering |
| TacGeneration.TacGenerator.VisitStatement | src/tac_generator.py:82-99 | Appends `LowerStmt`'s code and moves the counters as it does |
| TacGeneration.TacGenerator.ExpressionThen | src/tac_generator.py:104-110 | Lowers an expression, then emits one instruction on its value |
| TacGeneration.TacGenerator.VisitVarDeclaration | src/tac_generator.py:101-105 | Appends the declaration's lowering |
| TacGeneration.TacGenerator.VisitAssignment | src/tac_generator.py:107-110 | Appends the assignment's lowering |
| TacGeneration.TacGenerator.VisitIfStatement | src/tac_generator.py:112-131 | Appends `LowerIf`'s code |
| TacGeneration.TacGenerator.VisitWhileStatement | src/tac_generator.py:133-146 | Appends `LowerWhile`'s code |
| TacGeneration.TacGenerator.VisitForStatement | src/tac_generator.py:148-169 | Appends `LowerFor`'s code |
| TacGeneration.TacGenerator.VisitForTest | src/tac_generator.py:158-160 | Appends the for test |
| TacGeneration.TacGenerator.VisitFunctionDeclaration | src/tac_generator.py:171-181 | Appends `LowerFunction`'s code |
| TacGeneration.TacGenerator.VisitReturnStatement | src/tac_generator.py:183-189 | Appends the return's lowering |
| TacGeneration.TacGenerator.VisitPrintStatement | src/tac_generator.py:191-194 | Appends the print's lowering |
| TacGeneration.TacGenerator.VisitExpression | src/tac_generator.py:196-215 | Returns `LowerExpr`'s value and appends its code |
| TacGeneration.TacGenerator.VisitBinaryOp | src/tac_generator.py:217-224 | Returns `LowerBinary`'s value and appends its code |
| TacGeneration.TacGenerator.VisitUnaryOp | src/tac_generator.py:226-232 | Returns `LowerUnary`'s value and appends its code |
| TacGeneration.TacGenerator.VisitFunctionCall | src/tac_generator.py:234-244 | Returns `LowerCall`'s value and appends its code |
| TacProperties.ReprForms | src/tac_generator.py:25-37 | `x = ASSIGN 10`, `t1 = x + y`, `IF_FALSE c L1` |
| TacProperties.ReprShortForms | src/tac_generator.py:25-37 | `GOTO L2`, `t3 = CALL f`, `RETURN` |
| TacProperties.EmptyResultIsNoResult | src/tac_generator.py:26 | An empty result renders like no result |
| TacProperties.MissingOperandRendersNone | src/tac_generator.py:30 | A result without a first operand renders it as `None` |
| TacProperties.NameOne | src/tac_generator.py:49-57 | The first temporary is `t1`, the first labels `L1` and `L2` |
| TacProperties.DeclareTen | src/tac_generator.py:101-105 | `var x = 10;` lowers to `x = ASSIGN 10` and takes nothing |
| TacProperties.DeclareTwenty | src/tac_generator.py:101-105 | `var y = 20;` lowers to `y = ASSIGN 20` |
| TacProperties.AssignSum | src/tac_generator.py:107-110 | `z = x + y;` lowers to `t1 = x + y` and `z = ASSIGN t1` |
| TacProperties.FiveInstructions | src/tac_generator.py:76-110 | The five-statement sample lowers to exactly five instructions. The declaration without an initialiser emits nothing |
| TacProperties.FiveInstructionsRendered | src/tac_generator.py:25-37 | Those instructions render as the compiler prints them |
| TacProperties.IfWithoutElse | src/tac_generator.py:112-131 | `if (c) { }` emits IF_FALSE, GOTO and both labels |
| TacProperties.EmptyWhile | src/tac_generator.py:133-146 | `while (c) { }` emits label, IF_FALSE, GOTO back and end label |
| TacProperties.EmptyFor | src/tac_generator.py:148-169 | `for (;;) { }` emits label, GOTO back and end label, with no test |
| TacProperties.FunctionLayout | src/tac_generator.py:171-189 | A function emits FUNCTION, one PARAM per parameter, the body, and a bare RETURN even after its own return |
| TacProperties.CallLayout | src/tac_generator.py:234-244 | `f(x, 1)` takes `t1` before its arguments and emits ARG x, ARG 1, `t1 = CALL f` |
| TacProperties.GenerateFive | src/tac_generator.py:76-80 | A fresh generator returns the five instructions of the sample |

## Left out

- Floating-point values are not modelled. A float literal keeps its lexeme, where Python stores `float(value)`, and `str` of a float is taken to be that lexeme.
- Characters are ASCII. `isdigit`, `isalnum` and `.lower()` are modelled on ASCII only, as Unicode classes are out of reach.
- The analyzer's `type_info` map is left out. It is keyed by `id(node)` and never read back by the code modelled here.
- `get_errors`, `get_tac_code`, `get_all_symbols` and `print_tac` are left out. They are accessors and a printing loop; `print_tac`'s per-instruction text is `Repr`.
- The driver that chains the phases, and the test suite, are not part of this model.
- `SemanticError` is never raised by the code, so `analyze`'s except-branch is not modelled.
- `add_error` without a node is never called, so that branch is not modelled.
- `Symbol.is_declared` is always True and is never read, so it is not a field.
- Lexer.Lexer.HasErrors: the one-line `has_errors` is a function without a contract.
- Parser.Parser.HasErrors: the same as `Lexer.Lexer.HasErrors`.
- Parser.ParseAt: the parser is modelled only for non-empty token lists ending in EOF, which is what the lexer delivers. Python's `current_token` would fail on an empty list.
- Parser.ConsumeAt: the optional `: message` suffix of `consume` is not modelled, because no call site passes a message. The direct `raise ParseError(...)` sites record no message, as in the code.
- Parser.SynchronizeAt: `synchronize` is modelled and proved, but like the code nothing calls it.
- Parser.Parser.Parse: the code would loop forever when a statement makes no progress. The model stops with the outcome `Diverged` in that state instead of looping.
- Lexer.LexEndsWithOneEof: a source ending in a backslash inside a string makes Python raise a `TypeError` out of `tokenize`. The model ends with `crashed` and no tokens, and proves nothing further about that case.
- ThreeAddress.StmtLabels: freshness of temporaries is proved per expression (`ExprTemps`). Across statements it rests on the counters only moving forward and on `CountedInjective`. A user variable spelled like a temporary (`t1`) can still collide with one, as in the code.
- Semantics.AfterVarDeclaration: `if node.initializer` / `if node.value` test for a missing node. AST nodes are always truthy in Python, so this is modelled as "present".
- ThreeAddress.LowerElse: the same as `Semantics.AfterVarDeclaration`. An empty else list and a missing one both emit nothing.
- TokenTypes.Keywords: the count of keywords (15) is not stated as a lemma. Distinctness and the kinds of the type names are stated instead.
