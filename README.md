# MyPL front end: lexer and recursive-descent parser

This project models the two stages of the MyPL front end and proves properties about them:

- `hw3/Lexer.java` is a pull-based lexer. Each `nextToken()` call runs a character-level state machine over a buffered input stream. The stream has one character of lookahead (`peek`). The lexer keeps `line` and `column` counters and throws a `"Lexer"` exception on a lexical error.
- `hw3/Parser.java` is an LL(1) recursive-descent recogniser. It holds one lookahead token (`currToken`), has one procedure per nonterminal plus FIRST-set predicates, accepts by returning and rejects by throwing a `"Parser"` exception at the lookahead.

Files:

- `tokens.dfy` (module `Tokens`): token categories, tokens, the exception value `Error(tag, message, line, column)` and `Outcome`. `Outcome` is a procedure's normal return or its exception, used with `:-`.
- `scanning.dfy` (module `Scanning`): one `nextToken` call as a pure state machine.
  - `Scan` holds the cursor plus the call's local variables (lexeme, start column, the `isID`/`isReserved`/`isNum` flags).
  - `Step` is one iteration of the outer `while (peek() != -1)` loop.
  - `Run` iterates `Step`; `Lex` is one call, and its `LexResult` is the call's outcome with the new cursor, line and column.
- `lexer.dfy` (module `Lexing`): class `Lexer` with the fields `pos`, `line` and `column`.
  - `NextToken` builds its lexeme step by step with the source's nested loops.
  - It is proved to end in exactly the state and result that `Scanning.Lex` describes.
  - Each branch of the loop is a method proved equal to the matching step function.
- `lexer_properties.dfy` (module `LexerProperties`): what one call does on each kind of input. Covered: blanks, newlines, comments, reserved words, identifiers, number literals, operators, string and char literals, characters no branch handles, and the `_` carry-over below.
- `grammar.dfy` (module `Grammar`): the FIRST-set predicates, token streams, and one function per parser procedure.
  - Each function takes the stream and the lookahead index `i` (the lookahead is `ts[i - 1]`).
  - It answers `Accept(j)` when the procedure returns normally with lookahead index `j`, or `Reject(message, j)` when it raises `message` at lookahead index `j`.
- `parser.dfy` (module `Parsing`): class `Parser`, holding the token stream and `pulled`, the number of tokens taken from the lexer.
  - Every procedure is a method returning `Ok` or `Err`.
  - Every method is proved to return exactly as its `Grammar` function says. A normal return leaves the same lookahead. An exception carries the same message, at the lookahead token's row and column.
- `parser_properties.dfy` (module `ParserProperties`): what the parser accepts.
  - Exact token shapes, in both directions, for `params`, `lvalue`, `idrval`, `vdecl`, `assign`, `exit`, `while_stmt`, `for_stmt`, `fdecl`, `rvalue` and the first part of `expr`.
  - What `stmt` and `bstmt` accept, in both directions, in terms of the procedures they dispatch to, and how `expr` goes on after its first part.
  - The messages `cond` and `vdecls` end with.
  - Two complete token streams run through a fresh `Parser`.

The model follows the code where the code departs from the grammar in its comments. All of the following are proved:

- `vdecls` calls itself unconditionally, so it never returns normally. The same holds for `tdecl` and for every `stmt` that starts with `type` or a data type.
- `cond` calls `condt` only when the lookahead is `IF`. `condt` does nothing on `IF`, so `eat(END)` then fails: a conditional never succeeds. After the then-bstmt it raises "Expecting END token" at that `IF`, and "Need a conditional tail here" at any other token (`ParserProperties.CondTail`). So the `ELIF` and `ELSE` branches of `condt` are never reached from `cond`.
- `vdecls` on any lookahead but `VAR` raises "Expecting toke VAR" (`ParserProperties.VdeclsWithoutVar`).
- An `elif` tail never succeeds. Once its bstmts are parsed it raises "Need a conditional tail here". Before that, its parts raise their own errors: for example "Need an expression here" when no expression follows `elif` (`ParserProperties.ElifWithoutExpression`).
- `isBstmt` omits `WHILE`, and every call of `bstmt` is behind an `isBstmt` test. So `while_stmt` is never reached: on `WHILE` a statement raises "Poor sstatement declaration", a required bstmt raises "Need a bstmt here", and `bstmts` stops (`ParserProperties.WhileNeverParsed`). `WhileAccept` describes what the procedure would accept if it were called.
- `vdecl` stops after a data type: `var int` is a whole declaration.
- The body of `fdecl` is a single bstmt, not a block (`ParserProperties.FdeclAccept`).
- `idrval` rejects a bare `ID`. So the stream `x := 5` (ID, ASSIGN, INT_VAL) is rejected at the `:=` token, line 1, column 2, with "Invalid right hand side ID" (hw3/Parser.java:464). `x` starts an expression, which reads it as an idrval.
- A pval followed by an operator and then a token that starts no expression is a whole expression: the `expr` after the operator is empty (`ParserProperties.TrailingOperator`).

Lexer quirks reproduced as written:

- A second character `0` rejects a number: `10` and `00` are errors, `05` is not.
- `_` after a letter run appends its code, `"95"`, to the lexeme.
- `_` after the digits of an identifier does not end the token (hw3/Lexer.java:295-299). The identifier and the `_` are carried into the lexeme of whatever token comes next.
  - So `int1_!` is one NOT token spelled "int1_!" at the identifier's column (`LexerProperties.UnderscoreExample`).
  - Blanks in between do not stop the carry-over; they only move the start column.
  - A token whose spelling is fixed drops the carried text: in `x1_ := 5` the first token is ASSIGN spelled ":=", and `x1_` is lost.
- A character that no branch handles (`@`, `$`, ...) makes `nextToken` loop forever without consuming it.
- The column bookkeeping differs per operator:
  - `+`, `*`, `/`, `%`, `=` and `<` do not count their column.
  - `*`, `/`, `%` and `=` report the current column rather than the start column.
- The message "Ivalid assignment declaration" is kept as spelled.

## Model

| member | source | states |
|---|---|---|
| Scanning.LexError | hw3/Lexer.java:65-67 | definition: a "Lexer" exception with the message, line and column |
| Scanning.LetterRunEnd | hw3/Lexer.java:110-117 | the letter loop stops at the first non-letter; everything it passed is a letter |
| Scanning.DigitRunEnd | hw3/Lexer.java:258-262 | the digit loop stops at the first non-digit; everything it passed is a digit |
| Scanning.Find | hw3/Lexer.java:312-315 | the skip loops stop at the first stop character, or at the end of the input where the source never leaves the loop |
| Scanning.KeywordKind | hw3/Lexer.java:132-231 | a category that comes back is a reserved-word category, and the word is non-empty letters |
| Scanning.KeywordKindDomain | hw3/Lexer.java:132-231 | the keyword table answers exactly for the 25 reserved words |
| Scanning.WordStep | hw3/Lexer.java:104-237 | the letter branch never moves the cursor back; a token it emits consumed input and is not EOS; a reserved-word lexeme extends the lexeme it started with |
| Scanning.NumberStep | hw3/Lexer.java:241-249 | the digit branch makes progress as `Progress` defines it |
| Scanning.LiteralStep | hw3/Lexer.java:249-286 | the number-literal branch makes progress as `Progress` defines it |
| Scanning.FractionStep | hw3/Lexer.java:264-278 | the fraction part of a number literal makes progress as `Progress` defines it |
| Scanning.IdentifierDigitsStep | hw3/Lexer.java:289-303 | digits inside an identifier make progress; continuing consumes input and only extends the lexeme |
| Scanning.CommentStep | hw3/Lexer.java:308-325 | the comment branch makes progress as `Progress` defines it |
| Scanning.StringStep | hw3/Lexer.java:407-424 | the string branch makes progress as `Progress` defines it |
| Scanning.CharStep | hw3/Lexer.java:427-439 | the char branch makes progress as `Progress` defines it |
| Scanning.PunctuationStep | hw3/Lexer.java:328-352 | the `:`, `.`, `,` branches make progress as `Progress` defines it |
| Scanning.ArithmeticStep | hw3/Lexer.java:354-378 | the arithmetic-operator branches make progress as `Progress` defines it |
| Scanning.RelationalStep | hw3/Lexer.java:380-404 | the comparison branches make progress as `Progress` defines it |
| Scanning.OperatorStep | hw3/Lexer.java:328-476 | the operator branches make progress as `Progress` defines it |
| Scanning.Step | hw3/Lexer.java:84-476 | one iteration of the outer loop never moves back, and continuing consumes input |
| Scanning.Run | hw3/Lexer.java:84-480 | the cursor never moves back; EOS is produced only at the end of the input with an empty lexeme; any other token consumed input |
| Scanning.Lex | hw3/Lexer.java:70-80 | definition: one call starts a `Run` at the cursor with an empty lexeme, the start column equal to the column, and all flags false |
| Lexing.Lexer.constructor | hw3/Lexer.java:25-29 | a fresh lexer stands before the first character at line 1, column 0 |
| Lexing.Lexer.Peek | hw3/Lexer.java:49-59 | definition: the next character's code, or -1 at the end of the input, with nothing consumed |
| Lexing.Lexer.Read | hw3/Lexer.java:35-43 | `read` returns the next character's code and consumes it; at the end it returns -1 and nothing moves |
| Lexing.Lexer.ReadChar | hw3/Lexer.java:35-43 | reading where a character is known to be next returns it and consumes exactly one position |
| Lexing.Lexer.TakeLetters | hw3/Lexer.java:113-117 | the letter loop appends exactly the maximal letter run and counts one column per letter |
| Lexing.Lexer.TakeDigits | hw3/Lexer.java:258-262 | the digit loop appends exactly the maximal digit run and counts one column per digit |
| Lexing.Lexer.TakeUntil | hw3/Lexer.java:411-420 | the reading loop of string and char literals stops at the first stop character or the end of the input, appends exactly what it passed and counts one column per character |
| Lexing.Lexer.NextToken | hw3/Lexer.java:70-482 | the result, cursor, line and column are exactly those of `Scanning.Lex` from the old cursor, line and column |
| Lexing.Lexer.Dispatch | hw3/Lexer.java:84-476 | one iteration of the outer loop ends in exactly the state and move `Scanning.Step` gives |
| Lexing.Lexer.Word | hw3/Lexer.java:104-237 | the letter branch ends in the state and result `WordStep` gives |
| Lexing.Lexer.Number | hw3/Lexer.java:241-249 | the digit branch ends as `NumberStep` gives |
| Lexing.Lexer.Literal | hw3/Lexer.java:249-286 | the number-literal branch ends as `LiteralStep` gives |
| Lexing.Lexer.Fraction | hw3/Lexer.java:264-278 | reading `.` and the digits after it ends as `FractionStep` gives |
| Lexing.Lexer.IdentifierDigits | hw3/Lexer.java:289-303 | digits inside an identifier end as `IdentifierDigitsStep` gives |
| Lexing.Lexer.Comment | hw3/Lexer.java:308-325 | the comment branch ends as `CommentStep` gives |
| Lexing.Lexer.StringLiteral | hw3/Lexer.java:407-424 | the string branch ends as `StringStep` gives |
| Lexing.Lexer.CharLiteral | hw3/Lexer.java:427-439 | the char branch ends as `CharStep` gives |
| Lexing.Lexer.Operator | hw3/Lexer.java:328-476 | the operator branches end as `OperatorStep` gives |
| Lexing.Lexer.Punctuation | hw3/Lexer.java:328-352 | the `:`, `.`, `,` branches end as `PunctuationStep` gives |
| Lexing.Lexer.Arithmetic | hw3/Lexer.java:354-378 | the `+ - * / %` branches end as `ArithmeticStep` gives |
| Lexing.Lexer.Relational | hw3/Lexer.java:380-404 | the `= > < !` branches end as `RelationalStep` gives |
| Lexing.Lexer.Comparison | hw3/Lexer.java:393-404 | an operator followed by `=` becomes the two-character token, otherwise the one-character one; position and column move accordingly |
| LexerProperties.BlanksSkipped | hw3/Lexer.java:95-100 | a run of k blanks produces no token and moves the column on by k |
| LexerProperties.BlankSkipped | hw3/Lexer.java:95-100 | one blank at the start of a call is discarded and moves the column on by one |
| LexerProperties.BlankStep | hw3/Lexer.java:95-100 | one blank: the loop goes round again one column further on, and the token start moves with it |
| LexerProperties.NewlineSkipped | hw3/Lexer.java:86-92 | a newline produces no token, adds one to the line and sets the column to 1 |
| LexerProperties.EndOfStream | hw3/Lexer.java:478-480 | at the end of the input the answer is EOS with an empty lexeme at the current line and column |
| LexerProperties.LetterRunEndAt | hw3/Lexer.java:113-117 | the letter loop stops exactly where the letters stop |
| LexerProperties.DigitRunEndAt | hw3/Lexer.java:258-262 | the digit loop stops exactly where the digits stop |
| LexerProperties.FindAt | hw3/Lexer.java:411-420 | the skip loop stops exactly at the first stop character |
| LexerProperties.KeywordStep | hw3/Lexer.java:104-231 | from a fresh lexeme, one iteration over a reserved word that no letter, digit or `_` follows emits that word's token and moves past it |
| LexerProperties.ReservedWord | hw3/Lexer.java:132-231 | a reserved word not followed by a letter, digit or `_` is that word's token, with the word as lexeme, at the start column |
| LexerProperties.Identifier | hw3/Lexer.java:234-236 | a letter run that is not a reserved word, ending before a non-letter, non-digit, non-`_`, is an ID with exactly those letters |
| LexerProperties.NoReservedWordAfter | hw3/Lexer.java:119-129 | once the lexeme holds a non-letter, no reserved-word token can come out of the call |
| LexerProperties.DemotedRun | hw3/Lexer.java:119-129 | an iteration that demotes the lexeme rules out a reserved-word token for the whole call |
| LexerProperties.UnderscoreDemotes | hw3/Lexer.java:124-129 | `_` after a letter run (appended as "95") demotes the word |
| LexerProperties.DigitDemotes | hw3/Lexer.java:289-303 | digits after the letters of an identifier demote the word |
| LexerProperties.DemotedWord | hw3/Lexer.java:120-129 | a letter run followed directly by a digit or `_` never yields a token spelled as a reserved word |
| LexerProperties.SecondZeroRejected | hw3/Lexer.java:251-255 | a number whose second character is `0` fails with "Invalid int or double assignment" at its start column |
| LexerProperties.IntegerLiteral | hw3/Lexer.java:280-285 | digits followed by a letter fail with "Cannot have letters in a number"; otherwise the digits are an INT_VAL with exactly that lexeme, and the cursor and column move past them |
| LexerProperties.DoubleLiteral | hw3/Lexer.java:264-277 | digits, `.`, digits are a DOUBLE_VAL whose lexeme includes the `.`; a second `.` fails with "invalid double value" at the start column |
| LexerProperties.Assignment | hw3/Lexer.java:328-340 | `:=` is ASSIGN with lexeme ":="; a `:` without `=` is an error |
| LexerProperties.DoubleEqualRejected | hw3/Lexer.java:380-391 | `==` fails with "Invalid comparison with '=='" |
| LexerProperties.RelationalRun | hw3/Lexer.java:380-462 | a call that reaches `=`, `>`, `<` or `!` ends with what that character's branch produces |
| LexerProperties.Comparison | hw3/Lexer.java:393-462 | `>`, `<`, `!` followed by `=` give `>=`, `<=`, `!=`, and otherwise `>`, `<`, NOT |
| LexerProperties.ArithmeticOperator | hw3/Lexer.java:354-378 | in a fresh call, `+ - * / %` are one-character tokens at the call's column; only `-` moves the column on |
| LexerProperties.ArithmeticAfterCarried | hw3/Lexer.java:354-378 | with a carried lexeme, `+` and `-` keep it and report the carried start column, while `*`, `/` and `%` drop it and report the current column; only `-` moves the column on |
| LexerProperties.UnknownCharacterDiverges | hw3/Lexer.java:84-476 | a character that is no blank, letter, digit, `#`, quote or operator leaves the call without a result, at the same cursor, line and column: the source loops forever on it |
| LexerProperties.StringLiteral | hw3/Lexer.java:407-424 | a string's lexeme is exactly the characters between the quotes; a newline first fails with "Cannot have new lines in a string" at the newline's column |
| LexerProperties.CharLiteral | hw3/Lexer.java:427-439 | a char literal's lexeme is whatever stands between the quotes, newlines included |
| LexerProperties.CommentSkipped | hw3/Lexer.java:308-325 | a comment up to its newline produces no token; lexing goes on at the next line, column 1 |
| LexerProperties.SpellingOfKeywordKind | hw3/Lexer.java:132-231 | the keyword table can be undone: the reserved word is recovered from the category it maps to |
| LexerProperties.KeywordKindInjective | hw3/Lexer.java:132-231 | two reserved words with the same category are the same word |
| LexerProperties.FirstTokenExample | hw3/Lexer.java:70-237 | on "var\n  x := 1" the first call from line 1, column 0 answers VAR at column 0 and leaves the lexer at column 3 |
| LexerProperties.PositionExample | hw3/Lexer.java:86-100 | the next call, from there, skips the newline and two blanks and reports `x` at line 2, column 3 |
| LexerProperties.LettersThenDigit | hw3/Lexer.java:110-129 | a letter run followed by a digit does not end the call: the loop goes on at the digit with the letters as the lexeme, demoted |
| LexerProperties.DigitsThenUnderscore | hw3/Lexer.java:289-299 | an identifier's digits followed by `_` join the lexeme with the `_`, and the loop goes on after the `_` |
| LexerProperties.UnderscoreCarriesOver | hw3/Lexer.java:289-299 | letters, digits and `_` do not end the call: the loop goes on after the `_` with all of them as the lexeme and the identifier's start column |
| LexerProperties.NotAfterCarried | hw3/Lexer.java:452-462 | a `!` not followed by `=` yields NOT spelled with whatever lexeme was carried into it, at the carried start column |
| LexerProperties.UnderscoreThenBang | hw3/Lexer.java:289-462 | letters, digits, `_` and a final `!` from the start of the input are one NOT token spelled by all of them |
| LexerProperties.UnderscoreExample | hw3/Lexer.java:295-299 | `int1_!` is one NOT token spelled "int1_!" at column 0 |
| Grammar.IsPval | hw3/Parser.java:137-141 | definition: the five literal kinds |
| Grammar.IsRval | hw3/Parser.java:101-108 | definition: a pval, NIL, NEW, NEG or ID |
| Grammar.IsExpression | hw3/Parser.java:90-98 | definition: a pval, NOT, LPAREN, NIL, NEW, NEG or ID |
| Grammar.IsDtype | hw3/Parser.java:111-115 | definition: the five built-in data types |
| Grammar.IsBstmt | hw3/Parser.java:118-126 | definition: an expression starter, VAR, SET, IF, FOR or RETURN, and not WHILE |
| Grammar.IsOperator | hw3/Parser.java:129-134 | definition: the thirteen binary operators |
| Grammar.FirstSetsNest | hw3/Parser.java:90-141 | pval ⊆ rval ⊆ expression ⊆ bstmt starters; no operator starts an expression; WHILE, ELIF, ELSE and END start no bstmt |
| Grammar.ExpressionStarters | hw3/Parser.java:90-98 | an expression starts exactly with `(`, `not` or an rvalue starter |
| Grammar.EosOnlyAtEnd | hw3/Lexer.java:478-480 | in a stream the lexer produces, EOS is the last token and the only one |
| Grammar.TokenStream | hw3/Parser.java:43-45 | the tokens that successive `nextToken` calls hand to `advance` form a well-formed stream ending in one EOS |
| Grammar.Next | hw3/Parser.java:43-45 | `advance` moves the lookahead one token on unless it is EOS, and never past the stream |
| Grammar.Program | hw3/Parser.java:32-37 | `parse` accepts only after reading the whole stream, and never moves back |
| Grammar.Eat | hw3/Parser.java:49-54 | `eat(t)` accepts exactly when the lookahead has kind `t` and then moves one token on; otherwise it raises the message at the lookahead, which stays |
| Grammar.Stmts | hw3/Parser.java:79-85 | `stmts` returns normally only on an EOS lookahead |
| Grammar.Stmt | hw3/Parser.java:145-157 | a statement that succeeds consumed a token; TYPE or a data type always raises; any other non-starter raises "Poor sstatement declaration" without consuming |
| Grammar.Bstmts | hw3/Parser.java:161-167 | `bstmts` stops exactly at a lookahead that starts no bstmt, and consumes nothing when none starts |
| Grammar.Bstmt | hw3/Parser.java:170-189 | a bstmt that succeeds consumed a token; one starting with IF always raises |
| Grammar.Tdecl | hw3/Parser.java:192-198 | a type declaration never succeeds |
| Grammar.Fdecl | hw3/Parser.java:201-221 | an accepted function declaration consumed tokens |
| Grammar.FunctionHeading | hw3/Parser.java:203-212 | an accepted heading is FUN, NIL or a data type, ID and `(`, four tokens; any other return type raises "invalid function type" right after FUN |
| Grammar.RequiredExpr | hw3/Parser.java:278-282 | an expression is parsed when one starts; otherwise "Need an expression here" is raised with nothing consumed |
| Grammar.RequiredBstmt | hw3/Parser.java:215-219 | one bstmt is parsed when one starts; otherwise "Need a bstmt here" is raised with nothing consumed |
| Grammar.RequiredBstmts | hw3/Parser.java:373-377 | a non-empty block of bstmts is parsed when one starts and stops where none starts; otherwise the given message is raised |
| Grammar.Vdecls | hw3/Parser.java:224-228 | `vdecls` never returns normally (its message on a non-VAR lookahead: `VdeclsWithoutVar`) |
| Grammar.Params | hw3/Parser.java:231-248 | `params` consumes nothing unless a data type or ID starts |
| Grammar.MoreParams | hw3/Parser.java:238-246 | the parameter loop stops only at a non-comma |
| Grammar.Dtype | hw3/Parser.java:251-259 | succeeds exactly on a data type or ID, consuming that one token; otherwise raises without consuming |
| Grammar.Exit | hw3/Parser.java:262-267 | RETURN with no expression after it is accepted alone |
| Grammar.Vdecl | hw3/Parser.java:271-286 | VAR followed by a data type is accepted, two tokens long |
| Grammar.Assign | hw3/Parser.java:289-302 | an accepted assignment consumed tokens |
| Grammar.Lvalue | hw3/Parser.java:305-313 | `lvalue` never moves back |
| Grammar.LvaluePath | hw3/Parser.java:307-312 | the DOT loop of `lvalue` stops only at a non-DOT |
| Grammar.Cond | hw3/Parser.java:316-335 | a conditional never succeeds (its message after the then-bstmt: `CondTail`) |
| Grammar.Condt | hw3/Parser.java:338-362 | an ELIF tail never succeeds; an ELSE tail ends where no bstmt starts; anything else is the empty tail |
| Grammar.While | hw3/Parser.java:365-379 | an accepted loop consumed tokens |
| Grammar.For | hw3/Parser.java:382-404 | an accepted loop consumed tokens |
| Grammar.Expr | hw3/Parser.java:407-427 | consumes nothing unless an expression starts, and then at least one token |
| Grammar.Operand | hw3/Parser.java:408-420 | the first part of an expression consumes at least one token when accepted (its exact alternatives: `OperandAccept`) |
| Grammar.Rvalue | hw3/Parser.java:430-449 | a non-rvalue raises "Invalid right hand side value" without consuming; NIL and pvals are exactly one token (its exact alternatives: `RvalueAccept`) |
| Grammar.Idrval | hw3/Parser.java:452-466 | an accepted idrval is at least two tokens; an ID followed by anything but DOT or `(` raises "Invalid right hand side ID" at the token after it |
| Grammar.IdrvalPath | hw3/Parser.java:454-458 | the DOT loop of `idrval` stops only at a non-DOT |
| Grammar.Exprlist | hw3/Parser.java:469-477 | consumes nothing unless an expression starts |
| Grammar.MoreExprs | hw3/Parser.java:472-475 | the comma loop of `exprlist` stops only at a non-comma |
| Parsing.Parser.Raise | hw3/Parser.java:58-63 | `error` raises a "Parser" exception with the given message at the lookahead's row and column |
| Parsing.Parser.constructor | hw3/Parser.java:24-26 | a new parser has pulled no token yet |
| Parsing.Parser.Parse | hw3/Parser.java:32-37 | returns exactly as `Grammar.Program`: normally when the stream is accepted, otherwise with the same message at the same token's row and column |
| Parsing.Parser.Advance | hw3/Parser.java:43-45 | `advance` pulls exactly one more token, and keeps EOS once the stream is exhausted |
| Parsing.Parser.Eat | hw3/Parser.java:49-54 | returns exactly as `Grammar.Eat` |
| Parsing.Parser.Stmts | hw3/Parser.java:79-85 | returns exactly as `Grammar.Stmts` |
| Parsing.Parser.Stmt | hw3/Parser.java:145-157 | returns exactly as `Grammar.Stmt` |
| Parsing.Parser.Bstmts | hw3/Parser.java:161-167 | returns exactly as `Grammar.Bstmts` |
| Parsing.Parser.Bstmt | hw3/Parser.java:170-189 | returns exactly as `Grammar.Bstmt` |
| Parsing.Parser.Tdecl | hw3/Parser.java:192-198 | returns exactly as `Grammar.Tdecl` |
| Parsing.Parser.Fdecl | hw3/Parser.java:201-221 | returns exactly as `Grammar.Fdecl` |
| Parsing.Parser.FunctionHeading | hw3/Parser.java:203-212 | returns exactly as `Grammar.FunctionHeading` |
| Parsing.Parser.RequiredExpr | hw3/Parser.java:278-282 | returns exactly as `Grammar.RequiredExpr` |
| Parsing.Parser.RequiredBstmt | hw3/Parser.java:215-219 | returns exactly as `Grammar.RequiredBstmt` |
| Parsing.Parser.RequiredBstmts | hw3/Parser.java:373-377 | returns exactly as `Grammar.RequiredBstmts` |
| Parsing.Parser.Vdecls | hw3/Parser.java:224-228 | returns exactly as `Grammar.Vdecls` |
| Parsing.Parser.Params | hw3/Parser.java:231-248 | returns exactly as `Grammar.Params`, with the comma loop as a `while` loop |
| Parsing.Parser.Dtype | hw3/Parser.java:251-259 | returns exactly as `Grammar.Dtype` |
| Parsing.Parser.Exit | hw3/Parser.java:262-267 | returns exactly as `Grammar.Exit` |
| Parsing.Parser.Vdecl | hw3/Parser.java:271-286 | returns exactly as `Grammar.Vdecl` |
| Parsing.Parser.Assign | hw3/Parser.java:289-302 | returns exactly as `Grammar.Assign` |
| Parsing.Parser.Lvalue | hw3/Parser.java:305-313 | returns exactly as `Grammar.Lvalue`, with the DOT loop as a `while` loop |
| Parsing.Parser.Cond | hw3/Parser.java:316-335 | returns exactly as `Grammar.Cond` |
| Parsing.Parser.Condt | hw3/Parser.java:338-362 | returns exactly as `Grammar.Condt` |
| Parsing.Parser.While | hw3/Parser.java:365-379 | returns exactly as `Grammar.While` |
| Parsing.Parser.For | hw3/Parser.java:382-404 | returns exactly as `Grammar.For` |
| Parsing.Parser.Expr | hw3/Parser.java:407-427 | returns exactly as `Grammar.Expr` |
| Parsing.Parser.Operand | hw3/Parser.java:408-420 | returns exactly as `Grammar.Operand` |
| Parsing.Parser.Rvalue | hw3/Parser.java:430-449 | returns exactly as `Grammar.Rvalue` |
| Parsing.Parser.Idrval | hw3/Parser.java:452-466 | returns exactly as `Grammar.Idrval`, with the DOT loop as a `while` loop |
| Parsing.Parser.Exprlist | hw3/Parser.java:469-477 | returns exactly as `Grammar.Exprlist`, with the comma loop as a `while` loop |
| ParserProperties.ParamListLength | hw3/Parser.java:231-248 | a non-empty parameter list has 2, 5, 8, ... tokens |
| ParserProperties.ParamListFirst | hw3/Parser.java:234-236 | a non-empty parameter list starts with one parameter |
| ParserProperties.ParamListPrefix | hw3/Parser.java:238-246 | a shorter parameter list inside a longer one is followed by a comma and a parameter |
| ParserProperties.MoreParamsSound | hw3/Parser.java:238-246 | the comma loop only ever extends a parameter list |
| ParserProperties.MoreParamsExact | hw3/Parser.java:238-246 | the comma loop stops exactly at the end of the longest parameter list |
| ParserProperties.ParamsStart | hw3/Parser.java:231-237 | on a data type or ID, `params` eats that token, then needs an ID and continues with the comma loop |
| ParserProperties.ParamsFirst | hw3/Parser.java:234-236 | after the first `dtype`, `params` needs an ID, or raises "Expecting variable ID" at the next token |
| ParserProperties.ParamsSound | hw3/Parser.java:231-248 | what `params` accepts is a parameter list followed by a token that cannot continue it |
| ParserProperties.ParamsComplete | hw3/Parser.java:231-248 | every parameter list followed by a token that cannot continue it is accepted |
| ParserProperties.ParamsAccept | hw3/Parser.java:231-248 | `params` accepts up to `n` exactly when the tokens before `n` are a parameter list and the token at `n` cannot continue it |
| ParserProperties.DottedPathLength | hw3/Parser.java:305-313 | a dotted path has an odd number of tokens |
| ParserProperties.DottedPathFirst | hw3/Parser.java:306 | a dotted path starts with an ID |
| ParserProperties.DottedPathPrefix | hw3/Parser.java:308-311 | a shorter dotted path inside a longer one is followed by DOT and ID |
| ParserProperties.LvaluePathSound | hw3/Parser.java:308-311 | the DOT loop of `lvalue` only ever extends a dotted path |
| ParserProperties.LvaluePathExact | hw3/Parser.java:308-311 | the DOT loop of `lvalue` stops exactly at the end of the longest dotted path |
| ParserProperties.LvalueAccept | hw3/Parser.java:305-313 | `lvalue` accepts up to `n` exactly when the tokens before `n` are ID (DOT ID)* and the token at `n` is no DOT |
| ParserProperties.IdrvalPathSound | hw3/Parser.java:455-458 | the DOT loop of `idrval` only ever extends a dotted path |
| ParserProperties.IdrvalPathExact | hw3/Parser.java:455-458 | the DOT loop of `idrval` stops exactly at the end of the longest dotted path |
| ParserProperties.IdrvalAccept | hw3/Parser.java:452-466 | `idrval` accepts exactly ID (DOT ID)+ ending before a non-DOT, or ID `(` exprlist `)` |
| ParserProperties.IdrvalPathAccept | hw3/Parser.java:454-458 | an ID followed by DOT is accepted up to `n` exactly when the tokens before `n` are a dotted path and the token at `n` is no DOT |
| ParserProperties.IdrvalCallAccept | hw3/Parser.java:459-462 | an ID followed by `(` is accepted up to `n` exactly when an exprlist runs from after the `(` to a `)` just before `n` |
| ParserProperties.IdrvalCallSound | hw3/Parser.java:459-462 | an accepted call is ID `(` exprlist `)` |
| ParserProperties.VdeclAccept | hw3/Parser.java:271-286 | `vdecl` accepts exactly VAR and a data type, or VAR ID ASSIGN and an expression |
| ParserProperties.EatAccepts | hw3/Parser.java:49-54 | an accepted `eat` of a kind other than EOS saw that kind and moved one token on |
| ParserProperties.EatMatches | hw3/Parser.java:49-54 | `eat` of a kind other than EOS on a lookahead of that kind accepts one token on |
| ParserProperties.EatMisses | hw3/Parser.java:49-54 | `eat` on a lookahead of another kind raises its message at the lookahead |
| ParserProperties.AssignSound | hw3/Parser.java:289-302 | an accepted assignment is SET, an lvalue, ASSIGN and an expression |
| ParserProperties.AssignComplete | hw3/Parser.java:289-302 | SET, an lvalue, ASSIGN and an expression are accepted |
| ParserProperties.AssignAccept | hw3/Parser.java:289-302 | `assign` accepts exactly SET, an lvalue, ASSIGN and an expression |
| ParserProperties.ExitAccept | hw3/Parser.java:262-267 | `exit` accepts exactly RETURN, followed by an expression when one starts |
| ParserProperties.LoopBodyIntro | hw3/Parser.java:365-379 | the accepted steps of a loop after its keyword are an expression, DO, bstmts and END |
| ParserProperties.LoopBodyComplete | hw3/Parser.java:365-379 | an expression, DO, bstmts and END after a loop keyword are accepted step by step |
| ParserProperties.WhileSound | hw3/Parser.java:365-379 | an accepted `while_stmt` is WHILE, an expression, DO, bstmts and END |
| ParserProperties.WhileAccept | hw3/Parser.java:365-379 | `while_stmt` accepts exactly WHILE, an expression, DO, a non-empty block of bstmts and END |
| ParserProperties.ForHeadIntro | hw3/Parser.java:382-391 | the accepted first steps of a `for_stmt` are FOR, ID, ASSIGN, an expression and TO |
| ParserProperties.ForSound | hw3/Parser.java:382-404 | an accepted `for_stmt` is FOR ID ASSIGN, an expression, TO, an expression, DO, bstmts and END |
| ParserProperties.ForComplete | hw3/Parser.java:382-404 | FOR ID ASSIGN, an expression, TO, an expression, DO, bstmts and END are accepted |
| ParserProperties.ForAccept | hw3/Parser.java:382-404 | `for_stmt` accepts exactly FOR ID ASSIGN, an expression, TO, an expression, DO, a non-empty block of bstmts and END |
| ParserProperties.HeadingAccept | hw3/Parser.java:203-212 | the heading of a function is accepted exactly when it is FUN, NIL or a data type, ID and `(`, and it is then four tokens |
| ParserProperties.FdeclSound | hw3/Parser.java:201-221 | an accepted `fdecl` is a heading, a parameter list, `)`, one bstmt and END |
| ParserProperties.FdeclComplete | hw3/Parser.java:201-221 | a heading, a parameter list, `)`, one bstmt and END are accepted |
| ParserProperties.RestParts | hw3/Parser.java:203-220 | each listed part of a function declaration is accepted by the procedure that consumes it |
| ParserProperties.FdeclFrom | hw3/Parser.java:201-221 | a heading, `params`, `eat(RPAREN)`, one required bstmt and `eat(END)`, each accepted where the previous one stopped, make `fdecl` accept |
| ParserProperties.FdeclAccept | hw3/Parser.java:201-221 | `fdecl` accepts exactly a heading, a parameter list, `)`, a single bstmt and END |
| ParserProperties.RvalueNew | hw3/Parser.java:434-437 | NEW followed by an ID is two tokens; otherwise "Expecting ID token" is raised at the token after NEW |
| ParserProperties.RvalueNeg | hw3/Parser.java:438-441 | NEG returns as the expression after it |
| ParserProperties.RvalueId | hw3/Parser.java:445-446 | an ID returns as `idrval` |
| ParserProperties.RvalueOther | hw3/Parser.java:431-448 | NIL or a pval is one token; any other token that is not NEW, NEG or ID raises "Invalid right hand side value" at itself |
| ParserProperties.RvalueSound | hw3/Parser.java:430-449 | what `rvalue` accepts is one of its five alternatives |
| ParserProperties.RvalueComplete | hw3/Parser.java:430-449 | each of the five alternatives is accepted by `rvalue` |
| ParserProperties.RvalueAccept | hw3/Parser.java:430-449 | `rvalue` accepts up to `n` exactly for NIL or a pval alone, NEW ID, NEG and an expression, or an idrval |
| ParserProperties.OperandAccept | hw3/Parser.java:408-420 | the first part of an expression accepts up to `n` exactly for `(`, an expression and `)`, for NOT and an expression, or for an rvalue |
| ParserProperties.OperatorThenExpr | hw3/Parser.java:407-427 | after its first part, `expr` goes on exactly when an operator follows, and then returns as the `expr` after that operator; otherwise it stops there |
| ParserProperties.NotAtEnd | hw3/Parser.java:43-45 | a lookahead that is no EOS has a token after it |
| ParserProperties.StmtOnFun | hw3/Parser.java:150-151 | on FUN, `stmt` returns as `fdecl` |
| ParserProperties.StmtOnBstmt | hw3/Parser.java:152-153 | on a bstmt starter, `stmt` returns as `bstmt` |
| ParserProperties.StmtAccept | hw3/Parser.java:145-157 | `stmt` accepts up to `n` exactly for an fdecl on FUN or a bstmt on a bstmt starter |
| ParserProperties.BstmtAccept | hw3/Parser.java:170-189 | `bstmt` accepts up to `n` exactly for a vdecl on VAR, an assign on SET, a loop on WHILE or FOR, an expression on its starters or an exit on RETURN; IF never gets through |
| ParserProperties.WhileNeverParsed | hw3/Parser.java:118-167 | on WHILE, `stmt` raises "Poor sstatement declaration", a required bstmt raises "Need a bstmt here", and `bstmts` stops, all at the WHILE: `while_stmt` is never reached |
| ParserProperties.RequiredBstmtAccepts | hw3/Parser.java:215-219 | a required bstmt accepted up to `n` is a bstmt accepted up to `n` |
| ParserProperties.RequiredBstmtOn | hw3/Parser.java:215-219 | on a bstmt starter, a required bstmt returns as `bstmt` |
| ParserProperties.CondTail | hw3/Parser.java:316-335 | after IF, an expression, THEN and one bstmt, `cond` raises "Expecting END token" at an IF there (where `condt` is empty) and "Need a conditional tail here" at any other token |
| ParserProperties.VdeclsWithoutVar | hw3/Parser.java:224-228 | `vdecls` on anything but VAR raises "Expecting toke VAR" at the lookahead |
| ParserProperties.ElifWithoutExpression | hw3/Parser.java:339-345 | an `elif` not followed by an expression raises "Need an expression here" at the token after `elif` |
| ParserProperties.TrailingOperator | hw3/Parser.java:422-425 | a pval, an operator, then a token that starts no expression make a whole expression |
| ParserProperties.LiteralExpression | hw3/Parser.java:407-427 | a pval not followed by an operator is a whole expression of one token |
| ParserProperties.DeclarationTokens | hw3/Parser.java:32-37 | the stream for `var x := 5` is well formed, five tokens with EOS last |
| ParserProperties.AssignmentTokens | hw3/Parser.java:32-37 | the stream for `x := 5` is well formed, four tokens with EOS last |
| ParserProperties.DeclarationExpression | hw3/Parser.java:407-427 | in `var x := 5` the `5` is a whole expression |
| ParserProperties.VdeclStatement | hw3/Parser.java:271-286 | in `var x := 5` the declaration ends at EOS |
| ParserProperties.DeclarationStatement | hw3/Parser.java:145-157 | `var x := 5` is one statement, ending at EOS |
| ParserProperties.DeclarationAccepted | hw3/Parser.java:32-37 | `parse` accepts `var x := 5` |
| ParserProperties.AssignmentIdrval | hw3/Parser.java:452-466 | in `x := 5`, `x` is a bare ID and raises "Invalid right hand side ID" at `:=` |
| ParserProperties.AssignmentOperand | hw3/Parser.java:407-420 | the expression `x` raises the same error at `:=` |
| ParserProperties.AssignmentWithoutSetRejected | hw3/Parser.java:32-37 | `parse` rejects `x := 5` with "Invalid right hand side ID" at `:=` |
| ParserProperties.ParseDeclaration | hw3/Parser.java:32-37 | a fresh `Parser` over `var x := 5` returns normally |
| ParserProperties.ParseAssignmentWithoutSet | hw3/Parser.java:452-466 | a fresh `Parser` over `x := 5` raises "Invalid right hand side ID" at line 1, column 2 |

## Left out

- Input plumbing: the `BufferedReader`, `mark`/`reset` and the `IOException` paths of `read`/`peek` (hw3/Lexer.java:18-59). The input is a character sequence with an index, and `peek` answers -1 at its end.
- Character classification is ASCII only. `Character.isLetter`, `isDigit` and `isWhitespace` are Unicode-wide in the source.
- Inputs on which `nextToken` never returns are the `Diverges` outcome; no termination is claimed for them. They are: an unterminated string or char literal, a comment with no newline after it, and a character that no branch handles.
- Exception message formatting: the unused `s` string in `error` and the parser's debug output are not modelled. An error keeps its tag, message, line and column.
- The unused `java.sql.Driver` import and the unreachable `return null` after the lexer's loop.
- The parser pulls tokens lazily from the lexer. The model gives it the stream in advance (`Grammar.TokenStream`). So a lexer exception that would interrupt a parse part-way is not modelled.
- Parsing.Parser.Parse requires a well-formed stream: non-EOS tokens and then exactly one EOS, which is what `TokenStream` produces.
- The "Invalid expression" branch of `expr` (hw3/Parser.java:419) is unreachable; it is proved dead, not modelled.
- The `eat(END)` at the end of `tdecl` (hw3/Parser.java:197) is unreachable; it is proved dead, not modelled.
- `isBstmt` tests `currToken.type()` for the expression case rather than its argument (hw3/Parser.java:121). Every call site passes `currToken.type()`, so the model tests the argument.
- The test-then-call checks repeated before `expr`, `bstmt` and `bstmts` are each written once, as `RequiredExpr`, `RequiredBstmt` and `RequiredBstmts`. The messages are the ones the source raises at each site. The first part of `expr` is written as `Operand`, and the heading of `fdecl` as `FunctionHeading`.
- Grammar.Stmts, Grammar.Bstmts, Grammar.Expr and Grammar.Exprlist: no lemma lists the token sequences they accept as a closed shape. Their own ensures state where they stop and what they consume. `Expr` is taken apart into its first part (`OperandAccept`) and the operator loop (`OperatorThenExpr`). `Stmt` and `Bstmt` are stated by `StmtAccept` and `BstmtAccept` in terms of the procedures they dispatch to. Exact shapes are proved for `params`, `lvalue`, `idrval`, `vdecl`, `assign`, `exit`, `while_stmt`, `for_stmt`, `fdecl` and `rvalue`.
- Scanning.Lex has no ensures of its own; the facts about one call are `Scanning.Run`'s ensures and the `LexerProperties` lemmas.
