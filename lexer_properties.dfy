/**
 * What one call of the MyPL lexer's `nextToken` does on the inputs the
 * lexical rules talk about: blanks and newlines, reserved words and
 * identifiers, number literals, operators and string literals.  Each lemma
 * is about `Scanning.Lex`, which `Lexing.Lexer.NextToken` is proved to follow.
 */
module LexerProperties {
  import opened Tokens
  import opened Scanning

  /** Blanks (whitespace other than newline). */
  predicate Blanks(input: string, i: nat, j: nat)
    requires i <= j <= |input|
  {
    forall k :: i <= k < j ==> IsWhitespace(input[k] as int) && input[k] != '\n'
  }

  /** A character that may neither extend nor demote a word: not a letter, digit or `_`. */
  predicate EndsWord(c: int) {
    !IsLetter(c) && !IsDigit(c) && c != '_' as int
  }

  /** An iteration that halts ends the call with the result it produced. */
  lemma RunHalts(input: string, s: Scan, r: LexResult)
    requires s.pos < |input| && Step(input, s) == Halt(r)
    ensures Run(input, s) == r
  {
  }

  /** Blanks produce no token: each is discarded and moves the column on by one. */
  lemma {:induction false} BlanksSkipped(input: string, pos: nat, k: nat, line: int, column: int)
    requires pos + k <= |input| && Blanks(input, pos, pos + k)
    ensures Lex(input, pos, line, column) == Lex(input, pos + k, line, column + k)
    decreases k
  {
    if k > 0 {
      var p, c, n := pos + 1, column + 1, k - 1;
      BlankSkipped(input, pos, line, column);
      BlanksSkipped(input, p, n, line, c);
      assert p + n == pos + k && c + n == column + k;
    }
  }

  /** One blank at the start of a call is discarded. */
  lemma BlankSkipped(input: string, pos: nat, line: int, column: int)
    requires pos < |input| && IsWhitespace(input[pos] as int) && input[pos] != '\n'
    ensures Lex(input, pos, line, column) == Lex(input, pos + 1, line, column + 1)
  {
    BlankStep(input, Scan(pos, line, column, column, "", false, false, false));
  }

  /** One blank: the loop goes round again one column further on, with the token starting there. */
  lemma BlankStep(input: string, s: Scan)
    requires s.pos < |input| && IsWhitespace(input[s.pos] as int) && input[s.pos] != '\n'
    ensures Step(input, s)
         == Continue(Scan(s.pos + 1, s.line, s.column + 1, s.column + 1, s.lexeme, s.isID, s.isReserved, s.isNum))
  {
  }

  /** A newline produces no token: it moves to the next line and sets the column to 1. */
  lemma NewlineSkipped(input: string, pos: nat, line: int, column: int)
    requires pos < |input| && input[pos] == '\n'
    ensures Lex(input, pos, line, column) == Lex(input, pos + 1, line + 1, 1)
  {
    assert Step(input, Scan(pos, line, column, column, "", false, false, false))
        == Continue(Scan(pos + 1, line + 1, 1, 1, "", false, false, false));
  }

  /** At the end of the input the lexer answers EOS with an empty lexeme where it stands. */
  lemma EndOfStream(input: string, line: int, column: int)
    ensures Lex(input, |input|, line, column) == LexResult(Emit(Token(EOS, "", line, column)), |input|, line, column)
  {
  }

  /** The maximal letter run is determined by where the letters stop. */
  lemma {:induction false} LetterRunEndAt(input: string, i: nat, e: nat)
    requires i <= e <= |input| && AllLetters(input[i..e]) && !IsLetter(PeekAt(input, e))
    ensures LetterRunEnd(input, i) == e
    decreases e - i
  {
    if i < e {
      assert input[i..e][0] == input[i];
      assert input[i + 1..e] == input[i..e][1..];
      LetterRunEndAt(input, i + 1, e);
    }
  }

  /** The maximal digit run is determined by where the digits stop. */
  lemma {:induction false} DigitRunEndAt(input: string, i: nat, e: nat)
    requires i <= e <= |input| && AllDigits(input[i..e]) && !IsDigit(PeekAt(input, e))
    ensures DigitRunEnd(input, i) == e
    decreases e - i
  {
    if i < e {
      assert input[i..e][0] == input[i];
      assert input[i + 1..e] == input[i..e][1..];
      DigitRunEndAt(input, i + 1, e);
    }
  }

  /** An iteration on a letter is the word branch. */
  lemma LetterStep(input: string, s: Scan)
    requires s.pos < |input| && IsLetter(input[s.pos] as int)
    ensures Step(input, s) == WordStep(input, s)
  {
    var c := input[s.pos] as int;
    assert c != '\n' as int && !IsWhitespace(c);
  }

  /**
   * The word branch outside a number, when the letter run ends before a
   * character that may neither extend nor demote the word and the lexeme is
   * then a reserved word, halts with that word's token.
   */
  lemma WordHalts(input: string, s: Scan, e: nat, w: string)
    requires s.pos < |input| && IsLetter(input[s.pos] as int) && !s.isNum
    requires e == LetterRunEnd(input, s.pos) && EndsWord(PeekAt(input, e))
    requires w == s.lexeme + input[s.pos..e] && KeywordKind(w).Some?
    ensures WordStep(input, s)
         == Halt(LexResult(Emit(Token(KeywordKind(w).value, w, s.line, s.initialColumn)), e, s.line, s.column + (e - s.pos)))
  {
  }

  /** A non-empty word of letters that the input spells at `i` is the letter run starting there. */
  lemma WordRun(input: string, w: string, i: nat)
    requires AllLetters(w) && w != []
    requires i + |w| <= |input| && input[i..i + |w|] == w && !IsLetter(PeekAt(input, i + |w|))
    ensures IsLetter(input[i] as int) && LetterRunEnd(input, i) == i + |w|
  {
    assert input[i] == w[0];
    LetterRunEndAt(input, i, i + |w|);
  }

  /**
   * From a fresh lexeme, one iteration over a reserved word that no letter,
   * digit or `_` follows halts with that word's token.
   */
  lemma KeywordStep(input: string, w: string, s: Scan)
    requires KeywordKind(w).Some? && s.lexeme == "" && !s.isNum
    requires s.pos + |w| <= |input| && input[s.pos..s.pos + |w|] == w
    requires EndsWord(PeekAt(input, s.pos + |w|))
    ensures IsLetter(input[s.pos] as int)
    ensures WordStep(input, s)
         == Halt(LexResult(Emit(Token(KeywordKind(w).value, w, s.line, s.initialColumn)), s.pos + |w|, s.line, s.column + |w|))
  {
    var e := s.pos + |w|;
    WordRun(input, w, s.pos);
    assert s.lexeme + input[s.pos..e] == input[s.pos..e] == w;
    WordHalts(input, s, e, w);
  }

  /**
   * A reserved word (one the keyword table knows, which by
   * `KeywordKindDomain` is exactly `Keywords`) followed by a character that
   * is not a letter, digit or `_` is that word's token, with the word as its
   * lexeme, at the column the lexer stood at.
   */
  lemma ReservedWord(input: string, pos: nat, w: string, line: int, column: int)
    requires KeywordKind(w).Some?
    requires pos + |w| <= |input| && input[pos..pos + |w|] == w
    requires EndsWord(PeekAt(input, pos + |w|))
    ensures Lex(input, pos, line, column)
         == LexResult(Emit(Token(KeywordKind(w).value, w, line, column)), pos + |w|, line, column + |w|)
  {
    var s := Scan(pos, line, column, column, "", false, false, false);
    var r := LexResult(Emit(Token(KeywordKind(w).value, w, line, column)), pos + |w|, line, column + |w|);
    KeywordStep(input, w, s);
    LetterStep(input, s);
    assert Step(input, s) == Halt(r);
    RunHalts(input, s, r);
  }

  /** Once the lexeme holds a character other than a letter, the call can no longer yield a reserved word. */
  lemma NoReservedWordAfter(input: string, s: Scan)
    requires s.pos <= |input| && !AllLetters(s.lexeme)
    ensures var r := Run(input, s).outcome; r.Emit? ==> r.token.lexeme !in Keywords
  {
    var r := Run(input, s).outcome;
    if r.Emit? {
      KeywordKindDomain(r.token.lexeme);
    }
  }

  /** An iteration after which no reserved-word token can come out of the call. */
  predicate Demoted(m: Move) {
    match m
    case Continue(n) => !AllLetters(n.lexeme)
    case Halt(r) => r.outcome.Emit? ==> r.outcome.token.lexeme !in Keywords
  }

  lemma DemotedRun(input: string, s: Scan)
    requires s.pos < |input| && Demoted(Step(input, s))
    ensures var r := Run(input, s).outcome; r.Emit? ==> r.token.lexeme !in Keywords
  {
    match Step(input, s)
    case Continue(n) => NoReservedWordAfter(input, n);
    case Halt(_) =>
  }

  /** A `_` after the letter run puts "95" into the lexeme. */
  lemma UnderscoreDemotes(input: string, pos: nat, e: nat, line: int, column: int)
    requires pos < e < |input| && LetterRunEnd(input, pos) == e && input[e] == '_'
    ensures Demoted(WordStep(input, Scan(pos, line, column, column, "", false, false, false)))
  {
    var w := "" + input[pos..e] + "95";
    assert w[|w| - 2] == '9';
    KeywordKindDomain(w);
  }

  /** Digits after the letters of an identifier join its lexeme. */
  lemma DigitDemotes(input: string, n: Scan)
    requires n.pos < |input| && IsDigit(input[n.pos] as int) && n.isID && !n.isNum
    ensures Demoted(Step(input, n))
  {
    assert Step(input, n) == IdentifierDigitsStep(input, n);
    var w := n.lexeme + input[n.pos..DigitRunEnd(input, n.pos + 1)];
    assert w[|n.lexeme|] == input[n.pos];
    assert (w + "_")[|n.lexeme|] == input[n.pos];
    KeywordKindDomain(w);
  }

  /**
   * A letter run followed directly by a digit or `_` is demoted: whatever
   * the call returns, it is not a token spelled as a reserved word.
   */
  lemma DemotedWord(input: string, pos: nat, e: nat, line: int, column: int)
    requires pos < e < |input| && AllLetters(input[pos..e])
    requires IsDigit(input[e] as int) || input[e] == '_'
    ensures var r := Lex(input, pos, line, column).outcome; r.Emit? ==> r.token.lexeme !in Keywords
  {
    LetterRunEndAt(input, pos, e);
    var s := Scan(pos, line, column, column, "", false, false, false);
    assert Step(input, s) == WordStep(input, s);
    if input[e] == '_' {
      UnderscoreDemotes(input, pos, e, line, column);
      DemotedRun(input, s);
    } else {
      var n := Scan(e, line, column + (e - pos), column, "" + input[pos..e], true, false, false);
      assert WordStep(input, s) == Continue(n);
      DigitDemotes(input, n);
      DemotedRun(input, n);
    }
  }

  /** The start of a number literal as the lexer accepts it: no `0` in second place. */
  predicate NumberStart(input: string, pos: nat)
    requires pos < |input|
  {
    PeekAt(input, pos + 1) != '0' as int
  }

  /** A digit met with a fresh lexeme starts a number literal. */
  lemma FreshNumber(input: string, s: Scan)
    requires s.pos < |input| && IsDigit(input[s.pos] as int) && !s.isID && !s.isReserved
    ensures Step(input, s) == LiteralStep(input, s)
  {
    var c := input[s.pos] as int;
    assert c != '\n' as int && !IsWhitespace(c) && !IsLetter(c);
  }

  /** A second character `0` rejects the literal at once: `10` and `00` are errors, `05` is not. */
  lemma SecondZeroRejected(input: string, pos: nat, line: int, column: int)
    requires pos + 1 < |input| && IsDigit(input[pos] as int) && input[pos + 1] == '0'
    ensures Lex(input, pos, line, column).outcome
         == Fail(LexError("Invalid int or double assignment", line, column))
  {
    var s := Scan(pos, line, column, column, "", false, false, false);
    assert Step(input, s) == NumberStep(input, s);
  }

  /**
   * Digits that end in neither `.` nor a letter are an INT_VAL whose lexeme
   * is exactly those digits; a letter right after them is an error.
   */
  lemma IntegerLiteral(input: string, pos: nat, e: nat, line: int, column: int)
    requires pos < e <= |input| && AllDigits(input[pos..e]) && !IsDigit(PeekAt(input, e))
    requires NumberStart(input, pos) && PeekAt(input, e) != '.' as int
    ensures var r := Lex(input, pos, line, column);
      if IsLetter(PeekAt(input, e)) then
        r.outcome == Fail(LexError("Cannot have letters in a number", line, column))
      else
        r == LexResult(Emit(Token(INT_VAL, input[pos..e], line, column)), e, line, column + (e - pos))
  {
    assert input[pos + 1..e] == input[pos..e][1..];
    DigitRunEndAt(input, pos + 1, e);
    var s := Scan(pos, line, column, column, "", false, false, false);
    FreshNumber(input, s);
    assert "" + input[pos..e] == input[pos..e];
    var outcome := if IsLetter(PeekAt(input, e)) then Fail(LexError("Cannot have letters in a number", line, column))
                   else Emit(Token(INT_VAL, input[pos..e], line, column));
    assert LiteralStep(input, s) == Halt(LexResult(outcome, e, line, column + (e - pos)));
    RunHalts(input, s, LexResult(outcome, e, line, column + (e - pos)));
  }

  /**
   * Digits, `.`, digits make a DOUBLE_VAL whose lexeme includes the `.`
   * and the digits after it (possibly none); a further `.` is an error.
   */
  lemma DoubleLiteral(input: string, pos: nat, d: nat, e: nat, line: int, column: int)
    requires pos < d < e <= |input| && input[d] == '.'
    requires AllDigits(input[pos..d]) && AllDigits(input[d + 1..e]) && !IsDigit(PeekAt(input, e))
    requires NumberStart(input, pos)
    ensures var r := Lex(input, pos, line, column);
      if PeekAt(input, e) == '.' as int then
        r.outcome == Fail(LexError("invalid double value", line, column))
      else
        r == LexResult(Emit(Token(DOUBLE_VAL, input[pos..e], line, column)), e, line, column + (e - pos))
  {
    assert input[pos + 1..d] == input[pos..d][1..];
    DigitRunEndAt(input, pos + 1, d);
    DigitRunEndAt(input, d + 1, e);
    var s := Scan(pos, line, column, column, "", false, false, false);
    FreshNumber(input, s);
    assert LiteralStep(input, s) == FractionStep(input, s, d);
    assert "" + input[pos..e] == input[pos..e];
    var outcome := if PeekAt(input, e) == '.' as int then Fail(LexError("invalid double value", line, column))
                   else Emit(Token(DOUBLE_VAL, input[pos..e], line, column));
    assert FractionStep(input, s, d) == Halt(LexResult(outcome, e, line, column + (e - pos)));
    RunHalts(input, s, LexResult(outcome, e, line, column + (e - pos)));
  }

  /** `:` must be followed by `=`, which gives ASSIGN ":="; a lone `:` is an error. */
  lemma Assignment(input: string, pos: nat, line: int, column: int)
    requires pos < |input| && input[pos] == ':'
    ensures Lex(input, pos, line, column).outcome
         == if PeekAt(input, pos + 1) == '=' as int then Emit(Token(ASSIGN, ":=", line, column))
            else Fail(LexError("Ivalid assignment declaration", line, column))
  {
    var s := Scan(pos, line, column, column, "", false, false, false);
    assert Step(input, s) == OperatorStep(input, s) == PunctuationStep(input, s);
  }

  /** `==` is not an operator of MyPL. */
  lemma DoubleEqualRejected(input: string, pos: nat, line: int, column: int)
    requires pos + 1 < |input| && input[pos] == '=' && input[pos + 1] == '='
    ensures Lex(input, pos, line, column).outcome == Fail(LexError("Invalid comparison with '=='", line, column))
  {
    var s := Scan(pos, line, column, column, "", false, false, false);
    assert Step(input, s) == OperatorStep(input, s) == RelationalStep(input, s);
  }

  /** `>`, `<` and `!` take a directly following `=` into a two-character comparison. */
  lemma Comparison(input: string, pos: nat, line: int, column: int)
    requires pos < |input| && (input[pos] == '>' || input[pos] == '<' || input[pos] == '!')
    ensures var c := input[pos];
      var eq := PeekAt(input, pos + 1) == '=' as int;
      Lex(input, pos, line, column).outcome
      == if c == '>' then Emit(if eq then Token(GREATER_THAN_EQUAL, ">=", line, column) else Token(GREATER_THAN, ">", line, column))
         else if c == '<' then Emit(if eq then Token(LESS_THAN_EQUAL, "<=", line, column) else Token(LESS_THAN, "<", line, column))
         else Emit(if eq then Token(NOT_EQUAL, "!=", line, column) else Token(NOT, "!", line, column))
  {
    var s := Scan(pos, line, column, column, "", false, false, false);
    var c := input[pos];
    assert s.lexeme + [c] == [c] && [c] + "=" == [c, '='];
    RelationalRun(input, s);
  }

  /** A relational character ends the call with what its own step produced. */
  lemma RelationalRun(input: string, s: Scan)
    requires s.pos < |input| && IsRelational(input[s.pos])
    ensures RelationalStep(input, s).Halt? && Run(input, s) == RelationalStep(input, s).result
  {
    assert Step(input, s) == OperatorStep(input, s) == RelationalStep(input, s);
  }

  /** `Find` stops at the first character of `stops`. */
  lemma {:induction false} FindAt(input: string, i: nat, e: nat, stops: set<char>)
    requires i <= e < |input| && input[e] in stops
    requires forall j :: i <= j < e ==> input[j] !in stops
    ensures Find(input, i, stops) == e
    decreases e - i
  {
    if i < e {
      FindAt(input, i + 1, e, stops);
    }
  }

  /**
   * A string literal's lexeme is exactly what stands between the quotes;
   * a newline before the closing quote is an error at the newline's column.
   */
  lemma StringLiteral(input: string, pos: nat, q: nat, line: int, column: int)
    requires pos < q < |input| && input[pos] == '"' && input[q] in {'"', '\n'}
    requires forall j :: pos < j < q ==> input[j] != '"' && input[j] != '\n'
    ensures var r := Lex(input, pos, line, column);
      if input[q] == '\n' then
        r.outcome == Fail(LexError("Cannot have new lines in a string", line, column + (q - pos)))
      else
        r == LexResult(Emit(Token(STRING_VAL, input[pos + 1..q], line, column)), q + 1, line, column + (q - pos) + 1)
  {
    FindAt(input, pos + 1, q, {'"', '\n'});
    var s := Scan(pos, line, column, column, "", false, false, false);
    QuoteStep(input, s);
    assert "" + input[pos + 1..q] == input[pos + 1..q];
  }

  /** A double quote starts a string literal. */
  lemma QuoteStep(input: string, s: Scan)
    requires s.pos < |input| && input[s.pos] == '"'
    ensures Step(input, s) == StringStep(input, s)
  {
  }

  /**
   * A char literal's lexeme is whatever stands between the quotes, newlines
   * included, and it is not limited to one character.
   */
  lemma CharLiteral(input: string, pos: nat, q: nat, line: int, column: int)
    requires pos < q < |input| && input[pos] == '\'' && input[q] == '\''
    requires forall j :: pos < j < q ==> input[j] != '\''
    ensures Lex(input, pos, line, column)
         == LexResult(Emit(Token(CHAR_VAL, input[pos + 1..q], line, column)), q + 1, line, column + (q - pos) + 1)
  {
    FindAt(input, pos + 1, q, {'\''});
    var s := Scan(pos, line, column, column, "", false, false, false);
    ApostropheStep(input, s);
    assert "" + input[pos + 1..q] == input[pos + 1..q];
  }

  /** A single quote starts a char literal. */
  lemma ApostropheStep(input: string, s: Scan)
    requires s.pos < |input| && input[s.pos] == '\''
    ensures Step(input, s) == CharStep(input, s)
  {
  }

  /**
   * A comment runs to the end of its line and produces no token: the lexer
   * goes on at the start of the next line, column 1.
   */
  lemma CommentSkipped(input: string, pos: nat, n: nat, line: int, column: int)
    requires pos < n < |input| && input[pos] == '#' && input[n] == '\n'
    requires forall j :: pos < j < n ==> input[j] != '\n'
    ensures Lex(input, pos, line, column) == Lex(input, n + 1, line + 1, 1)
  {
    FindAt(input, pos + 1, n, {'\n'});
    var s := Scan(pos, line, column, column, "", false, false, false);
    assert Step(input, s) == CommentStep(input, s);
  }

  /**
   * `+`, `-`, `*`, `/` and `%` are one-character tokens; `+`, `-` carry the
   * start column, `*`, `/`, `%` the current one, and only `-` moves the column.
   */
  lemma ArithmeticOperator(input: string, pos: nat, line: int, column: int)
    requires pos < |input| && IsArithmetic(input[pos])
    ensures var c := input[pos];
      var kind := if c == '+' then PLUS else if c == '-' then MINUS else if c == '*' then MULTIPLY
                  else if c == '/' then DIVIDE else MODULO;
      Lex(input, pos, line, column)
      == LexResult(Emit(Token(kind, [c], line, column)), pos + 1, line, if c == '-' then column + 1 else column)
  {
    var s := Scan(pos, line, column, column, "", false, false, false);
    assert Step(input, s) == OperatorStep(input, s) == ArithmeticStep(input, s);
    assert "" + [input[pos]] == [input[pos]];
  }

  /**
   * A character that starts no token (`@`, `$`, `[`, ...) matches no branch
   * of the loop, which then spins on it forever without moving.
   */
  lemma UnknownCharacterDiverges(input: string, pos: nat, line: int, column: int)
    requires pos < |input|
    requires var c := input[pos];
      !IsWhitespace(c as int) && !IsLetter(c as int) && !IsDigit(c as int) && c != '#' && c != '"' && c != '\''
      && !IsPunctuation(c) && !IsArithmetic(c) && !IsRelational(c)
    ensures Lex(input, pos, line, column) == LexResult(Diverges, pos, line, column)
  {
    var s := Scan(pos, line, column, column, "", false, false, false);
    assert Step(input, s) == OperatorStep(input, s);
  }

  /** The spelling of each reserved-word category; other categories have none. */
  function Spelling(k: TokenType): string {
    match k
    case INT_TYPE => "int"
    case BOOL_TYPE => "bool"
    case DOUBLE_TYPE => "double"
    case CHAR_TYPE => "char"
    case STRING_TYPE => "string"
    case NIL => "nil"
    case TYPE => "type"
    case AND => "and"
    case OR => "or"
    case NOT => "not"
    case NEG => "neg"
    case WHILE => "while"
    case FOR => "for"
    case TO => "to"
    case DO => "do"
    case IF => "if"
    case THEN => "then"
    case ELIF => "elif"
    case ELSE => "else"
    case END => "end"
    case FUN => "fun"
    case VAR => "var"
    case SET => "set"
    case RETURN => "return"
    case NEW => "new"
    case _ => ""
  }

  /** The keyword table is undone by `Spelling`: a reserved word is recovered from its category. */
  lemma SpellingOfKeywordKind(w: string)
    requires KeywordKind(w).Some?
    ensures Spelling(KeywordKind(w).value) == w
  {
    var n := |w|;
    if n == 2 {
      TwoLetterSpelling(w);
    } else if n == 3 {
      ThreeLetterSpelling(w);
    } else if n == 4 {
      FourLetterSpelling(w);
    } else if n == 5 {
      FiveLetterSpelling(w);
    } else {
      SixLetterSpelling(w);
    }
  }

  /** `SpellingOfKeywordKind` for the reserved words of length 2. */
  lemma TwoLetterSpelling(w: string)
    requires KeywordKind(w).Some? && |w| == 2
    ensures Spelling(KeywordKind(w).value) == w
  {
    if w == "or" {
    } else if w == "to" {
    } else if w == "do" {
    } else if w == "if" {
    }
  }

  /** `SpellingOfKeywordKind` for the reserved words of length 3. */
  lemma ThreeLetterSpelling(w: string)
    requires KeywordKind(w).Some? && |w| == 3
    ensures Spelling(KeywordKind(w).value) == w
  {
    if w in {"and", "end"} {
      ThreeLetterSpellingA(w);
    } else if w in {"for", "fun"} {
      ThreeLetterSpellingB(w);
    } else if w in {"int", "neg", "new", "nil"} {
      ThreeLetterSpellingC(w);
    } else {
      ThreeLetterSpellingD(w);
    }
  }

  /** `and` and `end`. */
  lemma ThreeLetterSpellingA(w: string)
    requires w in {"and", "end"}
    ensures KeywordKind(w).Some? && Spelling(KeywordKind(w).value) == w
  {
    if w == "and" {
    } else if w == "end" {
    }
  }

  /** `for` and `fun`. */
  lemma ThreeLetterSpellingB(w: string)
    requires w in {"for", "fun"}
    ensures KeywordKind(w).Some? && Spelling(KeywordKind(w).value) == w
  {
    if w == "for" {
    } else if w == "fun" {
    }
  }

  /** `int`, `neg`, `new` and `nil`. */
  lemma ThreeLetterSpellingC(w: string)
    requires w in {"int", "neg", "new", "nil"}
    ensures KeywordKind(w).Some? && Spelling(KeywordKind(w).value) == w
  {
    if w == "int" {
    } else if w == "neg" {
    } else if w == "new" {
    } else if w == "nil" {
    }
  }

  /** The other three-letter reserved words: `not`, `set` and `var`. */
  lemma ThreeLetterSpellingD(w: string)
    requires KeywordKind(w).Some? && |w| == 3 && w !in {"and", "end", "for", "fun"} && w !in {"int", "neg", "new", "nil"}
    ensures Spelling(KeywordKind(w).value) == w
  {
    if w == "not" {
    } else if w == "set" {
    } else if w == "var" {
    }
  }

  /** `SpellingOfKeywordKind` for the reserved words of length 4. */
  lemma FourLetterSpelling(w: string)
    requires KeywordKind(w).Some? && |w| == 4
    ensures Spelling(KeywordKind(w).value) == w
  {
    if w == "bool" {
    } else if w == "char" {
    } else if w == "type" {
    } else if w == "then" {
    } else if w == "elif" {
    } else if w == "else" {
    }
  }

  /** `SpellingOfKeywordKind` for the reserved words of length 5. */
  lemma FiveLetterSpelling(w: string)
    requires KeywordKind(w).Some? && |w| == 5
    ensures Spelling(KeywordKind(w).value) == w
  {
    if w == "while" {
    }
  }

  /** `SpellingOfKeywordKind` for the reserved words of length 6. */
  lemma SixLetterSpelling(w: string)
    requires KeywordKind(w).Some? && |w| == 6
    ensures Spelling(KeywordKind(w).value) == w
  {
    if w == "double" {
    } else if w == "string" {
    } else if w == "return" {
    }
  }


  /** Distinct reserved words name distinct token types. */
  lemma KeywordKindInjective(w: string, v: string)
    requires KeywordKind(w).Some? && KeywordKind(w) == KeywordKind(v)
    ensures w == v
  {
    SpellingOfKeywordKind(w);
    SpellingOfKeywordKind(v);
  }

  /**
   * A run of letters that is not a reserved word, followed by a character
   * that is not a letter, digit or `_`, is an identifier token.
   */
  lemma Identifier(input: string, pos: nat, e: nat, line: int, column: int)
    requires pos < e <= |input| && AllLetters(input[pos..e]) && input[pos..e] !in Keywords
    requires EndsWord(PeekAt(input, e))
    ensures Lex(input, pos, line, column)
         == LexResult(Emit(Token(ID, input[pos..e], line, column)), e, line, column + (e - pos))
  {
    LetterRunEndAt(input, pos, e);
    KeywordKindDomain(input[pos..e]);
    var s := Scan(pos, line, column, column, "", false, false, false);
    assert "" + input[pos..e] == input[pos..e];
    LetterStep(input, s);
    var r := LexResult(Emit(Token(ID, input[pos..e], line, column)), e, line, column + (e - pos));
    assert WordStep(input, s) == Halt(r);
    RunHalts(input, s, r);
  }

  /** The two lines "var" and "  x := 1". */
  const PositionInput: string := "var\n  x := 1"

  /** "var\n  x := 1" starts with the reserved word `var` at line 1, column 0, which leaves the lexer at column 3. */
  lemma FirstTokenExample()
    ensures Lex(PositionInput, 0, 1, 0) == LexResult(Emit(Token(VAR, "var", 1, 0)), 3, 1, 3)
  {
    var input := PositionInput;
    VarAtStart();
    ReservedWord(input, 0, "var", 1, 0);
    VarKind();
  }

  /** The input starts with `var` and a newline. */
  lemma VarAtStart()
    ensures |PositionInput| > 3 && PositionInput[0..3] == "var" && EndsWord(PeekAt(PositionInput, 3))
  {
    var input := PositionInput;
    assert input[0..3] == "var" && input[3] == '\n';
  }

  /** `var` is the reserved word VAR. */
  lemma VarKind()
    ensures "var" in Keywords && KeywordKind("var") == Some(VAR) && |"var"| == 3
  {
  }

  /** The next call, from where `var` left the lexer, answers `x` at line 2, column 3. */
  lemma PositionExample()
    ensures Lex(PositionInput, 3, 1, 3).outcome == Emit(Token(ID, "x", 2, 3))
  {
    var input := PositionInput;
    NewlineSkipped(input, 3, 1, 3);
    BlanksSkipped(input, 4, 2, 2, 1);
    XIdentifier();
  }

  /** The `x` of "var\n  x := 1" is an identifier. */
  lemma XIdentifier()
    ensures Lex(PositionInput, 6, 2, 3).outcome == Emit(Token(ID, "x", 2, 3))
  {
    var input := PositionInput;
    assert input[6..7] == "x" && AllLetters(input[6..7]) && input[7] == ' ';
    assert "x" !in Keywords;
    Identifier(input, 6, 7, 2, 3);
  }

  /** A letter run followed by a digit: the loop goes on at the digit with the letters as an identifier's start. */
  lemma LettersThenDigit(input: string, pos: nat, d: nat, line: int, column: int)
    requires pos < d < |input| && AllLetters(input[pos..d]) && IsDigit(input[d] as int)
    ensures Lex(input, pos, line, column)
         == Run(input, Scan(d, line, column + (d - pos), column, input[pos..d], true, false, false))
  {
    LetterRunEndAt(input, pos, d);
    var s := Scan(pos, line, column, column, "", false, false, false);
    var n := Scan(d, line, column + (d - pos), column, "" + input[pos..d], true, false, false);
    LetterStep(input, s);
    assert WordStep(input, s) == Continue(n);
    assert "" + input[pos..d] == input[pos..d];
  }

  /** Digits of an identifier followed by `_`: both join the lexeme and the loop goes on after the `_`. */
  lemma DigitsThenUnderscore(input: string, pos: nat, d: nat, e: nat, line: int, column: int)
    requires pos < d < e < |input| && AllDigits(input[d..e]) && input[e] == '_'
    ensures Run(input, Scan(d, line, column + (d - pos), column, input[pos..d], true, false, false))
         == Run(input, Scan(e + 1, line, column + (e + 1 - pos), column, input[pos..e + 1], true, false, false))
  {
    var n := Scan(d, line, column + (d - pos), column, input[pos..d], true, false, false);
    IdentifierDigitsThenUnderscore(input, n, e);
    Spliced(input, pos, d, e);
    var m := Scan(e + 1, n.line, n.column + (e - n.pos) + 1, n.initialColumn, n.lexeme + input[n.pos..e] + "_", true, n.isReserved, false);
    assert m == Scan(e + 1, line, column + (e + 1 - pos), column, input[pos..e + 1], true, false, false);
  }

  /** One step over an identifier's digits that stop at `_`. */
  lemma IdentifierDigitsThenUnderscore(input: string, n: Scan, e: nat)
    requires n.pos < e < |input| && AllDigits(input[n.pos..e]) && input[e] == '_' && n.isID && !n.isNum
    ensures Run(input, n)
         == Run(input, Scan(e + 1, n.line, n.column + (e - n.pos) + 1, n.initialColumn,
                            n.lexeme + input[n.pos..e] + "_", true, n.isReserved, false))
  {
    FirstDigit(input, n.pos, e);
    DigitRunEndAt(input, n.pos + 1, e);
    var m := Scan(e + 1, n.line, n.column + (e - n.pos) + 1, n.initialColumn, n.lexeme + input[n.pos..e] + "_", true, n.isReserved, false);
    assert PeekAt(input, e) == '_' as int;
    assert IdentifierDigitsStep(input, n) == Continue(m);
    assert Step(input, n) == NumberStep(input, n) == Continue(m);
  }

  /** A non-empty digit run starts with a digit, and the rest of it is a digit run. */
  lemma FirstDigit(input: string, d: nat, e: nat)
    requires d < e <= |input| && AllDigits(input[d..e])
    ensures IsDigit(input[d] as int) && AllDigits(input[d + 1..e])
  {
    assert input[d..e][0] == input[d];
    assert input[d + 1..e] == input[d..e][1..];
  }

  /** The lexeme before the digits, the digits and the `_` are one slice of the input. */
  lemma Spliced(input: string, pos: nat, d: nat, e: nat)
    requires pos <= d <= e < |input| && input[e] == '_'
    ensures input[pos..d] + input[d..e] + "_" == input[pos..e + 1]
  {
    assert input[pos..e + 1] == input[pos..d] + input[d..e] + [input[e]];
  }

  /**
   * An identifier whose digits are followed by `_` is not returned: the
   * loop goes on with the identifier's text and the `_` as the start of
   * the next token's lexeme, and with the identifier's start column.
   */
  lemma UnderscoreCarriesOver(input: string, pos: nat, d: nat, e: nat, line: int, column: int)
    requires pos < d < e < |input| && AllLetters(input[pos..d]) && AllDigits(input[d..e]) && input[e] == '_'
    ensures Lex(input, pos, line, column)
         == Run(input, Scan(e + 1, line, column + (e + 1 - pos), column, input[pos..e + 1], true, false, false))
  {
    FirstDigit(input, d, e);
    LettersThenDigit(input, pos, d, line, column);
    DigitsThenUnderscore(input, pos, d, e, line, column);
  }

  /** An identifier with digits and `_`, then `!`. */
  const UnderscoreInput: string := "int1_!"

  /** So `int1_!` is one token: NOT, spelled "int1_!", at the identifier's column. */
  lemma UnderscoreExample()
    ensures Lex(UnderscoreInput, 0, 1, 0).outcome == Emit(Token(NOT, "int1_!", 1, 0))
  {
    UnderscoreShape();
    UnderscoreThenBang(UnderscoreInput, 3, 4);
  }

  /** Letters, digits, `_` and a closing `!` from the start of the input make one NOT token spelled by all of it. */
  lemma UnderscoreThenBang(input: string, d: nat, e: nat)
    requires 0 < d < e && e + 2 == |input| && AllLetters(input[0..d]) && AllDigits(input[d..e])
    requires input[e] == '_' && input[e + 1] == '!'
    ensures Lex(input, 0, 1, 0).outcome == Emit(Token(NOT, input[0..e + 1] + "!", 1, 0))
  {
    UnderscoreCarriesOver(input, 0, d, e, 1, 0);
    NotAfterCarried(input, Scan(e + 1, 1, 0 + (e + 1 - 0), 0, input[0..e + 1], true, false, false));
  }

  /** In `int1_!` the letters run to 3, the digits to 4, `_` sits at 4 and `!` ends the input. */
  lemma UnderscoreShape()
    ensures |UnderscoreInput| == 6
    ensures AllLetters(UnderscoreInput[0..3]) && AllDigits(UnderscoreInput[3..4]) && UnderscoreInput[4] == '_'
    ensures UnderscoreInput[5] == '!' && UnderscoreInput[0..5] + "!" == "int1_!"
  {
    var input := UnderscoreInput;
    assert input[0..3] == "int" && input[3..4] == "1" && input[0..5] == "int1_";
  }

  /** A `!` not followed by `=` ends the call with NOT, spelled with whatever lexeme was carried into it. */
  lemma NotAfterCarried(input: string, s: Scan)
    requires s.pos < |input| && input[s.pos] == '!' && PeekAt(input, s.pos + 1) != '=' as int
    ensures Run(input, s).outcome == Emit(Token(NOT, s.lexeme + "!", s.line, s.initialColumn))
  {
    assert Step(input, s) == OperatorStep(input, s) == RelationalStep(input, s);
  }

  /**
   * An arithmetic operator reached with a carried lexeme: `+` and `-` keep
   * that lexeme and the carried start column, while `*`, `/` and `%` drop it
   * and report the current column; only `-` counts its own column.
   */
  lemma ArithmeticAfterCarried(input: string, s: Scan)
    requires s.pos < |input| && IsArithmetic(input[s.pos])
    ensures var c := input[s.pos];
      Run(input, s)
      == if c == '+' then LexResult(Emit(Token(PLUS, s.lexeme + "+", s.line, s.initialColumn)), s.pos + 1, s.line, s.column)
         else if c == '-' then LexResult(Emit(Token(MINUS, s.lexeme + "-", s.line, s.initialColumn)), s.pos + 1, s.line, s.column + 1)
         else if c == '*' then LexResult(Emit(Token(MULTIPLY, "*", s.line, s.column)), s.pos + 1, s.line, s.column)
         else if c == '/' then LexResult(Emit(Token(DIVIDE, "/", s.line, s.column)), s.pos + 1, s.line, s.column)
         else LexResult(Emit(Token(MODULO, "%", s.line, s.column)), s.pos + 1, s.line, s.column)
  {
    assert Step(input, s) == OperatorStep(input, s) == ArithmeticStep(input, s);
  }
}
