/**
 * The behaviour of the MyPL lexer's `nextToken` as a pure state machine.
 *
 * One call of `nextToken` runs an outer loop `while (peek() != -1)` over a
 * handful of local variables (the lexeme built so far, the column the token
 * started at and three flags).  `Scan` is that local state plus the lexer's
 * cursor; `Step` is one iteration of the outer loop, which either continues
 * with a new state or leaves `nextToken` with a result; `Run` iterates it.
 * Characters are classified with ASCII predicates.
 */
module Scanning {
  import opened Tokens

  /** What one call of `nextToken` produces. `Diverges`: the source loops forever on this input. */
  datatype Lexed = Emit(token: Token) | Fail(error: Error) | Diverges

  /** The result of a call together with the lexer's cursor afterwards. */
  datatype LexResult = LexResult(outcome: Lexed, pos: nat, line: int, column: int)

  /** The cursor and the local variables of `nextToken` at the head of its outer loop. */
  datatype Scan = Scan(pos: nat, line: int, column: int, initialColumn: int,
                       lexeme: string, isID: bool, isReserved: bool, isNum: bool)

  /** One iteration of the outer loop: go round again, or return/throw. */
  datatype Move = Continue(next: Scan) | Halt(result: LexResult)

  /** `peek()`: the code of the character at `i`, or -1 at the end of the input. */
  function PeekAt(input: string, i: nat): int {
    if i < |input| then input[i] as int else -1
  }

  predicate IsLetter(c: int) {
    'a' as int <= c <= 'z' as int || 'A' as int <= c <= 'Z' as int
  }

  predicate IsDigit(c: int) {
    '0' as int <= c <= '9' as int
  }

  /** ASCII part of Java's `Character.isWhitespace`: space, TAB..CR and the four separators 0x1C..0x1F. */
  predicate IsWhitespace(c: int) {
    c == ' ' as int || 0x09 <= c <= 0x0D || 0x1C <= c <= 0x1F
  }

  predicate AllLetters(s: string) {
    forall i :: 0 <= i < |s| ==> IsLetter(s[i] as int)
  }

  predicate AllDigits(s: string) {
    forall i :: 0 <= i < |s| ==> IsDigit(s[i] as int)
  }

  /** The characters of the punctuation branches: `:`, `.`, `,`, `(` and `)`. */
  predicate IsPunctuation(c: char) {
    c == ':' || c == '.' || c == ',' || c == '(' || c == ')'
  }

  /** The characters of the arithmetic-operator branches: `+`, `-`, `*`, `/` and `%`. */
  predicate IsArithmetic(c: char) {
    c == '+' || c == '-' || c == '*' || c == '/' || c == '%'
  }

  /** The characters of the comparison branches: `=`, `>`, `<` and `!`. */
  predicate IsRelational(c: char) {
    c == '=' || c == '>' || c == '<' || c == '!'
  }

  function LexError(message: string, line: int, column: int): Error {
    Error("Lexer", message, line, column)
  }

  /** End of the maximal run of letters starting at `i`. */
  function LetterRunEnd(input: string, i: nat): (e: nat)
    requires i <= |input|
    ensures i <= e <= |input|
    ensures AllLetters(input[i..e])
    ensures !IsLetter(PeekAt(input, e))
    decreases |input| - i
  {
    if i < |input| && IsLetter(input[i] as int) then
      var e := LetterRunEnd(input, i + 1);
      assert input[i..e] == [input[i]] + input[i + 1..e];
      e
    else
      i
  }

  /** End of the maximal run of digits starting at `i`. */
  function DigitRunEnd(input: string, i: nat): (e: nat)
    requires i <= |input|
    ensures i <= e <= |input|
    ensures AllDigits(input[i..e])
    ensures !IsDigit(PeekAt(input, e))
    decreases |input| - i
  {
    if i < |input| && IsDigit(input[i] as int) then
      var e := DigitRunEnd(input, i + 1);
      assert input[i..e] == [input[i]] + input[i + 1..e];
      e
    else
      i
  }

  /** The first index at or after `i` holding one of `stops`, or the end of the input. */
  function Find(input: string, i: nat, stops: set<char>): (e: nat)
    requires i <= |input|
    ensures i <= e <= |input|
    ensures forall j :: i <= j < e ==> input[j] !in stops
    ensures e < |input| ==> input[e] in stops
    decreases |input| - i
  {
    if i == |input| || input[i] in stops then i else Find(input, i + 1, stops)
  }

  /** The fixed set of MyPL reserved words. */
  const Keywords: set<string> :=
    {"int", "bool", "double", "char", "string", "nil", "type", "and", "or", "not", "neg",
     "while", "for", "to", "do", "if", "then", "elif", "else", "end", "fun", "var", "set",
     "return", "new"}

  /** The lexer's keyword table: the reserved-word category spelled `w`, if any. */
  function KeywordKind(w: string): (k: Option<TokenType>)
    ensures k.Some? ==> IsReservedWord(k.value) && AllLetters(w) && w != []
  {
    if w == "int" then Some(INT_TYPE)
    else if w == "bool" then Some(BOOL_TYPE)
    else if w == "double" then Some(DOUBLE_TYPE)
    else if w == "char" then Some(CHAR_TYPE)
    else if w == "string" then Some(STRING_TYPE)
    else if w == "nil" then Some(NIL)
    else if w == "type" then Some(TYPE)
    else if w == "and" then Some(AND)
    else if w == "or" then Some(OR)
    else if w == "not" then Some(NOT)
    else if w == "neg" then Some(NEG)
    else if w == "while" then Some(WHILE)
    else if w == "for" then Some(FOR)
    else if w == "to" then Some(TO)
    else if w == "do" then Some(DO)
    else if w == "if" then Some(IF)
    else if w == "then" then Some(THEN)
    else if w == "elif" then Some(ELIF)
    else if w == "else" then Some(ELSE)
    else if w == "end" then Some(END)
    else if w == "fun" then Some(FUN)
    else if w == "var" then Some(VAR)
    else if w == "set" then Some(SET)
    else if w == "return" then Some(RETURN)
    else if w == "new" then Some(NEW)
    else None
  }

  /** The keyword table knows exactly the reserved words. */
  lemma KeywordKindDomain(w: string)
    ensures KeywordKind(w).Some? <==> w in Keywords
  {
  }

  /**
   * What every iteration guarantees: the cursor never moves back, continuing
   * consumes input and only extends the lexeme, every emitted token consumed
   * input and is not EOS, and a token spelled like a reserved word extends
   * the lexeme the iteration started with.
   */
  predicate Progress(input: string, s: Scan, m: Move) {
    match m
    case Continue(n) => s.pos < n.pos <= |input| && s.lexeme <= n.lexeme
    case Halt(r) =>
      && s.pos <= r.pos <= |input|
      && (r.outcome.Emit? ==> s.pos < r.pos && r.outcome.token.kind != EOS)
      && (r.outcome.Emit? && r.outcome.token.lexeme in Keywords ==> s.lexeme <= r.outcome.token.lexeme)
  }

  /** A letter: read the run of letters, then a digit or `_` demotes it from reserved word to identifier. */
  function WordStep(input: string, s: Scan): (m: Move)
    requires s.pos < |input| && IsLetter(input[s.pos] as int)
    ensures Progress(input, s, m)
  {
    var isID := if !s.isNum then true else s.isID;
    var reserved := if !s.isNum then true else s.isReserved;
    var e := LetterRunEnd(input, s.pos);
    var c := PeekAt(input, e);
    // an underscore is appended as the decimal text of its code, "95"
    var p := if c == '_' as int then e + 1 else e;
    var word := s.lexeme + input[s.pos..e];
    var lexeme := if c == '_' as int then word + "95" else word;
    var column := s.column + (p - s.pos);
    var isReserved := if IsDigit(c) || c == '_' as int then false else reserved;
    var after := PeekAt(input, p);
    // a reserved word read no underscore, so its lexeme is the letter run itself
    if isReserved && KeywordKind(word).Some? then
      Halt(LexResult(Emit(Token(KeywordKind(word).value, word, s.line, s.initialColumn)), p, s.line, column))
    else if !IsDigit(after) && !IsLetter(after) && after != '_' as int then
      Halt(LexResult(Emit(Token(ID, lexeme, s.line, s.initialColumn)), p, s.line, column))
    else
      Continue(Scan(p, s.line, column, s.initialColumn, lexeme, isID, isReserved, s.isNum))
  }

  /** A digit: a number literal when no letter came first, otherwise the continuation of an identifier. */
  function NumberStep(input: string, s: Scan): (m: Move)
    requires s.pos < |input| && IsDigit(input[s.pos] as int)
    ensures Progress(input, s, m)
  {
    var isNum := if !s.isID && !s.isReserved then true else s.isNum;
    if isNum then LiteralStep(input, s) else IdentifierDigitsStep(input, s)
  }

  /**
   * A number literal: a second character `0` is rejected, then digits,
   * optionally `.` and more digits (DOUBLE_VAL, where a second `.` is an
   * error), a letter right after the digits is an error, else INT_VAL.
   */
  function LiteralStep(input: string, s: Scan): (m: Move)
    requires s.pos < |input| && IsDigit(input[s.pos] as int)
    ensures Progress(input, s, m)
  {
    var p := s.pos + 1;
    if PeekAt(input, p) == '0' as int then
      Halt(LexResult(Fail(LexError("Invalid int or double assignment", s.line, s.initialColumn)), p, s.line, s.column + 1))
    else
      var e := DigitRunEnd(input, p);
      var c := PeekAt(input, e);
      if c == '.' as int then FractionStep(input, s, e)
      else if IsLetter(c) then
        Halt(LexResult(Fail(LexError("Cannot have letters in a number", s.line, s.initialColumn)), e, s.line, s.column + (e - s.pos)))
      else
        Halt(LexResult(Emit(Token(INT_VAL, s.lexeme + input[s.pos..e], s.line, s.initialColumn)), e, s.line, s.column + (e - s.pos)))
  }

  /** The digits after the `.` at `e` that ends a number's integer part; a second `.` is an error. */
  function FractionStep(input: string, s: Scan, e: nat): (m: Move)
    requires s.pos < e < |input| && input[e] == '.'
    ensures Progress(input, s, m)
  {
    var e2 := DigitRunEnd(input, e + 1);
    var column := s.column + (e2 - s.pos);
    if PeekAt(input, e2) == '.' as int then
      Halt(LexResult(Fail(LexError("invalid double value", s.line, s.initialColumn)), e2, s.line, column))
    else
      Halt(LexResult(Emit(Token(DOUBLE_VAL, s.lexeme + input[s.pos..e2], s.line, s.initialColumn)), e2, s.line, column))
  }

  /** Digits after a letter: they and one `_` join the identifier, which ends before any other character. */
  function IdentifierDigitsStep(input: string, s: Scan): (m: Move)
    requires s.pos < |input| && IsDigit(input[s.pos] as int)
    ensures Progress(input, s, m)
  {
    var e := DigitRunEnd(input, s.pos + 1);
    var lexeme := s.lexeme + input[s.pos..e];
    var column := s.column + (e - s.pos);
    var c := PeekAt(input, e);
    if c == '_' as int then
      Continue(Scan(e + 1, s.line, column + 1, s.initialColumn, lexeme + "_", s.isID, s.isReserved, s.isNum))
    else if !IsLetter(c) && !IsDigit(c) then
      Halt(LexResult(Emit(Token(ID, lexeme, s.line, s.initialColumn)), e, s.line, column))
    else
      Continue(Scan(e, s.line, column, s.initialColumn, lexeme, s.isID, s.isReserved, s.isNum))
  }

  /** `#`: skip through the next newline; with no newline left the source spins forever. */
  function CommentStep(input: string, s: Scan): (m: Move)
    requires s.pos < |input| && input[s.pos] == '#'
    ensures Progress(input, s, m)
  {
    var n := Find(input, s.pos + 1, {'\n'});
    if n == |input| then
      Halt(LexResult(Diverges, n, s.line, s.column))
    else
      Continue(Scan(n + 1, s.line + 1, 1, 1, s.lexeme, s.isID, s.isReserved, s.isNum))
  }

  /** `"`: the characters up to the closing quote; a newline first is an error, the end of input loops forever. */
  function StringStep(input: string, s: Scan): (m: Move)
    requires s.pos < |input| && input[s.pos] == '"'
    ensures Progress(input, s, m)
  {
    var q := Find(input, s.pos + 1, {'"', '\n'});
    var column := s.column + (q - s.pos);
    if q == |input| then
      Halt(LexResult(Diverges, q, s.line, column))
    else if input[q] == '\n' then
      Halt(LexResult(Fail(LexError("Cannot have new lines in a string", s.line, column)), q, s.line, column))
    else
      Halt(LexResult(Emit(Token(STRING_VAL, s.lexeme + input[s.pos + 1..q], s.line, s.initialColumn)), q + 1, s.line, column + 1))
  }

  /** `'`: the characters up to the closing quote, newlines included; the end of input loops forever. */
  function CharStep(input: string, s: Scan): (m: Move)
    requires s.pos < |input| && input[s.pos] == '\''
    ensures Progress(input, s, m)
  {
    var q := Find(input, s.pos + 1, {'\''});
    var column := s.column + (q - s.pos);
    if q == |input| then
      Halt(LexResult(Diverges, q, s.line, column))
    else
      Halt(LexResult(Emit(Token(CHAR_VAL, s.lexeme + input[s.pos + 1..q], s.line, s.initialColumn)), q + 1, s.line, column + 1))
  }

  /** `:=`, `.`, `,`, `(` and `)`; a `:` without `=` is an error. */
  function PunctuationStep(input: string, s: Scan): (m: Move)
    requires s.pos < |input| && IsPunctuation(input[s.pos])
    ensures Progress(input, s, m)
  {
    var c := input[s.pos];
    var lexeme := s.lexeme + [c];
    var p := s.pos + 1;
    if c == ':' then
      if PeekAt(input, p) == '=' as int then
        Halt(LexResult(Emit(Token(ASSIGN, ":=", s.line, s.initialColumn)), p + 1, s.line, s.column + 2))
      else
        Halt(LexResult(Fail(LexError("Ivalid assignment declaration", s.line, s.initialColumn)), p, s.line, s.column + 1))
    else
      var kind := if c == '.' then DOT else if c == ',' then COMMA else if c == '(' then LPAREN else RPAREN;
      Halt(LexResult(Emit(Token(kind, lexeme, s.line, s.initialColumn)), p, s.line, s.column + 1))
  }

  /**
   * `+`, `-`, `*`, `/` and `%`: only `-` counts its column, and `*`, `/` and
   * `%` report the current column rather than the start column.
   */
  function ArithmeticStep(input: string, s: Scan): (m: Move)
    requires s.pos < |input| && IsArithmetic(input[s.pos])
    ensures Progress(input, s, m)
  {
    var c := input[s.pos];
    var p := s.pos + 1;
    if c == '+' then
      Halt(LexResult(Emit(Token(PLUS, s.lexeme + [c], s.line, s.initialColumn)), p, s.line, s.column))
    else if c == '-' then
      Halt(LexResult(Emit(Token(MINUS, s.lexeme + [c], s.line, s.initialColumn)), p, s.line, s.column + 1))
    else
      var kind := if c == '*' then MULTIPLY else if c == '/' then DIVIDE else MODULO;
      Halt(LexResult(Emit(Token(kind, [c], s.line, s.column)), p, s.line, s.column))
  }

  /**
   * `=`, `>`, `<` and `!`, each possibly followed by `=`: `==` is an error,
   * `=` and a lone `<` do not count their column, and `=` reports the current
   * column rather than the start column.
   */
  function RelationalStep(input: string, s: Scan): (m: Move)
    requires s.pos < |input| && IsRelational(input[s.pos])
    ensures Progress(input, s, m)
  {
    var c := input[s.pos];
    var lexeme := s.lexeme + [c];
    var p := s.pos + 1;
    var eq := PeekAt(input, p) == '=' as int;
    if c == '=' then
      if eq then
        Halt(LexResult(Fail(LexError("Invalid comparison with '=='", s.line, s.initialColumn)), p, s.line, s.column + 1))
      else
        Halt(LexResult(Emit(Token(EQUAL, lexeme, s.line, s.column)), p, s.line, s.column))
    else
      var column := if c == '<' then s.column else s.column + 1;
      if eq then
        var kind := if c == '>' then GREATER_THAN_EQUAL else if c == '<' then LESS_THAN_EQUAL else NOT_EQUAL;
        Halt(LexResult(Emit(Token(kind, lexeme + "=", s.line, s.initialColumn)), p + 1, s.line, column + 1))
      else
        var kind := if c == '>' then GREATER_THAN else if c == '<' then LESS_THAN else NOT;
        Halt(LexResult(Emit(Token(kind, lexeme, s.line, s.initialColumn)), p, s.line, column))
  }

  /** Operators and punctuation; any other character matches no branch and the source loops forever. */
  function OperatorStep(input: string, s: Scan): (m: Move)
    requires s.pos < |input|
    ensures Progress(input, s, m)
  {
    var c := input[s.pos];
    if IsPunctuation(c) then PunctuationStep(input, s)
    else if IsArithmetic(c) then ArithmeticStep(input, s)
    else if IsRelational(c) then RelationalStep(input, s)
    else Halt(LexResult(Diverges, s.pos, s.line, s.column))
  }

  /** One iteration of the outer loop of `nextToken`, dispatching on the next character. */
  function Step(input: string, s: Scan): (m: Move)
    requires s.pos < |input|
    ensures Progress(input, s, m)
  {
    var c := input[s.pos] as int;
    if c == '\n' as int then
      Continue(Scan(s.pos + 1, s.line + 1, 1, 1, s.lexeme, s.isID, s.isReserved, s.isNum))
    else if IsWhitespace(c) then
      Continue(Scan(s.pos + 1, s.line, s.column + 1, s.column + 1, s.lexeme, s.isID, s.isReserved, s.isNum))
    else if IsLetter(c) then WordStep(input, s)
    else if IsDigit(c) then NumberStep(input, s)
    else if c == '#' as int then CommentStep(input, s)
    else if c == '"' as int then StringStep(input, s)
    else if c == '\'' as int then CharStep(input, s)
    else OperatorStep(input, s)
  }

  /** The outer loop: iterate `Step` until it halts or the input is exhausted (then EOS). */
  function Run(input: string, s: Scan): (r: LexResult)
    requires s.pos <= |input|
    ensures s.pos <= r.pos <= |input|
    ensures r.outcome.Emit? && r.outcome.token.kind == EOS ==> r.pos == |input| && r.outcome.token.lexeme == ""
    ensures r.outcome.Emit? && r.outcome.token.kind != EOS ==> s.pos < r.pos
    ensures r.outcome.Emit? && r.outcome.token.lexeme in Keywords ==> s.lexeme <= r.outcome.token.lexeme
    decreases |input| - s.pos
  {
    if s.pos == |input| then
      LexResult(Emit(Token(EOS, "", s.line, s.column)), s.pos, s.line, s.column)
    else
      match Step(input, s)
      case Continue(n) => Run(input, n)
      case Halt(r) => r
  }

  /** One call of `nextToken` on a lexer whose cursor is at `pos`, `line`, `column`. */
  function Lex(input: string, pos: nat, line: int, column: int): LexResult
    requires pos <= |input|
  {
    Run(input, Scan(pos, line, column, column, "", false, false, false))
  }
}
