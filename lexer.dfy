/**
 * The MyPL lexer as an object: a cursor into the input and the `line` and
 * `column` counters, advanced by `read()` and inspected by `peek()`.
 * `NextToken` builds its lexeme step by step as the source does and is
 * proved to do exactly what `Scanning.Lex` describes.
 */
module Lexing {
  import opened Tokens
  import opened Scanning

  /** `FractionStep` once the digits after the `.` at `e` are known to stop at `e2`. */
  lemma FractionAt(input: string, s: Scan, e: nat, e2: nat)
    requires s.pos < e < |input| && input[e] == '.' && e2 == DigitRunEnd(input, e + 1)
    ensures FractionStep(input, s, e)
         == Halt(LexResult(if PeekAt(input, e2) == '.' as int then Fail(LexError("invalid double value", s.line, s.initialColumn))
                           else Emit(Token(DOUBLE_VAL, s.lexeme + input[s.pos..e2], s.line, s.initialColumn)),
                           e2, s.line, s.column + (e2 - s.pos)))
  {
  }

  /** `IdentifierDigitsStep` once the digits are known to stop at `e`. */
  lemma IdentifierDigitsAt(input: string, s: Scan, e: nat)
    requires s.pos < |input| && IsDigit(input[s.pos] as int) && e == DigitRunEnd(input, s.pos + 1)
    ensures var c := PeekAt(input, e);
      var lexeme := s.lexeme + input[s.pos..e];
      var column := s.column + (e - s.pos);
      IdentifierDigitsStep(input, s)
      == if c == '_' as int then Continue(Scan(e + 1, s.line, column + 1, s.initialColumn, lexeme + "_", s.isID, s.isReserved, s.isNum))
         else if !IsLetter(c) && !IsDigit(c) then Halt(LexResult(Emit(Token(ID, lexeme, s.line, s.initialColumn)), e, s.line, column))
         else Continue(Scan(e, s.line, column, s.initialColumn, lexeme, s.isID, s.isReserved, s.isNum))
  {
  }

  /**
   * A lexeme that holds `prefix` and the slice up to `b`, extended by the
   * character at `b` and the slice after it, holds `prefix` and the whole slice.
   */
  lemma Joined(input: string, prefix: string, lexeme: string, a: nat, b: nat, c: nat)
    requires a <= b < c <= |input| && lexeme == prefix + input[a..b]
    ensures lexeme + [input[b]] + input[b + 1..c] == prefix + input[a..c]
  {
    assert input[a..c] == input[a..b] + [input[b]] + input[b + 1..c];
  }

  class Lexer {
    const input: string
    var pos: nat
    var line: int
    var column: int

    ghost predicate Valid()
      reads this
    {
      pos <= |input|
    }

    /** A lexer over `input`, positioned before its first character at line 1, column 0. */
    constructor (input: string)
      ensures Valid() && this.input == input
      ensures pos == 0 && line == 1 && column == 0
    {
      this.input := input;
      pos := 0;
      line := 1;
      column := 0;
    }

    /** `peek()`: the next character's code without consuming it, or -1 at the end. */
    function Peek(): int
      reads this
    {
      PeekAt(input, pos)
    }

    /** `read()`: the next character's code, consuming it; -1 at the end, where nothing moves. */
    method Read() returns (c: int)
      requires Valid()
      modifies this`pos
      ensures Valid()
      ensures c == PeekAt(input, old(pos))
      ensures pos == if old(pos) < |input| then old(pos) + 1 else old(pos)
    {
      c := Peek();
      if pos < |input| {
        pos := pos + 1;
      }
    }

    /** `(char)read()` where a character is known to be next. */
    method ReadChar() returns (ch: char)
      requires Valid() && pos < |input|
      modifies this`pos
      ensures Valid()
      ensures ch == input[old(pos)] && pos == old(pos) + 1
    {
      ch := input[pos];
      var _ := Read();
    }

    /** The inner `while (Character.isLetter(cur))` loop: append letters to `lexeme`. */
    method TakeLetters(lexeme: string) returns (lexeme': string)
      requires Valid()
      modifies this`pos, this`column
      ensures Valid()
      ensures pos == LetterRunEnd(input, old(pos))
      ensures lexeme' == lexeme + input[old(pos)..pos]
      ensures column == old(column) + (pos - old(pos))
    {
      lexeme' := lexeme;
      var cur := Peek();
      while IsLetter(cur)
        invariant Valid() && cur == Peek()
        invariant old(pos) <= pos && LetterRunEnd(input, pos) == LetterRunEnd(input, old(pos))
        invariant lexeme' == lexeme + input[old(pos)..pos]
        invariant column == old(column) + (pos - old(pos))
        decreases |input| - pos
      {
        var ch := ReadChar();
        lexeme' := lexeme' + [ch];
        column := column + 1;
        cur := Peek();
      }
    }

    /** The inner `while (Character.isDigit(cur))` loops: append digits to `lexeme`. */
    method TakeDigits(lexeme: string) returns (lexeme': string)
      requires Valid()
      modifies this`pos, this`column
      ensures Valid()
      ensures pos == DigitRunEnd(input, old(pos))
      ensures lexeme' == lexeme + input[old(pos)..pos]
      ensures column == old(column) + (pos - old(pos))
    {
      lexeme' := lexeme;
      var cur := Peek();
      while IsDigit(cur)
        invariant Valid() && cur == Peek()
        invariant old(pos) <= pos && DigitRunEnd(input, pos) == DigitRunEnd(input, old(pos))
        invariant lexeme' == lexeme + input[old(pos)..pos]
        invariant column == old(column) + (pos - old(pos))
        decreases |input| - pos
      {
        var ch := ReadChar();
        lexeme' := lexeme' + [ch];
        column := column + 1;
        cur := Peek();
      }
    }

    /** The reading loop of the quoted literals: every character up to the first stop character, or to the end of the input. */
    method TakeUntil(lexeme: string, stops: set<char>) returns (lexeme': string)
      requires Valid()
      modifies this`pos, this`column
      ensures Valid()
      ensures pos == Find(input, old(pos), stops)
      ensures lexeme' == lexeme + input[old(pos)..pos]
      ensures column == old(column) + (pos - old(pos))
    {
      lexeme' := lexeme;
      var cur := Peek();
      while cur != -1 && input[pos] !in stops
        invariant Valid() && cur == Peek()
        invariant old(pos) <= pos && Find(input, pos, stops) == Find(input, old(pos), stops)
        invariant lexeme' == lexeme + input[old(pos)..pos]
        invariant column == old(column) + (pos - old(pos))
        decreases |input| - pos
      {
        var ch := ReadChar();
        lexeme' := lexeme' + [ch];
        column := column + 1;
        cur := Peek();
      }
    }

    /** The cursor is where move `m` says the lexer stands afterwards. */
    ghost predicate At(m: Move)
      reads this
    {
      match m
      case Continue(n) => n.pos == pos && n.line == line && n.column == column
      case Halt(r) => r.pos == pos && r.line == line && r.column == column
    }

    /** The loop state `s` describes this lexer's cursor. */
    ghost predicate Standing(s: Scan)
      reads this
    {
      Valid() && s.pos == pos && s.line == line && s.column == column && pos < |input|
    }

    /**
     * `nextToken()`: skips whitespace and comments and returns the next token,
     * or raises a "Lexer" error; `Diverges` stands for the inputs on which the
     * source never returns.
     */
    method NextToken() returns (r: Lexed)
      requires Valid()
      modifies this
      ensures Valid()
      ensures LexResult(r, pos, line, column) == Lex(input, old(pos), old(line), old(column))
    {
      ghost var goal := Lex(input, pos, line, column);
      var initialColumn := column;
      var lexeme := "";
      var isID, isReserved, isNum := false, false, false;
      while Peek() != -1
        invariant Valid()
        invariant Run(input, Scan(pos, line, column, initialColumn, lexeme, isID, isReserved, isNum)) == goal
        decreases |input| - pos
      {
        var s := Scan(pos, line, column, initialColumn, lexeme, isID, isReserved, isNum);
        var m := Dispatch(s);
        match m {
          case Halt(result) =>
            r := result.outcome;
            return;
          case Continue(n) =>
            initialColumn, lexeme, isID, isReserved, isNum := n.initialColumn, n.lexeme, n.isID, n.isReserved, n.isNum;
        }
      }
      r := Emit(Token(EOS, "", line, column));
    }

    /** One iteration of the outer loop: the branch chosen by the next character. */
    method Dispatch(s: Scan) returns (m: Move)
      requires Standing(s)
      modifies this`pos, this`line, this`column
      ensures Valid() && At(m) && m == Step(input, s)
    {
      var cur := Peek();
      if cur == '\n' as int {
        var _ := Read();
        line := line + 1;
        column := 1;
        m := Continue(Scan(pos, line, column, column, s.lexeme, s.isID, s.isReserved, s.isNum));
      } else if IsWhitespace(cur) {
        var _ := Read();
        column := column + 1;
        m := Continue(Scan(pos, line, column, column, s.lexeme, s.isID, s.isReserved, s.isNum));
      } else if IsLetter(cur) {
        m := Word(s);
      } else if IsDigit(cur) {
        m := Number(s);
      } else if cur == '#' as int {
        m := Comment(s);
      } else if cur == '"' as int {
        m := StringLiteral(s);
      } else if cur == '\'' as int {
        m := CharLiteral(s);
      } else {
        m := Operator(s);
      }
    }

    /** The letter branch: a reserved word, an identifier, or a run that the next iteration continues. */
    method Word(s: Scan) returns (m: Move)
      requires Standing(s) && IsLetter(Peek())
      modifies this`pos, this`column
      ensures Valid() && At(m) && m == WordStep(input, s)
    {
      var isID, isReserved := s.isID, s.isReserved;
      if !s.isNum {
        isID := true;
        isReserved := true;
      }
      var lexeme := TakeLetters(s.lexeme);
      var cur := Peek();
      if IsDigit(cur) {
        isReserved := false;
      } else if cur == '_' as int {
        var _ := Read();
        lexeme := lexeme + "95";  // `lexeme += read()` appends the code of '_' as text
        column := column + 1;
        cur := Peek();
        isReserved := false;
      }
      if isReserved {
        var k := KeywordKind(lexeme);
        if k.Some? {
          return Halt(LexResult(Emit(Token(k.value, lexeme, line, s.initialColumn)), pos, line, column));
        }
      }
      if !IsDigit(cur) && !IsLetter(cur) && cur != '_' as int {
        return Halt(LexResult(Emit(Token(ID, lexeme, line, s.initialColumn)), pos, line, column));
      }
      m := Continue(Scan(pos, line, column, s.initialColumn, lexeme, isID, isReserved, s.isNum));
    }

    /** The digit branch: a number literal, or digits inside an identifier. */
    method Number(s: Scan) returns (m: Move)
      requires Standing(s) && IsDigit(Peek())
      modifies this`pos, this`column
      ensures Valid() && At(m) && m == NumberStep(input, s)
    {
      var isNum := s.isNum;
      if !s.isID && !s.isReserved {
        isNum := true;
      }
      if isNum {
        m := Literal(s);
      } else {
        m := IdentifierDigits(s);
      }
    }

    /** The digit branch when a number literal starts here: INT_VAL, DOUBLE_VAL or one of their errors. */
    method Literal(s: Scan) returns (m: Move)
      requires Standing(s) && IsDigit(Peek())
      modifies this`pos, this`column
      ensures Valid() && At(m) && m == LiteralStep(input, s)
    {
      var ch := ReadChar();
      var lexeme := s.lexeme + [ch];
      column := column + 1;
      var cur := Peek();
      if cur == '0' as int {
        // the source also asks Character.isDigit(cur), which holds for '0'
        return Halt(LexResult(Fail(LexError("Invalid int or double assignment", line, s.initialColumn)), pos, line, column));
      }
      lexeme := TakeDigits(lexeme);
      assert lexeme == s.lexeme + input[s.pos..pos];
      cur := Peek();
      if cur == '.' as int {
        m := Fraction(s, lexeme);
        return;
      } else if IsLetter(cur) {
        return Halt(LexResult(Fail(LexError("Cannot have letters in a number", line, s.initialColumn)), pos, line, column));
      }
      m := Halt(LexResult(Emit(Token(INT_VAL, lexeme, line, s.initialColumn)), pos, line, column));
    }

    /** The rest of a numeric literal once its integer part is followed by `.`. */
    method Fraction(s: Scan, lexeme: string) returns (m: Move)
      requires Valid() && s.pos < pos < |input| && input[pos] == '.'
      requires line == s.line && column == s.column + (pos - s.pos)
      requires lexeme == s.lexeme + input[s.pos..pos]
      modifies this`pos, this`column
      ensures Valid() && At(m) && m == FractionStep(input, s, old(pos))
    {
      var ch := ReadChar();
      var lexeme' := lexeme + [ch];
      column := column + 1;
      ghost var dot := pos;
      lexeme' := TakeDigits(lexeme');
      Joined(input, s.lexeme, lexeme, s.pos, dot - 1, pos);
      FractionAt(input, s, dot - 1, pos);
      var cur := Peek();
      if cur == '.' as int {
        return Halt(LexResult(Fail(LexError("invalid double value", line, s.initialColumn)), pos, line, column));
      }
      m := Halt(LexResult(Emit(Token(DOUBLE_VAL, lexeme', line, s.initialColumn)), pos, line, column));
    }

    /** The digit branch inside an identifier: take the digits and at most one `_`. */
    method IdentifierDigits(s: Scan) returns (m: Move)
      requires Standing(s) && IsDigit(Peek())
      modifies this`pos, this`column
      ensures Valid() && At(m) && m == IdentifierDigitsStep(input, s)
    {
      var ch := ReadChar();
      var lexeme := s.lexeme + [ch];
      column := column + 1;
      lexeme := TakeDigits(lexeme);
      assert lexeme == s.lexeme + input[s.pos..pos];
      IdentifierDigitsAt(input, s, pos);
      var cur := Peek();
      if cur == '_' as int {
        ch := ReadChar();
        lexeme := lexeme + [ch];
        column := column + 1;
      } else if !IsLetter(cur) && !IsDigit(cur) && cur != '_' as int {
        return Halt(LexResult(Emit(Token(ID, lexeme, line, s.initialColumn)), pos, line, column));
      }
      m := Continue(Scan(pos, line, column, s.initialColumn, lexeme, s.isID, s.isReserved, s.isNum));
    }

    /** The `#` branch: skip the comment and the newline that ends it. */
    method Comment(s: Scan) returns (m: Move)
      requires Standing(s) && Peek() == '#' as int
      modifies this`pos, this`line, this`column
      ensures Valid() && At(m) && m == CommentStep(input, s)
    {
      var _ := Read();
      var cur := Peek();
      while cur != '\n' as int
        invariant Valid() && cur == Peek()
        invariant s.pos < pos && Find(input, pos, {'\n'}) == Find(input, s.pos + 1, {'\n'})
        invariant line == s.line && column == s.column
        decreases |input| - pos
      {
        if cur == -1 {
          return Halt(LexResult(Diverges, pos, line, column));  // the source keeps reading past the end
        }
        var _ := Read();
        cur := Peek();
      }
      var _ := Read();
      line := line + 1;
      column := 1;
      m := Continue(Scan(pos, line, column, column, s.lexeme, s.isID, s.isReserved, s.isNum));
    }

    /** The `"` branch: a STRING_VAL holding the characters between the quotes. */
    method StringLiteral(s: Scan) returns (m: Move)
      requires Standing(s) && Peek() == '"' as int
      modifies this`pos, this`column
      ensures Valid() && At(m) && m == StringStep(input, s)
    {
      var _ := Read();
      column := column + 1;
      var lexeme := TakeUntil(s.lexeme, {'"', '\n'});
      var cur := Peek();
      if cur == -1 {
        return Halt(LexResult(Diverges, pos, line, column));  // the source keeps reading past the end
      }
      if cur == '\n' as int {
        return Halt(LexResult(Fail(LexError("Cannot have new lines in a string", line, column)), pos, line, column));
      }
      column := column + 1;
      var _ := Read();
      m := Halt(LexResult(Emit(Token(STRING_VAL, lexeme, line, s.initialColumn)), pos, line, column));
    }

    /** The `'` branch: a CHAR_VAL holding whatever stands between the quotes. */
    method CharLiteral(s: Scan) returns (m: Move)
      requires Standing(s) && Peek() == '\'' as int
      modifies this`pos, this`column
      ensures Valid() && At(m) && m == CharStep(input, s)
    {
      var _ := Read();
      column := column + 1;
      var lexeme := TakeUntil(s.lexeme, {'\''});
      if Peek() == -1 {
        return Halt(LexResult(Diverges, pos, line, column));  // the source keeps reading past the end
      }
      var _ := Read();
      column := column + 1;
      m := Halt(LexResult(Emit(Token(CHAR_VAL, lexeme, line, s.initialColumn)), pos, line, column));
    }

    /** The operator and punctuation branches; any other character matches no branch. */
    method Operator(s: Scan) returns (m: Move)
      requires Standing(s)
      modifies this`pos, this`column
      ensures Valid() && At(m) && m == OperatorStep(input, s)
    {
      var cur := input[pos];
      if IsPunctuation(cur) {
        m := Punctuation(s);
      } else if IsArithmetic(cur) {
        m := Arithmetic(s);
      } else if IsRelational(cur) {
        m := Relational(s);
      } else {
        m := Halt(LexResult(Diverges, pos, line, column));  // the source's outer loop spins on this character
      }
    }

    /** The `:`, `.`, `,`, `(` and `)` branches. */
    method Punctuation(s: Scan) returns (m: Move)
      requires Standing(s) && IsPunctuation(input[pos])
      modifies this`pos, this`column
      ensures Valid() && At(m) && m == PunctuationStep(input, s)
    {
      var lexeme := s.lexeme;
      var cur := Peek();
      var ch := ReadChar();
      lexeme := lexeme + [ch];
      column := column + 1;
      var r: Lexed;
      if cur == ':' as int {
        cur := Peek();
        if cur == '=' as int {
          ch := ReadChar();
          column := column + 1;
          r := Emit(Token(ASSIGN, ":=", line, s.initialColumn));
        } else {
          r := Fail(LexError("Ivalid assignment declaration", line, s.initialColumn));
        }
      } else if cur == '.' as int {
        r := Emit(Token(DOT, lexeme, line, s.initialColumn));
      } else if cur == ',' as int {
        r := Emit(Token(COMMA, lexeme, line, s.initialColumn));
      } else if cur == '(' as int {
        r := Emit(Token(LPAREN, lexeme, line, s.initialColumn));
      } else {
        r := Emit(Token(RPAREN, lexeme, line, s.initialColumn));
      }
      m := Halt(LexResult(r, pos, line, column));
    }

    /** The `+`, `-`, `*`, `/` and `%` branches. */
    method Arithmetic(s: Scan) returns (m: Move)
      requires Standing(s) && IsArithmetic(input[pos])
      modifies this`pos, this`column
      ensures Valid() && At(m) && m == ArithmeticStep(input, s)
    {
      var cur := Peek();
      var r: Lexed;
      if cur == '+' as int {
        var ch := ReadChar();
        r := Emit(Token(PLUS, s.lexeme + [ch], line, s.initialColumn));
      } else if cur == '-' as int {
        var ch := ReadChar();
        column := column + 1;
        r := Emit(Token(MINUS, s.lexeme + [ch], line, s.initialColumn));
      } else if cur == '*' as int {
        var _ := Read();
        r := Emit(Token(MULTIPLY, "*", line, column));
      } else if cur == '/' as int {
        var _ := Read();
        r := Emit(Token(DIVIDE, "/", line, column));
      } else {
        var _ := Read();
        r := Emit(Token(MODULO, "%", line, column));
      }
      m := Halt(LexResult(r, pos, line, column));
    }

    /** The `=`, `>`, `<` and `!` branches. */
    method Relational(s: Scan) returns (m: Move)
      requires Standing(s) && IsRelational(input[pos])
      modifies this`pos, this`column
      ensures Valid() && At(m) && m == RelationalStep(input, s)
    {
      var cur := Peek();
      var r: Lexed;
      if cur == '=' as int {
        var ch := ReadChar();
        var lexeme := s.lexeme + [ch];
        cur := Peek();
        if cur == '=' as int {
          column := column + 1;
          r := Fail(LexError("Invalid comparison with '=='", line, s.initialColumn));
        } else {
          r := Emit(Token(EQUAL, lexeme, line, column));
        }
      } else {
        var c := input[pos];
        var single := if c == '>' then GREATER_THAN else if c == '<' then LESS_THAN else NOT;
        var double := if c == '>' then GREATER_THAN_EQUAL else if c == '<' then LESS_THAN_EQUAL else NOT_EQUAL;
        r := Comparison(s.lexeme, s.initialColumn, single, double, c != '<');
      }
      m := Halt(LexResult(r, pos, line, column));
    }

    /**
     * The `>`, `<` and `!` branches: the operator alone, or with a following
     * `=` the two-character operator; `<` does not count its own column.
     */
    method Comparison(lexeme: string, initialColumn: int, single: TokenType, double: TokenType, countsColumn: bool)
      returns (r: Lexed)
      requires Valid() && pos < |input|
      modifies this`pos, this`column
      ensures Valid()
      ensures var lexeme' := lexeme + [input[old(pos)]];
        if PeekAt(input, old(pos) + 1) == '=' as int then
          && r == Emit(Token(double, lexeme' + "=", line, initialColumn))
          && pos == old(pos) + 2
          && column == old(column) + (if countsColumn then 2 else 1)
        else
          && r == Emit(Token(single, lexeme', line, initialColumn))
          && pos == old(pos) + 1
          && column == old(column) + (if countsColumn then 1 else 0)
    {
      var ch := ReadChar();
      var lexeme' := lexeme + [ch];
      if countsColumn {
        column := column + 1;
      }
      var cur := Peek();
      if cur == '=' as int {
        ch := ReadChar();
        column := column + 1;
        r := Emit(Token(double, lexeme' + [ch], line, initialColumn));
      } else {
        r := Emit(Token(single, lexeme', line, initialColumn));
      }
    }
  }
}
