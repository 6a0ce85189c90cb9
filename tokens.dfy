/** Token categories, tokens and the error value shared by the MyPL lexer and parser. */
module Tokens {

  /** The token categories of MyPL, named as the lexer and parser name them. */
  datatype TokenType =
    // primitive-value literals
    | INT_VAL | DOUBLE_VAL | BOOL_VAL | STRING_VAL | CHAR_VAL
    // identifiers
    | ID
    // reserved words
    | INT_TYPE | BOOL_TYPE | DOUBLE_TYPE | CHAR_TYPE | STRING_TYPE
    | NIL | TYPE | AND | OR | NOT | NEG | WHILE | FOR | TO | DO
    | IF | THEN | ELIF | ELSE | END | FUN | VAR | SET | RETURN | NEW
    // operators and punctuation
    | ASSIGN | DOT | COMMA | PLUS | MINUS | MULTIPLY | DIVIDE | MODULO
    | EQUAL | GREATER_THAN | GREATER_THAN_EQUAL | LESS_THAN | LESS_THAN_EQUAL
    | NOT_EQUAL | LPAREN | RPAREN
    // end of the token stream
    | EOS

  /** The reserved words of MyPL: the categories the lexer's keyword table produces. */
  predicate IsReservedWord(k: TokenType) {
    k in {INT_TYPE, BOOL_TYPE, DOUBLE_TYPE, CHAR_TYPE, STRING_TYPE, NIL, TYPE, AND, OR, NOT, NEG,
          WHILE, FOR, TO, DO, IF, THEN, ELIF, ELSE, END, FUN, VAR, SET, RETURN, NEW}
  }

  datatype Option<T> = None | Some(value: T)

  /** A classified lexeme with the line ("row") and column the lexer reported for it. */
  datatype Token = Token(kind: TokenType, lexeme: string, row: int, column: int)

  /** A MyPL exception: the component that raised it ("Lexer" or "Parser"), its message and position. */
  datatype Error = Error(tag: string, message: string, line: int, column: int)

  /** Normal return or a raised exception of a parser procedure; usable with `:-`. */
  datatype Outcome = Ok | Err(error: Error) {
    predicate IsFailure() {
      Err?
    }

    function PropagateFailure(): Outcome {
      this
    }
  }
}
