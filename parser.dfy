/**
 * The MyPL recursive-descent parser: the class `Parser`, whose single
 * lookahead token is `tokens[pulled - 1]`.  Every procedure is proved to
 * return exactly where the corresponding function of `Grammar` says: with
 * the same lookahead on a normal return, and with the same message at the
 * same token when it raises.  The parser reads tokens from the lexer one
 * at a time; here the token stream the lexer produces (`TokenStream`) is
 * given up front.
 */
module Parsing {
  import opened Tokens
  import opened Grammar

  function ParseError(message: string, t: Token): Error {
    Error("Parser", message, t.row, t.column)
  }

  /** A procedure's outcome, seen as a `Grammar` result once `p` tokens have been pulled. */
  function Observed(r: Outcome, p: nat): Parsed {
    if r.Ok? then Accept(p) else Reject(r.error.message, p)
  }

  class Parser {
    const tokens: seq<Token>
    /** How many tokens have been pulled from the stream; 0 before `parse` starts. */
    var pulled: nat

    /**
     * The procedure returned as `expected` says: normally with the lookahead
     * there, or raising that message at the lookahead token and its position.
     */
    predicate Returns(r: Outcome, expected: Parsed)
      reads this
    {
      && Ready(tokens, pulled)
      && Observed(r, pulled) == expected
      && (r.Err? ==> r.error == ParseError(r.error.message, tokens[pulled - 1]))
    }

    /** `error`: raise a parser exception at the lookahead. */
    method Raise(message: string) returns (r: Outcome)
      requires Ready(tokens, pulled)
      ensures r == Err(ParseError(message, tokens[pulled - 1]))
    {
      r := Err(ParseError(message, tokens[pulled - 1]));
    }

    constructor(tokens: seq<Token>)
      requires WellFormed(tokens)
      ensures this.tokens == tokens && pulled == 0
    {
      this.tokens := tokens;
      pulled := 0;
    }

    /** `parse`: statements, then EOS, from a fresh parser. */
    method Parse() returns (r: Outcome)
      requires WellFormed(tokens) && pulled == 0
      modifies this
      ensures Returns(r, Program(tokens))
    {
      EosOnlyAtEnd(tokens, 0);
      Advance();
      :- Stmts();
      r := Eat(EOS, "expecting end of file");
    }

    /** `advance`: pull the next token; at the end of the input the lexer keeps answering EOS. */
    method Advance()
      requires EndsWithEos(tokens) && pulled <= |tokens|
      modifies this`pulled
      ensures pulled == if old(pulled) < |tokens| then old(pulled) + 1 else old(pulled)
      ensures 1 <= old(pulled) && !Look(tokens, old(pulled)).EOS? ==> pulled == old(pulled) + 1
    {
      if pulled < |tokens| {
        pulled := pulled + 1;
      }
    }

    /** `eat`: consume a token of kind `t` or raise `message` at the lookahead, which stays. */
    method Eat(t: TokenType, message: string) returns (r: Outcome)
      requires Ready(tokens, pulled)
      modifies this`pulled
      ensures Returns(r, Grammar.Eat(tokens, old(pulled), t, message))
    {
      if Look(tokens, pulled) == t {
        Advance();
        r := Ok;
      } else {
        r := Raise(message);
      }
    }

    /** `stmts`: statements up to EOS. */
    method Stmts() returns (r: Outcome)
      requires Ready(tokens, pulled)
      modifies this
      ensures Returns(r, Grammar.Stmts(tokens, old(pulled)))
      decreases |tokens| - pulled, 10
    {
      if !Look(tokens, pulled).EOS? {
        :- Stmt();
        r := Stmts();
      } else {
        r := Ok;
      }
    }

    /** `stmt`: tdecl on TYPE or a data type, fdecl on FUN, bstmt on a bstmt starter, else an error. */
    method Stmt() returns (r: Outcome)
      requires Ready(tokens, pulled)
      modifies this
      ensures Returns(r, Grammar.Stmt(tokens, old(pulled)))
      decreases |tokens| - pulled, 9
    {
      if Look(tokens, pulled).TYPE? || IsDtype(Look(tokens, pulled)) {
        r := Tdecl();
      } else if Look(tokens, pulled).FUN? {
        r := Fdecl();
      } else if IsBstmt(Look(tokens, pulled)) {
        r := Bstmt();
      } else {
        r := Raise("Poor sstatement declaration");
      }
    }

    /** `bstmts`: bstmts as long as the lookahead starts one. */
    method Bstmts() returns (r: Outcome)
      requires Ready(tokens, pulled)
      modifies this
      ensures Returns(r, Grammar.Bstmts(tokens, old(pulled)))
      decreases |tokens| - pulled, 8
    {
      if IsBstmt(Look(tokens, pulled)) {
        :- Bstmt();
        r := Bstmts();
      } else {
        r := Ok;
      }
    }

    /** `bstmt`: dispatch on the lookahead. */
    method Bstmt() returns (r: Outcome)
      requires Ready(tokens, pulled)
      modifies this
      ensures Returns(r, Grammar.Bstmt(tokens, old(pulled)))
      decreases |tokens| - pulled, 7
    {
      var k := Look(tokens, pulled);
      if k.VAR? {
        r := Vdecl();
      } else if k.SET? {
        r := Assign();
      } else if k.IF? {
        r := Cond();
      } else if k.WHILE? {
        r := While();
      } else if k.FOR? {
        r := For();
      } else if IsExpression(k) {
        r := Expr();
      } else if k.RETURN? {
        r := Exit();
      } else {
        r := Raise("Invalid bstmt");
      }
    }

    /** `tdecl`: TYPE ID, then `vdecls`, which never returns normally. */
    method Tdecl() returns (r: Outcome)
      requires Ready(tokens, pulled)
      modifies this
      ensures Returns(r, Grammar.Tdecl(tokens, old(pulled)))
      decreases |tokens| - pulled, 8
    {
      r := Eat(TYPE, "Expecting Type");
      if r.Err? {
        return;
      }
      :- Eat(ID, "Expecting ID");
      r := Vdecls();
      if r.Ok? {
        // the closing eat(END) is never reached: vdecls always raises
        assert false;
      }
    }

    /** `fdecl`: the heading, params, RPAREN, a single bstmt and END. */
    method Fdecl() returns (r: Outcome)
      requires Ready(tokens, pulled)
      modifies this
      ensures Returns(r, Grammar.Fdecl(tokens, old(pulled)))
      decreases |tokens| - pulled, 8
    {
      r := FunctionHeading();
      if r.Err? {
        return;
      }
      :- Params();
      :- Eat(RPAREN, "Expecting Right Parens");
      :- RequiredBstmt();
      r := Eat(END, "Expecting reserved word END");
    }

    /** The start of `fdecl`: FUN, NIL or a data type, the function's ID and the opening parenthesis. */
    method FunctionHeading() returns (r: Outcome)
      requires Ready(tokens, pulled)
      modifies this
      ensures Returns(r, Grammar.FunctionHeading(tokens, old(pulled)))
    {
      r := Eat(FUN, "Expecting function declaration");
      if r.Err? {
        return;
      }
      if Look(tokens, pulled).NIL? {
        :- Eat(NIL, "Expecting Nil token");
      } else if IsDtype(Look(tokens, pulled)) {
        :- Dtype();
      } else {
        r := Raise("invalid function type");
        return;
      }
      :- Eat(ID, "Expecting ID");
      r := Eat(LPAREN, "Expecting Left Parens");
    }

    /** The check before an expression that must be there: `expr` when one starts, else an error. */
    method RequiredExpr() returns (r: Outcome)
      requires Ready(tokens, pulled)
      modifies this
      ensures Returns(r, Grammar.RequiredExpr(tokens, old(pulled)))
      decreases |tokens| - pulled, 6
    {
      if IsExpression(Look(tokens, pulled)) {
        r := Expr();
      } else {
        r := Raise("Need an expression here");
      }
    }

    /** The same check before the single bstmt of a function body or a conditional branch. */
    method RequiredBstmt() returns (r: Outcome)
      requires Ready(tokens, pulled)
      modifies this
      ensures Returns(r, Grammar.RequiredBstmt(tokens, old(pulled)))
      decreases |tokens| - pulled, 8
    {
      if IsBstmt(Look(tokens, pulled)) {
        r := Bstmt();
      } else {
        r := Raise("Need a bstmt here");
      }
    }

    /** The same check before a block of bstmts, raising `message` when none starts. */
    method RequiredBstmts(message: string) returns (r: Outcome)
      requires Ready(tokens, pulled)
      modifies this
      ensures Returns(r, Grammar.RequiredBstmts(tokens, old(pulled), message))
      decreases |tokens| - pulled, 9
    {
      if IsBstmt(Look(tokens, pulled)) {
        r := Bstmts();
      } else {
        r := Raise(message);
      }
    }

    /** `vdecls`: a vdecl and then, unconditionally, vdecls again. */
    method Vdecls() returns (r: Outcome)
      requires Ready(tokens, pulled)
      modifies this
      ensures Returns(r, Grammar.Vdecls(tokens, old(pulled)))
      decreases |tokens| - pulled, 7
    {
      r := Vdecl();
      if r.Err? {
        return;
      }
      r := Vdecls();
    }

    /** `params`: an optional comma-separated list of `(dtype|ID) ID`. */
    method Params() returns (r: Outcome)
      requires Ready(tokens, pulled)
      modifies this
      ensures Returns(r, Grammar.Params(tokens, old(pulled)))
    {
      if IsDtype(Look(tokens, pulled)) || Look(tokens, pulled).ID? {
        :- Dtype();
        :- Eat(ID, "Expecting variable ID");
        while Look(tokens, pulled).COMMA?
          invariant Ready(tokens, pulled)
          invariant MoreParams(tokens, pulled) == Grammar.Params(tokens, old(pulled))
          decreases |tokens| - pulled
        {
          :- Eat(COMMA, "Expecting comma");
          if IsDtype(Look(tokens, pulled)) || Look(tokens, pulled).ID? {
            :- Dtype();
          } else {
            r := Raise("Need a data type or ID here");
            return;
          }
          :- Eat(ID, "expecting variable ID");
        }
      }
      r := Ok;
    }

    /** `dtype`: one built-in data type or a type name. */
    method Dtype() returns (r: Outcome)
      requires Ready(tokens, pulled)
      modifies this
      ensures Returns(r, Grammar.Dtype(tokens, old(pulled)))
    {
      if IsDtype(Look(tokens, pulled)) {
        Advance();
      } else if Look(tokens, pulled).ID? {
        Advance();
      } else {
        r := Raise("was expecting either an int, double, bool, char, string, or id");
        return;
      }
      r := Ok;
    }

    /** `exit`: RETURN and an expression when one follows. */
    method Exit() returns (r: Outcome)
      requires Ready(tokens, pulled)
      modifies this
      ensures Returns(r, Grammar.Exit(tokens, old(pulled)))
      decreases |tokens| - pulled, 6
    {
      r := Eat(RETURN, "Expecting Return statement");
      if r.Err? {
        return;
      }
      if IsExpression(Look(tokens, pulled)) {
        :- Expr();
      }
      r := Ok;
    }

    /** `vdecl`: VAR then either a data type, where it stops, or ID := expression. */
    method Vdecl() returns (r: Outcome)
      requires Ready(tokens, pulled)
      modifies this
      ensures Returns(r, Grammar.Vdecl(tokens, old(pulled)))
      decreases |tokens| - pulled, 6
    {
      r := Eat(VAR, "Expecting toke VAR");
      if r.Err? {
        return;
      }
      if IsDtype(Look(tokens, pulled)) {
        :- Dtype();
      } else if Look(tokens, pulled).ID? {
        :- Eat(ID, "Expecting ID token");
        :- Eat(ASSIGN, "Expecting assignment token");
        :- RequiredExpr();
      } else {
        r := Raise("Either need a dval or ID token here");
        return;
      }
      r := Ok;
    }

    /** `assign`: SET, a dotted lvalue, ASSIGN and an expression. */
    method Assign() returns (r: Outcome)
      requires Ready(tokens, pulled)
      modifies this
      ensures Returns(r, Grammar.Assign(tokens, old(pulled)))
      decreases |tokens| - pulled, 6
    {
      r := Eat(SET, "Expecting SET token");
      if r.Err? {
        return;
      }
      if Look(tokens, pulled).ID? {
        :- Lvalue();
      } else {
        r := Raise("Expecting an lvalue here");
        return;
      }
      :- Eat(ASSIGN, "Expecting assignment token");
      :- RequiredExpr();
      r := Ok;
    }

    /** `lvalue`: ID (DOT ID)*, stopping at the first lookahead that is not DOT. */
    method Lvalue() returns (r: Outcome)
      requires Ready(tokens, pulled)
      modifies this
      ensures Returns(r, Grammar.Lvalue(tokens, old(pulled)))
    {
      r := Eat(ID, "Expecting ID token");
      if r.Err? {
        return;
      }
      if Look(tokens, pulled).DOT? {
        while Look(tokens, pulled).DOT?
          invariant Ready(tokens, pulled)
          invariant LvaluePath(tokens, pulled) == Grammar.Lvalue(tokens, old(pulled))
          decreases |tokens| - pulled
        {
          :- Eat(DOT, "Expecting DOT token");
          :- Eat(ID, "Expecting ID token");
        }
      }
      r := Ok;
    }

    /** `cond`: IF expression THEN one bstmt, `condt` only on IF, then END. */
    method Cond() returns (r: Outcome)
      requires Ready(tokens, pulled)
      modifies this
      ensures Returns(r, Grammar.Cond(tokens, old(pulled)))
      decreases |tokens| - pulled, 6
    {
      r := Eat(IF, "Expecting IF token");
      if r.Err? {
        return;
      }
      :- RequiredExpr();
      :- Eat(THEN, "Expecting THEN token");
      :- RequiredBstmt();
      if Look(tokens, pulled).IF? {
        :- Condt();
      } else {
        r := Raise("Need a conditional tail here");
        return;
      }
      r := Eat(END, "Expecting END token");
    }

    /** `condt`: ELIF expression THEN bstmts and a tail only on IF; ELSE bstmts; else nothing. */
    method Condt() returns (r: Outcome)
      requires Ready(tokens, pulled)
      modifies this
      ensures Returns(r, Grammar.Condt(tokens, old(pulled)))
      decreases |tokens| - pulled, 6
    {
      if Look(tokens, pulled).ELIF? {
        :- Eat(ELIF, "Expecting ELIF token");
        :- RequiredExpr();
        :- Eat(THEN, "Expecting THEN token");
        :- RequiredBstmts("Need an bstmt here");
        if Look(tokens, pulled).IF? {
          // the recursive condt is never reached: bstmts never stops where IF starts a bstmt
          assert false;
        } else {
          r := Raise("Need a conditional tail here");
          return;
        }
      } else if Look(tokens, pulled).ELSE? {
        :- Eat(ELSE, "Expecting ELSE token");
        :- Bstmts();
      }
      r := Ok;
    }

    /** `while_stmt`: WHILE expression DO bstmts END. */
    method While() returns (r: Outcome)
      requires Ready(tokens, pulled)
      modifies this
      ensures Returns(r, Grammar.While(tokens, old(pulled)))
      decreases |tokens| - pulled, 6
    {
      r := Eat(WHILE, "Expecting WHILE token");
      if r.Err? {
        return;
      }
      :- RequiredExpr();
      :- Eat(DO, "Expecting DO token");
      :- RequiredBstmts("Need a bstmt here");
      r := Eat(END, "Expecting END token");
    }

    /** `for_stmt`: FOR ID ASSIGN expression TO expression DO bstmts END. */
    method For() returns (r: Outcome)
      requires Ready(tokens, pulled)
      modifies this
      ensures Returns(r, Grammar.For(tokens, old(pulled)))
      decreases |tokens| - pulled, 6
    {
      r := Eat(FOR, "Expecting FOR token");
      if r.Err? {
        return;
      }
      :- Eat(ID, "Expecting ID token");
      :- Eat(ASSIGN, "Expecting ASSIGN token");
      :- RequiredExpr();
      :- Eat(TO, "Expecting TO token");
      :- RequiredExpr();
      :- Eat(DO, "Expecting DO token");
      :- RequiredBstmts("Need a bstmt here");
      r := Eat(END, "Expecting END token");
    }

    /**
     * `expr`: nothing unless the lookahead starts an expression; otherwise
     * an operand, then, on an operator, the operator and another expr.
     */
    method Expr() returns (r: Outcome)
      requires Ready(tokens, pulled)
      modifies this
      ensures Returns(r, Grammar.Expr(tokens, old(pulled)))
      decreases |tokens| - pulled, 5
    {
      if IsExpression(Look(tokens, pulled)) {
        :- Operand();
        if IsOperator(Look(tokens, pulled)) {
          Advance();
          :- Expr();
        }
      }
      r := Ok;
    }

    /** The first part of `expr`: `( expr )`, `not expr` or an rvalue. */
    method Operand() returns (r: Outcome)
      requires Ready(tokens, pulled) && IsExpression(Look(tokens, pulled))
      modifies this
      ensures Returns(r, Grammar.Operand(tokens, old(pulled)))
      decreases |tokens| - pulled, 4
    {
      if Look(tokens, pulled).LPAREN? {
        Advance();
        :- Expr();
        r := Eat(RPAREN, "Expecting RPAREN token");
      } else if Look(tokens, pulled).NOT? {
        Advance();
        r := Expr();
      } else if IsRval(Look(tokens, pulled)) {
        r := Rvalue();
      } else {
        // "Invalid expression" is never raised: every other expression starter is an rvalue starter
        assert false;
      }
    }

    /** `rvalue`: NIL, NEW ID, NEG expression, a pval, or an idrval. */
    method Rvalue() returns (r: Outcome)
      requires Ready(tokens, pulled)
      modifies this
      ensures Returns(r, Grammar.Rvalue(tokens, old(pulled)))
      decreases |tokens| - pulled, 3
    {
      var k := Look(tokens, pulled);
      if k.NIL? {
        Advance();
      } else if k.NEW? {
        Advance();
        :- Eat(ID, "Expecting ID token");
      } else if k.NEG? {
        Advance();
        :- Expr();
      } else if IsPval(k) {
        Advance();
      } else if k.ID? {
        :- Idrval();
      } else {
        r := Raise("Invalid right hand side value");
        return;
      }
      r := Ok;
    }

    /** `idrval`: ID (DOT ID)+ or ID ( exprlist ); anything else after the ID raises there. */
    method Idrval() returns (r: Outcome)
      requires Ready(tokens, pulled)
      modifies this
      ensures Returns(r, Grammar.Idrval(tokens, old(pulled)))
      decreases |tokens| - pulled, 2
    {
      r := Eat(ID, "Expecting ID token");
      if r.Err? {
        return;
      }
      if Look(tokens, pulled).DOT? {
        while Look(tokens, pulled).DOT?
          invariant Ready(tokens, pulled)
          invariant IdrvalPath(tokens, pulled) == Grammar.Idrval(tokens, old(pulled))
          decreases |tokens| - pulled
        {
          Advance();
          :- Eat(ID, "Expecting ID token");
        }
      } else if Look(tokens, pulled).LPAREN? {
        :- Eat(LPAREN, "Expecting LPAREN token");
        :- Exprlist();
        :- Eat(RPAREN, "Expecting RPAREN token");
      } else {
        r := Raise("Invalid right hand side ID");
        return;
      }
      r := Ok;
    }

    /** `exprlist`: nothing unless an expression starts; then expressions separated by commas. */
    method Exprlist() returns (r: Outcome)
      requires Ready(tokens, pulled)
      modifies this
      ensures Returns(r, Grammar.Exprlist(tokens, old(pulled)))
      decreases |tokens| - pulled, 6
    {
      if IsExpression(Look(tokens, pulled)) {
        :- Expr();
        while Look(tokens, pulled).COMMA?
          invariant Ready(tokens, pulled)
          invariant MoreExprs(tokens, pulled) == Grammar.Exprlist(tokens, old(pulled))
          decreases |tokens| - pulled
        {
          Advance();
          :- Expr();
        }
      }
      r := Ok;
    }
  }
}
