/**
 * The MyPL grammar exactly as the recursive-descent parser implements it:
 * the FIRST-set predicates, token streams, and one function per parser
 * procedure.  Each function takes the stream and the lookahead index `i`
 * (the lookahead token is `ts[i - 1]`, `i` tokens having been pulled) and
 * says where the procedure returns: `Accept(j)` when it returns normally
 * with lookahead index `j`, `Reject(message, j)` when it raises `message`
 * at lookahead index `j`.  The methods of `Parsing.Parser` are proved to
 * compute these functions.
 */
module Grammar {
  import opened Tokens
  import opened Scanning

  // ----- FIRST-set predicates -----

  predicate IsPval(k: TokenType) {
    (k.INT_VAL? || k.DOUBLE_VAL? || k.BOOL_VAL? || k.STRING_VAL? || k.CHAR_VAL?)
  }

  predicate IsRval(k: TokenType) {
    IsPval(k) || (k.NIL? || k.NEW? || k.NEG? || k.ID?)
  }

  predicate IsExpression(k: TokenType) {
    IsPval(k) || (k.NOT? || k.LPAREN? || k.NIL? || k.NEW? || k.NEG? || k.ID?)
  }

  predicate IsDtype(k: TokenType) {
    (k.INT_TYPE? || k.DOUBLE_TYPE? || k.STRING_TYPE? || k.BOOL_TYPE? || k.CHAR_TYPE?)
  }

  /** The statement starters the parser recognises inside blocks; WHILE is not among them. */
  predicate IsBstmt(k: TokenType) {
    IsExpression(k) || (k.VAR? || k.SET? || k.IF? || k.FOR? || k.RETURN?)
  }

  predicate IsOperator(k: TokenType) {
    (k.PLUS? || k.MINUS? || k.DIVIDE? || k.MULTIPLY? || k.MODULO? || k.AND? || k.OR? || k.EQUAL? || k.LESS_THAN? || k.LESS_THAN_EQUAL? || k.GREATER_THAN? || k.GREATER_THAN_EQUAL? || k.NOT_EQUAL?)
  }

  /**
   * The predicate sets nest: every pval starts an rvalue, every rvalue an
   * expression, every expression a bstmt; no operator starts an expression;
   * and `while` starts no bstmt.
   */
  lemma FirstSetsNest(k: TokenType)
    ensures IsPval(k) ==> IsRval(k)
    ensures IsRval(k) ==> IsExpression(k)
    ensures IsExpression(k) ==> IsBstmt(k)
    ensures IsOperator(k) ==> !IsExpression(k)
    ensures !IsBstmt(WHILE) && !IsBstmt(ELIF) && !IsBstmt(ELSE) && !IsBstmt(END)
  {
  }

  /** An expression starts with `(`, with `not`, or with an rvalue, and with nothing else. */
  lemma ExpressionStarters(k: TokenType)
    ensures IsExpression(k) <==> k.LPAREN? || k.NOT? || IsRval(k)
  {
  }

  // ----- token streams -----

  /** A stream as the lexer produces it: tokens other than EOS, then one EOS. */
  predicate WellFormed(tokens: seq<Token>) {
    |tokens| > 0 &&
    if |tokens| == 1 then tokens[0].kind.EOS?
    else !tokens[0].kind.EOS? && WellFormed(tokens[1..])
  }

  /** The weaker fact the parser procedures rely on: the stream ends with EOS. */
  predicate EndsWithEos(tokens: seq<Token>) {
    |tokens| > 0 && tokens[|tokens| - 1].kind.EOS?
  }

  /** In a well-formed stream the EOS token is the last one and the only one. */
  lemma {:induction false} EosOnlyAtEnd(tokens: seq<Token>, i: int)
    requires WellFormed(tokens) && 0 <= i < |tokens|
    ensures tokens[i].kind.EOS? <==> i == |tokens| - 1
    ensures EndsWithEos(tokens)
    decreases |tokens|
  {
    if |tokens| > 1 {
      if i == 0 {
        EosOnlyAtEnd(tokens[1..], |tokens| - 2);
      } else {
        EosOnlyAtEnd(tokens[1..], i - 1);
      }
    }
  }

  /**
   * The tokens successive `nextToken` calls produce from `pos` up to and
   * including EOS, or None when one of them raises or never returns.
   */
  function TokenStream(input: string, pos: nat, line: int, column: int): (r: Option<seq<Token>>)
    requires pos <= |input|
    ensures r.Some? ==> WellFormed(r.value)
    decreases |input| - pos
  {
    var l := Lex(input, pos, line, column);
    match l.outcome
    case Emit(t) =>
      if t.kind.EOS? then Some([t])
      else
        var rest := TokenStream(input, l.pos, l.line, l.column);
        if rest.Some? then Some([t] + rest.value) else None
    case _ => None
  }

  /** Identifiers separated by dots: `ID (DOT ID)*`. */
  predicate DottedPath(ts: seq<Token>, a: int, b: int)
    requires 0 <= a <= b <= |ts|
    decreases b - a
  {
    if b - a <= 1 then b - a == 1 && ts[a].kind.ID?
    else b - a >= 3 && DottedPath(ts, a, b - 2) && ts[b - 2].kind.DOT? && ts[b - 1].kind.ID?
  }

  /** One parameter: a data type or type name, then the parameter's ID. */
  predicate IsParam(d: Token, x: Token) {
    (IsDtype(d.kind) || d.kind.ID?) && x.kind.ID?
  }

  /** A parameter list: empty, or parameters separated by commas. */
  predicate ParamList(ts: seq<Token>, a: int, b: int)
    requires 0 <= a <= b <= |ts|
    decreases b - a
  {
    if b - a <= 2 then b == a || (b - a == 2 && IsParam(ts[a], ts[a + 1]))
    else b - a >= 5 && ParamList(ts, a, b - 3) && ts[b - 3].kind.COMMA? && IsParam(ts[b - 2], ts[b - 1])
  }

  // ----- the procedures as functions of the lookahead index -----

  /**
   * Where a procedure returns: normally with the lookahead at index `at`,
   * or by raising `message` while the lookahead is at index `at`.
   */
  datatype Parsed = Accept(at: nat) | Reject(message: string, at: nat) {
    predicate IsFailure() {
      Reject?
    }

    function PropagateFailure(): Parsed {
      this
    }

    function Extract(): nat {
      at
    }
  }

  /** A lookahead token is present: the stream ends with EOS and `i` of its tokens have been pulled. */
  predicate Ready(ts: seq<Token>, i: int) {
    EndsWithEos(ts) && 1 <= i <= |ts|
  }

  /** The kind of the lookahead token, `currToken.type()`. */
  function Look(ts: seq<Token>, i: nat): TokenType
    requires Ready(ts, i)
  {
    ts[i - 1].kind
  }

  /** `advance`: past the end of the input the lexer keeps answering EOS. */
  function Next(ts: seq<Token>, i: nat): (j: nat)
    requires Ready(ts, i)
    ensures Ready(ts, j) && i <= j
    ensures !Look(ts, i).EOS? ==> j == i + 1
  {
    if i < |ts| then i + 1 else i
  }

  /** A procedure started at `i` stops at a lookahead index at or after `i`. */
  predicate Forward(ts: seq<Token>, i: int, r: Parsed) {
    Ready(ts, i) && i <= r.at <= |ts|
  }

  /** `parse`: statements, then the EOS token. */
  function Program(ts: seq<Token>): (r: Parsed)
    requires WellFormed(ts)
    ensures Forward(ts, 1, r)
    ensures r.Accept? ==> r.at == |ts|
  {
    EosOnlyAtEnd(ts, 0);
    var j :- Stmts(ts, 1);
    EosOnlyAtEnd(ts, j - 1);
    Eat(ts, j, EOS, "expecting end of file")
  }

  /** `eat`: consume a token of kind `t`, or raise `message` at the lookahead. */
  function Eat(ts: seq<Token>, i: nat, t: TokenType, message: string): (r: Parsed)
    requires Ready(ts, i)
    ensures Forward(ts, i, r)
    ensures r.Accept? <==> Look(ts, i) == t
    ensures r.Accept? && !t.EOS? ==> r.at == i + 1
    ensures r.Reject? ==> r == Reject(message, i)
  {
    if Look(ts, i) == t then Accept(Next(ts, i)) else Reject(message, i)
  }

  /** `stmts`: statements up to EOS. */
  function Stmts(ts: seq<Token>, i: nat): (r: Parsed)
    requires Ready(ts, i)
    ensures Forward(ts, i, r)
    ensures r.Accept? ==> Look(ts, r.at).EOS?
    decreases |ts| - i, 10
  {
    if !Look(ts, i).EOS? then
      var j :- Stmt(ts, i);
      Stmts(ts, j)
    else
      Accept(i)
  }

  /**
   * `stmt`: a type declaration on TYPE or a data type (which never
   * succeeds), a function on FUN, a bstmt on a bstmt starter, else an error.
   */
  function Stmt(ts: seq<Token>, i: nat): (r: Parsed)
    requires Ready(ts, i)
    ensures Forward(ts, i, r)
    ensures r.Accept? ==> i < r.at
    ensures Look(ts, i).TYPE? || IsDtype(Look(ts, i)) ==> r.Reject?
    ensures var k := Look(ts, i); !(k.TYPE? || IsDtype(k) || k.FUN? || IsBstmt(k)) ==>
      r == Reject("Poor sstatement declaration", i)
    decreases |ts| - i, 9
  {
    var k := Look(ts, i);
    if k.TYPE? || IsDtype(k) then Tdecl(ts, i)
    else if k.FUN? then Fdecl(ts, i)
    else if IsBstmt(k) then Bstmt(ts, i)
    else Reject("Poor sstatement declaration", i)
  }

  /** `bstmts`: bstmts as long as the lookahead starts one. */
  function Bstmts(ts: seq<Token>, i: nat): (r: Parsed)
    requires Ready(ts, i)
    ensures Forward(ts, i, r)
    ensures r.Accept? ==> !IsBstmt(Look(ts, r.at))
    ensures !IsBstmt(Look(ts, i)) ==> r == Accept(i)
    ensures IsBstmt(Look(ts, i)) && r.Accept? ==> i < r.at
    decreases |ts| - i, 8
  {
    if IsBstmt(Look(ts, i)) then
      var j :- Bstmt(ts, i);
      Bstmts(ts, j)
    else
      Accept(i)
  }

  /** `bstmt`: dispatch on the lookahead, WHILE included; a conditional never succeeds. */
  function Bstmt(ts: seq<Token>, i: nat): (r: Parsed)
    requires Ready(ts, i)
    ensures Forward(ts, i, r)
    ensures r.Accept? ==> i < r.at
    ensures Look(ts, i).IF? ==> r.Reject?
    decreases |ts| - i, 7
  {
    var k := Look(ts, i);
    if k.VAR? then Vdecl(ts, i)
    else if k.SET? then Assign(ts, i)
    else if k.IF? then Cond(ts, i)
    else if k.WHILE? then While(ts, i)
    else if k.FOR? then For(ts, i)
    else if IsExpression(k) then Expr(ts, i)
    else if k.RETURN? then Exit(ts, i)
    else Reject("Invalid bstmt", i)
  }

  /**
   * `tdecl`: TYPE ID, then `vdecls`, which never returns normally, so the
   * `eat(END)` that follows it in the procedure is never reached.
   */
  function Tdecl(ts: seq<Token>, i: nat): (r: Parsed)
    requires Ready(ts, i)
    ensures Forward(ts, i, r)
    ensures r.Reject?
  {
    var j :- Eat(ts, i, TYPE, "Expecting Type");
    var k :- Eat(ts, j, ID, "Expecting ID");
    Vdecls(ts, k)
  }

  /** `fdecl`: the heading, params, RPAREN, a single bstmt and END. */
  function Fdecl(ts: seq<Token>, i: nat): (r: Parsed)
    requires Ready(ts, i)
    ensures Forward(ts, i, r)
    ensures r.Accept? ==> i < r.at
  {
    var j :- FunctionHeading(ts, i);
    var k :- Params(ts, j);
    var l :- Eat(ts, k, RPAREN, "Expecting Right Parens");
    var m :- RequiredBstmt(ts, l);
    Eat(ts, m, END, "Expecting reserved word END")
  }

  /** The start of `fdecl`: FUN, NIL or a data type, the function's ID and LPAREN. */
  function FunctionHeading(ts: seq<Token>, i: nat): (r: Parsed)
    requires Ready(ts, i)
    ensures Forward(ts, i, r)
    ensures r.Accept? ==>
      && r.at == i + 4 && Look(ts, i).FUN? && (ts[i].kind.NIL? || IsDtype(ts[i].kind))
      && ts[i + 1].kind.ID? && ts[i + 2].kind.LPAREN?
    ensures Look(ts, i).FUN? && i < |ts| && !(ts[i].kind.NIL? || IsDtype(ts[i].kind))
      ==> r == Reject("invalid function type", i + 1)
  {
    var j :- Eat(ts, i, FUN, "Expecting function declaration");
    var k :- if Look(ts, j).NIL? then Eat(ts, j, NIL, "Expecting Nil token")
             else if IsDtype(Look(ts, j)) then Dtype(ts, j)
             else Reject("invalid function type", j);
    var l :- Eat(ts, k, ID, "Expecting ID");
    Eat(ts, l, LPAREN, "Expecting Left Parens")
  }

  /** The check before an expression that must be there: `expr` when one starts, else an error. */
  function RequiredExpr(ts: seq<Token>, i: nat): (r: Parsed)
    requires Ready(ts, i)
    ensures Forward(ts, i, r)
    ensures r.Accept? ==> i < r.at
    ensures !IsExpression(Look(ts, i)) ==> r == Reject("Need an expression here", i)
    decreases |ts| - i, 7
  {
    if IsExpression(Look(ts, i)) then Expr(ts, i) else Reject("Need an expression here", i)
  }

  /** The same check before the single bstmt of a function body or a conditional branch. */
  function RequiredBstmt(ts: seq<Token>, i: nat): (r: Parsed)
    requires Ready(ts, i)
    ensures Forward(ts, i, r)
    ensures r.Accept? ==> i < r.at
    ensures !IsBstmt(Look(ts, i)) ==> r == Reject("Need a bstmt here", i)
    decreases |ts| - i, 8
  {
    if IsBstmt(Look(ts, i)) then Bstmt(ts, i) else Reject("Need a bstmt here", i)
  }

  /** The same check before a block of bstmts, raising `message` when none starts. */
  function RequiredBstmts(ts: seq<Token>, i: nat, message: string): (r: Parsed)
    requires Ready(ts, i)
    ensures Forward(ts, i, r)
    ensures r.Accept? ==> i < r.at && !IsBstmt(Look(ts, r.at))
    ensures !IsBstmt(Look(ts, i)) ==> r == Reject(message, i)
    decreases |ts| - i, 9
  {
    if IsBstmt(Look(ts, i)) then Bstmts(ts, i) else Reject(message, i)
  }

  /** `vdecls`: a vdecl and then, unconditionally, vdecls again, so it always ends in an error. */
  function Vdecls(ts: seq<Token>, i: nat): (r: Parsed)
    requires Ready(ts, i)
    ensures Forward(ts, i, r)
    ensures r.Reject?
    decreases |ts| - i
  {
    var j :- Vdecl(ts, i);
    Vdecls(ts, j)
  }

  /** `params`: nothing unless a data type or ID starts; then `(dtype|ID) ID` and the loop. */
  function Params(ts: seq<Token>, i: nat): (r: Parsed)
    requires Ready(ts, i)
    ensures Forward(ts, i, r)
    ensures !(IsDtype(Look(ts, i)) || Look(ts, i).ID?) ==> r == Accept(i)
  {
    if IsDtype(Look(ts, i)) || Look(ts, i).ID? then
      var j :- Dtype(ts, i);
      var k :- Eat(ts, j, ID, "Expecting variable ID");
      MoreParams(ts, k)
    else
      Accept(i)
  }

  /** The loop of `params`: `, (dtype|ID) ID` while the lookahead is a comma. */
  function MoreParams(ts: seq<Token>, i: nat): (r: Parsed)
    requires Ready(ts, i)
    ensures Forward(ts, i, r)
    ensures r.Accept? ==> !Look(ts, r.at).COMMA?
    decreases |ts| - i
  {
    if Look(ts, i).COMMA? then
      var j :- Eat(ts, i, COMMA, "Expecting comma");
      var k :- if IsDtype(Look(ts, j)) || Look(ts, j).ID? then Dtype(ts, j)
               else Reject("Need a data type or ID here", j);
      var l :- Eat(ts, k, ID, "expecting variable ID");
      MoreParams(ts, l)
    else
      Accept(i)
  }

  /** `dtype`: one built-in data type or a type name. */
  function Dtype(ts: seq<Token>, i: nat): (r: Parsed)
    requires Ready(ts, i)
    ensures Forward(ts, i, r)
    ensures r.Accept? <==> IsDtype(Look(ts, i)) || Look(ts, i).ID?
    ensures r.Accept? ==> r.at == i + 1
    ensures r.Reject? ==> r.at == i
  {
    if IsDtype(Look(ts, i)) then Accept(Next(ts, i))
    else if Look(ts, i).ID? then Accept(Next(ts, i))
    else Reject("was expecting either an int, double, bool, char, string, or id", i)
  }

  /** `exit`: RETURN and an expression when one follows. */
  function Exit(ts: seq<Token>, i: nat): (r: Parsed)
    requires Ready(ts, i)
    ensures Forward(ts, i, r)
    ensures r.Accept? ==> i < r.at
    ensures Look(ts, i).RETURN? && i < |ts| && !IsExpression(ts[i].kind) ==> r == Accept(i + 1)
  {
    var j :- Eat(ts, i, RETURN, "Expecting Return statement");
    if IsExpression(Look(ts, j)) then Expr(ts, j) else Accept(j)
  }

  /** `vdecl`: VAR then either a data type, where it stops, or ID := expression. */
  function Vdecl(ts: seq<Token>, i: nat): (r: Parsed)
    requires Ready(ts, i)
    ensures Forward(ts, i, r)
    ensures r.Accept? ==> i < r.at
    ensures Look(ts, i).VAR? && i < |ts| && IsDtype(ts[i].kind) ==> r == Accept(i + 2)
  {
    var j :- Eat(ts, i, VAR, "Expecting toke VAR");
    if IsDtype(Look(ts, j)) then
      Dtype(ts, j)
    else if Look(ts, j).ID? then
      var k :- Eat(ts, j, ID, "Expecting ID token");
      var l :- Eat(ts, k, ASSIGN, "Expecting assignment token");
      RequiredExpr(ts, l)
    else
      Reject("Either need a dval or ID token here", j)
  }

  /** `assign`: SET, an lvalue, ASSIGN and an expression. */
  function Assign(ts: seq<Token>, i: nat): (r: Parsed)
    requires Ready(ts, i)
    ensures Forward(ts, i, r)
    ensures r.Accept? ==> i < r.at
  {
    var j :- Eat(ts, i, SET, "Expecting SET token");
    var k :- if Look(ts, j).ID? then Lvalue(ts, j) else Reject("Expecting an lvalue here", j);
    var l :- Eat(ts, k, ASSIGN, "Expecting assignment token");
    RequiredExpr(ts, l)
  }

  /** `lvalue`: ID, then `DOT ID` while the lookahead is DOT. */
  function Lvalue(ts: seq<Token>, i: nat): (r: Parsed)
    requires Ready(ts, i)
    ensures Forward(ts, i, r)
  {
    var j :- Eat(ts, i, ID, "Expecting ID token");
    if Look(ts, j).DOT? then LvaluePath(ts, j) else Accept(j)
  }

  /** The loop of `lvalue`: eat DOT, eat ID, while the lookahead is DOT. */
  function LvaluePath(ts: seq<Token>, i: nat): (r: Parsed)
    requires Ready(ts, i)
    ensures Forward(ts, i, r)
    ensures r.Accept? ==> !Look(ts, r.at).DOT?
    decreases |ts| - i
  {
    if Look(ts, i).DOT? then
      var j :- Eat(ts, i, DOT, "Expecting DOT token");
      var k :- Eat(ts, j, ID, "Expecting ID token");
      LvaluePath(ts, k)
    else
      Accept(i)
  }

  /**
   * `cond`: IF expression THEN one bstmt, then `condt` only when the
   * lookahead is IF, and there `condt` does nothing, so the final
   * `eat(END)` fails on that IF: a conditional never succeeds.
   */
  function Cond(ts: seq<Token>, i: nat): (r: Parsed)
    requires Ready(ts, i)
    ensures Forward(ts, i, r)
    ensures r.Reject?
    decreases |ts| - i, 6
  {
    var j :- Eat(ts, i, IF, "Expecting IF token");
    var k :- RequiredExpr(ts, j);
    var l :- Eat(ts, k, THEN, "Expecting THEN token");
    var m :- RequiredBstmt(ts, l);
    if Look(ts, m).IF? then
      var n :- Condt(ts, m);
      Eat(ts, n, END, "Expecting END token")
    else
      Reject("Need a conditional tail here", m)
  }

  /**
   * `condt`: ELIF expression THEN bstmts and then a tail only on IF, which
   * bstmts never leaves behind, so ELIF always raises; ELSE bstmts; on
   * anything else the empty tail.
   */
  function Condt(ts: seq<Token>, i: nat): (r: Parsed)
    requires Ready(ts, i)
    ensures Forward(ts, i, r)
    ensures !Look(ts, i).ELIF? && !Look(ts, i).ELSE? ==> r == Accept(i)
    ensures Look(ts, i).ELIF? ==> r.Reject?
    ensures Look(ts, i).ELSE? && r.Accept? ==> !IsBstmt(Look(ts, r.at))
    decreases |ts| - i, 6
  {
    if Look(ts, i).ELIF? then
      var j :- Eat(ts, i, ELIF, "Expecting ELIF token");
      var k :- RequiredExpr(ts, j);
      var l :- Eat(ts, k, THEN, "Expecting THEN token");
      var m :- RequiredBstmts(ts, l, "Need an bstmt here");
      // the procedure recurses into condt on IF, but bstmts never stops where IF starts a bstmt
      assert !Look(ts, m).IF?;
      Reject("Need a conditional tail here", m)
    else if Look(ts, i).ELSE? then
      var j :- Eat(ts, i, ELSE, "Expecting ELSE token");
      Bstmts(ts, j)
    else
      Accept(i)
  }

  /** `while_stmt`: WHILE expression DO bstmts END. */
  function While(ts: seq<Token>, i: nat): (r: Parsed)
    requires Ready(ts, i)
    ensures Forward(ts, i, r)
    ensures r.Accept? ==> i < r.at
    decreases |ts| - i, 6
  {
    var j :- Eat(ts, i, WHILE, "Expecting WHILE token");
    var k :- RequiredExpr(ts, j);
    var l :- Eat(ts, k, DO, "Expecting DO token");
    var m :- RequiredBstmts(ts, l, "Need a bstmt here");
    Eat(ts, m, END, "Expecting END token")
  }

  /** `for_stmt`: FOR ID ASSIGN expression TO expression DO bstmts END. */
  function For(ts: seq<Token>, i: nat): (r: Parsed)
    requires Ready(ts, i)
    ensures Forward(ts, i, r)
    ensures r.Accept? ==> i < r.at
    decreases |ts| - i, 6
  {
    var j :- Eat(ts, i, FOR, "Expecting FOR token");
    var k :- Eat(ts, j, ID, "Expecting ID token");
    var l :- Eat(ts, k, ASSIGN, "Expecting ASSIGN token");
    var m :- RequiredExpr(ts, l);
    var n :- Eat(ts, m, TO, "Expecting TO token");
    var o :- RequiredExpr(ts, n);
    var p :- Eat(ts, o, DO, "Expecting DO token");
    var q :- RequiredBstmts(ts, p, "Need a bstmt here");
    Eat(ts, q, END, "Expecting END token")
  }

  /**
   * `expr`: nothing at all unless the lookahead starts an expression;
   * otherwise an operand, then, on an operator, the operator and another
   * expr, which may itself be empty.
   */
  function Expr(ts: seq<Token>, i: nat): (r: Parsed)
    requires Ready(ts, i)
    ensures Forward(ts, i, r)
    ensures !IsExpression(Look(ts, i)) ==> r == Accept(i)
    ensures IsExpression(Look(ts, i)) && r.Accept? ==> i < r.at
    decreases |ts| - i, 5
  {
    if IsExpression(Look(ts, i)) then
      var j :- Operand(ts, i);
      if IsOperator(Look(ts, j)) then Expr(ts, Next(ts, j)) else Accept(j)
    else
      Accept(i)
  }

  /** The first part of `expr`: `( expr )`, `not expr` or an rvalue. */
  function Operand(ts: seq<Token>, i: nat): (r: Parsed)
    requires Ready(ts, i) && IsExpression(Look(ts, i))
    ensures Forward(ts, i, r)
    ensures r.Accept? ==> i < r.at
    decreases |ts| - i, 4
  {
    var k := Look(ts, i);
    if k.LPAREN? then
      var j :- Expr(ts, Next(ts, i));
      Eat(ts, j, RPAREN, "Expecting RPAREN token")
    else if k.NOT? then Expr(ts, Next(ts, i))
    else if IsRval(k) then Rvalue(ts, i)
    else Reject("Invalid expression", i)
  }

  /** `rvalue`: NIL, NEW ID, NEG expression, a pval, or an idrval. */
  function Rvalue(ts: seq<Token>, i: nat): (r: Parsed)
    requires Ready(ts, i)
    ensures Forward(ts, i, r)
    ensures r.Accept? ==> i < r.at
    ensures !IsRval(Look(ts, i)) ==> r == Reject("Invalid right hand side value", i)
    ensures IsPval(Look(ts, i)) || Look(ts, i).NIL? ==> r == Accept(i + 1)
    decreases |ts| - i, 3
  {
    var k := Look(ts, i);
    if k.NIL? then Accept(Next(ts, i))
    else if k.NEW? then Eat(ts, Next(ts, i), ID, "Expecting ID token")
    else if k.NEG? then Expr(ts, Next(ts, i))
    else if IsPval(k) then Accept(Next(ts, i))
    else if k.ID? then Idrval(ts, i)
    else Reject("Invalid right hand side value", i)
  }

  /**
   * `idrval`: ID (DOT ID)+ or ID ( exprlist ); an ID followed by anything
   * else raises at the token after it.
   */
  function Idrval(ts: seq<Token>, i: nat): (r: Parsed)
    requires Ready(ts, i)
    ensures Forward(ts, i, r)
    ensures r.Accept? ==> i + 2 <= r.at
    ensures Look(ts, i).ID? && i < |ts| && !ts[i].kind.DOT? && !ts[i].kind.LPAREN? ==>
      r == Reject("Invalid right hand side ID", i + 1)
    decreases |ts| - i, 2
  {
    var j :- Eat(ts, i, ID, "Expecting ID token");
    if Look(ts, j).DOT? then
      IdrvalPath(ts, j)
    else if Look(ts, j).LPAREN? then
      var k :- Eat(ts, j, LPAREN, "Expecting LPAREN token");
      var l :- Exprlist(ts, k);
      Eat(ts, l, RPAREN, "Expecting RPAREN token")
    else
      Reject("Invalid right hand side ID", j)
  }

  /** The loop of `idrval`: advance past DOT, eat ID, while the lookahead is DOT. */
  function IdrvalPath(ts: seq<Token>, i: nat): (r: Parsed)
    requires Ready(ts, i)
    ensures Forward(ts, i, r)
    ensures r.Accept? ==> !Look(ts, r.at).DOT?
    ensures Look(ts, i).DOT? && r.Accept? ==> i + 2 <= r.at
    decreases |ts| - i
  {
    if Look(ts, i).DOT? then
      var k :- Eat(ts, Next(ts, i), ID, "Expecting ID token");
      IdrvalPath(ts, k)
    else
      Accept(i)
  }

  /** `exprlist`: nothing unless an expression starts; then expressions separated by commas. */
  function Exprlist(ts: seq<Token>, i: nat): (r: Parsed)
    requires Ready(ts, i)
    ensures Forward(ts, i, r)
    ensures !IsExpression(Look(ts, i)) ==> r == Accept(i)
    decreases |ts| - i, 6
  {
    if IsExpression(Look(ts, i)) then
      var j :- Expr(ts, i);
      MoreExprs(ts, j)
    else
      Accept(i)
  }

  /** The loop of `exprlist`: advance past a comma and parse an expr, while the lookahead is a comma. */
  function MoreExprs(ts: seq<Token>, i: nat): (r: Parsed)
    requires Ready(ts, i)
    ensures Forward(ts, i, r)
    ensures r.Accept? ==> !Look(ts, r.at).COMMA?
    decreases |ts| - i, 6
  {
    if Look(ts, i).COMMA? then
      var j :- Expr(ts, Next(ts, i));
      MoreExprs(ts, j)
    else
      Accept(i)
  }
}
