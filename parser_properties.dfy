/**
 * What the MyPL parser accepts: the parameter lists and dotted paths its
 * loops consume, the exact token shapes of declarations, assignments,
 * loops and function declarations, and two token streams run through a
 * fresh `Parser`.
 */
module ParserProperties {
  import opened Tokens
  import opened Grammar
  import opened Parsing

  // ----- parameter lists -----

  /** A non-empty parameter list has 2, 5, 8, ... tokens. */
  lemma {:induction false} ParamListLength(ts: seq<Token>, a: nat, b: nat)
    requires a < b <= |ts| && ParamList(ts, a, b)
    ensures (b - a) % 3 == 2
    decreases b - a
  {
    if b - a > 2 {
      ParamListLength(ts, a, b - 3);
    }
  }

  /** A non-empty parameter list starts with a parameter. */
  lemma {:induction false} ParamListFirst(ts: seq<Token>, a: nat, b: nat)
    requires a < b <= |ts| && ParamList(ts, a, b)
    ensures a + 2 <= b && IsParam(ts[a], ts[a + 1]) && ParamList(ts, a, a + 2)
    decreases b - a
  {
    if b - a > 2 {
      ParamListFirst(ts, a, b - 3);
    }
  }

  /** A shorter non-empty list inside a longer one is followed by a comma and another parameter. */
  lemma {:induction false} ParamListPrefix(ts: seq<Token>, a: nat, c: nat, b: nat)
    requires a < c < b <= |ts| && ParamList(ts, a, c) && ParamList(ts, a, b)
    ensures c + 3 <= b && ts[c].kind.COMMA? && IsParam(ts[c + 1], ts[c + 2]) && ParamList(ts, a, c + 3)
    decreases b - a
  {
    ParamListLength(ts, a, c);
    ParamListLength(ts, a, b);
    if b - 3 != c {
      ParamListPrefix(ts, a, c, b - 3);
    }
  }

  /** The loop of `params` extends the list read so far, and stops only after a whole parameter. */
  lemma {:induction false} MoreParamsSound(ts: seq<Token>, a: nat, i: nat)
    requires Ready(ts, i) && a < i - 1 && ParamList(ts, a, i - 1)
    requires MoreParams(ts, i).Accept?
    ensures ParamList(ts, a, MoreParams(ts, i).at - 1)
    decreases |ts| - i
  {
    if Look(ts, i).COMMA? {
      assert MoreParams(ts, i) == MoreParams(ts, i + 3);
      MoreParamsSound(ts, a, i + 3);
    }
  }

  /** The loop of `params` reads a whole list that the next token does not continue. */
  lemma {:induction false} MoreParamsExact(ts: seq<Token>, a: nat, i: nat, n: nat)
    requires Ready(ts, i) && a < i - 1 && i <= n <= |ts|
    requires ParamList(ts, a, i - 1) && ParamList(ts, a, n - 1) && !ts[n - 1].kind.COMMA?
    ensures MoreParams(ts, i) == Accept(n)
    decreases n - i
  {
    if i < n {
      ParamListPrefix(ts, a, i - 1, n - 1);
      MoreParamsExact(ts, a, i + 3, n);
    }
  }

  /** After its first parameter, `params` is its loop. */
  lemma ParamsFirst(ts: seq<Token>, i: nat)
    requires Ready(ts, i) && (IsDtype(Look(ts, i)) || Look(ts, i).ID?)
    ensures i < |ts|
    ensures Params(ts, i) == if ts[i].kind.ID? then MoreParams(ts, i + 2) else Reject("Expecting variable ID", i + 1)
  {
    ParamsStart(ts, i);
    assert Look(ts, i + 1) == ts[i].kind;
    if Look(ts, i + 1) == ID {
      EatMatches(ts, i + 1, ID, "Expecting variable ID");
    } else {
      EatMisses(ts, i + 1, ID, "Expecting variable ID");
    }
  }

  /** On a dtype or ID, `params` reads it, then an ID, then its loop. */
  lemma ParamsStart(ts: seq<Token>, i: nat)
    requires Ready(ts, i) && (IsDtype(Look(ts, i)) || Look(ts, i).ID?)
    ensures i < |ts|
    ensures var e := Eat(ts, i + 1, ID, "Expecting variable ID");
      Params(ts, i) == if e.Accept? then MoreParams(ts, e.at) else e
  {
    assert Dtype(ts, i) == Accept(i + 1);
  }

  /** What `params` accepts is a parameter list that the lookahead does not continue. */
  lemma ParamsSound(ts: seq<Token>, i: nat)
    requires Ready(ts, i) && Params(ts, i).Accept?
    ensures var n := Params(ts, i).at;
      && ParamList(ts, i - 1, n - 1)
      && if n == i then !IsDtype(ts[n - 1].kind) && !ts[n - 1].kind.ID? else !ts[n - 1].kind.COMMA?
  {
    if IsDtype(Look(ts, i)) || Look(ts, i).ID? {
      ParamsFirst(ts, i);
      assert ts[i].kind.ID? && i + 2 <= |ts|;
      assert ParamList(ts, i - 1, i + 1);
      MoreParamsSound(ts, i - 1, i + 2);
    }
  }

  /** `params` reads a whole parameter list that the lookahead does not continue. */
  lemma ParamsComplete(ts: seq<Token>, i: nat, n: nat)
    requires Ready(ts, i) && i <= n <= |ts|
    requires ParamList(ts, i - 1, n - 1)
    requires if n == i then !IsDtype(ts[n - 1].kind) && !ts[n - 1].kind.ID? else !ts[n - 1].kind.COMMA?
    ensures Params(ts, i) == Accept(n)
  {
    if n != i {
      ParamListFirst(ts, i - 1, n - 1);
      assert IsParam(ts[i - 1], ts[i]);
      ParamsFirst(ts, i);
      MoreParamsExact(ts, i - 1, i + 2, n);
      assert Params(ts, i) == MoreParams(ts, i + 2);
    }
  }

  /**
   * `params` returns normally at `n` exactly when the tokens before `n`
   * form a parameter list that the lookahead at `n` does not continue: an
   * empty list before anything but a data type or ID (a comma included),
   * a non-empty one before anything but a comma.
   */
  lemma ParamsAccept(ts: seq<Token>, i: nat, n: nat)
    requires Ready(ts, i) && i <= n <= |ts|
    ensures Params(ts, i) == Accept(n) <==>
      && ParamList(ts, i - 1, n - 1)
      && if n == i then !IsDtype(ts[n - 1].kind) && !ts[n - 1].kind.ID? else !ts[n - 1].kind.COMMA?
  {
    if Params(ts, i) == Accept(n) {
      ParamsSound(ts, i);
    }
    if && ParamList(ts, i - 1, n - 1)
       && if n == i then !IsDtype(ts[n - 1].kind) && !ts[n - 1].kind.ID? else !ts[n - 1].kind.COMMA?
    {
      ParamsComplete(ts, i, n);
    }
  }

  // ----- dotted paths -----

  /** A dotted path has 1, 3, 5, ... tokens. */
  lemma {:induction false} DottedPathLength(ts: seq<Token>, a: nat, b: nat)
    requires a <= b <= |ts| && DottedPath(ts, a, b)
    ensures (b - a) % 2 == 1
    decreases b - a
  {
    if b - a > 1 {
      DottedPathLength(ts, a, b - 2);
    }
  }

  /** A dotted path starts with an ID. */
  lemma {:induction false} DottedPathFirst(ts: seq<Token>, a: nat, b: nat)
    requires a <= b <= |ts| && DottedPath(ts, a, b)
    ensures a < b && ts[a].kind.ID? && DottedPath(ts, a, a + 1)
    decreases b - a
  {
    if b - a > 1 {
      DottedPathFirst(ts, a, b - 2);
    }
  }

  /** A shorter path inside a longer one is followed by DOT ID. */
  lemma {:induction false} DottedPathPrefix(ts: seq<Token>, a: nat, c: nat, b: nat)
    requires a <= c < b <= |ts| && DottedPath(ts, a, c) && DottedPath(ts, a, b)
    ensures c + 2 <= b && ts[c].kind.DOT? && ts[c + 1].kind.ID? && DottedPath(ts, a, c + 2)
    decreases b - a
  {
    DottedPathLength(ts, a, c);
    DottedPathLength(ts, a, b);
    if b - 2 != c {
      DottedPathPrefix(ts, a, c, b - 2);
    }
  }

  /** The loop of `lvalue` extends the path read so far. */
  lemma {:induction false} LvaluePathSound(ts: seq<Token>, a: nat, i: nat)
    requires Ready(ts, i) && a < i && DottedPath(ts, a, i - 1)
    requires LvaluePath(ts, i).Accept?
    ensures DottedPath(ts, a, LvaluePath(ts, i).at - 1)
    decreases |ts| - i
  {
    if Look(ts, i).DOT? {
      assert LvaluePath(ts, i) == LvaluePath(ts, i + 2);
      LvaluePathSound(ts, a, i + 2);
    }
  }

  /** The loop of `lvalue` reads a whole path that the next token does not continue. */
  lemma {:induction false} LvaluePathExact(ts: seq<Token>, a: nat, i: nat, n: nat)
    requires Ready(ts, i) && a < i <= n <= |ts|
    requires DottedPath(ts, a, i - 1) && DottedPath(ts, a, n - 1) && !ts[n - 1].kind.DOT?
    ensures LvaluePath(ts, i) == Accept(n)
    decreases n - i
  {
    if i < n {
      DottedPathPrefix(ts, a, i - 1, n - 1);
      LvaluePathExact(ts, a, i + 2, n);
    }
  }

  /** What `lvalue` accepts is a dotted path that no DOT follows. */
  lemma LvalueSound(ts: seq<Token>, i: nat)
    requires Ready(ts, i) && Lvalue(ts, i).Accept?
    ensures var n := Lvalue(ts, i).at; DottedPath(ts, i - 1, n - 1) && !ts[n - 1].kind.DOT?
  {
    assert Lvalue(ts, i) == LvaluePath(ts, i + 1);
    LvaluePathSound(ts, i - 1, i + 1);
  }

  /** `lvalue` reads a whole dotted path that no DOT follows. */
  lemma LvalueComplete(ts: seq<Token>, i: nat, n: nat)
    requires Ready(ts, i) && i <= n <= |ts|
    requires DottedPath(ts, i - 1, n - 1) && !ts[n - 1].kind.DOT?
    ensures Lvalue(ts, i) == Accept(n)
  {
    DottedPathFirst(ts, i - 1, n - 1);
    assert Lvalue(ts, i) == LvaluePath(ts, i + 1);
    LvaluePathExact(ts, i - 1, i + 1, n);
  }

  /** `lvalue` returns normally at `n` exactly when a dotted path ends there and no DOT follows. */
  lemma LvalueAccept(ts: seq<Token>, i: nat, n: nat)
    requires Ready(ts, i) && i <= n <= |ts|
    ensures Lvalue(ts, i) == Accept(n) <==> DottedPath(ts, i - 1, n - 1) && !ts[n - 1].kind.DOT?
  {
    if Lvalue(ts, i) == Accept(n) {
      LvalueSound(ts, i);
    }
    if DottedPath(ts, i - 1, n - 1) && !ts[n - 1].kind.DOT? {
      LvalueComplete(ts, i, n);
    }
  }

  /** The loop of `idrval` extends the path read so far. */
  lemma {:induction false} IdrvalPathSound(ts: seq<Token>, a: nat, i: nat)
    requires Ready(ts, i) && a < i && DottedPath(ts, a, i - 1)
    requires IdrvalPath(ts, i).Accept?
    ensures DottedPath(ts, a, IdrvalPath(ts, i).at - 1)
    decreases |ts| - i
  {
    if Look(ts, i).DOT? {
      assert IdrvalPath(ts, i) == IdrvalPath(ts, i + 2);
      IdrvalPathSound(ts, a, i + 2);
    }
  }

  /** The loop of `idrval` reads a whole path that the next token does not continue. */
  lemma {:induction false} IdrvalPathExact(ts: seq<Token>, a: nat, i: nat, n: nat)
    requires Ready(ts, i) && a < i <= n <= |ts|
    requires DottedPath(ts, a, i - 1) && DottedPath(ts, a, n - 1) && !ts[n - 1].kind.DOT?
    ensures IdrvalPath(ts, i) == Accept(n)
    decreases n - i
  {
    if i < n {
      DottedPathPrefix(ts, a, i - 1, n - 1);
      IdrvalPathExact(ts, a, i + 2, n);
    }
  }

  // ----- the shapes of statements -----

  /**
   * `idrval` returns normally at `n` exactly on an ID followed by DOT ID
   * pairs up to `n` with no DOT after them, or on an ID, `(`, an exprlist
   * and `)` ending just before `n`.
   */
  lemma IdrvalAccept(ts: seq<Token>, i: nat, n: nat)
    requires Ready(ts, i) && i <= n <= |ts|
    ensures Idrval(ts, i) == Accept(n) <==>
      && Look(ts, i).ID? && i + 1 < |ts|
      && (|| (ts[i].kind.DOT? && DottedPath(ts, i - 1, n - 1) && !ts[n - 1].kind.DOT?)
          || (ts[i].kind.LPAREN? && i + 2 < n && Exprlist(ts, i + 2) == Accept(n - 1) && ts[n - 2].kind.RPAREN?))
  {
    if Look(ts, i).ID? && i + 1 < |ts| {
      if ts[i].kind.DOT? {
        IdrvalPathAccept(ts, i, n);
      } else if ts[i].kind.LPAREN? {
        IdrvalCallAccept(ts, i, n);
      }
    }
  }

  /** The path case of `idrval`: an ID and DOT ID pairs up to `n`, with no DOT after them. */
  lemma IdrvalPathAccept(ts: seq<Token>, i: nat, n: nat)
    requires Ready(ts, i) && i <= n <= |ts| && Look(ts, i).ID? && i + 1 < |ts| && ts[i].kind.DOT?
    ensures Idrval(ts, i) == Accept(n) <==> DottedPath(ts, i - 1, n - 1) && !ts[n - 1].kind.DOT?
  {
    assert Idrval(ts, i) == IdrvalPath(ts, i + 1);
    if IdrvalPath(ts, i + 1).Accept? {
      IdrvalPathSound(ts, i - 1, i + 1);
    }
    if DottedPath(ts, i - 1, n - 1) && !ts[n - 1].kind.DOT? {
      DottedPathFirst(ts, i - 1, n - 1);
      IdrvalPathExact(ts, i - 1, i + 1, n);
    }
  }

  /** The call case of `idrval`: an ID, `(`, an exprlist up to `n - 1` and `)` at `n - 1`. */
  lemma IdrvalCallAccept(ts: seq<Token>, i: nat, n: nat)
    requires Ready(ts, i) && i <= n <= |ts| && Look(ts, i).ID? && i + 1 < |ts| && ts[i].kind.LPAREN?
    ensures Idrval(ts, i) == Accept(n) <==> i + 2 < n && Exprlist(ts, i + 2) == Accept(n - 1) && ts[n - 2].kind.RPAREN?
  {
    if Idrval(ts, i) == Accept(n) {
      IdrvalCallSound(ts, i, n);
    }
    if i + 2 < n && Exprlist(ts, i + 2) == Accept(n - 1) && ts[n - 2].kind.RPAREN? {
      assert Eat(ts, i, ID, "Expecting ID token") == Accept(i + 1);
      assert Eat(ts, i + 1, LPAREN, "Expecting LPAREN token") == Accept(i + 2);
      assert Eat(ts, n - 1, RPAREN, "Expecting RPAREN token") == Accept(n);
    }
  }

  /** An accepted call in `idrval` ends with `)` right after its exprlist. */
  lemma IdrvalCallSound(ts: seq<Token>, i: nat, n: nat)
    requires Ready(ts, i) && Look(ts, i).ID? && i + 1 < |ts| && ts[i].kind.LPAREN? && Idrval(ts, i) == Accept(n)
    ensures i + 2 < n && Exprlist(ts, i + 2) == Accept(n - 1) && ts[n - 2].kind.RPAREN?
  {
    var j := Eat(ts, i, ID, "Expecting ID token").at;
    var k := Eat(ts, j, LPAREN, "Expecting LPAREN token").at;
    var l := Exprlist(ts, k).at;
    assert && Eat(ts, i, ID, "Expecting ID token") == Accept(j)
           && Eat(ts, j, LPAREN, "Expecting LPAREN token") == Accept(k)
           && Exprlist(ts, k) == Accept(l) && Eat(ts, l, RPAREN, "Expecting RPAREN token") == Accept(n);
    IdrvalCallIntro(ts, i, j, k, l, n);
  }

  /** The steps of an accepted call in `idrval`, read off one by one. */
  lemma IdrvalCallIntro(ts: seq<Token>, i: nat, j: nat, k: nat, l: nat, n: nat)
    requires Ready(ts, i)
    requires Eat(ts, i, ID, "Expecting ID token") == Accept(j)
    requires Eat(ts, j, LPAREN, "Expecting LPAREN token") == Accept(k)
    requires Exprlist(ts, k) == Accept(l) && Eat(ts, l, RPAREN, "Expecting RPAREN token") == Accept(n)
    ensures i + 2 < n && Exprlist(ts, i + 2) == Accept(n - 1) && ts[n - 2].kind.RPAREN?
  {
    EatAccepts(ts, i, ID, "Expecting ID token", j);
    EatAccepts(ts, j, LPAREN, "Expecting LPAREN token", k);
    EatAccepts(ts, l, RPAREN, "Expecting RPAREN token", n);
    assert j == i + 1 && k == i + 2 && n == l + 1;
  }

  /** `vdecl` returns normally exactly on VAR and a data type, or on VAR ID := and an expression. */
  lemma VdeclAccept(ts: seq<Token>, i: nat, n: nat)
    requires Ready(ts, i)
    ensures Vdecl(ts, i) == Accept(n) <==>
      && Look(ts, i).VAR? && i < |ts|
      && if IsDtype(ts[i].kind) then n == i + 2
         else && i + 2 < |ts| && ts[i].kind.ID? && ts[i + 1].kind.ASSIGN?
              && IsExpression(ts[i + 2].kind) && Expr(ts, i + 3) == Accept(n)
  {
  }

  /** An `eat` of a token other than EOS that returns normally consumed exactly that token. */
  lemma EatAccepts(ts: seq<Token>, i: nat, t: TokenType, message: string, n: nat)
    requires Ready(ts, i) && !t.EOS? && Eat(ts, i, t, message) == Accept(n)
    ensures Look(ts, i) == t && n == i + 1
  {
  }

  /** A lookahead of another kind raises the message at the lookahead. */
  lemma EatMisses(ts: seq<Token>, i: nat, t: TokenType, message: string)
    requires Ready(ts, i) && Look(ts, i) != t
    ensures Eat(ts, i, t, message) == Reject(message, i)
  {
  }

  /** A lookahead of the expected kind is consumed. */
  lemma EatMatches(ts: seq<Token>, i: nat, t: TokenType, message: string)
    requires Ready(ts, i) && !t.EOS? && Look(ts, i) == t
    ensures Eat(ts, i, t, message) == Accept(i + 1)
  {
  }

  /** What follows SET at lookahead `i`: an lvalue up to `k`, ASSIGN at `k`, an expression up to `n`. */
  predicate AssignRest(ts: seq<Token>, i: nat, k: nat, n: nat) {
    && EndsWithEos(ts) && i + 1 < k < n <= |ts|
    && Look(ts, i + 1).ID? && Lvalue(ts, i + 1) == Accept(k)
    && Look(ts, k).ASSIGN? && IsExpression(Look(ts, k + 1)) && Expr(ts, k + 1) == Accept(n)
  }

  /** A `assign` that returns normally has the shape `AssignRest` describes. */
  lemma AssignSound(ts: seq<Token>, i: nat, n: nat)
    requires Ready(ts, i) && Assign(ts, i) == Accept(n)
    ensures Look(ts, i).SET? && exists k :: AssignRest(ts, i, k, n)
  {
    var j := Eat(ts, i, SET, "Expecting SET token").at;
    var k := Lvalue(ts, j).at;
    var l := Eat(ts, k, ASSIGN, "Expecting assignment token").at;
    assert && Eat(ts, i, SET, "Expecting SET token") == Accept(j) && Look(ts, j).ID?
           && Lvalue(ts, j) == Accept(k) && Eat(ts, k, ASSIGN, "Expecting assignment token") == Accept(l)
           && RequiredExpr(ts, l) == Accept(n);
    AssignRestIntro(ts, i, j, k, l, n);
  }

  /** The steps of an accepted `assign`, read off one by one, make up `AssignRest`. */
  lemma AssignRestIntro(ts: seq<Token>, i: nat, j: nat, k: nat, l: nat, n: nat)
    requires Ready(ts, i)
    requires Eat(ts, i, SET, "Expecting SET token") == Accept(j) && Look(ts, j).ID?
    requires Lvalue(ts, j) == Accept(k) && Eat(ts, k, ASSIGN, "Expecting assignment token") == Accept(l)
    requires RequiredExpr(ts, l) == Accept(n)
    ensures Look(ts, i).SET? && AssignRest(ts, i, k, n)
  {
    EatAccepts(ts, i, SET, "Expecting SET token", j);
    EatAccepts(ts, k, ASSIGN, "Expecting assignment token", l);
  }

  /** Every token sequence of the shape `AssignRest` describes is an `assign`. */
  lemma AssignComplete(ts: seq<Token>, i: nat, k: nat, n: nat)
    requires Ready(ts, i) && Look(ts, i).SET? && AssignRest(ts, i, k, n)
    ensures Assign(ts, i) == Accept(n)
  {
    assert Eat(ts, i, SET, "Expecting SET token") == Accept(i + 1);
    assert Eat(ts, k, ASSIGN, "Expecting assignment token") == Accept(k + 1);
    assert RequiredExpr(ts, k + 1) == Accept(n);
  }

  /** `assign` returns normally at `n` exactly on SET, an lvalue, ASSIGN and an expression ending at `n`. */
  lemma AssignAccept(ts: seq<Token>, i: nat, n: nat)
    requires Ready(ts, i)
    ensures Assign(ts, i) == Accept(n) <==> Look(ts, i).SET? && exists k :: AssignRest(ts, i, k, n)
  {
    if Assign(ts, i) == Accept(n) {
      AssignSound(ts, i, n);
    }
    if Look(ts, i).SET? && exists k :: AssignRest(ts, i, k, n) {
      var k :| AssignRest(ts, i, k, n);
      AssignComplete(ts, i, k, n);
    }
  }

  /** `exit` returns normally exactly on RETURN, with the expression that follows when one starts. */
  lemma ExitAccept(ts: seq<Token>, i: nat, n: nat)
    requires Ready(ts, i)
    ensures Exit(ts, i) == Accept(n) <==>
      && Look(ts, i).RETURN? && i < |ts|
      && if IsExpression(ts[i].kind) then Expr(ts, i + 1) == Accept(n) else n == i + 1
  {
  }

  /**
   * What follows a loop keyword (WHILE, or TO of a `for_stmt`) at lookahead
   * `i`: an expression up to `d`, DO, bstmts up to `e`, END at `e`.
   */
  predicate LoopBody(ts: seq<Token>, i: nat, d: nat, e: nat, n: nat) {
    && EndsWithEos(ts) && i < d && d < e && n == e + 1 && n <= |ts|
    && IsExpression(Look(ts, i + 1)) && Expr(ts, i + 1) == Accept(d)
    && Look(ts, d).DO? && IsBstmt(Look(ts, d + 1)) && Bstmts(ts, d + 1) == Accept(e)
    && Look(ts, e).END?
  }

  /** The steps of an accepted loop after its keyword `t`, read off one by one, make up `LoopBody`. */
  lemma LoopBodyIntro(ts: seq<Token>, i: nat, t: TokenType, message: string, j: nat, d: nat, k: nat, e: nat, n: nat)
    requires Ready(ts, i) && !t.EOS?
    requires Eat(ts, i, t, message) == Accept(j) && RequiredExpr(ts, j) == Accept(d)
    requires Eat(ts, d, DO, "Expecting DO token") == Accept(k)
    requires RequiredBstmts(ts, k, "Need a bstmt here") == Accept(e)
    requires Eat(ts, e, END, "Expecting END token") == Accept(n)
    ensures Look(ts, i) == t && LoopBody(ts, i, d, e, n)
  {
    EatAccepts(ts, i, t, message, j);
    EatAccepts(ts, d, DO, "Expecting DO token", k);
    EatAccepts(ts, e, END, "Expecting END token", n);
  }

  /** Every token sequence of the shape `LoopBody` describes completes a loop after its keyword `t`. */
  lemma LoopBodyComplete(ts: seq<Token>, i: nat, t: TokenType, message: string, d: nat, e: nat, n: nat)
    requires Ready(ts, i) && Look(ts, i) == t && !t.EOS? && LoopBody(ts, i, d, e, n)
    ensures Eat(ts, i, t, message) == Accept(i + 1) && RequiredExpr(ts, i + 1) == Accept(d)
    ensures Eat(ts, d, DO, "Expecting DO token") == Accept(d + 1)
    ensures RequiredBstmts(ts, d + 1, "Need a bstmt here") == Accept(e)
    ensures Eat(ts, e, END, "Expecting END token") == Accept(n)
  {
  }

  /** A `while_stmt` that returns normally is WHILE followed by a `LoopBody`. */
  lemma WhileSound(ts: seq<Token>, i: nat, n: nat)
    requires Ready(ts, i) && While(ts, i) == Accept(n)
    ensures Look(ts, i).WHILE? && exists d, e :: LoopBody(ts, i, d, e, n)
  {
    var j := Eat(ts, i, WHILE, "Expecting WHILE token").at;
    var d := RequiredExpr(ts, j).at;
    var k := Eat(ts, d, DO, "Expecting DO token").at;
    var e := RequiredBstmts(ts, k, "Need a bstmt here").at;
    assert && Eat(ts, i, WHILE, "Expecting WHILE token") == Accept(j) && RequiredExpr(ts, j) == Accept(d)
           && Eat(ts, d, DO, "Expecting DO token") == Accept(k)
           && RequiredBstmts(ts, k, "Need a bstmt here") == Accept(e)
           && Eat(ts, e, END, "Expecting END token") == Accept(n);
    LoopBodyIntro(ts, i, WHILE, "Expecting WHILE token", j, d, k, e, n);
  }

  /** `while_stmt` returns normally at `n` exactly on WHILE expression DO bstmts END. */
  lemma WhileAccept(ts: seq<Token>, i: nat, n: nat)
    requires Ready(ts, i)
    ensures While(ts, i) == Accept(n) <==> Look(ts, i).WHILE? && exists d, e :: LoopBody(ts, i, d, e, n)
  {
    if While(ts, i) == Accept(n) {
      WhileSound(ts, i, n);
    }
    if Look(ts, i).WHILE? && exists d, e :: LoopBody(ts, i, d, e, n) {
      var d, e :| LoopBody(ts, i, d, e, n);
      LoopBodyComplete(ts, i, WHILE, "Expecting WHILE token", d, e, n);
    }
  }

  /** What follows FOR at lookahead `i`: ID ASSIGN, an expression up to `m`, and TO at `m`. */
  predicate ForHead(ts: seq<Token>, i: nat, m: nat) {
    && EndsWithEos(ts) && i + 3 < m <= |ts|
    && Look(ts, i + 1).ID? && Look(ts, i + 2).ASSIGN?
    && IsExpression(Look(ts, i + 3)) && Expr(ts, i + 3) == Accept(m) && Look(ts, m).TO?
  }

  /** The first steps of an accepted `for_stmt`, read off one by one, make up `ForHead`. */
  lemma ForHeadIntro(ts: seq<Token>, i: nat, j: nat, k: nat, l: nat, m: nat)
    requires Ready(ts, i)
    requires Eat(ts, i, FOR, "Expecting FOR token") == Accept(j)
    requires Eat(ts, j, ID, "Expecting ID token") == Accept(k)
    requires Eat(ts, k, ASSIGN, "Expecting ASSIGN token") == Accept(l)
    requires RequiredExpr(ts, l) == Accept(m) && Look(ts, m).TO?
    ensures Look(ts, i).FOR? && ForHead(ts, i, m)
  {
    EatAccepts(ts, i, FOR, "Expecting FOR token", j);
    EatAccepts(ts, j, ID, "Expecting ID token", k);
    EatAccepts(ts, k, ASSIGN, "Expecting ASSIGN token", l);
  }

  /** A `for_stmt` that returns normally is FOR, a `ForHead` up to TO, and a `LoopBody` after it. */
  lemma ForSound(ts: seq<Token>, i: nat, n: nat)
    requires Ready(ts, i) && For(ts, i) == Accept(n)
    ensures Look(ts, i).FOR? && exists m, o, e :: ForHead(ts, i, m) && LoopBody(ts, m, o, e, n)
  {
    var j := Eat(ts, i, FOR, "Expecting FOR token").at;
    var k := Eat(ts, j, ID, "Expecting ID token").at;
    var l := Eat(ts, k, ASSIGN, "Expecting ASSIGN token").at;
    var m := RequiredExpr(ts, l).at;
    var p := Eat(ts, m, TO, "Expecting TO token").at;
    var o := RequiredExpr(ts, p).at;
    var q := Eat(ts, o, DO, "Expecting DO token").at;
    var e := RequiredBstmts(ts, q, "Need a bstmt here").at;
    assert && Eat(ts, i, FOR, "Expecting FOR token") == Accept(j)
           && Eat(ts, j, ID, "Expecting ID token") == Accept(k)
           && Eat(ts, k, ASSIGN, "Expecting ASSIGN token") == Accept(l)
           && RequiredExpr(ts, l) == Accept(m) && Eat(ts, m, TO, "Expecting TO token") == Accept(p)
           && RequiredExpr(ts, p) == Accept(o) && Eat(ts, o, DO, "Expecting DO token") == Accept(q)
           && RequiredBstmts(ts, q, "Need a bstmt here") == Accept(e)
           && Eat(ts, e, END, "Expecting END token") == Accept(n);
    LoopBodyIntro(ts, m, TO, "Expecting TO token", p, o, q, e, n);
    ForHeadIntro(ts, i, j, k, l, m);
  }

  /** Every token sequence of the shape `ForHead` and `LoopBody` describe is a `for_stmt`. */
  lemma ForComplete(ts: seq<Token>, i: nat, m: nat, o: nat, e: nat, n: nat)
    requires Ready(ts, i) && Look(ts, i).FOR? && ForHead(ts, i, m) && LoopBody(ts, m, o, e, n)
    ensures For(ts, i) == Accept(n)
  {
    assert Eat(ts, i, FOR, "Expecting FOR token") == Accept(i + 1);
    assert Eat(ts, i + 1, ID, "Expecting ID token") == Accept(i + 2);
    assert Eat(ts, i + 2, ASSIGN, "Expecting ASSIGN token") == Accept(i + 3);
    assert RequiredExpr(ts, i + 3) == Accept(m);
    LoopBodyComplete(ts, m, TO, "Expecting TO token", o, e, n);
  }

  /** `for_stmt` returns normally at `n` exactly on FOR ID := expression TO expression DO bstmts END. */
  lemma ForAccept(ts: seq<Token>, i: nat, n: nat)
    requires Ready(ts, i)
    ensures For(ts, i) == Accept(n) <==>
      Look(ts, i).FOR? && exists m, o, e :: ForHead(ts, i, m) && LoopBody(ts, m, o, e, n)
  {
    if For(ts, i) == Accept(n) {
      ForSound(ts, i, n);
    }
    if Look(ts, i).FOR? && exists m, o, e :: ForHead(ts, i, m) && LoopBody(ts, m, o, e, n) {
      var m, o, e :| ForHead(ts, i, m) && LoopBody(ts, m, o, e, n);
      ForComplete(ts, i, m, o, e, n);
    }
  }

  /** The heading of a function at lookahead `i`: FUN, NIL or a data type, an ID and `(`. */
  predicate FunctionStart(ts: seq<Token>, i: nat) {
    && Ready(ts, i) && i + 3 < |ts| && Look(ts, i).FUN?
    && (ts[i].kind.NIL? || IsDtype(ts[i].kind)) && ts[i + 1].kind.ID? && ts[i + 2].kind.LPAREN?
  }

  /** The heading of a function is accepted, four tokens long, exactly when it has the shape `FunctionStart` describes. */
  lemma HeadingAccept(ts: seq<Token>, i: nat, j: nat)
    requires Ready(ts, i)
    ensures FunctionHeading(ts, i) == Accept(j) <==> FunctionStart(ts, i) && j == i + 4
  {
    if FunctionStart(ts, i) && j == i + 4 {
      assert Eat(ts, i, FUN, "Expecting function declaration") == Accept(i + 1);
      if ts[i].kind.NIL? {
        assert Eat(ts, i + 1, NIL, "Expecting Nil token") == Accept(i + 2);
      } else {
        assert Dtype(ts, i + 1) == Accept(i + 2);
      }
      assert Eat(ts, i + 2, ID, "Expecting ID") == Accept(i + 3);
      assert Eat(ts, i + 3, LPAREN, "Expecting Left Parens") == Accept(i + 4);
    }
  }

  /**
   * What follows the heading of a function that starts at lookahead `i`:
   * parameters up to `q`, RPAREN at `q`, exactly one bstmt up to `e`,
   * and END at `e`.
   */
  predicate FunctionRest(ts: seq<Token>, i: nat, q: nat, e: nat, n: nat) {
    && EndsWithEos(ts) && 1 <= i && i + 4 <= q < e && n == e + 1 && n <= |ts|
    && Params(ts, i + 4) == Accept(q) && Look(ts, q).RPAREN?
    && IsBstmt(Look(ts, q + 1)) && Bstmt(ts, q + 1) == Accept(e) && Look(ts, e).END?
  }

  /** A required bstmt that returns normally is a bstmt on a bstmt starter. */
  lemma RequiredBstmtAccepts(ts: seq<Token>, k: nat, e: nat)
    requires Ready(ts, k) && RequiredBstmt(ts, k) == Accept(e)
    ensures IsBstmt(Look(ts, k)) && Bstmt(ts, k) == Accept(e)
  {
  }

  /** On a bstmt starter the required bstmt is just the bstmt. */
  lemma RequiredBstmtOn(ts: seq<Token>, k: nat)
    requires Ready(ts, k) && IsBstmt(Look(ts, k))
    ensures RequiredBstmt(ts, k) == Bstmt(ts, k)
  {
  }

  /** An `fdecl` that returns normally has the shape `FunctionStart` and `FunctionRest` describe. */
  lemma FdeclSound(ts: seq<Token>, i: nat, n: nat)
    requires Ready(ts, i) && Fdecl(ts, i) == Accept(n)
    ensures FunctionStart(ts, i) && exists q, e :: FunctionRest(ts, i, q, e, n)
  {
    assert FunctionHeading(ts, i).Accept?;
    var j := FunctionHeading(ts, i).at;
    assert Params(ts, j).Accept?;
    var q := Params(ts, j).at;
    assert Eat(ts, q, RPAREN, "Expecting Right Parens").Accept?;
    var k := Eat(ts, q, RPAREN, "Expecting Right Parens").at;
    assert RequiredBstmt(ts, k).Accept?;
    var e := RequiredBstmt(ts, k).at;
    assert Eat(ts, e, END, "Expecting reserved word END") == Accept(n);
    HeadingAccept(ts, i, j);
    EatAccepts(ts, q, RPAREN, "Expecting Right Parens", k);
    EatAccepts(ts, e, END, "Expecting reserved word END", n);
    RequiredBstmtAccepts(ts, k, e);
    assert FunctionRest(ts, i, q, e, n);
  }

  /** Every token sequence of the shape `FunctionStart` and `FunctionRest` describe is an `fdecl`. */
  lemma FdeclComplete(ts: seq<Token>, i: nat, q: nat, e: nat, n: nat)
    requires FunctionStart(ts, i) && FunctionRest(ts, i, q, e, n)
    ensures Fdecl(ts, i) == Accept(n)
  {
    RestParts(ts, i, q, e, n);
    FdeclFrom(ts, i, i + 4, q, q + 1, e, n);
  }

  /** The parts `FunctionStart` and `FunctionRest` list, each as the procedure that consumes it. */
  lemma RestParts(ts: seq<Token>, i: nat, q: nat, e: nat, n: nat)
    requires FunctionStart(ts, i) && FunctionRest(ts, i, q, e, n)
    ensures FunctionHeading(ts, i) == Accept(i + 4) && Params(ts, i + 4) == Accept(q)
    ensures Ready(ts, q + 1) && Eat(ts, q, RPAREN, "Expecting Right Parens") == Accept(q + 1)
    ensures RequiredBstmt(ts, q + 1) == Accept(e) && Eat(ts, e, END, "Expecting reserved word END") == Accept(n)
  {
    HeadingAccept(ts, i, i + 4);
    EatMatches(ts, q, RPAREN, "Expecting Right Parens");
    RequiredBstmtOn(ts, q + 1);
    EatMatches(ts, e, END, "Expecting reserved word END");
  }

  /** `fdecl` returns normally at `n` once each of its five parts has returned normally in turn. */
  lemma FdeclFrom(ts: seq<Token>, i: nat, j: nat, k: nat, l: nat, m: nat, n: nat)
    requires Ready(ts, i) && FunctionHeading(ts, i) == Accept(j) && Params(ts, j) == Accept(k)
    requires Eat(ts, k, RPAREN, "Expecting Right Parens") == Accept(l) && RequiredBstmt(ts, l) == Accept(m)
    requires Eat(ts, m, END, "Expecting reserved word END") == Accept(n)
    ensures Fdecl(ts, i) == Accept(n)
  {
  }

  /**
   * `fdecl` returns normally at `n` exactly on FUN, NIL or a data type, ID,
   * `(`, parameters, `)`, a single bstmt and END.
   */
  lemma FdeclAccept(ts: seq<Token>, i: nat, n: nat)
    requires Ready(ts, i)
    ensures Fdecl(ts, i) == Accept(n) <==> FunctionStart(ts, i) && exists q, e :: FunctionRest(ts, i, q, e, n)
  {
    if Fdecl(ts, i) == Accept(n) {
      FdeclSound(ts, i, n);
    }
    if FunctionStart(ts, i) && exists q, e :: FunctionRest(ts, i, q, e, n) {
      var q, e :| FunctionRest(ts, i, q, e, n);
      FdeclComplete(ts, i, q, e, n);
    }
  }

  /** NEW must be followed by an ID; otherwise "Expecting ID token" is raised at the token after NEW. */
  lemma RvalueNew(ts: seq<Token>, i: nat)
    requires Ready(ts, i) && Look(ts, i).NEW?
    ensures i < |ts|
    ensures Rvalue(ts, i) == if ts[i].kind.ID? then Accept(i + 2) else Reject("Expecting ID token", i + 1)
  {
    NotAtEnd(ts, i);
    assert Rvalue(ts, i) == Eat(ts, i + 1, ID, "Expecting ID token");
  }

  /** NEG is followed by an expression, which decides the outcome. */
  lemma RvalueNeg(ts: seq<Token>, i: nat)
    requires Ready(ts, i) && Look(ts, i).NEG?
    ensures i < |ts| && Rvalue(ts, i) == Expr(ts, i + 1)
  {
    NotAtEnd(ts, i);
  }

  /** An ID starts an idrval. */
  lemma RvalueId(ts: seq<Token>, i: nat)
    requires Ready(ts, i) && Look(ts, i).ID?
    ensures Rvalue(ts, i) == Idrval(ts, i)
  {
  }

  /** The outcome of `rvalue` on a lookahead that is neither NEW, NEG nor ID. */
  lemma RvalueOther(ts: seq<Token>, i: nat)
    requires Ready(ts, i) && !Look(ts, i).NEW? && !Look(ts, i).NEG? && !Look(ts, i).ID?
    ensures Rvalue(ts, i) == if Look(ts, i).NIL? || IsPval(Look(ts, i)) then Accept(i + 1) else Reject("Invalid right hand side value", i)
  {
    var k := Look(ts, i);
    assert !IsRval(k) <==> !k.NIL? && !IsPval(k);
  }

  /** The five alternatives of `rvalue`, each ending at `n`. */
  predicate RvalueShape(ts: seq<Token>, i: nat, n: nat)
    requires Ready(ts, i)
  {
    || ((Look(ts, i).NIL? || IsPval(Look(ts, i))) && n == i + 1)
    || (Look(ts, i).NEW? && i < |ts| && ts[i].kind.ID? && n == i + 2)
    || (Look(ts, i).NEG? && i < |ts| && Expr(ts, i + 1) == Accept(n))
    || (Look(ts, i).ID? && Idrval(ts, i) == Accept(n))
  }

  /** What `rvalue` accepts has one of its alternatives' shapes. */
  lemma RvalueSound(ts: seq<Token>, i: nat)
    requires Ready(ts, i) && Rvalue(ts, i).Accept?
    ensures RvalueShape(ts, i, Rvalue(ts, i).at)
  {
    var k := Look(ts, i);
    if k.NEW? {
      RvalueNew(ts, i);
    } else if k.NEG? {
      RvalueNeg(ts, i);
    } else if k.ID? {
      RvalueId(ts, i);
    } else {
      RvalueOther(ts, i);
    }
  }

  /** Each alternative's shape is accepted by `rvalue`. */
  lemma RvalueComplete(ts: seq<Token>, i: nat, n: nat)
    requires Ready(ts, i) && RvalueShape(ts, i, n)
    ensures Rvalue(ts, i) == Accept(n)
  {
    var k := Look(ts, i);
    if k.NEW? {
      RvalueNew(ts, i);
    } else if k.NEG? {
      RvalueNeg(ts, i);
    } else if k.ID? {
      RvalueId(ts, i);
    } else {
      RvalueOther(ts, i);
    }
  }

  /**
   * `rvalue` accepts up to `n` exactly on one of its five alternatives:
   * NIL or a pval alone, NEW ID, NEG and an expression, or an idrval.
   */
  lemma RvalueAccept(ts: seq<Token>, i: nat, n: nat)
    requires Ready(ts, i)
    ensures Rvalue(ts, i) == Accept(n) <==> RvalueShape(ts, i, n)
  {
    if Rvalue(ts, i) == Accept(n) {
      RvalueSound(ts, i);
    }
    if RvalueShape(ts, i, n) {
      RvalueComplete(ts, i, n);
    }
  }

  /**
   * The first part of an expression accepts up to `n` exactly on one of its
   * three alternatives: `(` expression `)`, NOT and an expression, or an rvalue.
   */
  lemma OperandAccept(ts: seq<Token>, i: nat, n: nat)
    requires Ready(ts, i) && IsExpression(Look(ts, i)) && i <= n <= |ts|
    ensures Operand(ts, i) == Accept(n) <==>
      || (Look(ts, i).LPAREN? && i + 2 <= n && Expr(ts, i + 1) == Accept(n - 1) && ts[n - 2].kind.RPAREN?)
      || (Look(ts, i).NOT? && Expr(ts, i + 1) == Accept(n))
      || (IsRval(Look(ts, i)) && Rvalue(ts, i) == Accept(n))
  {
    NotAtEnd(ts, i);
    var k := Look(ts, i);
    if k.LPAREN? {
      assert !k.NOT? && !IsRval(k);
      var e := Expr(ts, i + 1);
      if e.Accept? {
        assert Operand(ts, i) == Eat(ts, e.at, RPAREN, "Expecting RPAREN token");
        assert Eat(ts, e.at, RPAREN, "Expecting RPAREN token").Accept? <==> ts[e.at - 1].kind.RPAREN?;
      } else {
        assert Operand(ts, i).Reject?;
      }
    } else if k.NOT? {
      assert !IsRval(k);
      assert Operand(ts, i) == Expr(ts, i + 1);
    } else {
      assert IsRval(k);
      assert Operand(ts, i) == Rvalue(ts, i);
    }
  }

  /**
   * After its first part, an expression goes on exactly when an operator
   * follows: the operator is consumed and another expression must come.
   */
  lemma OperatorThenExpr(ts: seq<Token>, i: nat, j: nat)
    requires Ready(ts, i) && IsExpression(Look(ts, i)) && Operand(ts, i) == Accept(j)
    ensures IsOperator(Look(ts, j)) ==> j < |ts| && Expr(ts, i) == Expr(ts, j + 1)
    ensures !IsOperator(Look(ts, j)) ==> Expr(ts, i) == Accept(j)
  {
    if IsOperator(Look(ts, j)) {
      FirstSetsNest(Look(ts, j));
      NotAtEnd(ts, j);
    }
  }

  /** A lookahead that is no EOS has a token after it. */
  lemma NotAtEnd(ts: seq<Token>, i: nat)
    requires Ready(ts, i) && !Look(ts, i).EOS?
    ensures i < |ts|
  {
  }

  /** On FUN, `stmt` returns as `fdecl` does. */
  lemma StmtOnFun(ts: seq<Token>, i: nat)
    requires Ready(ts, i) && Look(ts, i).FUN?
    ensures Stmt(ts, i) == Fdecl(ts, i)
  {
    var k := Look(ts, i);
    assert !k.TYPE? && !IsDtype(k);
  }

  /** On a bstmt starter, `stmt` returns as `bstmt` does. */
  lemma StmtOnBstmt(ts: seq<Token>, i: nat)
    requires Ready(ts, i) && IsBstmt(Look(ts, i))
    ensures Stmt(ts, i) == Bstmt(ts, i)
  {
    var k := Look(ts, i);
    assert !k.TYPE? && !IsDtype(k) && !k.FUN?;
  }

  /**
   * `stmt` accepts up to `n` exactly for a function declaration on FUN or
   * a bstmt on a bstmt starter; a type or data type never gets through.
   */
  lemma StmtAccept(ts: seq<Token>, i: nat, n: nat)
    requires Ready(ts, i)
    ensures Stmt(ts, i) == Accept(n) <==>
      || (Look(ts, i).FUN? && Fdecl(ts, i) == Accept(n))
      || (IsBstmt(Look(ts, i)) && Bstmt(ts, i) == Accept(n))
  {
    var k := Look(ts, i);
    if k.FUN? {
      assert !IsBstmt(k);
      StmtOnFun(ts, i);
    } else if IsBstmt(k) {
      StmtOnBstmt(ts, i);
    } else {
      assert Stmt(ts, i).Reject?;
      assert !(Stmt(ts, i) == Accept(n));
    }
  }

  /**
   * `bstmt` accepts up to `n` exactly for a declaration on VAR, an assignment
   * on SET, a loop on WHILE or FOR, an expression on its starters or a return
   * on RETURN; a conditional never gets through.
   */
  lemma BstmtAccept(ts: seq<Token>, i: nat, n: nat)
    requires Ready(ts, i)
    ensures Bstmt(ts, i) == Accept(n) <==>
      || (Look(ts, i).VAR? && Vdecl(ts, i) == Accept(n))
      || (Look(ts, i).SET? && Assign(ts, i) == Accept(n))
      || (Look(ts, i).WHILE? && While(ts, i) == Accept(n))
      || (Look(ts, i).FOR? && For(ts, i) == Accept(n))
      || (IsExpression(Look(ts, i)) && Expr(ts, i) == Accept(n))
      || (Look(ts, i).RETURN? && Exit(ts, i) == Accept(n))
  {
    var k := Look(ts, i);
    if k.VAR? {
      assert Bstmt(ts, i) == Vdecl(ts, i);
    } else if k.SET? {
      assert Bstmt(ts, i) == Assign(ts, i);
    } else if k.IF? {
      assert Bstmt(ts, i).Reject? && !IsExpression(k);
    } else if k.WHILE? {
      assert !IsExpression(k);
      assert Bstmt(ts, i) == While(ts, i);
    } else if k.FOR? {
      assert !IsExpression(k);
      assert Bstmt(ts, i) == For(ts, i);
    } else if IsExpression(k) {
      assert !k.RETURN?;
      assert Bstmt(ts, i) == Expr(ts, i);
    } else if k.RETURN? {
      assert Bstmt(ts, i) == Exit(ts, i);
    } else {
      assert Bstmt(ts, i) == Reject("Invalid bstmt", i);
      assert !(Bstmt(ts, i) == Accept(n));
    }
  }

  /**
   * `while_stmt` is never reached: WHILE starts no bstmt, so as a statement
   * it is "Poor sstatement declaration" and where a bstmt is needed it is
   * "Need a bstmt here", both raised at the WHILE itself.
   */
  lemma WhileNeverParsed(ts: seq<Token>, i: nat)
    requires Ready(ts, i) && Look(ts, i).WHILE?
    ensures Stmt(ts, i) == Reject("Poor sstatement declaration", i)
    ensures RequiredBstmt(ts, i) == Reject("Need a bstmt here", i)
    ensures Bstmts(ts, i) == Accept(i)
  {
    FirstSetsNest(WHILE);
  }

  /** IF, an expression, THEN and one bstmt ending at lookahead `m`: the part of `cond` that can succeed. */
  predicate CondHead(ts: seq<Token>, i: nat, m: nat) {
    && Ready(ts, i) && Look(ts, i).IF?
    && var k := RequiredExpr(ts, Next(ts, i));
       k.Accept? && Look(ts, k.at).THEN? && RequiredBstmt(ts, Next(ts, k.at)) == Accept(m)
  }

  /**
   * After the then-bstmt, `cond` raises "Need a conditional tail here"
   * unless the token there is IF; on IF, `condt` is the empty tail and
   * `eat(END)` raises "Expecting END token" at that IF.
   */
  lemma CondTail(ts: seq<Token>, i: nat, m: nat)
    requires CondHead(ts, i, m)
    ensures Cond(ts, i)
         == if Look(ts, m).IF? then Reject("Expecting END token", m) else Reject("Need a conditional tail here", m)
  {
    var k := RequiredExpr(ts, Next(ts, i));
    assert Eat(ts, i, IF, "Expecting IF token") == Accept(Next(ts, i));
    assert Eat(ts, k.at, THEN, "Expecting THEN token") == Accept(Next(ts, k.at));
  }

  /** `vdecls` on anything but VAR raises "Expecting toke VAR" at the lookahead. */
  lemma VdeclsWithoutVar(ts: seq<Token>, i: nat)
    requires Ready(ts, i) && !Look(ts, i).VAR?
    ensures Vdecls(ts, i) == Reject("Expecting toke VAR", i)
  {
  }

  /** An `elif` tail with no expression after `elif` raises "Need an expression here" at the token after it. */
  lemma ElifWithoutExpression(ts: seq<Token>, i: nat)
    requires Ready(ts, i) && i < |ts| && Look(ts, i).ELIF? && !IsExpression(ts[i].kind)
    ensures Condt(ts, i) == Reject("Need an expression here", i + 1)
  {
    assert Eat(ts, i, ELIF, "Expecting ELIF token") == Accept(i + 1);
    assert RequiredExpr(ts, i + 1) == Reject("Need an expression here", i + 1);
  }

  /** An operator after a value is accepted even when no operand follows it: `1 +` is an expression. */
  lemma TrailingOperator(ts: seq<Token>, i: nat)
    requires Ready(ts, i) && i + 2 <= |ts|
    requires IsPval(ts[i - 1].kind) && IsOperator(ts[i].kind) && !IsExpression(ts[i + 1].kind)
    ensures Expr(ts, i) == Accept(i + 2)
  {
  }

  // ----- two token streams -----

  /** The tokens of `var x := 5` on line 1. */
  function DeclarationTokens(): (ts: seq<Token>)
    ensures WellFormed(ts) && |ts| == 5
  {
    [Token(VAR, "var", 1, 0), Token(ID, "x", 1, 4), Token(ASSIGN, ":=", 1, 6),
     Token(INT_VAL, "5", 1, 9), Token(EOS, "", 1, 10)]
  }

  /** The tokens of `x := 5` on line 1: an assignment written without SET. */
  function AssignmentTokens(): (ts: seq<Token>)
    ensures WellFormed(ts) && |ts| == 4
  {
    [Token(ID, "x", 1, 0), Token(ASSIGN, ":=", 1, 2), Token(INT_VAL, "5", 1, 5), Token(EOS, "", 1, 6)]
  }

  /** A literal that no operator follows is a whole expression, one token long. */
  lemma LiteralExpression(ts: seq<Token>, i: nat)
    requires Ready(ts, i) && i < |ts| && IsPval(Look(ts, i)) && !IsOperator(ts[i].kind)
    ensures Expr(ts, i) == Accept(i + 1)
  {
    assert Look(ts, i + 1) == ts[i].kind;
    FirstSetsNest(Look(ts, i));
    assert Operand(ts, i) == Accept(i + 1);
    OperatorThenExpr(ts, i, i + 1);
  }

  /** In `var x := 5`, the literal 5 is an expression that ends before EOS. */
  lemma DeclarationExpression()
    ensures Expr(DeclarationTokens(), 4) == Accept(5)
  {
    var ts := DeclarationTokens();
    assert ts[3].kind.INT_VAL? && ts[4].kind.EOS?;
    LiteralExpression(ts, 4);
  }

  /** `var x := 5` is a single vdecl statement. */
  lemma DeclarationStatement()
    ensures Stmt(DeclarationTokens(), 1) == Accept(5)
  {
    var ts := DeclarationTokens();
    assert ts[0].kind.VAR? && ts[1].kind.ID? && ts[2].kind.ASSIGN? && ts[3].kind.INT_VAL?;
    DeclarationExpression();
    VdeclAccept(ts, 1, 5);
    VdeclStatement(ts, 1, 5);
  }

  /** A vdecl is a statement on its own: `stmt` on VAR returns as `vdecl` does. */
  lemma VdeclStatement(ts: seq<Token>, i: nat, n: nat)
    requires Ready(ts, i) && Look(ts, i).VAR? && Vdecl(ts, i) == Accept(n)
    ensures Stmt(ts, i) == Accept(n)
  {
    assert Bstmt(ts, i) == Vdecl(ts, i);
    assert Stmt(ts, i) == Bstmt(ts, i);
  }

  /** `var x := 5` is a program: the vdecl reads all four tokens before EOS. */
  lemma DeclarationAccepted()
    ensures Program(DeclarationTokens()) == Accept(5)
  {
    var ts := DeclarationTokens();
    DeclarationStatement();
    assert Stmts(ts, 5) == Accept(5);
    assert Stmts(ts, 1) == Accept(5);
  }

  /** In `x := 5`, `idrval` rejects the ID because the `:=` after it is neither DOT nor `(`. */
  lemma AssignmentIdrval()
    ensures Idrval(AssignmentTokens(), 1) == Reject("Invalid right hand side ID", 2)
  {
    var ts := AssignmentTokens();
    assert ts[0].kind.ID? && ts[1].kind.ASSIGN?;
  }

  /** In `x := 5`, the ID is an operand that `idrval` rejects at the `:=`. */
  lemma AssignmentOperand()
    ensures Operand(AssignmentTokens(), 1) == Reject("Invalid right hand side ID", 2)
  {
    AssignmentIdrval();
    assert Rvalue(AssignmentTokens(), 1) == Idrval(AssignmentTokens(), 1);
  }

  /**
   * `x := 5` is not a program: the ID starts an expression, and `idrval`
   * raises its error at the token after the ID, the `:=`.
   */
  lemma AssignmentWithoutSetRejected()
    ensures Program(AssignmentTokens()) == Reject("Invalid right hand side ID", 2)
  {
    var ts := AssignmentTokens();
    AssignmentOperand();
    assert Stmt(ts, 1) == Reject("Invalid right hand side ID", 2);
  }

  /** A fresh parser run on `var x := 5` returns normally. */
  method ParseDeclaration() returns (r: Outcome)
    ensures r == Ok
  {
    DeclarationAccepted();
    var p := new Parser(DeclarationTokens());
    r := p.Parse();
  }

  /** A fresh parser run on `x := 5` raises its error at the `:=`, line 1, column 2. */
  method ParseAssignmentWithoutSet() returns (r: Outcome)
    ensures r == Err(Error("Parser", "Invalid right hand side ID", 1, 2))
  {
    AssignmentWithoutSetRejected();
    var p := new Parser(AssignmentTokens());
    r := p.Parse();
  }
}
