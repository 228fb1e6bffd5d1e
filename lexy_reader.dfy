/** The token values and the quote rule of lexy.py's reader, and what the
    evaluator makes of the atoms they produce. */
module LexyReader {
  import opened Basics
  import opened LexyValues
  import opened LexyEval

  /** `t_BOOL`: `#t` is `True`; the only other lexeme it matches, `#f`, `False`. */
  function BoolToken(lexeme: string): (v: Value)
    requires lexeme == "#t" || lexeme == "#f"
  {
    Bool(lexeme == "#t")
  }

  /** The two boolean literals read as different values, and an `if` whose
      condition is `#t` runs its then branch, one whose condition is `#f` its
      else branch, in the environment it was given. */
  lemma BoolLiteralsChoose(fuel: nat, thenBranch: Value, elseBranch: Value, env: Env)
    ensures BoolToken("#t") != BoolToken("#f")
    ensures Eval(fuel, List([Str("if"), BoolToken("#t"), thenBranch, elseBranch]), env) == Eval(fuel, thenBranch, env)
    ensures Eval(fuel, List([Str("if"), BoolToken("#f"), thenBranch, elseBranch]), env) == Eval(fuel, elseBranch, env)
  {
    IfBranches(fuel, BoolToken("#t"), thenBranch, elseBranch, env);
    IfBranches(fuel, BoolToken("#f"), thenBranch, elseBranch, env);
  }

  /** A lexeme the `STRING` pattern matches: between two double quotes, a
      double quote appears only escaped by a backslash. */
  predicate StringLexeme(lexeme: string)
  {
    && |lexeme| >= 2 && lexeme[0] == '"' && lexeme[|lexeme| - 1] == '"'
    && forall k :: 1 <= k < |lexeme| - 1 && lexeme[k] == '"' ==> lexeme[k - 1] == '\\'
  }

  /** `t_STRING` as written: the value is the text between the quotes. */
  function StringToken(lexeme: string): Value
    requires StringLexeme(lexeme)
  {
    Str(lexeme[1..|lexeme| - 1])
  }

  /** `t_STRING` as the evaluator expects it: the literal with its quotes. */
  function StringTokenKept(lexeme: string): Value
    requires StringLexeme(lexeme)
  {
    Str(lexeme)
  }

  /** `p_expr_quote`: `'e` is read as `(quote e)`. */
  function QuoteForm(e: Value): Value
  {
    List([Str("quote"), e])
  }

  /** Reading `'e` and evaluating it gives back `e` unevaluated. */
  lemma QuoteReadBack(fuel: nat, e: Value, env: Env)
    ensures Eval(fuel, QuoteForm(e), env) == Ok(Evaluated(e, env))
  {
    QuoteUnevaluated(fuel, e, env);
  }

  /** As written, a string literal is never its own value: the quotes are
      gone before `eval_ast` tests for them, so its text is looked up as a
      symbol, and `"hi"` raises `LispError` in the initial environment. */
  lemma StringLiteralLookedUp(fuel: nat, lexeme: string, env: Env)
    requires StringLexeme(lexeme)
    ensures var text := lexeme[1..|lexeme| - 1];
      Eval(fuel, StringToken(lexeme), env) ==
        if Lookup(env, text).Some? then Ok(Evaluated(Lookup(env, text).value, env))
        else Err(Lisp(UnboundSymbol(text)))
    ensures Eval(fuel, StringToken("\"hi\""), InitialEnv()) == Err(Lisp(UnboundSymbol("hi")))
  {
    var text := lexeme[1..|lexeme| - 1];
    if |text| > 0 {
      assert text[0] == lexeme[1];
    }
    assert "\"hi\""[1..3] == "hi";
    assert "hi" !in InitialFrame();
  }

  /** With the quotes kept, every string literal evaluates to itself and
      leaves the environment as it was. */
  lemma StringLiteralKeptSelfEvaluates(fuel: nat, lexeme: string, env: Env)
    requires StringLexeme(lexeme)
    ensures Eval(fuel, StringTokenKept(lexeme), env) == Ok(Evaluated(Str(lexeme), env))
  {
  }
}
