/** `eval_ast` of lexy.py. The `ChainMap` the evaluator receives is threaded
    through as a value: an evaluation returns its result together with the
    environment as the evaluation left it (`define` writes into its first
    frame). `fuel` bounds the nesting of closure calls, where Python would
    raise `RecursionError`. */
module LexyEval {
  import opened Basics
  import opened LexyValues

  datatype Evaluated = Evaluated(value: Value, env: Env)
  datatype EvaluatedList = EvaluatedList(values: seq<Value>, env: Env)

  /** The `local` dict of a `let` once every binding is in, and the
      environment the binding expressions left behind. */
  datatype Bound = Bound(local: map<string, Value>, env: Env)

  /** `env'` differs from `env` in its first frame at most. */
  predicate SameOuter(env: Env, env': Env)
  {
    |env'| == |env| && env'[1..] == env[1..]
  }

  /** Whether a form is the list `(keyword ...)` with `n` elements. */
  predicate IsForm(ast: Value, keyword: string, n: nat)
  {
    ast.List? && n > 0 && |ast.items| == n && ast.items[0] == Str(keyword)
  }

  /** `eval_ast(ast, env)`. Whatever the form, only the first frame of the
      environment can have changed when it returns. */
  function Eval(fuel: nat, ast: Value, env: Env): (r: Result<Evaluated, Failure>)
    ensures r.Ok? ==> SameOuter(env, r.value.env)
    decreases fuel, ast, 3, 0
  {
    match ast
    case Int(_) => Ok(Evaluated(ast, env))
    case Bool(_) => Ok(Evaluated(ast, env))
    case Str(s) =>
      if |s| > 0 && s[0] == '"' then Ok(Evaluated(ast, env))
      else if Lookup(env, s).Some? then Ok(Evaluated(Lookup(env, s).value, env))
      else Err(Lisp(UnboundSymbol(s)))
    case List(items) =>
      if items == [] then Ok(Evaluated(List([]), env)) else EvalForm(fuel, ast, env)
    case _ => Err(Unmodelled)
  }

  /** A non-empty list: a special form when its head is one of the five
      keywords, otherwise an application. A special form with the wrong
      number of parts fails to unpack (`ValueError`). */
  function EvalForm(fuel: nat, ast: Value, env: Env): (r: Result<Evaluated, Failure>)
    requires ast.List? && ast.items != []
    ensures r.Ok? ==> SameOuter(env, r.value.env)
    decreases fuel, ast, 2, 0
  {
    var items := ast.items;
    var head := items[0];
    if head == Str("quote") then
      (if |items| < 2 then Err(IndexError) else Ok(Evaluated(items[1], env)))
    else if head == Str("if") then
      (if |items| != 4 then Err(ValueError)
       else match Eval(fuel, items[1], env)
         case Err(f) => Err(f)
         case Ok(c) => if Truthy(c.value) then Eval(fuel, items[2], c.env) else Eval(fuel, items[3], c.env))
    else if head == Str("lambda") then
      (if |items| != 3 then Err(ValueError) else Ok(Evaluated(Closure(items[1], items[2], env[0]), env)))
    else if head == Str("let") then
      (if |items| != 3 then Err(ValueError) else EvalLet(fuel, ast, env))
    else if head == Str("define") then
      (if |items| != 3 then Err(ValueError) else EvalDefine(fuel, ast, env))
    else EvalApplication(fuel, ast, env)
  }

  /** `(let bindings body)`: the body runs with the `local` frame in front of
      the environment, and that frame is dropped again afterwards. */
  function EvalLet(fuel: nat, ast: Value, env: Env): (r: Result<Evaluated, Failure>)
    requires ast.List? && |ast.items| == 3
    ensures r.Ok? ==> SameOuter(env, r.value.env)
    decreases fuel, ast, 1, 0
  {
    match ast.items[1]
    case List(_) =>
      (match EvalBindings(fuel, ast, 0, map[], env)
       case Err(f) => Err(f)
       case Ok(b) =>
         match Eval(fuel, ast.items[2], [b.local] + b.env)
         case Err(f) => Err(f)
         case Ok(r) => Ok(Evaluated(r.value, r.env[1..])))
    case Str(_) => Err(Unmodelled)           // iterating over the characters
    case Closure(_, _, _) => Err(Unmodelled) // iterating over the tuple
    case _ => Err(TypeError)                 // not iterable
  }

  /** The loop over the bindings from the `i`-th on: each expression is
      evaluated in the environment of the `let` itself, never in `local`. */
  function EvalBindings(fuel: nat, ast: Value, i: nat, local: map<string, Value>, env: Env)
    : (r: Result<Bound, Failure>)
    requires ast.List? && |ast.items| == 3 && ast.items[1].List? && i <= |ast.items[1].items|
    ensures r.Ok? ==> SameOuter(env, r.value.env)
    decreases fuel, ast, 0, |ast.items[1].items| - i
  {
    var bindings := ast.items[1].items;
    if i == |bindings| then Ok(Bound(local, env))
    else
      match bindings[i]
      case List(parts) =>
        if |parts| < 2 then Err(IndexError)
        else
          (match Eval(fuel, parts[1], env)
           case Err(f) => Err(f)
           case Ok(v) =>
             if parts[0].Str? then EvalBindings(fuel, ast, i + 1, local[parts[0].s := v.value], v.env)
             else if parts[0].List? || parts[0].Closure? then Err(TypeError)  // unhashable key
             else Err(Unmodelled))                                           // a non-string key
      case Str(_) => Err(Unmodelled)           // indexing a string
      case Closure(_, _, _) => Err(Unmodelled) // indexing the tuple
      case _ => Err(TypeError)                 // not subscriptable
  }

  /** `(define name expr)`: the value is written into the first frame. */
  function EvalDefine(fuel: nat, ast: Value, env: Env): (r: Result<Evaluated, Failure>)
    requires ast.List? && |ast.items| == 3
    ensures r.Ok? ==> SameOuter(env, r.value.env)
    decreases fuel, ast, 1, 0
  {
    match Eval(fuel, ast.items[2], env)
    case Err(f) => Err(f)
    case Ok(v) =>
      match ast.items[1]
      case Str(name) => Ok(Evaluated(v.value, v.env[0 := v.env[0][name := v.value]]))
      case List(_) => Err(TypeError)
      case Closure(_, _, _) => Err(TypeError)
      case _ => Err(Unmodelled)
  }

  /** An application: the head, then the arguments left to right, then a
      primitive is called, a closure's body evaluated with the parameters
      bound in front of its captured frame, and anything else refused. */
  function EvalApplication(fuel: nat, ast: Value, env: Env): (r: Result<Evaluated, Failure>)
    requires ast.List? && ast.items != []
    ensures r.Ok? ==> SameOuter(env, r.value.env)
    decreases fuel, ast, 1, 0
  {
    match Eval(fuel, ast.items[0], env)
    case Err(f) => Err(f)
    case Ok(op) =>
      match EvalArgs(fuel, ast, 1, [], op.env)
      case Err(f) => Err(f)
      case Ok(args) =>
        match op.value
        case Prim(p) =>
          (match ApplyPrimitive(p, args.values)
           case Err(f) => Err(f)
           case Ok(v) => Ok(Evaluated(v, args.env)))
        case Closure(params, body, captured) =>
          (match BindParams(params, args.values)
           case Err(f) => Err(f)
           case Ok(frame) =>
             if fuel == 0 then Err(RecursionLimit)
             else
               match Eval(fuel - 1, body, [frame, captured])
               case Err(f) => Err(f)
               case Ok(v) => Ok(Evaluated(v.value, args.env)))
        case _ => Err(Lisp(NotAFunction(op.value)))
  }

  /** `[eval_ast(arg, env) for arg in ast[1:]]`, from the `i`-th element on. */
  function EvalArgs(fuel: nat, ast: Value, i: nat, done: seq<Value>, env: Env)
    : (r: Result<EvaluatedList, Failure>)
    requires ast.List? && i <= |ast.items|
    ensures r.Ok? ==> SameOuter(env, r.value.env)
    decreases fuel, ast, 0, |ast.items| - i
  {
    if i == |ast.items| then Ok(EvaluatedList(done, env))
    else
      match Eval(fuel, ast.items[i], env)
      case Err(f) => Err(f)
      case Ok(v) => EvalArgs(fuel, ast, i + 1, done + [v.value], v.env)
  }

  // ---------------------------------------------------------------------
  // Binding the parameters of a closure

  /** `dict(zip(names, values))`: later duplicates overwrite earlier ones. */
  function ZipFrame(names: seq<string>, values: seq<Value>): map<string, Value>
    requires |names| == |values|
  {
    if names == [] then map[]
    else ZipFrame(names[..|names| - 1], values[..|values| - 1])[names[|names| - 1] := values[|values| - 1]]
  }

  /** The names of a list of symbols. */
  function ParamNames(ps: seq<Value>): (names: seq<string>)
    requires forall k :: 0 <= k < |ps| ==> ps[k].Str?
    ensures |names| == |ps| && forall k :: 0 <= k < |ps| ==> names[k] == ps[k].s
  {
    seq(|ps|, k requires 0 <= k < |ps| => ps[k].s)
  }

  /** The closure's parameter check and frame: `len(params) != len(args)` is
      a `LispError`; a string of parameters is zipped character by
      character, as Python iterates it. */
  function BindParams(params: Value, args: seq<Value>): Result<map<string, Value>, Failure>
  {
    match params
    case List(ps) =>
      if |ps| != |args| then Err(Lisp(WrongArgCount))
      else if forall k :: 0 <= k < |ps| ==> ps[k].Str? then Ok(ZipFrame(ParamNames(ps), args))
      else Err(Unmodelled)
    case Str(s) =>
      if |s| != |args| then Err(Lisp(WrongArgCount))
      else Ok(ZipFrame(seq(|s|, k requires 0 <= k < |s| => [s[k]]), args))
    case Closure(_, _, _) => Err(Unmodelled)
    case _ => Err(TypeError)
  }

  /** The frame binds exactly the parameter names. */
  lemma {:induction false} ZipFrameKeys(names: seq<string>, values: seq<Value>)
    requires |names| == |values|
    ensures forall x :: x in ZipFrame(names, values) <==> x in names
  {
    if names != [] {
      var n := |names| - 1;
      ZipFrameKeys(names[..n], values[..n]);
      assert names == names[..n] + [names[n]];
    }
  }

  /** Each name is bound to the argument at its last occurrence. */
  lemma {:induction false} ZipFrameValues(names: seq<string>, values: seq<Value>)
    requires |names| == |values|
    ensures forall k :: 0 <= k < |names| && (forall j :: k < j < |names| ==> names[j] != names[k]) ==>
      names[k] in ZipFrame(names, values) && ZipFrame(names, values)[names[k]] == values[k]
  {
    if names != [] {
      var n := |names| - 1;
      ZipFrameValues(names[..n], values[..n]);
      forall k | 0 <= k < |names| && (forall j :: k < j < |names| ==> names[j] != names[k])
        ensures names[k] in ZipFrame(names, values) && ZipFrame(names, values)[names[k]] == values[k]
      {
        if k < n {
          assert names[..n][k] == names[k] && values[..n][k] == values[k];
          assert forall j :: k < j < n ==> names[..n][j] == names[j];
        }
      }
    }
  }

  /** A list of parameters is checked against the number of arguments, and
      distinct names are each bound to their own argument. */
  lemma BindParamsBinds(ps: seq<Value>, args: seq<Value>)
    requires forall k :: 0 <= k < |ps| ==> ps[k].Str?
    ensures BindParams(List(ps), args) == Err(Lisp(WrongArgCount)) <==> |ps| != |args|
    ensures |ps| == |args| ==> BindParams(List(ps), args).Ok?
    ensures |ps| == |args| ==> forall x :: x in BindParams(List(ps), args).value <==> Str(x) in ps
    ensures |ps| == |args| && (forall j, k :: 0 <= j < k < |ps| ==> ps[j] != ps[k]) ==>
      forall k :: 0 <= k < |ps| ==> BindParams(List(ps), args).value[ps[k].s] == args[k]
  {
    if |ps| == |args| {
      var names := ParamNames(ps);
      ZipFrameKeys(names, args);
      ZipFrameValues(names, args);
      assert forall x :: x in names <==> Str(x) in ps by {
        forall x
          ensures x in names <==> Str(x) in ps
        {
          if Str(x) in ps {
            var k :| 0 <= k < |ps| && ps[k] == Str(x);
            assert names[k] == x;
          }
        }
      }
    }
  }

  // ---------------------------------------------------------------------
  // Properties of the evaluator

  /** The five words that make a list a special form. */
  predicate IsKeyword(v: Value)
  {
    v == Str("quote") || v == Str("if") || v == Str("lambda") || v == Str("let") || v == Str("define")
  }

  /** Numbers, booleans and strings that begin with a double quote are
      their own value; any other string is a symbol, found when some frame
      binds it (the first such frame giving its value) and otherwise a
      `LispError`. */
  lemma Atoms(fuel: nat, ast: Value, env: Env)
    requires ast.Int? || ast.Bool? || ast.Str?
    ensures ast.Int? || ast.Bool? || (ast.Str? && |ast.s| > 0 && ast.s[0] == '"') ==>
      Eval(fuel, ast, env) == Ok(Evaluated(ast, env))
    ensures ast.Str? && !(|ast.s| > 0 && ast.s[0] == '"') ==>
      && (Eval(fuel, ast, env).Ok? <==> exists i :: 0 <= i < |env| && ast.s in env[i])
      && (Eval(fuel, ast, env).Err? ==> Eval(fuel, ast, env).error == Lisp(UnboundSymbol(ast.s)))
      && (Eval(fuel, ast, env).Ok? ==>
            exists i :: (0 <= i < |env| && ast.s in env[i] && Eval(fuel, ast, env).value.value == env[i][ast.s]
              && forall j :: 0 <= j < i ==> ast.s !in env[j]))
  {
    if ast.Str? {
      LookupFirst(env, ast.s);
    }
  }

  /** `(quote x)` is `x` itself, unevaluated, and the environment is untouched. */
  lemma QuoteUnevaluated(fuel: nat, x: Value, env: Env)
    ensures Eval(fuel, List([Str("quote"), x]), env) == Ok(Evaluated(x, env))
  {
  }

  /** `if` takes its else branch for `False` and `[]` alone, in the
      environment the condition left. */
  lemma IfBranches(fuel: nat, cond: Value, thenBranch: Value, elseBranch: Value, env: Env)
    requires Eval(fuel, cond, env).Ok?
    ensures var c := Eval(fuel, cond, env).value;
      Eval(fuel, List([Str("if"), cond, thenBranch, elseBranch]), env)
        == if Truthy(c.value) then Eval(fuel, thenBranch, c.env) else Eval(fuel, elseBranch, c.env)
  {
    var ast := List([Str("if"), cond, thenBranch, elseBranch]);
    assert ast.items[1] == cond && ast.items[2] == thenBranch && ast.items[3] == elseBranch;
    assert Eval(fuel, ast, env) == EvalForm(fuel, ast, env);
  }

  /** `if`'s test and Python's `not`, which `car` and `cdr` use, disagree
      exactly on zero and the empty string: both count as true for `if`. */
  lemma IfTestAgainstNot(v: Value)
    ensures Truthy(v) == !Falsy(v) <==> v != Int(0) && v != Str("")
  {
  }

  /** The bindings of a `let` are all evaluated in the environment outside
      it: what earlier bindings put into `local` changes neither their
      values nor whether they fail, and is overridden by later bindings of
      the same name. */
  lemma {:induction false} BindingsIgnoreLocal(fuel: nat, ast: Value, i: nat, local: map<string, Value>, env: Env)
    requires ast.List? && |ast.items| == 3 && ast.items[1].List? && i <= |ast.items[1].items|
    ensures EvalBindings(fuel, ast, i, local, env) ==
      match EvalBindings(fuel, ast, i, map[], env)
      case Ok(b) => Ok(Bound(local + b.local, b.env))
      case Err(f) => Err(f)
    decreases |ast.items[1].items| - i
  {
    var bindings := ast.items[1].items;
    if i == |bindings| {
      assert local + map[] == local;
    } else if bindings[i].List? && |bindings[i].items| >= 2 && bindings[i].items[0].Str? {
      var parts := bindings[i].items;
      var name := parts[0].s;
      var e := Eval(fuel, parts[1], env);
      if e.Ok? {
        var v := e.value.value;
        BindingsIgnoreLocal(fuel, ast, i + 1, local[name := v], e.value.env);
        BindingsIgnoreLocal(fuel, ast, i + 1, map[name := v], e.value.env);
        var rest := EvalBindings(fuel, ast, i + 1, map[], e.value.env);
        if rest.Ok? {
          assert local[name := v] + rest.value.local == local + (map[name := v] + rest.value.local);
        }
      }
    }
  }

  /** A `let` hands back the environment its binding expressions left:
      whatever its body defines stays in the dropped `local` frame. */
  lemma LetLeavesNoBinding(fuel: nat, ast: Value, env: Env)
    requires IsForm(ast, "let", 3) && ast.items[1].List?
    requires Eval(fuel, ast, env).Ok?
    ensures EvalBindings(fuel, ast, 0, map[], env).Ok?
    ensures Eval(fuel, ast, env).value.env == EvalBindings(fuel, ast, 0, map[], env).value.env
  {
    assert Eval(fuel, ast, env) == EvalForm(fuel, ast, env) == EvalLet(fuel, ast, env);
  }

  /** `(define name expr)` returns the value of `expr` and binds `name` to
      it in the first frame, where every later lookup finds it. */
  lemma DefineBinds(fuel: nat, name: string, expr: Value, env: Env)
    requires Eval(fuel, List([Str("define"), Str(name), expr]), env).Ok?
    ensures Eval(fuel, expr, env).Ok?
    ensures var r := Eval(fuel, List([Str("define"), Str(name), expr]), env).value;
      var e := Eval(fuel, expr, env).value;
      && r.value == e.value
      && r.env[0] == e.env[0][name := e.value]
      && Lookup(r.env, name) == Some(e.value)
  {
    var ast := List([Str("define"), Str(name), expr]);
    assert Eval(fuel, ast, env) == EvalForm(fuel, ast, env) == EvalDefine(fuel, ast, env);
  }

  /** `[eval_ast(arg, env) for arg in ...]` has one value per argument. */
  lemma {:induction false} EvalArgsLength(fuel: nat, ast: Value, i: nat, done: seq<Value>, env: Env)
    requires ast.List? && i <= |ast.items|
    requires EvalArgs(fuel, ast, i, done, env).Ok?
    ensures |EvalArgs(fuel, ast, i, done, env).value.values| == |done| + |ast.items| - i
    decreases |ast.items| - i
  {
    if i < |ast.items| {
      var e := Eval(fuel, ast.items[i], env);
      EvalArgsLength(fuel, ast, i + 1, done + [e.value.value], e.value.env);
    }
  }

  /** An application whose head evaluates to a closure with a list of
      parameters, and whose arguments evaluate, raises `LispError` exactly
      when the counts differ. */
  lemma ClosureArity(fuel: nat, ast: Value, env: Env)
    requires ast.List? && ast.items != [] && !IsKeyword(ast.items[0])
    requires Eval(fuel, ast.items[0], env).Ok?
    requires var op := Eval(fuel, ast.items[0], env).value;
      op.value.Closure? && op.value.params.List? && EvalArgs(fuel, ast, 1, [], op.env).Ok?
    ensures var op := Eval(fuel, ast.items[0], env).value;
      var args := EvalArgs(fuel, ast, 1, [], op.env).value;
      && |args.values| == |ast.items| - 1
      && (|op.value.params.items| != |args.values| ==> Eval(fuel, ast, env) == Err(Lisp(WrongArgCount)))
      && (|op.value.params.items| == |args.values| && BindParams(op.value.params, args.values).Ok? ==>
            Eval(fuel, ast, env) ==
              if fuel == 0 then Err(RecursionLimit)
              else match Eval(fuel - 1, op.value.body, [BindParams(op.value.params, args.values).value, op.value.captured])
                case Err(f) => Err(f)
                case Ok(v) => Ok(Evaluated(v.value, args.env)))
  {
    var op := Eval(fuel, ast.items[0], env).value;
    EvalArgsLength(fuel, ast, 1, [], op.env);
    assert Eval(fuel, ast, env) == EvalForm(fuel, ast, env) == EvalApplication(fuel, ast, env);
  }

  /** Applying anything that is neither a primitive nor a closure raises
      `LispError`, once the head and the arguments have been evaluated. */
  lemma NotAFunctionRefused(fuel: nat, ast: Value, env: Env)
    requires ast.List? && ast.items != [] && !IsKeyword(ast.items[0])
    requires Eval(fuel, ast.items[0], env).Ok?
    requires var op := Eval(fuel, ast.items[0], env).value;
      !op.value.Prim? && !op.value.Closure? && EvalArgs(fuel, ast, 1, [], op.env).Ok?
    ensures Eval(fuel, ast, env) == Err(Lisp(NotAFunction(Eval(fuel, ast.items[0], env).value.value)))
  {
    assert Eval(fuel, ast, env) == EvalForm(fuel, ast, env) == EvalApplication(fuel, ast, env);
  }

  /** A closure keeps a copy of the innermost frame only. One made inside a
      `let` sees the `let`'s bindings but no longer the primitives:
      `(let ((x 1)) ((lambda (y) (+ x y)) 2))` cannot find `+`. */
  lemma LetClosureLosesGlobals(fuel: nat)
    requires fuel >= 1
    ensures var body := List([Str("+"), Str("x"), Str("y")]);
      var lambda := List([Str("lambda"), List([Str("y")]), body]);
      var ast := List([Str("let"), List([List([Str("x"), Int(1)])]), List([lambda, Int(2)])]);
      Eval(fuel, ast, InitialEnv()) == Err(Lisp(UnboundSymbol("+")))
  {
    var body := List([Str("+"), Str("x"), Str("y")]);
    var lambda := List([Str("lambda"), List([Str("y")]), body]);
    var call := List([lambda, Int(2)]);
    var ast := List([Str("let"), List([List([Str("x"), Int(1)])]), call]);
    var inner: Env := [map["x" := Int(1)]] + InitialEnv();
    assert EvalBindings(fuel, ast, 1, map["x" := Int(1)], InitialEnv()) == Ok(Bound(map["x" := Int(1)], InitialEnv()));
    assert EvalBindings(fuel, ast, 0, map[], InitialEnv()) == Ok(Bound(map["x" := Int(1)], InitialEnv()));
    LambdaCallInLet(fuel, inner);
    assert Eval(fuel, ast, InitialEnv()) == EvalForm(fuel, ast, InitialEnv()) == EvalLet(fuel, ast, InitialEnv());
  }

  /** The application inside that `let`, in the environment the `let` builds. */
  lemma LambdaCallInLet(fuel: nat, inner: Env)
    requires fuel >= 1 && inner[0] == map["x" := Int(1)]
    ensures var body := List([Str("+"), Str("x"), Str("y")]);
      var lambda := List([Str("lambda"), List([Str("y")]), body]);
      Eval(fuel, List([lambda, Int(2)]), inner) == Err(Lisp(UnboundSymbol("+")))
  {
    var body := List([Str("+"), Str("x"), Str("y")]);
    var lambda := List([Str("lambda"), List([Str("y")]), body]);
    var call := List([lambda, Int(2)]);
    assert Eval(fuel, lambda, inner) == Ok(Evaluated(Closure(List([Str("y")]), body, map["x" := Int(1)]), inner));
    CallOneParameter(fuel, call, inner, "y", body, map["x" := Int(1)]);
    var callee: Env := [map["y" := Int(2)], map["x" := Int(1)]];
    assert Lookup(callee, "+") == None;
    UnboundHead(fuel - 1, body, callee);
  }

  /** `(head n)` where the head evaluates, without touching the environment,
      to a closure of one parameter: its body with the parameter bound to `n`. */
  lemma CallOneParameter(fuel: nat, call: Value, env: Env, name: string, body: Value, captured: map<string, Value>)
    requires fuel >= 1
    requires call.List? && |call.items| == 2 && !IsKeyword(call.items[0]) && call.items[1].Int?
    requires Eval(fuel, call.items[0], env) == Ok(Evaluated(Closure(List([Str(name)]), body, captured), env))
    ensures Eval(fuel, call, env) ==
      match Eval(fuel - 1, body, [map[name := call.items[1]], captured])
      case Err(f) => Err(f)
      case Ok(v) => Ok(Evaluated(v.value, env))
  {
    OneNumberArgument(fuel, call, env);
    BindOne(name, call.items[1]);
    assert Eval(fuel, call, env) == EvalForm(fuel, call, env) == EvalApplication(fuel, call, env);
  }

  /** A closure's copy is taken before `define` binds its name, so a
      function defined with `define` cannot call itself:
      after `(define f (lambda (n) (f n)))`, `(f 1)` cannot find `f`. */
  lemma DefinedClosureCannotRecurse(fuel: nat)
    requires fuel >= 1
    ensures var body := List([Str("f"), Str("n")]);
      var define := List([Str("define"), Str("f"), List([Str("lambda"), List([Str("n")]), body])]);
      && Eval(fuel, define, InitialEnv()).Ok?
      && Eval(fuel, List([Str("f"), Int(1)]), Eval(fuel, define, InitialEnv()).value.env)
         == Err(Lisp(UnboundSymbol("f")))
  {
    var body := List([Str("f"), Str("n")]);
    var define := List([Str("define"), Str("f"), List([Str("lambda"), List([Str("n")]), body])]);
    var closure := Closure(List([Str("n")]), body, InitialFrame());
    DefineSnapshot(fuel, define, closure);
    SelfCallUnbound(fuel, closure, [InitialFrame()["f" := closure]]);
  }

  /** The call `(f 1)` once `f` is bound to that closure. */
  lemma SelfCallUnbound(fuel: nat, closure: Value, env1: Env)
    requires fuel >= 1
    requires closure == Closure(List([Str("n")]), List([Str("f"), Str("n")]), InitialFrame())
    requires env1 == [InitialFrame()["f" := closure]]
    ensures Eval(fuel, List([Str("f"), Int(1)]), env1) == Err(Lisp(UnboundSymbol("f")))
  {
    var body := List([Str("f"), Str("n")]);
    var call := List([Str("f"), Int(1)]);
    assert Eval(fuel, Str("f"), env1) == Ok(Evaluated(closure, env1));
    CallOneParameter(fuel, call, env1, "n", body, InitialFrame());
    var callee: Env := [map["n" := Int(1)], InitialFrame()];
    assert "f" !in InitialFrame();
    assert Lookup(callee, "f") == None;
    UnboundHead(fuel - 1, body, callee);
  }


  /** The `define` of that example binds `f` to a closure over the initial frame. */
  lemma DefineSnapshot(fuel: nat, define: Value, closure: Value)
    requires var body := List([Str("f"), Str("n")]);
      && define == List([Str("define"), Str("f"), List([Str("lambda"), List([Str("n")]), body])])
      && closure == Closure(List([Str("n")]), body, InitialFrame())
    ensures Eval(fuel, define, InitialEnv()) == Ok(Evaluated(closure, [InitialFrame()["f" := closure]]))
  {
    var env1: Env := [InitialFrame()["f" := closure]];
    assert Eval(fuel, define.items[2], InitialEnv()) == Ok(Evaluated(closure, InitialEnv()));
    assert Eval(fuel, define, InitialEnv()) == EvalForm(fuel, define, InitialEnv()) == EvalDefine(fuel, define, InitialEnv());
    assert InitialEnv()[0 := InitialEnv()[0]["f" := closure]] == env1;
  }

  /** The argument list of `(head n)` is the number alone. */
  lemma OneNumberArgument(fuel: nat, call: Value, env: Env)
    requires call.List? && |call.items| == 2 && call.items[1].Int?
    ensures EvalArgs(fuel, call, 1, [], env) == Ok(EvaluatedList([call.items[1]], env))
  {
    assert EvalArgs(fuel, call, 2, [call.items[1]], env) == Ok(EvaluatedList([call.items[1]], env));
    assert [] + [call.items[1]] == [call.items[1]];
  }

  /** An application whose head is a symbol no frame binds fails on it. */
  lemma UnboundHead(fuel: nat, ast: Value, env: Env)
    requires ast.List? && ast.items != [] && ast.items[0].Str? && !IsKeyword(ast.items[0])
    requires var h := ast.items[0].s; !(|h| > 0 && h[0] == '"') && Lookup(env, h) == None
    ensures Eval(fuel, ast, env) == Err(Lisp(UnboundSymbol(ast.items[0].s)))
  {
    assert Eval(fuel, ast.items[0], env) == Err(Lisp(UnboundSymbol(ast.items[0].s)));
    assert Eval(fuel, ast, env) == EvalForm(fuel, ast, env) == EvalApplication(fuel, ast, env);
  }

  lemma BindOne(name: string, arg: Value)
    ensures BindParams(List([Str(name)]), [arg]) == Ok(map[name := arg])
  {
    var ps := [Str(name)];
    assert forall k :: 0 <= k < |ps| ==> ps[k].Str?;
    var names := ParamNames(ps);
    assert names == [name] && names[..0] == [] && [arg][..0] == [];
    assert ZipFrame(names, [arg]) == ZipFrame([], [])[name := arg];
    assert BindParams(List(ps), [arg]) == Ok(ZipFrame(names, [arg]));
    assert ZipFrame([], []) == map[];
  }

  // ---------------------------------------------------------------------
  // The imperative parts of `eval_ast`

  /** The `let` branch as the source runs it: a loop that fills `local`,
      then the body in a `ChainMap` with `local` in front. */
  method LetLoop(fuel: nat, ast: Value, env: Env) returns (r: Result<Evaluated, Failure>)
    requires ast.List? && |ast.items| == 3
    ensures r == EvalLet(fuel, ast, env)
  {
    if !ast.items[1].List? {
      return if ast.items[1].Str? || ast.items[1].Closure? then Err(Unmodelled) else Err(TypeError);
    }
    var bindings := ast.items[1].items;
    var local: map<string, Value> := map[];
    var current := env;
    var i := 0;
    while i < |bindings|
      invariant 0 <= i <= |bindings|
      invariant EvalBindings(fuel, ast, i, local, current) == EvalBindings(fuel, ast, 0, map[], env)
    {
      var bind := bindings[i];
      if !bind.List? {
        return if bind.Str? || bind.Closure? then Err(Unmodelled) else Err(TypeError);
      }
      if |bind.items| < 2 {
        return Err(IndexError);
      }
      var e := Eval(fuel, bind.items[1], current);
      if e.Err? {
        return Err(e.error);
      }
      var name := bind.items[0];
      if !name.Str? {
        return if name.List? || name.Closure? then Err(TypeError) else Err(Unmodelled);
      }
      local := local[name.s := e.value.value];
      current := e.value.env;
      i := i + 1;
    }
    var b := Eval(fuel, ast.items[2], [local] + current);
    if b.Err? {
      return Err(b.error);
    }
    r := Ok(Evaluated(b.value.value, b.value.env[1..]));
  }

  /** The `ChainMap` object `eval_ast` receives, whose first frame `define`
      writes into. */
  class ChainMap {
    var maps: Env

    constructor(frames: Env)
      ensures maps == frames
    {
      maps := frames;
    }

    /** `env.maps[0][name] = val`: the name is then found with that value. */
    method Define(name: string, val: Value)
      modifies this
      ensures maps == old(maps)[0 := old(maps)[0][name := val]]
      ensures Lookup(maps, name) == Some(val)
    {
      maps := maps[0 := maps[0][name := val]];
    }

    /** `eval_ast(ast, self)`: the result, with the object left as the
        evaluation leaves the environment. */
    method Evaluate(fuel: nat, ast: Value) returns (r: Result<Value, Failure>)
      modifies this
      ensures match Eval(fuel, ast, old(maps))
        case Ok(e) => r == Ok(e.value) && maps == e.env
        case Err(f) => r == Err(f) && maps == old(maps)
    {
      var e := Eval(fuel, ast, maps);
      if e.Err? {
        return Err(e.error);
      }
      maps := e.value.env;
      r := Ok(e.value.value);
    }
  }
}
