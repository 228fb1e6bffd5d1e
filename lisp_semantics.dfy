/** Semantic analysis of Parte_2/codigo_intermediario.py: the function table
    built from the top-level `defun` forms, and the structural type inference
    that appends every error it finds to one shared list. */
module Semantics {
  import opened Basics
  import opened LispAst

  datatype FunInfo = FunInfo(params: seq<string>, body: Node)

  /** A Python dict from function names to their definitions: the keys in
      insertion order, and the entries. */
  datatype FunTable = FunTable(keys: seq<string>, entries: map<string, FunInfo>)

  predicate Distinct(s: seq<string>)
  {
    forall i, j :: 0 <= i < j < |s| ==> s[i] != s[j]
  }

  /** A dict lists each of its keys exactly once. */
  ghost predicate ValidTable(t: FunTable)
  {
    && Distinct(t.keys)
    && (forall k :: k in t.entries <==> k in t.keys)
  }

  /** `funcs[name] = info`: a new key goes to the end, an existing key keeps
      its place and gets the new value. */
  function Store(t: FunTable, name: string, info: FunInfo): (r: FunTable)
    requires ValidTable(t)
    ensures ValidTable(r)
    ensures r.entries == t.entries[name := info]
  {
    if name in t.entries then FunTable(t.keys, t.entries[name := info])
    else FunTable(t.keys + [name], t.entries[name := info])
  }

  /** The top-level form at index `i` defines `name`. */
  predicate DefinesAt(ast: seq<Node>, i: int, name: string)
  {
    0 <= i < |ast| && ast[i].Defun? && ast[i].name == name
  }

  /** The table `collect_defuns` builds from the first `|ast|` top-level forms. */
  function DefunTable(ast: seq<Node>): (t: FunTable)
    ensures ValidTable(t)
  {
    if ast == [] then FunTable([], map[])
    else
      var t := DefunTable(ast[..|ast| - 1]);
      var node := ast[|ast| - 1];
      if node.Defun? then Store(t, node.name, FunInfo(node.params, node.body)) else t
  }

  /** `collect_defuns`: walk the top-level forms and store every `defun`. */
  method CollectDefuns(ast: seq<Node>) returns (funcs: FunTable)
    ensures funcs == DefunTable(ast)
  {
    funcs := FunTable([], map[]);
    var i := 0;
    while i < |ast|
      invariant 0 <= i <= |ast|
      invariant funcs == DefunTable(ast[..i])
    {
      var node := ast[i];
      assert ast[..i + 1][..i] == ast[..i];
      if node.Defun? {
        funcs := Store(funcs, node.name, FunInfo(node.params, node.body));
      }
      i := i + 1;
    }
    assert ast[..i] == ast;
  }

  /** The table has an entry for exactly the names some top-level `defun`
      defines, and the entry is that of the last such `defun`. */
  lemma {:induction false} DefunTableEntries(ast: seq<Node>, name: string)
    ensures name in DefunTable(ast).entries <==> exists i :: DefinesAt(ast, i, name)
    ensures forall i :: DefinesAt(ast, i, name) && (forall j :: i < j < |ast| ==> !DefinesAt(ast, j, name)) ==>
      DefunTable(ast).entries[name] == FunInfo(ast[i].params, ast[i].body)
  {
    if ast != [] {
      var n := |ast| - 1;
      var prefix := ast[..n];
      DefunTableEntries(prefix, name);
      assert forall i :: DefinesAt(prefix, i, name) <==> DefinesAt(ast, i, name) && i < n;
      if DefinesAt(ast, n, name) {
        assert DefunTable(ast).entries == DefunTable(prefix).entries[name := FunInfo(ast[n].params, ast[n].body)];
      } else {
        assert name in DefunTable(ast).entries <==> name in DefunTable(prefix).entries;
        assert name in DefunTable(ast).entries ==> DefunTable(ast).entries[name] == DefunTable(prefix).entries[name];
      }
    }
  }

  /** Every entry of the table is the definition of some top-level `defun`. */
  lemma DefunTableProvenance(ast: seq<Node>, name: string)
    requires name in DefunTable(ast).entries
    ensures exists i :: DefinesAt(ast, i, name) && DefunTable(ast).entries[name] == FunInfo(ast[i].params, ast[i].body)
  {
    DefunTableEntries(ast, name);
    var i :| DefinesAt(ast, i, name);
    while exists j :: i < j < |ast| && DefinesAt(ast, j, name)
      invariant DefinesAt(ast, i, name)
      decreases |ast| - i
    {
      var j :| i < j < |ast| && DefinesAt(ast, j, name);
      i := j;
    }
  }

  /** The names `p_program` reports as duplicated: each key that occurs more
      than once among the table's keys. */
  function Duplicates(keys: seq<string>, all: seq<string>): (d: seq<string>)
    ensures forall x :: x in d ==> x in keys && multiset(all)[x] > 1
  {
    if keys == [] then []
    else
      var rest := Duplicates(keys[..|keys| - 1], all);
      var k := keys[|keys| - 1];
      if multiset(all)[k] > 1 then rest + [k] else rest
  }

  lemma {:induction false} DistinctCountsOnce(s: seq<string>, x: string)
    requires Distinct(s)
    requires x in s
    ensures multiset(s)[x] == 1
  {
    var last := s[|s| - 1];
    var prefix := s[..|s| - 1];
    assert s == prefix + [last];
    assert Distinct(prefix);
    if x == last {
      assert x !in prefix;
    } else {
      DistinctCountsOnce(prefix, x);
    }
  }

  /** A dict's keys are unique, so the duplicate check finds nothing. */
  lemma NoDuplicates(t: FunTable)
    requires ValidTable(t)
    ensures Duplicates(t.keys, t.keys) == []
  {
    if Duplicates(t.keys, t.keys) != [] {
      var x := Duplicates(t.keys, t.keys)[0];
      DistinctCountsOnce(t.keys, x);
    }
  }

  // ---------------------------------------------------------------------
  // Types and errors

  /** The three-valued type lattice: `any` is the unknown, universal type. */
  datatype Ty = NumberTy | ListTy | AnyTy

  type TypeEnv = map<string, Ty>

  /** The type is `number` or `any`: an arithmetic operand may have it. */
  predicate MaybeNumber(t: Ty)
  {
    t == NumberTy || t == AnyTy
  }

  /** The type is `list` or `any`: a `car`/`cdr` argument may have it. */
  predicate MaybeList(t: Ty)
  {
    t == ListTy || t == AnyTy
  }

  /** One semantic error, carrying the data its message is built from. */
  datatype SemError =
    | DuplicateFunction(name: string)
    | UndeclaredVariable(name: string)
    | ArityMismatch(name: string, expected: nat, got: nat)
    | ArithArity(op: string, got: nat)
    | ArithOperand(op: string, position: nat)
    | ComparisonArity(op: string)
    | ConsArity
    | CarArity
    | CarType
    | CdrArity
    | CdrType
    | EqArity
    | UndefinedFunction(name: string)
    | InvalidOperator

  /** The errors `p_program` adds for duplicated function names, one per name
      (the order of iterating `set(duplicates)` is taken to be first occurrence). */
  function DuplicateErrors(t: FunTable): (errs: seq<SemError>)
    requires ValidTable(t)
    ensures errs == []
  {
    NoDuplicates(t);
    DuplicateErrorsOf(Duplicates(t.keys, t.keys))
  }

  function DuplicateErrorsOf(names: seq<string>): seq<SemError>
  {
    if names == [] then []
    else
      var rest := DuplicateErrorsOf(names[..|names| - 1]);
      var d := names[|names| - 1];
      if DuplicateFunction(d) in rest then rest else rest + [DuplicateFunction(d)]
  }

  datatype Typing = Typing(ty: Ty, errors: seq<SemError>)

  /** The environment a `defun` body is analysed in: every parameter is `any`. */
  function ParamTypes(params: seq<string>): (env: TypeEnv)
    ensures forall p :: p in env <==> p in params
    ensures forall p :: p in env ==> env[p] == AnyTy
  {
    map p | p in params :: AnyTy
  }

  /** The analysis indexes `args[0]`/`args[1]` without a length check for
      comparisons, `cons`, `car`, `cdr` and `eq`; it only runs on trees where
      every such index exists. */
  predicate AnalysisSafe(functions: map<string, FunInfo>, node: Node)
  {
    match node
    case Defun(_, _, body) => AnalysisSafe(functions, body)
    case If(c, t, e) => AnalysisSafe(functions, c) && AnalysisSafe(functions, t) && AnalysisSafe(functions, e)
    case Application(op, args) =>
      (match Classify(functions, op)
       case Arith =>
         (|args| >= 1 ==> AnalysisSafe(functions, args[0])) && (|args| >= 2 ==> AnalysisSafe(functions, args[1]))
       case Comparison => |args| >= 2 && AnalysisSafe(functions, args[0]) && AnalysisSafe(functions, args[1])
       case ConsOp => |args| >= 2 && AnalysisSafe(functions, args[0]) && AnalysisSafe(functions, args[1])
       case EqBuiltin => |args| >= 2 && AnalysisSafe(functions, args[0]) && AnalysisSafe(functions, args[1])
       case CarOp => |args| >= 1 && AnalysisSafe(functions, args[0])
       case CdrOp => |args| >= 1 && AnalysisSafe(functions, args[0])
       case _ => forall i :: 0 <= i < |args| ==> AnalysisSafe(functions, args[i]))
    case _ => true
  }

  function ArityError(wrong: bool, e: SemError): seq<SemError>
  {
    if wrong then [e] else []
  }

  /** `semantic_analyze_node`: the inferred type and the errors appended, in order. */
  function Analyze(functions: map<string, FunInfo>, node: Node, env: TypeEnv): Typing
    requires AnalysisSafe(functions, node)
    decreases node, 1
  {
    match node
    case Number(_) => Typing(NumberTy, [])
    case Nil => Typing(ListTy, [])
    case Symbol(tok, name) =>
      if tok != Id then Typing(AnyTy, [])
      else if name in env then Typing(env[name], [])
      else Typing(AnyTy, [UndeclaredVariable(name)])
    case Defun(_, params, body) =>
      Typing(AnyTy, Analyze(functions, body, ParamTypes(params)).errors)
    case If(c, t, e) =>
      var rc := Analyze(functions, c, env);
      var rt := Analyze(functions, t, env);
      var re := Analyze(functions, e, env);
      Typing(if rt.ty == re.ty then rt.ty else AnyTy, rc.errors + rt.errors + re.errors)
    case Application(op, args) =>
      AnalyzeApplication(functions, op, args, env)
  }

  /** The `application` branch of `semantic_analyze_node`: the operator's
      class picks the rule. */
  function AnalyzeApplication(functions: map<string, FunInfo>, op: Node, args: seq<Node>, env: TypeEnv): Typing
    requires AnalysisSafe(functions, Application(op, args))
    decreases Application(op, args), 0
  {
    match Classify(functions, op)
    case Arith => ArithApplication(functions, op.lexeme, args, env)
    case Comparison => PairApplication(functions, args, env, ComparisonArity(op.lexeme), AnyTy)
    case ConsOp => PairApplication(functions, args, env, ConsArity, ListTy)
    case EqBuiltin => PairApplication(functions, args, env, EqArity, AnyTy)
    case CarOp => ListApplication(functions, args, env, CarArity, CarType, AnyTy)
    case CdrOp => ListApplication(functions, args, env, CdrArity, CdrType, ListTy)
    case _ => Typing(AnyTy, OperatorErrors(functions, op, args) + AnalyzeArgs(functions, args, env))
  }

  /** The error an operator itself causes before its arguments are analysed:
      not a symbol, a user function called with the wrong count, or an
      identifier that names no function. */
  function OperatorErrors(functions: map<string, FunInfo>, op: Node, args: seq<Node>): seq<SemError>
  {
    match Classify(functions, op)
    case NotASymbol => [InvalidOperator]
    case UserFunction(f) =>
      var expected := |functions[f].params|;
      ArityError(expected != |args|, ArityMismatch(f, expected, |args|))
    case UnknownFunction(f) => [UndefinedFunction(f)]
    case _ => []
  }

  /** `+ - * /`: a count check, both operands (each optional), then a
      type check on each. */
  function ArithApplication(functions: map<string, FunInfo>, oplex: string, args: seq<Node>, env: TypeEnv): Typing
    requires |args| >= 1 ==> AnalysisSafe(functions, args[0])
    requires |args| >= 2 ==> AnalysisSafe(functions, args[1])
    decreases args, 1
  {
    ArithRule(oplex, |args|, ArithOperandTyping(functions, args, 0, env), ArithOperandTyping(functions, args, 1, env))
  }

  /** The arithmetic rule once its two operands are typed: `count` is the
      number of arguments. */
  function ArithRule(oplex: string, count: nat, r1: Typing, r2: Typing): Typing
  {
    Typing(NumberTy,
      ArityError(count != 2, ArithArity(oplex, count)) + r1.errors + r2.errors
      + ArityError(!MaybeNumber(r1.ty), ArithOperand(oplex, 1))
      + ArityError(!MaybeNumber(r2.ty), ArithOperand(oplex, 2)))
  }

  /** An arithmetic operand that is missing counts as `any` with no errors. */
  function ArithOperandTyping(functions: map<string, FunInfo>, args: seq<Node>, k: nat, env: TypeEnv): Typing
    requires k < |args| ==> AnalysisSafe(functions, args[k])
    decreases args, 0
  {
    if k < |args| then Analyze(functions, args[k], env) else Typing(AnyTy, [])
  }

  /** Comparisons, `cons` and `eq`: a count check, then the first two arguments. */
  function PairApplication(functions: map<string, FunInfo>, args: seq<Node>, env: TypeEnv, arity: SemError, ty: Ty): Typing
    requires |args| >= 2 && AnalysisSafe(functions, args[0]) && AnalysisSafe(functions, args[1])
    decreases args, 1
  {
    Typing(ty, ArityError(|args| != 2, arity)
      + Analyze(functions, args[0], env).errors + Analyze(functions, args[1], env).errors)
  }

  /** `car` and `cdr`: a count check, the first argument, then a check that it
      may be a list. */
  function ListApplication(functions: map<string, FunInfo>, args: seq<Node>, env: TypeEnv, arity: SemError, typeError: SemError, ty: Ty): Typing
    requires |args| >= 1 && AnalysisSafe(functions, args[0])
    decreases args, 1
  {
    var r := Analyze(functions, args[0], env);
    Typing(ty, ArityError(|args| != 1, arity) + r.errors + ArityError(!MaybeList(r.ty), typeError))
  }

  /** The errors of analysing each node of `nodes` in order, all in `env`. */
  function AnalyzeArgs(functions: map<string, FunInfo>, nodes: seq<Node>, env: TypeEnv): seq<SemError>
    requires forall i :: 0 <= i < |nodes| ==> AnalysisSafe(functions, nodes[i])
    decreases nodes, 2
  {
    if nodes == [] then []
    else AnalyzeArgs(functions, nodes[..|nodes| - 1], env) + Analyze(functions, nodes[|nodes| - 1], env).errors
  }

  // ---------------------------------------------------------------------
  // Properties of the analysis

  /** Leaves: a number is a number, `()` a list, a bound identifier has its
      bound type, an unbound one is `any` with one undeclared-variable error,
      any other bare token is `any`; none of the others adds an error. */
  lemma AnalyzeLeaves(functions: map<string, FunInfo>, env: TypeEnv, n: nat, tok: TokenKind, name: string)
    ensures Analyze(functions, Number(n), env) == Typing(NumberTy, [])
    ensures Analyze(functions, Nil, env) == Typing(ListTy, [])
    ensures tok == Id && name in env ==> Analyze(functions, Symbol(tok, name), env) == Typing(env[name], [])
    ensures tok == Id && name !in env ==> Analyze(functions, Symbol(tok, name), env) == Typing(AnyTy, [UndeclaredVariable(name)])
    ensures tok != Id ==> Analyze(functions, Symbol(tok, name), env) == Typing(AnyTy, [])
  {
  }

  /** `if` analyses all three parts; it has the branches' type when they
      agree and `any` when they differ. */
  lemma AnalyzeIf(functions: map<string, FunInfo>, c: Node, t: Node, e: Node, env: TypeEnv)
    requires AnalysisSafe(functions, If(c, t, e))
    ensures var r := Analyze(functions, If(c, t, e), env);
      var tt, te := Analyze(functions, t, env).ty, Analyze(functions, e, env).ty;
      && (tt == te ==> r.ty == tt)
      && (tt != te ==> r.ty == AnyTy)
      && r.errors == Analyze(functions, c, env).errors + Analyze(functions, t, env).errors + Analyze(functions, e, env).errors
  {
  }

  /** `(if c t)` reads as `(if c t ())`: its type is `list` when the then
      branch is a list and `any` otherwise, and its errors are those of the
      condition and of the then branch. */
  lemma ImplicitElse(functions: map<string, FunInfo>, c: Node, t: Node, env: TypeEnv)
    requires AnalysisSafe(functions, c) && AnalysisSafe(functions, t)
    ensures IfFromParts(c, t, None) == IfFromParts(c, t, Some(Nil))
    ensures var r := Analyze(functions, IfFromParts(c, t, None), env);
      && r.ty == (if Analyze(functions, t, env).ty == ListTy then ListTy else AnyTy)
      && r.errors == Analyze(functions, c, env).errors + Analyze(functions, t, env).errors
  {
    AnalyzeIf(functions, c, t, Nil, env);
    assert Analyze(functions, Nil, env) == Typing(ListTy, []);
  }

  /** The arguments' errors are all empty exactly when each argument is clean. */
  lemma {:induction false} AnalyzeArgsClean(functions: map<string, FunInfo>, nodes: seq<Node>, env: TypeEnv)
    requires forall i :: 0 <= i < |nodes| ==> AnalysisSafe(functions, nodes[i])
    ensures AnalyzeArgs(functions, nodes, env) == [] <==>
      forall i :: 0 <= i < |nodes| ==> Analyze(functions, nodes[i], env).errors == []
    decreases nodes
  {
    if nodes != [] {
      var prefix := nodes[..|nodes| - 1];
      AnalyzeArgsClean(functions, prefix, env);
      assert forall i :: 0 <= i < |prefix| ==> prefix[i] == nodes[i];
    }
  }

  /** Calling a user function: one arity error exactly when the argument count
      differs from its parameter count, followed by every argument's errors;
      the call is `any`. */
  lemma UserCallErrors(functions: map<string, FunInfo>, op: Node, args: seq<Node>, env: TypeEnv)
    requires op.Symbol? && op.token == Id && op.lexeme in functions
    requires AnalysisSafe(functions, Application(op, args))
    ensures var r := Analyze(functions, Application(op, args), env);
      var expected := |functions[op.lexeme].params|;
      && r.ty == AnyTy
      && (expected != |args| ==> r.errors == [ArityMismatch(op.lexeme, expected, |args|)] + AnalyzeArgs(functions, args, env))
      && (expected == |args| ==> r.errors == AnalyzeArgs(functions, args, env))
  {
  }

  /** An arithmetic application is always a number. Its errors are, in
      order: the count error when there are not exactly two arguments, the
      errors of the first and of the second argument where they exist, then
      one error for each of those two that is a `list`. Arguments past the
      second are never analysed. */
  lemma ArithTyping(functions: map<string, FunInfo>, op: Node, args: seq<Node>, env: TypeEnv)
    requires op.Symbol? && IsArithToken(op.token)
    requires AnalysisSafe(functions, Application(op, args))
    ensures var r := Analyze(functions, Application(op, args), env);
      && r.ty == NumberTy
      && (|args| == 0 ==> r.errors == [ArithArity(op.lexeme, 0)])
      && (|args| == 1 ==>
            var a0 := Analyze(functions, args[0], env);
            r.errors == [ArithArity(op.lexeme, 1)] + a0.errors + ArityError(a0.ty == ListTy, ArithOperand(op.lexeme, 1)))
      && (|args| >= 2 ==>
            var a0, a1 := Analyze(functions, args[0], env), Analyze(functions, args[1], env);
            r.errors == ArityError(|args| != 2, ArithArity(op.lexeme, |args|)) + a0.errors + a1.errors
              + ArityError(a0.ty == ListTy, ArithOperand(op.lexeme, 1))
              + ArityError(a1.ty == ListTy, ArithOperand(op.lexeme, 2)))
  {
    assert Analyze(functions, Application(op, args), env) == ArithApplication(functions, op.lexeme, args, env);
    ArithErrors(functions, op.lexeme, args, env);
  }

  /** The arithmetic rule once both operands are typed: a `number`, and its
      errors in the order the source appends them, where only a `list`
      operand is of the wrong type. */
  lemma ArithRuleErrors(oplex: string, count: nat, r1: Typing, r2: Typing)
    ensures var r := ArithRule(oplex, count, r1, r2);
      && r.ty == NumberTy
      && r.errors == ArityError(count != 2, ArithArity(oplex, count)) + r1.errors + r2.errors
           + ArityError(r1.ty == ListTy, ArithOperand(oplex, 1))
           + ArityError(r2.ty == ListTy, ArithOperand(oplex, 2))
  {
    assert ArityError(!MaybeNumber(r1.ty), ArithOperand(oplex, 1)) == ArityError(r1.ty == ListTy, ArithOperand(oplex, 1));
    assert ArityError(!MaybeNumber(r2.ty), ArithOperand(oplex, 2)) == ArityError(r2.ty == ListTy, ArithOperand(oplex, 2));
  }

  /** The same rule over the argument list: a missing operand adds neither
      errors of its own nor a type error. */
  lemma ArithErrors(functions: map<string, FunInfo>, oplex: string, args: seq<Node>, env: TypeEnv)
    requires |args| >= 1 ==> AnalysisSafe(functions, args[0])
    requires |args| >= 2 ==> AnalysisSafe(functions, args[1])
    ensures var r := ArithApplication(functions, oplex, args, env);
      && r.ty == NumberTy
      && (|args| == 0 ==> r.errors == [ArithArity(oplex, 0)])
      && (|args| == 1 ==>
            var a0 := Analyze(functions, args[0], env);
            r.errors == [ArithArity(oplex, 1)] + a0.errors + ArityError(a0.ty == ListTy, ArithOperand(oplex, 1)))
      && (|args| >= 2 ==>
            var a0, a1 := Analyze(functions, args[0], env), Analyze(functions, args[1], env);
            r.errors == ArityError(|args| != 2, ArithArity(oplex, |args|)) + a0.errors + a1.errors
              + ArityError(a0.ty == ListTy, ArithOperand(oplex, 1))
              + ArityError(a1.ty == ListTy, ArithOperand(oplex, 2)))
  {
    var r1, r2 := ArithOperandTyping(functions, args, 0, env), ArithOperandTyping(functions, args, 1, env);
    ArithRuleErrors(oplex, |args|, r1, r2);
    var e1 := ArityError(r1.ty == ListTy, ArithOperand(oplex, 1));
    if |args| == 0 {
      assert [ArithArity(oplex, 0)] + r1.errors + r2.errors + e1 + [] == [ArithArity(oplex, 0)];
    } else if |args| == 1 {
      assert r2 == Typing(AnyTy, []);
      assert [ArithArity(oplex, 1)] + r1.errors + [] + e1 + [] == [ArithArity(oplex, 1)] + r1.errors + e1;
    }
  }

  /** Any operator other than the built-ins: its own error, then every
      argument, each of which the analysis can reach. */
  lemma OtherApplication(functions: map<string, FunInfo>, op: Node, args: seq<Node>, env: TypeEnv)
    requires AnalysisSafe(functions, Application(op, args))
    requires var c := Classify(functions, op);
      c.NotASymbol? || c.UserFunction? || c.UnknownFunction? || c.OtherToken?
    ensures forall i :: 0 <= i < |args| ==> AnalysisSafe(functions, args[i])
    ensures AnalyzeApplication(functions, op, args, env)
      == Typing(AnyTy, OperatorErrors(functions, op, args) + AnalyzeArgs(functions, args, env))
  {
  }

  /** `car`/`cdr` need a `list` or `any` argument: `car` yields `any`, `cdr` yields `list`. */
  lemma CarCdrTyping(functions: map<string, FunInfo>, op: Node, args: seq<Node>, env: TypeEnv)
    requires AnalysisSafe(functions, Application(op, args))
    requires Classify(functions, op) == CarOp || Classify(functions, op) == CdrOp
    ensures var r := Analyze(functions, Application(op, args), env);
      var arg := Analyze(functions, args[0], env);
      && r.ty == (if Classify(functions, op) == CarOp then AnyTy else ListTy)
      && (|args| == 1 ==> (r.errors == arg.errors <==> arg.ty != NumberTy))
  {
    if Classify(functions, op) == CarOp {
      ListArgErrors(functions, args, env, CarArity, CarType, AnyTy);
    } else {
      ListArgErrors(functions, args, env, CdrArity, CdrType, ListTy);
    }
  }

  lemma ListArgErrors(functions: map<string, FunInfo>, args: seq<Node>, env: TypeEnv, arity: SemError, typeError: SemError, ty: Ty)
    requires |args| >= 1 && AnalysisSafe(functions, args[0])
    ensures var r := ListApplication(functions, args, env, arity, typeError, ty);
      var arg := Analyze(functions, args[0], env);
      && r.ty == ty
      && (|args| == 1 ==> (r.errors == arg.errors <==> arg.ty != NumberTy))
  {
    if |args| == 1 {
      var arg := Analyze(functions, args[0], env);
      var tail := ArityError(!MaybeList(arg.ty), typeError);
      assert ListApplication(functions, args, env, arity, typeError, ty).errors == [] + arg.errors + tail;
      assert [] + arg.errors + tail == arg.errors + tail;
      assert |arg.errors + tail| == |arg.errors| + |tail|;
    }
  }

  /** An identifier operator that is neither a user function nor a builtin name
      is reported as undefined; an operator that is not a symbol is reported as
      invalid; in both cases every argument is still analysed. */
  lemma BadOperatorErrors(functions: map<string, FunInfo>, op: Node, args: seq<Node>, env: TypeEnv)
    requires AnalysisSafe(functions, Application(op, args))
    ensures !op.Symbol? ==>
      Analyze(functions, Application(op, args), env) == Typing(AnyTy, [InvalidOperator] + AnalyzeArgs(functions, args, env))
    ensures op.Symbol? && op.token == Id && op.lexeme !in functions && op.lexeme !in {"cons", "car", "cdr", "eq"} ==>
      Analyze(functions, Application(op, args), env) == Typing(AnyTy, [UndefinedFunction(op.lexeme)] + AnalyzeArgs(functions, args, env))
  {
  }

  // ---------------------------------------------------------------------
  // The analyser as the source runs it: one shared, growing error list

  class Analyzer {
    const functions: map<string, FunInfo>
    var errors: seq<SemError>

    constructor (functions: map<string, FunInfo>, errors: seq<SemError>)
      ensures this.functions == functions && this.errors == errors
    {
      this.functions := functions;
      this.errors := errors;
    }

    /** `semantic_analyze_node`: returns the inferred type and appends the
        node's errors to the shared list. */
    method AnalyzeNode(node: Node, env: TypeEnv) returns (t: Ty)
      requires AnalysisSafe(functions, node)
      modifies this
      ensures t == Analyze(functions, node, env).ty
      ensures errors == old(errors) + Analyze(functions, node, env).errors
      decreases node, 3
    {
      match node
      case Number(_) =>
        return NumberTy;
      case Nil =>
        return ListTy;
      case Symbol(tok, name) =>
        if tok == Id {
          if name in env {
            return env[name];
          } else {
            errors := errors + [UndeclaredVariable(name)];
            return AnyTy;
          }
        }
        return AnyTy;
      case Defun(name, params, body) =>
        t := AnalyzeDefun(name, params, body);
      case If(c, thenBranch, elseBranch) =>
        t := AnalyzeIfNode(c, thenBranch, elseBranch, env);
      case Application(op, args) =>
        t := AnalyzeApplicationNode(op, args, env);
    }

    /** A `defun` body is analysed with every parameter typed `any`. */
    method AnalyzeDefun(name: string, params: seq<string>, body: Node) returns (t: Ty)
      requires AnalysisSafe(functions, body)
      modifies this
      ensures t == AnyTy
      ensures errors == old(errors) + Analyze(functions, body, ParamTypes(params)).errors
      decreases Defun(name, params, body), 2
    {
      var localEnv := map p | p in params :: AnyTy;
      var _ := AnalyzeNode(body, localEnv);
      return AnyTy;
    }

    /** `if`: condition, then, else; the branches' type when they agree. */
    method AnalyzeIfNode(c: Node, thenBranch: Node, elseBranch: Node, env: TypeEnv) returns (t: Ty)
      requires AnalysisSafe(functions, c) && AnalysisSafe(functions, thenBranch) && AnalysisSafe(functions, elseBranch)
      modifies this
      ensures t == Analyze(functions, If(c, thenBranch, elseBranch), env).ty
      ensures errors == old(errors) + Analyze(functions, If(c, thenBranch, elseBranch), env).errors
      decreases If(c, thenBranch, elseBranch), 2
    {
      var _ := AnalyzeNode(c, env);
      var tThen := AnalyzeNode(thenBranch, env);
      var tElse := AnalyzeNode(elseBranch, env);
      AppendThree(old(errors), Analyze(functions, c, env).errors,
        Analyze(functions, thenBranch, env).errors, Analyze(functions, elseBranch, env).errors);
      if tThen == tElse {
        return tThen;
      }
      return AnyTy;
    }

    /** The `application` branch: dispatch on the operator. */
    method AnalyzeApplicationNode(op: Node, args: seq<Node>, env: TypeEnv) returns (t: Ty)
      requires AnalysisSafe(functions, Application(op, args))
      modifies this
      ensures t == AnalyzeApplication(functions, op, args, env).ty
      ensures errors == old(errors) + AnalyzeApplication(functions, op, args, env).errors
      decreases Application(op, args), 2
    {
      var c := Classify(functions, op);
      if c.Arith? {
        t := AnalyzeArithOperator(op, args, env);
      } else if c.Comparison? || c.ConsOp? || c.EqBuiltin? {
        t := AnalyzePairOperator(op, args, env);
      } else if c.CarOp? || c.CdrOp? {
        t := AnalyzeListOperator(op, args, env);
      } else {
        t := AnalyzeOtherOperator(op, args, env);
      }
    }

    /** `+ - * /`: the arithmetic rule. */
    method AnalyzeArithOperator(op: Node, args: seq<Node>, env: TypeEnv) returns (t: Ty)
      requires AnalysisSafe(functions, Application(op, args))
      requires Classify(functions, op).Arith?
      modifies this
      ensures t == AnalyzeApplication(functions, op, args, env).ty
      ensures errors == old(errors) + AnalyzeApplication(functions, op, args, env).errors
      decreases Application(op, args), 1
    {
      ghost var spec := AnalyzeApplication(functions, op, args, env);
      assert spec == ArithApplication(functions, op.lexeme, args, env);
      t := AnalyzeArith(op.lexeme, args, env);
      assert errors == old(errors) + spec.errors;
    }

    /** User functions, unknown identifiers, and operators that are not
        symbols: the operator's own error, then every argument. */
    method AnalyzeOtherOperator(op: Node, args: seq<Node>, env: TypeEnv) returns (t: Ty)
      requires AnalysisSafe(functions, Application(op, args))
      requires var c := Classify(functions, op);
        c.NotASymbol? || c.UserFunction? || c.UnknownFunction? || c.OtherToken?
      modifies this
      ensures t == AnalyzeApplication(functions, op, args, env).ty
      ensures errors == old(errors) + AnalyzeApplication(functions, op, args, env).errors
      decreases Application(op, args), 1
    {
      OtherApplication(functions, op, args, env);
      t := AnalyzeCall(op, args, env);
      AppendTwo(old(errors), OperatorErrors(functions, op, args), AnalyzeArgs(functions, args, env));
    }

    /** Comparisons, `cons` and `eq`: each with its own count error and type. */
    method AnalyzePairOperator(op: Node, args: seq<Node>, env: TypeEnv) returns (t: Ty)
      requires AnalysisSafe(functions, Application(op, args))
      requires Classify(functions, op).Comparison? || Classify(functions, op).ConsOp? || Classify(functions, op).EqBuiltin?
      modifies this
      ensures t == AnalyzeApplication(functions, op, args, env).ty
      ensures errors == old(errors) + AnalyzeApplication(functions, op, args, env).errors
      decreases Application(op, args), 1
    {
      ghost var spec := AnalyzeApplication(functions, op, args, env);
      match Classify(functions, op)
      case Comparison =>
        assert spec == PairApplication(functions, args, env, ComparisonArity(op.lexeme), AnyTy);
        t := AnalyzePair(args, env, ComparisonArity(op.lexeme), AnyTy);
        assert errors == old(errors) + spec.errors;
      case ConsOp =>
        assert spec == PairApplication(functions, args, env, ConsArity, ListTy);
        t := AnalyzePair(args, env, ConsArity, ListTy);
        assert errors == old(errors) + spec.errors;
      case EqBuiltin =>
        assert spec == PairApplication(functions, args, env, EqArity, AnyTy);
        t := AnalyzePair(args, env, EqArity, AnyTy);
        assert errors == old(errors) + spec.errors;
    }

    /** `car` and `cdr`: each with its own errors and type. */
    method AnalyzeListOperator(op: Node, args: seq<Node>, env: TypeEnv) returns (t: Ty)
      requires AnalysisSafe(functions, Application(op, args))
      requires Classify(functions, op).CarOp? || Classify(functions, op).CdrOp?
      modifies this
      ensures t == AnalyzeApplication(functions, op, args, env).ty
      ensures errors == old(errors) + AnalyzeApplication(functions, op, args, env).errors
      decreases Application(op, args), 1
    {
      ghost var spec := AnalyzeApplication(functions, op, args, env);
      match Classify(functions, op)
      case CarOp =>
        assert spec == ListApplication(functions, args, env, CarArity, CarType, AnyTy);
        t := AnalyzeListArg(args, env, CarArity, CarType, AnyTy);
        assert errors == old(errors) + spec.errors;
      case CdrOp =>
        assert spec == ListApplication(functions, args, env, CdrArity, CdrType, ListTy);
        t := AnalyzeListArg(args, env, CdrArity, CdrType, ListTy);
        assert errors == old(errors) + spec.errors;
    }

    /** Every other operator: its own error, if any, then every argument. */
    method AnalyzeCall(op: Node, args: seq<Node>, env: TypeEnv) returns (t: Ty)
      requires forall i :: 0 <= i < |args| ==> AnalysisSafe(functions, args[i])
      modifies this
      ensures t == AnyTy
      ensures errors == old(errors) + OperatorErrors(functions, op, args) + AnalyzeArgs(functions, args, env)
      decreases Application(op, args), 0
    {
      ghost var own := OperatorErrors(functions, op, args);
      var c := Classify(functions, op);
      if c.NotASymbol? {
        errors := errors + [InvalidOperator];
      } else if c.UserFunction? {
        var expected := |functions[op.lexeme].params|;
        assert own == ArityError(expected != |args|, ArityMismatch(op.lexeme, expected, |args|));
        if expected != |args| {
          errors := errors + [ArityMismatch(op.lexeme, expected, |args|)];
        }
      } else if c.UnknownFunction? {
        errors := errors + [UndefinedFunction(op.lexeme)];
      } else {
        assert own == [];
      }
      assert errors == old(errors) + own;
      AnalyzeEach(args, env);
      return AnyTy;
    }

    /** Arithmetic: the count check, both operands, then their types. */
    method AnalyzeArith(oplex: string, args: seq<Node>, env: TypeEnv) returns (t: Ty)
      requires |args| >= 1 ==> AnalysisSafe(functions, args[0])
      requires |args| >= 2 ==> AnalysisSafe(functions, args[1])
      modifies this
      ensures t == ArithApplication(functions, oplex, args, env).ty
      ensures errors == old(errors) + ArithApplication(functions, oplex, args, env).errors
      decreases args, 2
    {
      var t1, t2 := AnalyzeArithOperands(oplex, args, env);
      ReportType(!MaybeNumber(t1), ArithOperand(oplex, 1));
      ReportType(!MaybeNumber(t2), ArithOperand(oplex, 2));
      AppendFive(old(errors), ArityError(|args| != 2, ArithArity(oplex, |args|)),
        ArithOperandTyping(functions, args, 0, env).errors, ArithOperandTyping(functions, args, 1, env).errors,
        ArityError(!MaybeNumber(t1), ArithOperand(oplex, 1)), ArityError(!MaybeNumber(t2), ArithOperand(oplex, 2)));
      return NumberTy;
    }

    /** The count check, then the two (optional) operands. */
    method AnalyzeArithOperands(oplex: string, args: seq<Node>, env: TypeEnv) returns (t1: Ty, t2: Ty)
      requires |args| >= 1 ==> AnalysisSafe(functions, args[0])
      requires |args| >= 2 ==> AnalysisSafe(functions, args[1])
      modifies this
      ensures t1 == ArithOperandTyping(functions, args, 0, env).ty
      ensures t2 == ArithOperandTyping(functions, args, 1, env).ty
      ensures errors == old(errors) + ArityError(|args| != 2, ArithArity(oplex, |args|))
        + ArithOperandTyping(functions, args, 0, env).errors + ArithOperandTyping(functions, args, 1, env).errors
      decreases args, 1
    {
      if |args| != 2 {
        errors := errors + [ArithArity(oplex, |args|)];
      }
      t1 := AnalyzeOperand(args, 0, env);
      t2 := AnalyzeOperand(args, 1, env);
    }

    /** `analyse(args[k]) if len(args) > k else 'any'`. */
    method AnalyzeOperand(args: seq<Node>, k: nat, env: TypeEnv) returns (t: Ty)
      requires k < |args| ==> AnalysisSafe(functions, args[k])
      modifies this
      ensures t == ArithOperandTyping(functions, args, k, env).ty
      ensures errors == old(errors) + ArithOperandTyping(functions, args, k, env).errors
      decreases args, 0
    {
      if |args| > k {
        t := AnalyzeNode(args[k], env);
      } else {
        t := AnyTy;
      }
    }

    /** The error for an operand whose type is not one of those allowed. */
    method ReportType(wrong: bool, e: SemError)
      modifies this
      ensures errors == old(errors) + ArityError(wrong, e)
    {
      if wrong {
        errors := errors + [e];
      }
    }

    /** Comparisons, `cons` and `eq`: the count check, then both arguments. */
    method AnalyzePair(args: seq<Node>, env: TypeEnv, arity: SemError, ty: Ty) returns (t: Ty)
      requires |args| >= 2 && AnalysisSafe(functions, args[0]) && AnalysisSafe(functions, args[1])
      modifies this
      ensures t == PairApplication(functions, args, env, arity, ty).ty
      ensures errors == old(errors) + PairApplication(functions, args, env, arity, ty).errors
      decreases args, 1
    {
      if |args| != 2 {
        errors := errors + [arity];
      }
      assert errors == old(errors) + ArityError(|args| != 2, arity);
      var _ := AnalyzeNode(args[0], env);
      var _ := AnalyzeNode(args[1], env);
      AppendThree(old(errors), ArityError(|args| != 2, arity),
        Analyze(functions, args[0], env).errors, Analyze(functions, args[1], env).errors);
      return ty;
    }

    /** `car` and `cdr`: the count check, the argument, then its type. */
    method AnalyzeListArg(args: seq<Node>, env: TypeEnv, arity: SemError, typeError: SemError, ty: Ty) returns (t: Ty)
      requires |args| >= 1 && AnalysisSafe(functions, args[0])
      modifies this
      ensures t == ListApplication(functions, args, env, arity, typeError, ty).ty
      ensures errors == old(errors) + ListApplication(functions, args, env, arity, typeError, ty).errors
      decreases args, 1
    {
      if |args| != 1 {
        errors := errors + [arity];
      }
      assert errors == old(errors) + ArityError(|args| != 1, arity);
      var a := AnalyzeNode(args[0], env);
      ReportType(!MaybeList(a), typeError);
      ghost var r := Analyze(functions, args[0], env);
      AppendThree(old(errors), ArityError(|args| != 1, arity), r.errors, ArityError(!MaybeList(r.ty), typeError));
      return ty;
    }

    /** `for a in args: semantic_analyze_node(a, ...)`. */
    method AnalyzeEach(nodes: seq<Node>, env: TypeEnv)
      requires forall i :: 0 <= i < |nodes| ==> AnalysisSafe(functions, nodes[i])
      modifies this
      ensures errors == old(errors) + AnalyzeArgs(functions, nodes, env)
      decreases nodes, 4
    {
      var i := 0;
      while i < |nodes|
        invariant 0 <= i <= |nodes|
        invariant errors == old(errors) + AnalyzeArgs(functions, nodes[..i], env)
      {
        ghost var before := errors;
        assert nodes[..i + 1][..i] == nodes[..i];
        var _ := AnalyzeNode(nodes[i], env);
        assert AnalyzeArgs(functions, nodes[..i + 1], env)
          == AnalyzeArgs(functions, nodes[..i], env) + Analyze(functions, nodes[i], env).errors;
        AppendTwo(old(errors), AnalyzeArgs(functions, nodes[..i], env), Analyze(functions, nodes[i], env).errors);
        i := i + 1;
      }
      assert nodes[..i] == nodes;
    }
  }
}
