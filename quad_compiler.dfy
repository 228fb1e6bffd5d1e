/** The quadruple compiler and the virtual machine of
    Projeto/codigo_intermediario.py: `Compiler.generate_code` walks an
    expression tree depth first and appends `(op, arg1, arg2, result)`
    tuples; `VirtualMachine.execute` runs them against a dictionary. */
module Quadruples {
  import opened Basics
  import opened PyValues
  import opened ExprAst
  import Interpreter

  /** An argument of a quadruple: an integer constant, a name (a variable
      or a temporary), or `None`, which a `call` leaves behind. */
  datatype Operand = Const(n: nat) | Ref(name: string) | NoValue

  datatype Quad = Quad(op: string, arg1: Operand, arg2: Operand, result: string)

  /** The name `f't{k}'` of temporary `k`. */
  function TempName(k: nat): string
  {
    "t" + NatToDecimal(k)
  }

  lemma TempNameInjective(a: nat, b: nat)
    ensures TempName(a) == TempName(b) ==> a == b
  {
    if TempName(a) == TempName(b) {
      assert TempName(a)[1..] == NatToDecimal(a) && TempName(b)[1..] == NatToDecimal(b);
      NatToDecimalInjective(a, b);
    }
  }

  /** What `generate_code` does when the temporary counter starts at `k`:
      the quadruples it appends, the counter afterwards, and what it
      returns, or the tag of the node that made it raise `ValueError`
      (the quadruples appended before that stay appended). */
  datatype Compiled = Compiled(code: seq<Quad>, next: nat, result: Result<Operand, string>)

  function Compile(e: Expr, k: nat): (c: Compiled)
    ensures c.next == k + |c.code|
  {
    match e
    case Number(n) => Compiled([], k, Ok(Const(n)))
    case Id(x) => Compiled([], k, Ok(Ref(x)))
    case BinOp(op, left, right) =>
      var cl := Compile(left, k);
      if cl.result.Err? then cl
      else
        var cr := Compile(right, cl.next);
        if cr.result.Err? then Compiled(cl.code + cr.code, cr.next, cr.result)
        else
          var t := TempName(cr.next);
          Compiled(cl.code + cr.code + [Quad(op, cl.result.value, cr.result.value, t)], cr.next + 1, Ok(Ref(t)))
    case Call(_, _) => Compiled([], k, Ok(NoValue))
    case Other(tag) => Compiled([], k, Err(tag))
  }

  /** The `binop` nodes the compiler reaches: those not under a `call`. */
  function Binops(e: Expr): nat
  {
    match e
    case BinOp(_, left, right) => Binops(left) + Binops(right) + 1
    case _ => 0
  }

  /** Every tuple tag the compiler reaches is one it knows. */
  predicate Tagged(e: Expr)
  {
    match e
    case BinOp(_, left, right) => Tagged(left) && Tagged(right)
    case Other(_) => false
    case _ => true
  }

  /** Compilation raises exactly when it reaches an unknown tag; otherwise
      every `binop` contributes exactly one quadruple and one temporary, and
      the leaves none. */
  lemma {:induction false} CompileCounts(e: Expr, k: nat)
    ensures Compile(e, k).result.Ok? <==> Tagged(e)
    ensures Tagged(e) ==> |Compile(e, k).code| == Binops(e)
  {
    match e
    case BinOp(_, left, right) =>
      CompileCounts(left, k);
      CompileCounts(right, Compile(left, k).next);
    case _ =>
  }

  class Compiler {
    var intermediateCode: seq<Quad>
    var tempCounter: nat

    constructor ()
      ensures intermediateCode == [] && tempCounter == 0
    {
      intermediateCode := [];
      tempCounter := 0;
    }

    /** `new_temp`: the name of the counter before the call; the counter
        moves on by one. */
    method NewTemp() returns (t: string)
      modifies this
      ensures t == TempName(old(tempCounter)) && tempCounter == old(tempCounter) + 1
      ensures intermediateCode == old(intermediateCode)
    {
      tempCounter := tempCounter + 1;
      t := TempName(tempCounter - 1);
    }

    /** `generate_code(node)`: appends the node's quadruples and returns its
        operand; `Err(tag)` stands for the `ValueError` it raises. */
    method GenerateCode(node: Expr) returns (r: Result<Operand, string>)
      modifies this
      ensures var c := Compile(node, old(tempCounter));
        && intermediateCode == old(intermediateCode) + c.code
        && tempCounter == c.next
        && r == c.result
      decreases node, 1
    {
      match node
      case Number(n) =>
        return Ok(Const(n));
      case Id(x) =>
        return Ok(Ref(x));
      case BinOp(op, left, right) =>
        r := GenerateBinop(op, left, right);
      case Call(_, _) =>
        return Ok(NoValue);
      case Other(tag) =>
        return Err(tag);
    }

    /** The `binop` case: left operand, right operand, then one quadruple
        into a fresh temporary, which is returned. */
    method GenerateBinop(op: string, left: Expr, right: Expr) returns (r: Result<Operand, string>)
      modifies this
      ensures var c := Compile(BinOp(op, left, right), old(tempCounter));
        && intermediateCode == old(intermediateCode) + c.code
        && tempCounter == c.next
        && r == c.result
      decreases BinOp(op, left, right), 0
    {
      ghost var c0, code0 := tempCounter, intermediateCode;
      ghost var cl := Compile(left, c0);
      var lVal := GenerateCode(left);
      if lVal.Err? {
        return lVal;
      }
      ghost var cr := Compile(right, cl.next);
      var rVal := GenerateCode(right);
      if rVal.Err? {
        AppendTwo(code0, cl.code, cr.code);
        return rVal;
      }
      var resultTemp := NewTemp();
      var quad := Quad(op, lVal.value, rVal.value, resultTemp);
      intermediateCode := intermediateCode + [quad];
      AppendThree(code0, cl.code, cr.code, [quad]);
      return Ok(Ref(resultTemp));
    }
  }

  // ---------------------------------------------------------------------
  // The virtual machine

  /** An argument's value: a name is looked up, and stands for itself when
      unbound; a number or `None` is used as it is. */
  function Fetch(env: map<string, PyVal>, a: Operand): PyVal
  {
    match a
    case Const(n) => PInt(n)
    case Ref(s) => if s in env then env[s] else PStr(s)
    case NoValue => PNone
  }

  /** `last_result` and `env` after some instructions, or the exception
      (or float) that ended the run, with `env` as it was then. */
  datatype Exec = Exec(outcome: Outcome, env: map<string, PyVal>)

  /** `execute(code)` from the dictionary `env`. A known operator writes its
      value to `env[result]`; an unknown one writes nothing, and then
      `env[result]` either holds an older value or raises `KeyError`. */
  function Run(env: map<string, PyVal>, code: seq<Quad>): Exec
  {
    if code == [] then Exec(Value(PNone), env)
    else
      var before := Run(env, code[..|code| - 1]);
      if !before.outcome.Value? then before
      else Step(before.env, code[|code| - 1])
  }

  function Step(env: map<string, PyVal>, q: Quad): Exec
  {
    match OpOf(q.op)
    case Some(o) =>
      (match Apply(o, Fetch(env, q.arg1), Fetch(env, q.arg2))
       case Value(v) => Exec(Value(v), env[q.result := v])
       case failed => Exec(failed, env))
    case None =>
      if q.result in env then Exec(Value(env[q.result]), env) else Exec(Raised(KeyError), env)
  }

  class VirtualMachine {
    var env: map<string, PyVal>

    constructor ()
      ensures env == map[]
    {
      env := map[];
    }

    /** `execute(ic_list)`: the instructions in order; the value of the last
        one, or `None` for none. */
    method Execute(icList: seq<Quad>) returns (r: Outcome)
      modifies this
      ensures Run(old(env), icList) == Exec(r, env)
    {
      var lastResult := PNone;
      var i := 0;
      while i < |icList|
        invariant 0 <= i <= |icList|
        invariant Run(old(env), icList[..i]) == Exec(Value(lastResult), env)
      {
        var q := icList[i];
        assert icList[..i + 1][..i] == icList[..i];
        var val1 := Fetch(env, q.arg1);
        var val2 := Fetch(env, q.arg2);
        var op := OpOf(q.op);
        if op.Some? {
          var v := Apply(op.value, val1, val2);
          if !v.Value? {
            ghost var stop := Run(old(env), icList[..i + 1]);
            assert stop == Exec(v, env);
            RunStops(old(env), icList, i + 1);
            return v;
          }
          env := env[q.result := v.v];
        }
        if q.result !in env {
          RunStops(old(env), icList, i + 1);
          return Raised(KeyError);
        }
        lastResult := env[q.result];
        i := i + 1;
      }
      assert icList[..i] == icList;
      r := Value(lastResult);
    }
  }

  /** Once a prefix of the instructions fails, the run ends there. */
  lemma {:induction false} RunStops(env: map<string, PyVal>, code: seq<Quad>, k: nat)
    requires k <= |code| && !Run(env, code[..k]).outcome.Value?
    ensures Run(env, code) == Run(env, code[..k])
    decreases |code|
  {
    if k < |code| {
      var init := code[..|code| - 1];
      assert init[..k] == code[..k];
      RunStops(env, init, k);
    } else {
      assert code[..k] == code;
    }
  }

  /** Running `a + b` is running `a`, then `b` from where `a` left the
      dictionary, unless `a` failed; the result is `b`'s unless `b` is empty. */
  lemma {:induction false} RunAppend(env: map<string, PyVal>, a: seq<Quad>, b: seq<Quad>)
    ensures !Run(env, a).outcome.Value? ==> Run(env, a + b) == Run(env, a)
    ensures Run(env, a).outcome.Value? ==>
      && Run(env, a + b).env == Run(Run(env, a).env, b).env
      && (b != [] ==> Run(env, a + b).outcome == Run(Run(env, a).env, b).outcome)
      && (b == [] ==> Run(env, a + b) == Run(env, a))
    decreases |b|
  {
    if b == [] {
      assert a + b == a;
    } else {
      var init := b[..|b| - 1];
      assert (a + b)[..|a + b| - 1] == a + init;
      assert (a + b)[|a + b| - 1] == b[|b| - 1];
      RunAppend(env, a, init);
    }
  }

  // ---------------------------------------------------------------------
  // Compiling, then running, agrees with the tree interpreter

  /** What one line of the read-eval loop computes: a fresh compiler, then a
      fresh machine on the quadruples; a `ValueError` from the compiler is
      caught by the loop like any exception. The returned operand is dropped. */
  function CompileAndRun(e: Expr): Outcome
  {
    var c := Compile(e, 0);
    if c.result.Err? then Raised(ValueError) else Run(map[], c.code).outcome
  }

  /** The compile-then-execute part of the loop, on the two classes. */
  method RunLine(e: Expr) returns (r: Outcome)
    ensures r == CompileAndRun(e)
  {
    var compiler := new Compiler();
    var result := compiler.GenerateCode(e);
    if result.Err? {
      return Raised(ValueError);
    }
    assert compiler.intermediateCode == Compile(e, 0).code;
    var vm := new VirtualMachine();
    r := vm.Execute(compiler.intermediateCode);
  }

  /** Trees both sides treat alike: no name (the interpreter reports an
      unbound name, the machine uses the name itself), no unknown tag and
      no operator outside the table, except under a `call`, which neither
      side looks into. */
  predicate Plain(e: Expr)
  {
    match e
    case Number(_) => true
    case Id(_) => false
    case BinOp(op, left, right) => OpOf(op).Some? && Plain(left) && Plain(right)
    case Call(_, _) => true
    case Other(_) => false
  }

  /** No temporary from `k` on is bound yet. */
  ghost predicate FreshFrom(env: map<string, PyVal>, k: nat)
  {
    forall j: nat :: k <= j ==> TempName(j) !in env
  }

  /** What running a plain tree's quadruples from `env` gives: the
      compiler does not raise; the run only adds temporaries from `k` on; a
      failure of the interpreter on an operation is the machine's failure;
      and a value of the interpreter is the value of the operand the
      compiler returned, bound in the dictionary when it is a name. */
  ghost predicate Simulates(e: Expr, k: nat, env: map<string, PyVal>)
    requires Plain(e)
  {
    var c := Compile(e, k);
    var x := Run(env, c.code);
    var v := Interpreter.Eval(map[], e);
    && c.result.Ok?
    && FreshFrom(x.env, c.next)
    && Extends(x.env, env)
    && (e.BinOp? ==> x.outcome == v)
    && (!e.BinOp? ==> c.code == [] && x == Exec(Value(PNone), env))
    && (v.Value? ==> x.outcome.Value? && Holds(x.env, c.result.value, v.v))
  }

  /** `after` keeps every binding of `before`. */
  ghost predicate Extends(after: map<string, PyVal>, before: map<string, PyVal>)
  {
    forall s :: s in before ==> s in after && after[s] == before[s]
  }

  /** The operand has value `v` in `env`, and a name operand is bound there. */
  ghost predicate Holds(env: map<string, PyVal>, a: Operand, v: PyVal)
  {
    Fetch(env, a) == v && (a.Ref? ==> a.name in env)
  }

  lemma {:induction false} Simulation(e: Expr, k: nat, env: map<string, PyVal>)
    requires Plain(e) && FreshFrom(env, k)
    ensures Simulates(e, k, env)
  {
    match e
    case BinOp(op, left, right) =>
      Simulation(left, k, env);
      var x1 := Run(env, Compile(left, k).code);
      Simulation(right, Compile(left, k).next, x1.env);
      SimulationBinop(op, left, right, k, env);
    case _ =>
  }

  /** The step for an operation, from the two operands' runs. */
  lemma SimulationBinop(op: string, left: Expr, right: Expr, k: nat, env: map<string, PyVal>)
    requires Plain(BinOp(op, left, right)) && FreshFrom(env, k)
    requires Simulates(left, k, env)
    requires Simulates(right, Compile(left, k).next, Run(env, Compile(left, k).code).env)
    ensures Simulates(BinOp(op, left, right), k, env)
  {
    var cl := Compile(left, k);
    var x1 := Run(env, cl.code);
    var cr := Compile(right, cl.next);
    var x2 := Run(x1.env, cr.code);
    RunAppend(env, cl.code, cr.code);
    var t := TempName(cr.next);
    var q := Quad(op, cl.result.value, cr.result.value, t);
    var code := cl.code + cr.code + [q];
    assert Compile(BinOp(op, left, right), k) == Compiled(code, cr.next + 1, Ok(Ref(t)));
    RunLast(env, cl.code + cr.code, q);
    var vl, vr := Interpreter.Eval(map[], left), Interpreter.Eval(map[], right);
    if !vl.Value? {
      assert Run(env, code) == x1;
    } else if !vr.Value? {
      assert right.BinOp?;
      assert Run(env, code) == x2;
    } else {
      assert Run(env, cl.code + cr.code).env == x2.env;
      OperationStep(op, left, right, env, x2.env, q, cr.next);
    }
  }

  /** Running `code + [q]` is running `code`, then `q` if `code` succeeded. */
  lemma RunLast(env: map<string, PyVal>, code: seq<Quad>, q: Quad)
    ensures Run(env, code + [q]) == if Run(env, code).outcome.Value? then Step(Run(env, code).env, q) else Run(env, code)
  {
    assert (code + [q])[..|code|] == code;
  }

  /** The quadruple of an operation whose operands have their values. */
  lemma OperationStep(op: string, left: Expr, right: Expr, env: map<string, PyVal>, env2: map<string, PyVal>, q: Quad, n: nat)
    requires OpOf(op).Some? && q.op == op && q.result == TempName(n)
    requires Interpreter.Eval(map[], left).Value? && Interpreter.Eval(map[], right).Value?
    requires Fetch(env2, q.arg1) == Interpreter.Eval(map[], left).v
    requires Fetch(env2, q.arg2) == Interpreter.Eval(map[], right).v
    requires FreshFrom(env2, n)
    ensures var x := Step(env2, q);
      var v := Interpreter.Eval(map[], BinOp(op, left, right));
      && x.outcome == v
      && FreshFrom(x.env, n + 1)
      && Extends(x.env, env2)
      && (v.Value? ==> Holds(x.env, Ref(q.result), v.v))
  {
    forall j: nat | n + 1 <= j
      ensures TempName(j) != q.result
    {
      TempNameInjective(j, n);
    }
  }

  /** For an operation or a call, the machine's result is the interpreter's:
      the same value, the same exception, or a float on both sides. */
  lemma CompiledAgrees(e: Expr)
    requires Plain(e) && (e.BinOp? || e.Call?)
    ensures CompileAndRun(e) == Interpreter.Eval(map[], e)
  {
    Simulation(e, 0, map[]);
  }

  /** As written, a line that is a bare number (or a call) compiles to no
      quadruple, so the machine reports `None` where the interpreter
      reports the number. */
  lemma BareNumberLosesValue(n: nat)
    ensures CompileAndRun(Number(n)) == Value(PNone)
    ensures Interpreter.Eval(map[], Number(n)) == Value(PInt(n))
  {
  }

  /** The loop with the compiler's returned operand used when there is no
      quadruple to run: the value of that operand. */
  function CompileAndRunFixed(e: Expr): Outcome
  {
    var c := Compile(e, 0);
    if c.result.Err? then Raised(ValueError)
    else if c.code == [] then Value(Fetch(map[], c.result.value))
    else Run(map[], c.code).outcome
  }

  /** With that change the machine agrees with the interpreter on every
      plain tree, leaves included. */
  lemma FixedAgrees(e: Expr)
    requires Plain(e)
    ensures CompileAndRunFixed(e) == Interpreter.Eval(map[], e)
  {
    Simulation(e, 0, map[]);
  }
}
