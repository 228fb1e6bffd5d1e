/** The code generator of Parte_2/codigo_intermediario.py as it runs: the
    global counters `_temp_counter` and `_label_counter` and the table
    `_codegen_functions` are the fields of one `Generator`, and `gen_code`
    is a family of methods that bump them and build the line list in place.
    Every method is proved to produce exactly what `CodeGen.Lower` specifies
    from the counters it started with. */
module CodeGenState {
  import opened Basics
  import opened LispAst
  import opened Semantics
  import opened CodeGen

  /** What `gen_code` returns: the lines and the result operand. */
  datatype Lowered = Lowered(code: seq<Line>, value: Option<Operand>)

  /** The lines and the values of a list of arguments. */
  datatype LoweredList = LoweredList(code: seq<Line>, values: seq<Option<Operand>>)

  /** A run agrees with the specification: same error, or same lines and
      value with the counters left where the specification leaves them. */
  predicate Agrees(r: Result<Lowered, GenError>, spec: Result<Gen, GenError>, now: Counters)
  {
    match spec
    case Ok(g) => r == Ok(Lowered(g.code, g.value)) && now == g.next
    case Err(e) => r == Err(e)
  }

  predicate AgreesList(r: Result<LoweredList, GenError>, spec: Result<GenList, GenError>, now: Counters)
  {
    match spec
    case Ok(g) => r == Ok(LoweredList(g.code, g.values)) && now == g.next
    case Err(e) => r == Err(e)
  }

  /** Once a prefix of the arguments fails, the whole list fails the same way. */
  lemma {:induction false} ArgsErrorStops(fns: map<string, FunInfo>, fuel: nat, args: seq<Node>, env: map<string, Operand>, c: Counters, k: nat)
    requires k <= |args| && LowerArgs(fns, fuel, args[..k], env, c).Err?
    ensures LowerArgs(fns, fuel, args, env, c) == LowerArgs(fns, fuel, args[..k], env, c)
    decreases |args|
  {
    if k < |args| {
      var init := args[..|args| - 1];
      assert init[..k] == args[..k];
      ArgsErrorStops(fns, fuel, init, env, c, k);
    } else {
      assert args[..k] == args;
    }
  }

  /** A then-block that fails makes the whole `if` fail the same way. */
  lemma BranchesThenFails(fns: map<string, FunInfo>, fuel: nat, cond: Node, thenBranch: Node, elseBranch: Node,
                          env: map<string, Operand>, gc: Gen, gt: Result<Lowered, GenError>, now: Counters)
    requires gt.Err?
    requires Agrees(gt, Lower(fns, fuel, thenBranch, env, gc.next.(labels := gc.next.labels + 3)), now)
    ensures Agrees(gt, LowerBranches(fns, fuel, cond, thenBranch, elseBranch, env, gc), now)
  {
  }

  /** A then-block `gt` that succeeds, followed by the rest of the `if`,
      is the whole `if` after the condition. */
  lemma BranchesCompose(fns: map<string, FunInfo>, fuel: nat, cond: Node, thenBranch: Node, elseBranch: Node,
                        env: map<string, Operand>, gc: Gen, gt: Lowered, afterThen: Counters,
                        r: Result<Lowered, GenError>, now: Counters)
    requires Agrees(Ok(gt), Lower(fns, fuel, thenBranch, env, gc.next.(labels := gc.next.labels + 3)), afterThen)
    requires Agrees(r, LowerElse(fns, fuel, cond, thenBranch, elseBranch, env, gc, Gen(gt.code, gt.value, afterThen)), now)
    ensures Agrees(r, LowerBranches(fns, fuel, cond, thenBranch, elseBranch, env, gc), now)
  {
  }

  /** An else-block that fails makes the whole `if` fail the same way. */
  lemma ElseFails(fns: map<string, FunInfo>, fuel: nat, cond: Node, thenBranch: Node, elseBranch: Node,
                  env: map<string, Operand>, gc: Gen, gt: Gen, ge: Result<Lowered, GenError>, now: Counters)
    requires ge.Err?
    requires Agrees(ge, Lower(fns, fuel, elseBranch, env, Bump(gt.next)), now)
    ensures Agrees(ge, LowerElse(fns, fuel, cond, thenBranch, elseBranch, env, gc, gt), now)
  {
  }

  /** An else-block `ge` that succeeds completes the `if` block, with the
      labels `lTrue`, `lFalse`, `lEnd` taken after the condition and the
      result temporary `res` after the then-block. */
  lemma ElseCompose(fns: map<string, FunInfo>, fuel: nat, cond: Node, thenBranch: Node, elseBranch: Node,
                    env: map<string, Operand>, gc: Gen, gt: Gen, ge: Result<Lowered, GenError>, now: Counters,
                    lTrue: nat, lFalse: nat, lEnd: nat, res: nat)
    requires lTrue == gc.next.labels && lFalse == lTrue + 1 && lEnd == lTrue + 2 && res == gt.next.temps
    requires ge.Ok? && Agrees(ge, Lower(fns, fuel, elseBranch, env, Bump(gt.next)), now)
    ensures Agrees(Ok(Lowered(gc.code + [IfGoto(gc.value, lTrue), Goto(lFalse), LabelDef(lTrue)] + gt.code
                              + [Move(res, OrNil(gt.value)), Goto(lEnd), LabelDef(lFalse)]
                              + ge.value.code + [Move(res, OrNil(ge.value.value)), LabelDef(lEnd)],
                              Some(Temp(res)))),
                   LowerElse(fns, fuel, cond, thenBranch, elseBranch, env, gc, gt), now)
  {
  }

  /** A `defun` whose body lowers to `b` is its header, its parameter
      comments, the body and the return. */
  lemma DefunCompose(fns: map<string, FunInfo>, fuel: nat, name: string, params: seq<string>, body: Node,
                     env: map<string, Operand>, c: Counters, b: Result<Lowered, GenError>, now: Counters)
    requires Agrees(b, Lower(fns, fuel, body, ParamEnv(params), c), now)
    ensures b.Err? ==> Agrees(b, Lower(fns, fuel, Defun(name, params, body), env, c), now)
    ensures b.Ok? ==>
      Agrees(Ok(Lowered([FunctionComment(name), FunctionEntry(name)] + ParamComments(params) + b.value.code
                        + [Return(OrNil(b.value.value))], None)),
             Lower(fns, fuel, Defun(name, params, body), env, c), now)
  {
  }

  /** One more argument lowered to `g` extends the lowered prefix `gl`. */
  lemma ArgsStep(fns: map<string, FunInfo>, fuel: nat, args: seq<Node>, env: map<string, Operand>, c: Counters,
                 i: nat, gl: GenList, g: Result<Lowered, GenError>, now: Counters)
    requires i < |args|
    requires LowerArgs(fns, fuel, args[..i], env, c) == Ok(gl)
    requires g.Ok? && Agrees(g, Lower(fns, fuel, args[i], env, gl.next), now)
    ensures LowerArgs(fns, fuel, args[..i + 1], env, c) == Ok(GenList(gl.code + g.value.code, gl.values + [g.value.value], now))
  {
    assert args[..i + 1][..i] == args[..i];
  }

  class Generator {
    var tempCounter: nat
    var labelCounter: nat
    const functions: map<string, FunInfo>

    constructor ()
      ensures tempCounter == 0 && labelCounter == 0 && functions == map[]
    {
      tempCounter := 0;
      labelCounter := 0;
      functions := map[];
    }

    function Now(): Counters
      reads this
    {
      Counters(tempCounter, labelCounter)
    }

    /** `reset_codegen`. */
    method Reset()
      modifies this
      ensures tempCounter == 0 && labelCounter == 0
    {
      tempCounter := 0;
      labelCounter := 0;
    }

    /** `new_temp`: the current temporary, and the counter moves past it. */
    method NewTemp() returns (t: nat)
      modifies this
      ensures t == old(tempCounter) && tempCounter == old(tempCounter) + 1
      ensures labelCounter == old(labelCounter)
    {
      t := tempCounter;
      tempCounter := tempCounter + 1;
    }

    /** `new_label`: the current label, and the counter moves past it. */
    method NewLabel() returns (l: nat)
      modifies this
      ensures l == old(labelCounter) && labelCounter == old(labelCounter) + 1
      ensures tempCounter == old(tempCounter)
    {
      l := labelCounter;
      labelCounter := labelCounter + 1;
    }

    /** `global_codegen_setup`: both counters at zero, and one entry per
        function of the analyser's table, copied key by key. */
    constructor Setup(table: FunTable)
      requires ValidTable(table)
      ensures tempCounter == 0 && labelCounter == 0
      ensures functions == table.entries
    {
      var copy := map[];
      var i := 0;
      while i < |table.keys|
        invariant 0 <= i <= |table.keys|
        invariant forall k :: k in copy <==> k in table.keys[..i]
        invariant forall k :: k in copy ==> copy[k] == table.entries[k]
      {
        var name := table.keys[i];
        copy := copy[name := table.entries[name]];
        assert table.keys[..i + 1] == table.keys[..i] + [name];
        i := i + 1;
      }
      assert table.keys[..i] == table.keys;
      functions := copy;
      tempCounter := 0;
      labelCounter := 0;
    }

    /** `gen_code(node, env)`. */
    method GenNode(node: Node, env: map<string, Operand>, fuel: nat) returns (r: Result<Lowered, GenError>)
      modifies this
      ensures Agrees(r, Lower(functions, fuel, node, env, old(Now())), Now())
      decreases fuel, node, 3
    {
      match node
      case Number(v) =>
        var t := NewTemp();
        r := Ok(Lowered([LoadConst(t, v)], Some(Temp(t))));
      case Nil =>
        var t := NewTemp();
        r := Ok(Lowered([LoadNil(t)], Some(Temp(t))));
      case Symbol(tok, lexeme) =>
        if tok == Id && lexeme in env {
          r := Ok(Lowered([], Some(env[lexeme])));
        } else {
          var t := NewTemp();
          r := Ok(Lowered([LoadSymbol(t, lexeme)], Some(Temp(t))));
        }
      case Defun(name, params, body) =>
        r := GenDefun(name, params, body, env, fuel);
      case If(cond, thenBranch, elseBranch) =>
        r := GenIf(cond, thenBranch, elseBranch, env, fuel);
      case Application(op, args) =>
        r := GenApplication(op, args, env, fuel);
    }

    /** A `defun`: header, one comment per parameter while the local
        environment is filled, the body, and its `return`. */
    method GenDefun(name: string, params: seq<string>, body: Node, env: map<string, Operand>, fuel: nat) returns (r: Result<Lowered, GenError>)
      modifies this
      ensures Agrees(r, Lower(functions, fuel, Defun(name, params, body), env, old(Now())), Now())
      decreases fuel, Defun(name, params, body), 1
    {
      var lines := [FunctionComment(name), FunctionEntry(name)];
      var localEnv: map<string, Operand> := map[];
      var i := 0;
      while i < |params|
        invariant 0 <= i <= |params|
        invariant lines == [FunctionComment(name), FunctionEntry(name)] + ParamComments(params[..i])
        invariant localEnv == ParamEnv(params[..i])
      {
        localEnv := localEnv[params[i] := Name(params[i])];
        lines := lines + [ParamComment(params[i])];
        assert params[..i + 1][..i] == params[..i];
        assert ParamEnv(params[..i + 1]) == ParamEnv(params[..i])[params[i] := Name(params[i])];
        i := i + 1;
      }
      assert params[..i] == params;
      ghost var c0 := Now();
      var b := GenNode(body, localEnv, fuel);
      DefunCompose(functions, fuel, name, params, body, env, c0, b, Now());
      if b.Err? {
        return b;
      }
      lines := lines + b.value.code + [Return(OrNil(b.value.value))];
      r := Ok(Lowered(lines, None));
    }

    /** An `if`: the condition, then the rest. */
    method GenIf(cond: Node, thenBranch: Node, elseBranch: Node, env: map<string, Operand>, fuel: nat) returns (r: Result<Lowered, GenError>)
      modifies this
      ensures Agrees(r, LowerIf(functions, fuel, cond, thenBranch, elseBranch, env, old(Now())), Now())
      decreases fuel, If(cond, thenBranch, elseBranch), 2
    {
      var gc := GenNode(cond, env, fuel);
      if gc.Err? {
        return Err(gc.error);
      }
      ghost var c0 := Now();
      var lTrue := NewLabel();
      var lFalse := NewLabel();
      var lEnd := NewLabel();
      r := GenBranches(cond, thenBranch, elseBranch, env, fuel, c0, gc.value, lTrue, lFalse, lEnd);
    }

    /** After the condition `gc` and its three fresh labels: the then-block,
        then the rest. */
    method GenBranches(cond: Node, thenBranch: Node, elseBranch: Node, env: map<string, Operand>, fuel: nat,
                       ghost c0: Counters, gc: Lowered, lTrue: nat, lFalse: nat, lEnd: nat)
      returns (r: Result<Lowered, GenError>)
      requires lTrue == c0.labels && lFalse == c0.labels + 1 && lEnd == c0.labels + 2
      requires Now() == c0.(labels := c0.labels + 3)
      modifies this
      ensures Agrees(r, LowerBranches(functions, fuel, cond, thenBranch, elseBranch, env, Gen(gc.code, gc.value, c0)), Now())
      decreases fuel, If(cond, thenBranch, elseBranch), 1
    {
      var gt := GenNode(thenBranch, env, fuel);
      if gt.Err? {
        BranchesThenFails(functions, fuel, cond, thenBranch, elseBranch, env, Gen(gc.code, gc.value, c0), gt, Now());
        return gt;
      }
      ghost var afterThen := Now();
      r := GenElse(cond, thenBranch, elseBranch, env, fuel, c0, gc, gt.value, lTrue, lFalse, lEnd);
      BranchesCompose(functions, fuel, cond, thenBranch, elseBranch, env, Gen(gc.code, gc.value, c0), gt.value,
        afterThen, r, Now());
    }

    /** The rest of an `if` once the condition `gc` and the then-block `gt`
        are generated: the jump and the then-block, the result temporary,
        the else-block into it, and the end label. */
    method GenElse(cond: Node, thenBranch: Node, elseBranch: Node, env: map<string, Operand>, fuel: nat,
                   ghost c0: Counters, gc: Lowered, gt: Lowered, lTrue: nat, lFalse: nat, lEnd: nat)
      returns (r: Result<Lowered, GenError>)
      requires lTrue == c0.labels && lFalse == c0.labels + 1 && lEnd == c0.labels + 2
      modifies this
      ensures Agrees(r, LowerElse(functions, fuel, cond, thenBranch, elseBranch, env, Gen(gc.code, gc.value, c0),
                                  Gen(gt.code, gt.value, old(Now()))), Now())
      decreases fuel, If(cond, thenBranch, elseBranch), 0
    {
      ghost var afterThen := Now();
      var code := gc.code + [IfGoto(gc.value, lTrue), Goto(lFalse), LabelDef(lTrue)] + gt.code;
      var res := NewTemp();
      code := code + [Move(res, OrNil(gt.value)), Goto(lEnd), LabelDef(lFalse)];
      var ge := GenNode(elseBranch, env, fuel);
      if ge.Err? {
        ElseFails(functions, fuel, cond, thenBranch, elseBranch, env, Gen(gc.code, gc.value, c0),
          Gen(gt.code, gt.value, afterThen), ge, Now());
        return ge;
      }
      code := code + ge.value.code + [Move(res, OrNil(ge.value.value)), LabelDef(lEnd)];
      r := Ok(Lowered(code, Some(Temp(res))));
      ElseCompose(functions, fuel, cond, thenBranch, elseBranch, env, Gen(gc.code, gc.value, c0),
        Gen(gt.code, gt.value, afterThen), ge, Now(), lTrue, lFalse, lEnd, res);
    }

    /** An application, dispatched in the order of the source's tests. */
    method GenApplication(op: Node, args: seq<Node>, env: map<string, Operand>, fuel: nat) returns (r: Result<Lowered, GenError>)
      modifies this
      ensures Agrees(r, LowerApplication(functions, fuel, op, args, env, old(Now())), Now())
      decreases fuel, Application(op, args), 1
    {
      var c := Classify(functions, op);
      if c.NotASymbol? {
        r := Ok(Lowered([InvalidOperatorComment], None));
      } else if c.UserFunction? {
        r := GenInline(c.name, args, env, fuel);
      } else if c.Arith? || c.Comparison? {
        r := GenBuiltin(args, env, fuel, 2, BinaryShape(OpSymbol(op)));
      } else if c.ConsOp? {
        r := GenBuiltin(args, env, fuel, 2, BuiltinShape("CONS"));
      } else if c.CarOp? {
        r := GenBuiltin(args, env, fuel, 1, BuiltinShape("CAR"));
      } else if c.CdrOp? {
        r := GenBuiltin(args, env, fuel, 1, BuiltinShape("CDR"));
      } else if c.EqBuiltin? {
        r := GenBuiltin(args, env, fuel, 2, BuiltinShape("EQ"));
      } else if c.UnknownFunction? {
        r := GenCall(c.name, args, env, fuel);
      } else {
        r := GenCall(op.lexeme, args, env, fuel);
      }
    }

    /** A builtin: `args[0]`, then `args[1]` when it takes two, then its line. */
    method GenBuiltin(args: seq<Node>, env: map<string, Operand>, fuel: nat, arity: nat, shape: Shape) returns (r: Result<Lowered, GenError>)
      requires 1 <= arity <= 2
      modifies this
      ensures Agrees(r, LowerBuiltin(functions, fuel, args, env, old(Now()), arity, shape), Now())
      decreases fuel, args, 1
    {
      if |args| == 0 {
        return Err(MissingOperand);
      }
      var g1 := GenNode(args[0], env, fuel);
      if g1.Err? {
        return Err(g1.error);
      }
      if arity == 1 {
        var res := NewTemp();
        r := Ok(Lowered(g1.value.code + [ShapeLine(shape, res, [g1.value.value])], Some(Temp(res))));
      } else if |args| == 1 {
        r := Err(MissingOperand);
      } else {
        var g2 := GenNode(args[1], env, fuel);
        if g2.Err? {
          return Err(g2.error);
        }
        var res := NewTemp();
        r := Ok(Lowered(g1.value.code + g2.value.code + [ShapeLine(shape, res, [g1.value.value, g2.value.value])], Some(Temp(res))));
      }
    }

    /** A call of a user function, expanded in place. */
    method GenInline(f: string, args: seq<Node>, env: map<string, Operand>, fuel: nat) returns (r: Result<Lowered, GenError>)
      requires f in functions
      modifies this
      ensures Agrees(r, LowerInline(functions, fuel, f, args, env, old(Now())), Now())
      decreases fuel, args, 1
    {
      ghost var spec := LowerInline(functions, fuel, f, args, env, Now());
      var ga := GenArgs(args, env, fuel);
      if ga.Err? {
        return Err(ga.error);
      }
      if fuel == 0 {
        return Err(InliningTooDeep(f));
      }
      ghost var ca := Now();
      var info := functions[f];
      var values := ga.value.values;
      var code := AppendParamAssigns(ga.value.code, info.params, values);
      var gb := GenNode(info.body, ParamEnv(info.params), fuel - 1);
      if gb.Err? {
        assert spec == Lower(functions, fuel - 1, info.body, ParamEnv(info.params), ca);
        return Err(gb.error);
      }
      var res := NewTemp();
      code := code + gb.value.code + [InlineResult(res, OrNil(gb.value.value), f)];
      assert spec == Ok(Gen(code, Some(Temp(res)), Now()));
      r := Ok(Lowered(code, Some(Temp(res))));
    }

    /** `for p, v in zip(params, values)`: one assignment per pair, stopping
        at the shorter list. */
    method AppendParamAssigns(code: seq<Line>, params: seq<string>, values: seq<Option<Operand>>) returns (out: seq<Line>)
      ensures out == code + ParamAssigns(params, values)
    {
      var n := if |params| <= |values| then |params| else |values|;
      out := code;
      var i := 0;
      while i < n
        invariant 0 <= i <= n
        invariant out == code + ZipAssigns(params, values, i)
      {
        AppendTwo(code, ZipAssigns(params, values, i), [ParamAssign(params[i], values[i])]);
        out := out + [ParamAssign(params[i], values[i])];
        i := i + 1;
      }
    }

    /** A call that is not expanded: the arguments, a fresh temporary, and
        the join of the argument names, which fails on a missing one. */
    method GenCall(f: string, args: seq<Node>, env: map<string, Operand>, fuel: nat) returns (r: Result<Lowered, GenError>)
      modifies this
      ensures Agrees(r, LowerCall(functions, fuel, f, args, env, old(Now())), Now())
      decreases fuel, args, 1
    {
      var ga := GenArgs(args, env, fuel);
      if ga.Err? {
        return Err(ga.error);
      }
      var values := ga.value.values;
      var res := NewTemp();
      var ops: seq<Operand> := [];
      var i := 0;
      while i < |values|
        invariant 0 <= i <= |values|
        invariant |ops| == i && forall j :: 0 <= j < i ==> values[j] == Some(ops[j])
      {
        if values[i].None? {
          return Err(JoinOfNone(f));
        }
        ops := ops + [values[i].value];
        i := i + 1;
      }
      assert ops == Present(values);
      r := Ok(Lowered(ga.value.code + [Call(res, f, ops)], Some(Temp(res))));
    }

    /** `for a in args`: each argument from the counters the previous one left. */
    method GenArgs(args: seq<Node>, env: map<string, Operand>, fuel: nat) returns (r: Result<LoweredList, GenError>)
      modifies this
      ensures AgreesList(r, LowerArgs(functions, fuel, args, env, old(Now())), Now())
      decreases fuel, args, 0
    {
      var code := [];
      var values := [];
      var i := 0;
      while i < |args|
        invariant 0 <= i <= |args|
        invariant LowerArgs(functions, fuel, args[..i], env, old(Now())) == Ok(GenList(code, values, Now()))
      {
        ghost var before := Now();
        var g := GenNode(args[i], env, fuel);
        if g.Err? {
          assert args[..i + 1][..i] == args[..i];
          ArgsErrorStops(functions, fuel, args, env, old(Now()), i + 1);
          return Err(g.error);
        }
        ArgsStep(functions, fuel, args, env, old(Now()), i, GenList(code, values, before), g, Now());
        code := code + g.value.code;
        values := values + [g.value.value];
        i := i + 1;
      }
      assert args[..i] == args;
      r := Ok(LoweredList(code, values));
    }
  }
}
