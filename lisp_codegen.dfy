/** Three-address code generation of Parte_2/codigo_intermediario.py: every
    sub-expression gets a fresh temporary `t<N>`, an `if` gets three fresh
    labels `L<N>`, and a call of a user function is expanded in place by
    generating its body again. */
module CodeGen {
  import opened Basics
  import opened LispAst
  import opened Semantics

  /** A value an IR line reads or writes: a temporary `t<index>`, or a name
      (a parameter, which the generator uses as a variable of its own). */
  datatype Operand = Temp(index: nat) | Name(name: string)

  /** One line of IR, one constructor per line shape the generator prints.
      An operand that may be missing is an `Option`: a missing source value
      of `Move`, `Return` and `InlineResult` is printed `NIL`, any other
      missing operand is printed `None`. */
  datatype Line =
    | LoadConst(dst: nat, value: nat)                       // t = 5
    | LoadNil(dst: nat)                                     // t = NIL
    | LoadSymbol(dst: nat, lexeme: string)                  // t = x
    | FunctionComment(name: string)                         // # função f:
    | FunctionEntry(name: string)                           // func_f:
    | ParamComment(param: string)                           // # param p
    | Return(result: Option<Operand>)                       // return t
    | IfGoto(cond: Option<Operand>, target: nat)            // if t goto L
    | Goto(target: nat)                                     // goto L
    | LabelDef(id: nat)                                     // L:
    | Move(dst: nat, src: Option<Operand>)                  // t = u
    | ParamAssign(param: string, src: Option<Operand>)      // p = t  # param
    | InlineResult(dst: nat, src: Option<Operand>, fn: string)  // t = u  # resultado f
    | BinaryOp(dst: nat, left: Option<Operand>, op: string, right: Option<Operand>)  // t = a + b
    | Builtin(dst: nat, fn: string, args: seq<Option<Operand>>)  // t = CONS(a, b)
    | Call(dst: nat, fn: string, operands: seq<Operand>)    // t = CALL(f, a, b)
    | InvalidOperatorComment                                // # erro: operador inválido

  /** The printed name of temporary `k`, `f"t{k}"`. */
  function TempName(k: nat): string
  {
    "t" + NatToDecimal(k)
  }

  /** The printed name of label `k`, `f"L{k}"`. */
  function LabelName(k: nat): string
  {
    "L" + NatToDecimal(k)
  }

  /** The two global counters, `_temp_counter` and `_label_counter`. */
  datatype Counters = Counters(temps: nat, labels: nat)

  /** Why generation stops with a Python exception instead of a result. */
  datatype GenError =
    | MissingOperand                 // `args[0]`/`args[1]` of a builtin does not exist (IndexError)
    | InliningTooDeep(name: string)  // expanding user calls went deeper than the fuel allows (RecursionError)
    | JoinOfNone(name: string)       // `', '.join` met an argument without a value (TypeError)

  /** The code of one node, its value, and the counters afterwards. */
  datatype Gen = Gen(code: seq<Line>, value: Option<Operand>, next: Counters)

  /** The code of a list of nodes, their values in order, and the counters afterwards. */
  datatype GenList = GenList(code: seq<Line>, values: seq<Option<Operand>>, next: Counters)

  /** Python truthiness of a result: `None` and the empty name are false. */
  predicate Truthy(v: Option<Operand>)
  {
    v.Some? && (v.value.Temp? || v.value.name != "")
  }

  /** A result as `if t: ... t ... else: ... NIL ...` uses it. */
  function OrNil(v: Option<Operand>): Option<Operand>
  {
    if Truthy(v) then v else None
  }

  /** The environment a function body is generated in: each parameter names itself. */
  function ParamEnv(params: seq<string>): (env: map<string, Operand>)
    ensures forall p :: p in env <==> p in params
    ensures forall p :: p in env ==> env[p] == Name(p)
  {
    map p | p in params :: Name(p)
  }

  function ParamComments(params: seq<string>): seq<Line>
  {
    if params == [] then [] else ParamComments(params[..|params| - 1]) + [ParamComment(params[|params| - 1])]
  }

  /** `for p, at in zip(params, arg_temps)`: one assignment per pair, as many
      as the shorter list has. */
  function ParamAssigns(params: seq<string>, values: seq<Option<Operand>>): seq<Line>
  {
    ZipAssigns(params, values, if |params| <= |values| then |params| else |values|)
  }

  /** The first `n` assignments of the zip. */
  function ZipAssigns(params: seq<string>, values: seq<Option<Operand>>, n: nat): (lines: seq<Line>)
    requires n <= |params| && n <= |values|
    ensures |lines| == n
    ensures forall i :: 0 <= i < n ==> lines[i] == ParamAssign(params[i], values[i])
  {
    if n == 0 then [] else ZipAssigns(params, values, n - 1) + [ParamAssign(params[n - 1], values[n - 1])]
  }

  function Bump(c: Counters): Counters
  {
    c.(temps := c.temps + 1)
  }

  /** `gen_code(node, env)` with the counters `c` and the user functions
      `fns`; each expansion of a user call uses up one unit of `fuel`. */
  function Lower(fns: map<string, FunInfo>, fuel: nat, node: Node, env: map<string, Operand>, c: Counters): (r: Result<Gen, GenError>)
    ensures r.Ok? ==> c.temps <= r.value.next.temps && c.labels <= r.value.next.labels
    decreases fuel, node, 2
  {
    match node
    case Number(v) => Ok(Gen([LoadConst(c.temps, v)], Some(Temp(c.temps)), Bump(c)))
    case Nil => Ok(Gen([LoadNil(c.temps)], Some(Temp(c.temps)), Bump(c)))
    case Symbol(tok, lexeme) =>
      if tok == Id && lexeme in env then Ok(Gen([], Some(env[lexeme]), c))
      else Ok(Gen([LoadSymbol(c.temps, lexeme)], Some(Temp(c.temps)), Bump(c)))
    case Defun(name, params, body) =>
      (match Lower(fns, fuel, body, ParamEnv(params), c)
       case Err(e) => Err(e)
       case Ok(b) =>
         Ok(Gen([FunctionComment(name), FunctionEntry(name)] + ParamComments(params) + b.code + [Return(OrNil(b.value))],
                None, b.next)))
    case If(cond, thenBranch, elseBranch) => LowerIf(fns, fuel, cond, thenBranch, elseBranch, env, c)
    case Application(op, args) => LowerApplication(fns, fuel, op, args, env, c)
  }

  /** `if`: the condition first, then the rest. */
  function LowerIf(fns: map<string, FunInfo>, fuel: nat, cond: Node, thenBranch: Node, elseBranch: Node,
                   env: map<string, Operand>, c: Counters): (r: Result<Gen, GenError>)
    ensures r.Ok? ==> c.temps <= r.value.next.temps && c.labels <= r.value.next.labels
    decreases fuel, If(cond, thenBranch, elseBranch), 1
  {
    match Lower(fns, fuel, cond, env, c)
    case Err(e) => Err(e)
    case Ok(gc) => LowerBranches(fns, fuel, cond, thenBranch, elseBranch, env, gc)
  }

  /** The rest of an `if` after the condition `gc`: three fresh labels,
      then the then-block from the counters past them. */
  function LowerBranches(fns: map<string, FunInfo>, fuel: nat, cond: Node, thenBranch: Node, elseBranch: Node,
                         env: map<string, Operand>, gc: Gen): (r: Result<Gen, GenError>)
    ensures r.Ok? ==> gc.next.temps <= r.value.next.temps && gc.next.labels + 3 <= r.value.next.labels
    decreases fuel, If(cond, thenBranch, elseBranch), 0, 1
  {
    match Lower(fns, fuel, thenBranch, env, gc.next.(labels := gc.next.labels + 3))
    case Err(e) => Err(e)
    case Ok(gt) => LowerElse(fns, fuel, cond, thenBranch, elseBranch, env, gc, gt)
  }

  /** The end of an `if`: one fresh result temporary, the else-block, and
      the whole block: the jump on the condition, the then-block and the
      else-block each moving its value into the result, and the three
      labels `L`, `L+1`, `L+2` handed out right after the condition. */
  function LowerElse(fns: map<string, FunInfo>, fuel: nat, cond: Node, thenBranch: Node, elseBranch: Node,
                     env: map<string, Operand>, gc: Gen, gt: Gen): (r: Result<Gen, GenError>)
    ensures r.Ok? ==> gt.next.temps < r.value.next.temps && gt.next.labels <= r.value.next.labels
    decreases fuel, If(cond, thenBranch, elseBranch), 0, 0
  {
    var lTrue, lFalse, lEnd := gc.next.labels, gc.next.labels + 1, gc.next.labels + 2;
    var res := gt.next.temps;
    match Lower(fns, fuel, elseBranch, env, Bump(gt.next))
    case Err(e) => Err(e)
    case Ok(ge) =>
      Ok(Gen(gc.code + [IfGoto(gc.value, lTrue), Goto(lFalse), LabelDef(lTrue)]
             + gt.code + [Move(res, OrNil(gt.value)), Goto(lEnd), LabelDef(lFalse)]
             + ge.code + [Move(res, OrNil(ge.value)), LabelDef(lEnd)],
             Some(Temp(res)), ge.next))
  }

  /** The operator text of an arithmetic or comparison line: the lexeme, or
      the token's symbol when the lexeme is empty. */
  function OpSymbol(op: Node): string
    requires op.Symbol?
  {
    if op.lexeme != "" then op.lexeme else OpTokenToSymbol(op.token)
  }

  /** An application, dispatched as the analyser dispatches it. */
  function LowerApplication(fns: map<string, FunInfo>, fuel: nat, op: Node, args: seq<Node>,
                            env: map<string, Operand>, c: Counters): (r: Result<Gen, GenError>)
    ensures r.Ok? ==> c.temps <= r.value.next.temps && c.labels <= r.value.next.labels
    decreases fuel, Application(op, args), 0
  {
    match Classify(fns, op)
    case NotASymbol => Ok(Gen([InvalidOperatorComment], None, c))
    case UserFunction(f) => LowerInline(fns, fuel, f, args, env, c)
    case Arith => LowerBuiltin(fns, fuel, args, env, c, 2, BinaryShape(OpSymbol(op)))
    case Comparison => LowerBuiltin(fns, fuel, args, env, c, 2, BinaryShape(OpSymbol(op)))
    case ConsOp => LowerBuiltin(fns, fuel, args, env, c, 2, BuiltinShape("CONS"))
    case CarOp => LowerBuiltin(fns, fuel, args, env, c, 1, BuiltinShape("CAR"))
    case CdrOp => LowerBuiltin(fns, fuel, args, env, c, 1, BuiltinShape("CDR"))
    case EqBuiltin => LowerBuiltin(fns, fuel, args, env, c, 2, BuiltinShape("EQ"))
    case UnknownFunction(f) => LowerCall(fns, fuel, f, args, env, c)
    case OtherToken => LowerCall(fns, fuel, op.lexeme, args, env, c)
  }

  /** How a builtin prints its line: `t = a op b` or `t = F(a, ...)`. */
  datatype Shape = BinaryShape(symbol: string) | BuiltinShape(fn: string)

  function ShapeLine(shape: Shape, dst: nat, values: seq<Option<Operand>>): Line
    requires |values| >= 1
  {
    match shape
    case BinaryShape(symbol) => BinaryOp(dst, values[0], symbol, if |values| >= 2 then values[1] else None)
    case BuiltinShape(fn) => Builtin(dst, fn, values)
  }

  /** A builtin reads `args[0]` (and then `args[1]` when it takes two):
      their code in order, then one line into a fresh temporary. A missing
      operand raises; arguments past those are not generated. */
  function LowerBuiltin(fns: map<string, FunInfo>, fuel: nat, args: seq<Node>, env: map<string, Operand>,
                        c: Counters, arity: nat, shape: Shape): (r: Result<Gen, GenError>)
    requires 1 <= arity <= 2
    ensures r.Ok? ==> c.temps <= r.value.next.temps && c.labels <= r.value.next.labels
    decreases fuel, args, 1
  {
    if |args| == 0 then Err(MissingOperand)
    else
      match Lower(fns, fuel, args[0], env, c)
      case Err(e) => Err(e)
      case Ok(g1) =>
        if arity == 1 then
          Ok(Gen(g1.code + [ShapeLine(shape, g1.next.temps, [g1.value])], Some(Temp(g1.next.temps)), Bump(g1.next)))
        else if |args| == 1 then Err(MissingOperand)
        else
          match Lower(fns, fuel, args[1], env, g1.next)
          case Err(e) => Err(e)
          case Ok(g2) =>
            Ok(Gen(g1.code + g2.code + [ShapeLine(shape, g2.next.temps, [g1.value, g2.value])],
                   Some(Temp(g2.next.temps)), Bump(g2.next)))
  }

  /** A call of a user function is expanded in place: the arguments, one
      assignment per parameter, the body generated again with every
      parameter naming itself, and a fresh temporary for the result. */
  function LowerInline(fns: map<string, FunInfo>, fuel: nat, f: string, args: seq<Node>,
                       env: map<string, Operand>, c: Counters): (r: Result<Gen, GenError>)
    requires f in fns
    ensures r.Ok? ==> c.temps <= r.value.next.temps && c.labels <= r.value.next.labels
    decreases fuel, args, 1
  {
    match LowerArgs(fns, fuel, args, env, c)
    case Err(e) => Err(e)
    case Ok(ga) =>
      if fuel == 0 then Err(InliningTooDeep(f))
      else
        var info := fns[f];
        match Lower(fns, fuel - 1, info.body, ParamEnv(info.params), ga.next)
        case Err(e) => Err(e)
        case Ok(gb) =>
          Ok(Gen(ga.code + ParamAssigns(info.params, ga.values) + gb.code + [InlineResult(gb.next.temps, OrNil(gb.value), f)],
                 Some(Temp(gb.next.temps)), Bump(gb.next)))
  }

  /** A call the generator does not expand: `t = CALL(f, a, ...)`; an
      argument without a value makes the join raise. */
  function LowerCall(fns: map<string, FunInfo>, fuel: nat, f: string, args: seq<Node>,
                     env: map<string, Operand>, c: Counters): (r: Result<Gen, GenError>)
    ensures r.Ok? ==> c.temps <= r.value.next.temps && c.labels <= r.value.next.labels
    decreases fuel, args, 1
  {
    match LowerArgs(fns, fuel, args, env, c)
    case Err(e) => Err(e)
    case Ok(ga) =>
      if None in ga.values then Err(JoinOfNone(f))
      else Ok(Gen(ga.code + [Call(ga.next.temps, f, Present(ga.values))], Some(Temp(ga.next.temps)), Bump(ga.next)))
  }

  /** The operands of a list in which every value is present. */
  function Present(values: seq<Option<Operand>>): (ops: seq<Operand>)
    requires None !in values
    ensures |ops| == |values| && forall i :: 0 <= i < |values| ==> values[i] == Some(ops[i])
  {
    if values == [] then [] else Present(values[..|values| - 1]) + [values[|values| - 1].value]
  }

  /** `for a in args: a_code, a_temp = gen_code(a, env); ...`: the arguments
      left to right, each starting from the counters the previous one left. */
  function LowerArgs(fns: map<string, FunInfo>, fuel: nat, args: seq<Node>, env: map<string, Operand>, c: Counters): (r: Result<GenList, GenError>)
    ensures r.Ok? ==> |r.value.values| == |args|
    ensures r.Ok? ==> c.temps <= r.value.next.temps && c.labels <= r.value.next.labels
    decreases fuel, args, 0
  {
    if args == [] then Ok(GenList([], [], c))
    else
      match LowerArgs(fns, fuel, args[..|args| - 1], env, c)
      case Err(e) => Err(e)
      case Ok(gl) =>
        match Lower(fns, fuel, args[|args| - 1], env, gl.next)
        case Err(e) => Err(e)
        case Ok(g) => Ok(GenList(gl.code + g.code, gl.values + [g.value], g.next))
  }
}

module CodeGenProperties {
  import opened Basics
  import opened LispAst
  import opened Semantics
  import opened CodeGen

  // ---------------------------------------------------------------------
  // What a piece of code defines and uses

  /** The labels a line defines. */
  function LineLabels(l: Line): multiset<nat>
  {
    if l.LabelDef? then multiset{l.id} else multiset{}
  }

  /** The labels a line jumps to. */
  function LineJumps(l: Line): set<nat>
  {
    if l.IfGoto? || l.Goto? then {l.target} else {}
  }

  /** The temporaries a line writes. */
  function LineWrites(l: Line): set<nat>
  {
    match l
    case LoadConst(dst, _) => {dst}
    case LoadNil(dst) => {dst}
    case LoadSymbol(dst, _) => {dst}
    case Move(dst, _) => {dst}
    case InlineResult(dst, _, _) => {dst}
    case BinaryOp(dst, _, _, _) => {dst}
    case Builtin(dst, _, _) => {dst}
    case Call(dst, _, _) => {dst}
    case _ => {}
  }

  function LabelDefs(code: seq<Line>): multiset<nat>
  {
    if code == [] then multiset{} else LabelDefs(code[..|code| - 1]) + LineLabels(code[|code| - 1])
  }

  function JumpTargets(code: seq<Line>): set<nat>
  {
    if code == [] then {} else JumpTargets(code[..|code| - 1]) + LineJumps(code[|code| - 1])
  }

  function Writes(code: seq<Line>): set<nat>
  {
    if code == [] then {} else Writes(code[..|code| - 1]) + LineWrites(code[|code| - 1])
  }

  lemma {:induction false} LabelsAppend(a: seq<Line>, b: seq<Line>)
    ensures LabelDefs(a + b) == LabelDefs(a) + LabelDefs(b)
    decreases |b|
  {
    if b == [] {
      assert a + b == a;
    } else {
      assert (a + b)[..|a + b| - 1] == a + b[..|b| - 1];
      assert (a + b)[|a + b| - 1] == b[|b| - 1];
      LabelsAppend(a, b[..|b| - 1]);
    }
  }

  lemma {:induction false} JumpsAppend(a: seq<Line>, b: seq<Line>)
    ensures JumpTargets(a + b) == JumpTargets(a) + JumpTargets(b)
    decreases |b|
  {
    if b == [] {
      assert a + b == a;
    } else {
      assert (a + b)[..|a + b| - 1] == a + b[..|b| - 1];
      assert (a + b)[|a + b| - 1] == b[|b| - 1];
      JumpsAppend(a, b[..|b| - 1]);
    }
  }

  lemma {:induction false} WritesAppend(a: seq<Line>, b: seq<Line>)
    ensures Writes(a + b) == Writes(a) + Writes(b)
    decreases |b|
  {
    if b == [] {
      assert a + b == a;
    } else {
      assert (a + b)[..|a + b| - 1] == a + b[..|b| - 1];
      assert (a + b)[|a + b| - 1] == b[|b| - 1];
      WritesAppend(a, b[..|b| - 1]);
    }
  }

  lemma FoldsAppend(a: seq<Line>, b: seq<Line>)
    ensures LabelDefs(a + b) == LabelDefs(a) + LabelDefs(b)
    ensures JumpTargets(a + b) == JumpTargets(a) + JumpTargets(b)
    ensures Writes(a + b) == Writes(a) + Writes(b)
  {
    LabelsAppend(a, b);
    JumpsAppend(a, b);
    WritesAppend(a, b);
  }

  /** `code` defines each label of `[lo, hi)` exactly once and no other label. */
  ghost predicate DefinesOnce(code: seq<Line>, lo: nat, hi: nat)
  {
    forall x :: LabelDefs(code)[x] == if lo <= x < hi then 1 else 0
  }

  /** `code` jumps only to labels of `[lo, hi)`. */
  ghost predicate JumpsIn(code: seq<Line>, lo: nat, hi: nat)
  {
    forall x :: x in JumpTargets(code) ==> lo <= x < hi
  }

  /** `code` writes only temporaries of `[tlo, thi)`. */
  ghost predicate WritesIn(code: seq<Line>, tlo: nat, thi: nat)
  {
    forall k :: k in Writes(code) ==> tlo <= k < thi
  }

  /** `code` defines each label of `[lo, hi)` exactly once and no other
      label, jumps only to those labels, and writes only temporaries of
      `[tlo, thi)`. */
  ghost predicate Footprint(code: seq<Line>, lo: nat, hi: nat, tlo: nat, thi: nat)
  {
    DefinesOnce(code, lo, hi) && JumpsIn(code, lo, hi) && WritesIn(code, tlo, thi)
  }

  /** `code` was generated from the counters `c0` and left them at `c1`:
      its footprint is what the counters handed out in between. */
  ghost predicate Spans(code: seq<Line>, c0: Counters, c1: Counters)
  {
    c0.labels <= c1.labels && c0.temps <= c1.temps && Footprint(code, c0.labels, c1.labels, c0.temps, c1.temps)
  }

  /** Lines that neither define nor use a label nor write a temporary. */
  ghost predicate Inert(code: seq<Line>)
  {
    LabelDefs(code) == multiset{} && JumpTargets(code) == {} && Writes(code) == {}
  }

  lemma {:induction false} ParamCommentsInert(params: seq<string>)
    ensures Inert(ParamComments(params))
    decreases |params|
  {
    if params != [] {
      var init := params[..|params| - 1];
      ParamCommentsInert(init);
      assert ParamComments(params) == ParamComments(init) + [ParamComment(params[|params| - 1])];
      FoldsAppend(ParamComments(init), [ParamComment(params[|params| - 1])]);
      SingleLine(ParamComment(params[|params| - 1]));
    }
  }

  lemma {:induction false} ZipAssignsInert(params: seq<string>, values: seq<Option<Operand>>, n: nat)
    requires n <= |params| && n <= |values|
    ensures Inert(ZipAssigns(params, values, n))
    decreases n
  {
    if n > 0 {
      ZipAssignsInert(params, values, n - 1);
      FoldsAppend(ZipAssigns(params, values, n - 1), [ParamAssign(params[n - 1], values[n - 1])]);
      SingleLine(ParamAssign(params[n - 1], values[n - 1]));
    }
  }

  lemma ParamAssignsInert(params: seq<string>, values: seq<Option<Operand>>)
    ensures Inert(ParamAssigns(params, values))
  {
    ZipAssignsInert(params, values, if |params| <= |values| then |params| else |values|);
  }

  lemma SingleLine(l: Line)
    ensures LabelDefs([l]) == LineLabels(l) && JumpTargets([l]) == LineJumps(l) && Writes([l]) == LineWrites(l)
  {
    assert [l][..0] == [];
  }

  /** Every environment the generator builds maps names to names. */
  ghost predicate NamesOnly(env: map<string, Operand>)
  {
    forall x :: x in env ==> env[x].Name?
  }

  /** A result that is a temporary is one this step allocated. */
  predicate FreshValue(v: Option<Operand>, lo: nat, hi: nat)
  {
    v.Some? && v.value.Temp? ==> lo <= v.value.index < hi
  }

  ghost predicate AllFresh(values: seq<Option<Operand>>, lo: nat, hi: nat)
  {
    forall i :: 0 <= i < |values| ==> FreshValue(values[i], lo, hi)
  }

  // ---------------------------------------------------------------------
  // Composing footprints

  lemma InertConcat(a: seq<Line>, b: seq<Line>)
    requires Inert(a) && Inert(b)
    ensures Inert(a + b)
  {
    FoldsAppend(a, b);
  }

  lemma Concat(a: seq<Line>, b: seq<Line>, lo: nat, mid: nat, hi: nat, tlo: nat, tmid: nat, thi: nat)
    requires lo <= mid <= hi && tlo <= tmid <= thi
    requires Footprint(a, lo, mid, tlo, tmid) && Footprint(b, mid, hi, tmid, thi)
    ensures Footprint(a + b, lo, hi, tlo, thi)
  {
    FoldsAppend(a, b);
  }

  /** One line that writes the temporary `t` and touches no label. */
  lemma WriteLine(l: Line, lo: nat, t: nat)
    requires LineLabels(l) == multiset{} && LineJumps(l) == {} && LineWrites(l) == {t}
    ensures Footprint([l], lo, lo, t, t + 1)
  {
    SingleLine(l);
  }

  /** `code` followed by one line writing the fresh temporary `thi`. */
  lemma ThenWrite(code: seq<Line>, l: Line, lo: nat, hi: nat, tlo: nat, thi: nat)
    requires lo <= hi && tlo <= thi
    requires Footprint(code, lo, hi, tlo, thi)
    requires LineLabels(l) == multiset{} && LineJumps(l) == {} && LineWrites(l) == {thi}
    ensures Footprint(code + [l], lo, hi, tlo, thi + 1)
  {
    WriteLine(l, hi, thi);
    Concat(code, [l], lo, hi, hi, tlo, thi, thi + 1);
  }

  lemma ShapeLineWrites(shape: Shape, dst: nat, values: seq<Option<Operand>>)
    requires |values| >= 1
    ensures LineLabels(ShapeLine(shape, dst, values)) == multiset{}
    ensures LineJumps(ShapeLine(shape, dst, values)) == {}
    ensures LineWrites(ShapeLine(shape, dst, values)) == {dst}
  {
  }

  lemma ThreeLines(a: Line, b: Line, d: Line)
    ensures LabelDefs([a, b, d]) == LineLabels(a) + LineLabels(b) + LineLabels(d)
    ensures JumpTargets([a, b, d]) == LineJumps(a) + LineJumps(b) + LineJumps(d)
    ensures Writes([a, b, d]) == LineWrites(a) + LineWrites(b) + LineWrites(d)
  {
    assert [a, b, d] == [a] + [b] + [d];
    FoldsAppend([a], [b]);
    FoldsAppend([a] + [b], [d]);
    SingleLine(a);
    SingleLine(b);
    SingleLine(d);
  }

  lemma TwoLines(a: Line, b: Line)
    ensures LabelDefs([a, b]) == LineLabels(a) + LineLabels(b)
    ensures JumpTargets([a, b]) == LineJumps(a) + LineJumps(b)
    ensures Writes([a, b]) == LineWrites(a) + LineWrites(b)
  {
    assert [a, b] == [a] + [b];
    FoldsAppend([a], [b]);
    SingleLine(a);
    SingleLine(b);
  }

  lemma IfLabels(cc: seq<Line>, tc: seq<Line>, ec: seq<Line>, a: seq<Line>, b: seq<Line>, d: seq<Line>,
                 l0: nat, l1: nat, l2: nat, l3: nat)
    requires l0 <= l1 && l1 + 3 <= l2 <= l3
    requires DefinesOnce(cc, l0, l1) && DefinesOnce(tc, l1 + 3, l2) && DefinesOnce(ec, l2, l3)
    requires DefinesOnce(a, l1, l1 + 1) && DefinesOnce(b, l1 + 1, l1 + 2) && DefinesOnce(d, l1 + 2, l1 + 3)
    ensures DefinesOnce(cc + a + tc + b + ec + d, l0, l3)
  {
    LabelsAppend(cc, a);
    LabelsAppend(cc + a, tc);
    LabelsAppend(cc + a + tc, b);
    LabelsAppend(cc + a + tc + b, ec);
    LabelsAppend(cc + a + tc + b + ec, d);
    IfCounts(LabelDefs(cc), LabelDefs(a), LabelDefs(tc), LabelDefs(b), LabelDefs(ec), LabelDefs(d), l0, l1, l2, l3);
  }

  /** The label counts of the six parts of an `if` add up to one per label of `[l0, l3)`. */
  lemma IfCounts(mc: multiset<nat>, ma: multiset<nat>, mt: multiset<nat>, mb: multiset<nat>, me: multiset<nat>, md: multiset<nat>,
                 l0: nat, l1: nat, l2: nat, l3: nat)
    requires l0 <= l1 && l1 + 3 <= l2 <= l3
    requires forall x :: mc[x] == if l0 <= x < l1 then 1 else 0
    requires forall x :: ma[x] == if x == l1 then 1 else 0
    requires forall x :: mt[x] == if l1 + 3 <= x < l2 then 1 else 0
    requires forall x :: mb[x] == if x == l1 + 1 then 1 else 0
    requires forall x :: me[x] == if l2 <= x < l3 then 1 else 0
    requires forall x :: md[x] == if x == l1 + 2 then 1 else 0
    ensures forall x :: (mc + ma + mt + mb + me + md)[x] == if l0 <= x < l3 then 1 else 0
  {
    forall x
      ensures (mc + ma + mt + mb + me + md)[x] == if l0 <= x < l3 then 1 else 0
    {
      assert (mc + ma + mt + mb + me + md)[x] == mc[x] + ma[x] + mt[x] + mb[x] + me[x] + md[x];
    }
  }

  lemma IfJumps(cc: seq<Line>, tc: seq<Line>, ec: seq<Line>, a: seq<Line>, b: seq<Line>, d: seq<Line>,
                l0: nat, l1: nat, l2: nat, l3: nat)
    requires l0 <= l1 && l1 + 3 <= l2 <= l3
    requires JumpsIn(cc, l0, l1) && JumpsIn(tc, l1 + 3, l2) && JumpsIn(ec, l2, l3)
    requires JumpsIn(a, l1, l1 + 2) && JumpsIn(b, l1 + 2, l1 + 3) && JumpsIn(d, l1, l1)
    ensures JumpsIn(cc + a + tc + b + ec + d, l0, l3)
  {
    FoldsAppend(cc, a);
    FoldsAppend(cc + a, tc);
    FoldsAppend(cc + a + tc, b);
    FoldsAppend(cc + a + tc + b, ec);
    FoldsAppend(cc + a + tc + b + ec, d);
  }

  lemma IfWrites(cc: seq<Line>, tc: seq<Line>, ec: seq<Line>, a: seq<Line>, b: seq<Line>, d: seq<Line>,
                 t0: nat, t1: nat, t2: nat, t3: nat)
    requires t0 <= t1 <= t2 && t2 + 1 <= t3
    requires WritesIn(cc, t0, t1) && WritesIn(tc, t1, t2) && WritesIn(ec, t2 + 1, t3)
    requires WritesIn(a, t2, t2) && WritesIn(b, t2, t2 + 1) && WritesIn(d, t2, t2 + 1)
    ensures WritesIn(cc + a + tc + b + ec + d, t0, t3)
  {
    FoldsAppend(cc, a);
    FoldsAppend(cc + a, tc);
    FoldsAppend(cc + a + tc, b);
    FoldsAppend(cc + a + tc + b, ec);
    FoldsAppend(cc + a + tc + b + ec, d);
  }

  lemma IfHead(v: Option<Operand>, l: nat, t: nat)
    ensures var a := [IfGoto(v, l), Goto(l + 1), LabelDef(l)];
      DefinesOnce(a, l, l + 1) && JumpsIn(a, l, l + 2) && WritesIn(a, t, t)
  {
    ThreeLines(IfGoto(v, l), Goto(l + 1), LabelDef(l));
  }

  lemma ThenTail(vt: Option<Operand>, l: nat, t: nat)
    ensures var b := [Move(t, vt), Goto(l + 2), LabelDef(l + 1)];
      DefinesOnce(b, l + 1, l + 2) && JumpsIn(b, l + 2, l + 3) && WritesIn(b, t, t + 1)
  {
    ThreeLines(Move(t, vt), Goto(l + 2), LabelDef(l + 1));
  }

  lemma ElseTail(ve: Option<Operand>, l: nat, t: nat)
    ensures var d := [Move(t, ve), LabelDef(l + 2)];
      DefinesOnce(d, l + 2, l + 3) && JumpsIn(d, l, l) && WritesIn(d, t, t + 1)
  {
    TwoLines(Move(t, ve), LabelDef(l + 2));
  }

  /** The frame an `if` puts around its three parts: labels `L`, `L+1`,
      `L+2` are defined once each, and the shared result temporary sits
      between the then-part's temporaries and the else-part's. */
  lemma IfCodeFootprint(cc: seq<Line>, tc: seq<Line>, ec: seq<Line>, v: Option<Operand>, vt: Option<Operand>, ve: Option<Operand>,
                        l0: nat, l1: nat, l2: nat, l3: nat, t0: nat, t1: nat, t2: nat, t3: nat)
    requires l0 <= l1 && l1 + 3 <= l2 <= l3 && t0 <= t1 <= t2 && t2 + 1 <= t3
    requires Footprint(cc, l0, l1, t0, t1)
    requires Footprint(tc, l1 + 3, l2, t1, t2)
    requires Footprint(ec, l2, l3, t2 + 1, t3)
    ensures Footprint(cc + [IfGoto(v, l1), Goto(l1 + 1), LabelDef(l1)]
                      + tc + [Move(t2, vt), Goto(l1 + 2), LabelDef(l1 + 1)]
                      + ec + [Move(t2, ve), LabelDef(l1 + 2)], l0, l3, t0, t3)
  {
    var a := [IfGoto(v, l1), Goto(l1 + 1), LabelDef(l1)];
    var b := [Move(t2, vt), Goto(l1 + 2), LabelDef(l1 + 1)];
    var d := [Move(t2, ve), LabelDef(l1 + 2)];
    IfHead(v, l1, t2);
    ThenTail(vt, l1, t2);
    ElseTail(ve, l1, t2);
    IfLabels(cc, tc, ec, a, b, d, l0, l1, l2, l3);
    IfJumps(cc, tc, ec, a, b, d, l0, l1, l2, l3);
    IfWrites(cc, tc, ec, a, b, d, t0, t1, t2, t3);
  }

  lemma InertAround(p: seq<Line>, m: seq<Line>, q: seq<Line>, lo: nat, hi: nat, tlo: nat, thi: nat)
    requires Inert(p) && Inert(q) && Footprint(m, lo, hi, tlo, thi)
    ensures Footprint(p + m + q, lo, hi, tlo, thi)
  {
    FoldsAppend(p, m);
    FoldsAppend(p + m, q);
  }

  lemma ThenInert(m: seq<Line>, q: seq<Line>, lo: nat, hi: nat, tlo: nat, thi: nat)
    requires Inert(q) && Footprint(m, lo, hi, tlo, thi)
    ensures Footprint(m + q, lo, hi, tlo, thi)
  {
    FoldsAppend(m, q);
  }

  lemma WidenTemps(m: seq<Line>, lo: nat, hi: nat, tlo: nat, thi: nat, thi': nat)
    requires thi <= thi' && Footprint(m, lo, hi, tlo, thi)
    ensures Footprint(m, lo, hi, tlo, thi')
  {
  }

  lemma DefunFrame(name: string, params: seq<string>, body: seq<Line>, result: Option<Operand>, lo: nat, hi: nat, tlo: nat, thi: nat)
    requires Footprint(body, lo, hi, tlo, thi)
    ensures Footprint([FunctionComment(name), FunctionEntry(name)] + ParamComments(params) + body + [Return(result)], lo, hi, tlo, thi)
  {
    TwoLines(FunctionComment(name), FunctionEntry(name));
    ParamCommentsInert(params);
    InertConcat([FunctionComment(name), FunctionEntry(name)], ParamComments(params));
    SingleLine(Return(result));
    InertAround([FunctionComment(name), FunctionEntry(name)] + ParamComments(params), body, [Return(result)], lo, hi, tlo, thi);
  }

  // ---------------------------------------------------------------------
  // Fresh names: the counters hand out every temporary and label once

  /** The code of a node defines exactly the labels the label counter
      handed out while generating it, each once, jumps only to those, and
      writes only the temporaries the temp counter handed out; its value is
      a parameter name, one of those temporaries, or nothing. */
  lemma {:induction false} LowerFootprint(fns: map<string, FunInfo>, fuel: nat, node: Node, env: map<string, Operand>, c: Counters)
    requires NamesOnly(env)
    requires Lower(fns, fuel, node, env, c).Ok?
    ensures var g := Lower(fns, fuel, node, env, c).value;
      Spans(g.code, c, g.next) && FreshValue(g.value, c.temps, g.next.temps)
    decreases fuel, node, 2
  {
    match node
    case Number(v) => WriteLine(LoadConst(c.temps, v), c.labels, c.temps);
    case Nil => WriteLine(LoadNil(c.temps), c.labels, c.temps);
    case Symbol(tok, lexeme) =>
      if !(tok == Id && lexeme in env) {
        WriteLine(LoadSymbol(c.temps, lexeme), c.labels, c.temps);
      }
    case Defun(name, params, body) =>
      var b := Lower(fns, fuel, body, ParamEnv(params), c).value;
      LowerFootprint(fns, fuel, body, ParamEnv(params), c);
      DefunFrame(name, params, b.code, OrNil(b.value), c.labels, b.next.labels, c.temps, b.next.temps);
    case If(cond, thenBranch, elseBranch) => LowerIfFootprint(fns, fuel, cond, thenBranch, elseBranch, env, c);
    case Application(op, args) => LowerApplicationFootprint(fns, fuel, op, args, env, c);
  }

  lemma {:induction false} LowerIfFootprint(fns: map<string, FunInfo>, fuel: nat, cond: Node, thenBranch: Node, elseBranch: Node,
                                            env: map<string, Operand>, c: Counters)
    requires NamesOnly(env)
    requires LowerIf(fns, fuel, cond, thenBranch, elseBranch, env, c).Ok?
    ensures var g := LowerIf(fns, fuel, cond, thenBranch, elseBranch, env, c).value;
      Spans(g.code, c, g.next) && FreshValue(g.value, c.temps, g.next.temps)
    decreases fuel, If(cond, thenBranch, elseBranch), 1
  {
    var gc := Lower(fns, fuel, cond, env, c).value;
    LowerFootprint(fns, fuel, cond, env, c);
    LowerBranchesFootprint(fns, fuel, cond, thenBranch, elseBranch, env, c, gc);
  }

  lemma {:induction false} LowerBranchesFootprint(fns: map<string, FunInfo>, fuel: nat, cond: Node, thenBranch: Node, elseBranch: Node,
                                                  env: map<string, Operand>, c: Counters, gc: Gen)
    requires NamesOnly(env) && Spans(gc.code, c, gc.next)
    requires LowerBranches(fns, fuel, cond, thenBranch, elseBranch, env, gc).Ok?
    ensures var g := LowerBranches(fns, fuel, cond, thenBranch, elseBranch, env, gc).value;
      Spans(g.code, c, g.next) && FreshValue(g.value, c.temps, g.next.temps)
    decreases fuel, If(cond, thenBranch, elseBranch), 0, 1
  {
    var ct := gc.next.(labels := gc.next.labels + 3);
    assert Lower(fns, fuel, thenBranch, env, ct).Ok?;
    var gt := Lower(fns, fuel, thenBranch, env, ct).value;
    assert LowerBranches(fns, fuel, cond, thenBranch, elseBranch, env, gc) == LowerElse(fns, fuel, cond, thenBranch, elseBranch, env, gc, gt);
    LowerFootprint(fns, fuel, thenBranch, env, ct);
    LowerElseFootprint(fns, fuel, cond, thenBranch, elseBranch, env, c, gc, gt);
  }

  lemma {:induction false} LowerElseFootprint(fns: map<string, FunInfo>, fuel: nat, cond: Node, thenBranch: Node, elseBranch: Node,
                                              env: map<string, Operand>, c: Counters, gc: Gen, gt: Gen)
    requires NamesOnly(env) && Spans(gc.code, c, gc.next) && Spans(gt.code, gc.next.(labels := gc.next.labels + 3), gt.next)
    requires LowerElse(fns, fuel, cond, thenBranch, elseBranch, env, gc, gt).Ok?
    ensures var g := LowerElse(fns, fuel, cond, thenBranch, elseBranch, env, gc, gt).value;
      Spans(g.code, c, g.next) && FreshValue(g.value, c.temps, g.next.temps)
    decreases fuel, If(cond, thenBranch, elseBranch), 0, 0
  {
    assert Lower(fns, fuel, elseBranch, env, Bump(gt.next)).Ok?;
    var ge := Lower(fns, fuel, elseBranch, env, Bump(gt.next)).value;
    LowerFootprint(fns, fuel, elseBranch, env, Bump(gt.next));
    IfCodeFootprint(gc.code, gt.code, ge.code, gc.value, OrNil(gt.value), OrNil(ge.value),
                    c.labels, gc.next.labels, gt.next.labels, ge.next.labels, c.temps, gc.next.temps, gt.next.temps, ge.next.temps);
  }

  lemma {:induction false} LowerApplicationFootprint(fns: map<string, FunInfo>, fuel: nat, op: Node, args: seq<Node>,
                                                     env: map<string, Operand>, c: Counters)
    requires NamesOnly(env)
    requires LowerApplication(fns, fuel, op, args, env, c).Ok?
    ensures var g := LowerApplication(fns, fuel, op, args, env, c).value;
      Spans(g.code, c, g.next) && FreshValue(g.value, c.temps, g.next.temps)
    decreases fuel, Application(op, args), 0
  {
    match Classify(fns, op)
    case NotASymbol => SingleLine(InvalidOperatorComment);
    case UserFunction(f) => LowerInlineFootprint(fns, fuel, f, args, env, c);
    case Arith => LowerBuiltinFootprint(fns, fuel, args, env, c, 2, BinaryShape(OpSymbol(op)));
    case Comparison => LowerBuiltinFootprint(fns, fuel, args, env, c, 2, BinaryShape(OpSymbol(op)));
    case ConsOp => LowerBuiltinFootprint(fns, fuel, args, env, c, 2, BuiltinShape("CONS"));
    case CarOp => LowerBuiltinFootprint(fns, fuel, args, env, c, 1, BuiltinShape("CAR"));
    case CdrOp => LowerBuiltinFootprint(fns, fuel, args, env, c, 1, BuiltinShape("CDR"));
    case EqBuiltin => LowerBuiltinFootprint(fns, fuel, args, env, c, 2, BuiltinShape("EQ"));
    case UnknownFunction(f) => LowerCallFootprint(fns, fuel, f, args, env, c);
    case OtherToken => LowerCallFootprint(fns, fuel, op.lexeme, args, env, c);
  }

  lemma {:induction false} LowerBuiltinFootprint(fns: map<string, FunInfo>, fuel: nat, args: seq<Node>, env: map<string, Operand>,
                                                 c: Counters, arity: nat, shape: Shape)
    requires 1 <= arity <= 2
    requires NamesOnly(env)
    requires LowerBuiltin(fns, fuel, args, env, c, arity, shape).Ok?
    ensures var g := LowerBuiltin(fns, fuel, args, env, c, arity, shape).value;
      Spans(g.code, c, g.next) && FreshValue(g.value, c.temps, g.next.temps)
    decreases fuel, args, 1
  {
    var g1 := Lower(fns, fuel, args[0], env, c).value;
    LowerFootprint(fns, fuel, args[0], env, c);
    if arity == 1 {
      ShapeLineWrites(shape, g1.next.temps, [g1.value]);
      ThenWrite(g1.code, ShapeLine(shape, g1.next.temps, [g1.value]), c.labels, g1.next.labels, c.temps, g1.next.temps);
    } else {
      var g2 := Lower(fns, fuel, args[1], env, g1.next).value;
      LowerFootprint(fns, fuel, args[1], env, g1.next);
      Concat(g1.code, g2.code, c.labels, g1.next.labels, g2.next.labels, c.temps, g1.next.temps, g2.next.temps);
      ShapeLineWrites(shape, g2.next.temps, [g1.value, g2.value]);
      ThenWrite(g1.code + g2.code, ShapeLine(shape, g2.next.temps, [g1.value, g2.value]), c.labels, g2.next.labels, c.temps, g2.next.temps);
    }
  }

  lemma {:induction false} LowerInlineFootprint(fns: map<string, FunInfo>, fuel: nat, f: string, args: seq<Node>,
                                                env: map<string, Operand>, c: Counters)
    requires f in fns
    requires NamesOnly(env)
    requires LowerInline(fns, fuel, f, args, env, c).Ok?
    ensures var g := LowerInline(fns, fuel, f, args, env, c).value;
      Spans(g.code, c, g.next) && FreshValue(g.value, c.temps, g.next.temps)
    decreases fuel, args, 1
  {
    var ga := LowerArgs(fns, fuel, args, env, c).value;
    LowerArgsFootprint(fns, fuel, args, env, c);
    var info := fns[f];
    InlineBodyFootprint(fns, fuel, f, args, ga.next);
    InlineFrame(ga, info.params, Lower(fns, fuel - 1, info.body, ParamEnv(info.params), ga.next).value, f, c);
  }

  /** The body of `f`, generated again after its arguments left the counters at `c`. */
  lemma {:induction false} InlineBodyFootprint(fns: map<string, FunInfo>, fuel: nat, f: string, args: seq<Node>, c: Counters)
    requires f in fns && fuel > 0
    requires Lower(fns, fuel - 1, fns[f].body, ParamEnv(fns[f].params), c).Ok?
    ensures var gb := Lower(fns, fuel - 1, fns[f].body, ParamEnv(fns[f].params), c).value;
      Spans(gb.code, c, gb.next)
    decreases fuel, args, 0
  {
    ParamEnvNamesOnly(fns[f].params);
    LowerFootprint(fns, fuel - 1, fns[f].body, ParamEnv(fns[f].params), c);
  }

  lemma ParamEnvNamesOnly(params: seq<string>)
    ensures NamesOnly(ParamEnv(params))
  {
  }

  lemma InlineFrame(ga: GenList, params: seq<string>, gb: Gen, f: string, c: Counters)
    requires Spans(ga.code, c, ga.next) && Spans(gb.code, ga.next, gb.next)
    ensures Spans(ga.code + ParamAssigns(params, ga.values) + gb.code + [InlineResult(gb.next.temps, OrNil(gb.value), f)], c, Bump(gb.next))
  {
    var assigns := ParamAssigns(params, ga.values);
    ParamAssignsInert(params, ga.values);
    ThenInert(ga.code, assigns, c.labels, ga.next.labels, c.temps, ga.next.temps);
    Concat(ga.code + assigns, gb.code, c.labels, ga.next.labels, gb.next.labels, c.temps, ga.next.temps, gb.next.temps);
    ThenWrite(ga.code + assigns + gb.code, InlineResult(gb.next.temps, OrNil(gb.value), f), c.labels, gb.next.labels, c.temps, gb.next.temps);
  }

  lemma {:induction false} LowerCallFootprint(fns: map<string, FunInfo>, fuel: nat, f: string, args: seq<Node>,
                                              env: map<string, Operand>, c: Counters)
    requires NamesOnly(env)
    requires LowerCall(fns, fuel, f, args, env, c).Ok?
    ensures var g := LowerCall(fns, fuel, f, args, env, c).value;
      Spans(g.code, c, g.next) && FreshValue(g.value, c.temps, g.next.temps)
    decreases fuel, args, 1
  {
    var ga := LowerArgs(fns, fuel, args, env, c).value;
    LowerArgsFootprint(fns, fuel, args, env, c);
    ThenWrite(ga.code, Call(ga.next.temps, f, Present(ga.values)), c.labels, ga.next.labels, c.temps, ga.next.temps);
  }

  lemma {:induction false} LowerArgsFootprint(fns: map<string, FunInfo>, fuel: nat, args: seq<Node>, env: map<string, Operand>, c: Counters)
    requires NamesOnly(env)
    requires LowerArgs(fns, fuel, args, env, c).Ok?
    ensures var gl := LowerArgs(fns, fuel, args, env, c).value;
      Spans(gl.code, c, gl.next) && AllFresh(gl.values, c.temps, gl.next.temps)
    decreases fuel, args, 0
  {
    if args != [] {
      var init := args[..|args| - 1];
      var gl := LowerArgs(fns, fuel, init, env, c).value;
      var g := Lower(fns, fuel, args[|args| - 1], env, gl.next).value;
      LowerArgsFootprint(fns, fuel, init, env, c);
      LowerFootprint(fns, fuel, args[|args| - 1], env, gl.next);
      Concat(gl.code, g.code, c.labels, gl.next.labels, g.next.labels, c.temps, gl.next.temps, g.next.temps);
      var vs := gl.values + [g.value];
      assert forall i :: 0 <= i < |gl.values| ==> vs[i] == gl.values[i];
    }
  }

  /** Distinct counter values print as distinct names, and no temporary
      is printed like a label. */
  lemma NamesDistinct(a: nat, b: nat)
    ensures TempName(a) == TempName(b) <==> a == b
    ensures LabelName(a) == LabelName(b) <==> a == b
    ensures TempName(a) != LabelName(b)
  {
    NatToDecimalInjective(a, b);
    if TempName(a) == TempName(b) {
      assert NatToDecimal(a) == TempName(a)[1..];
    }
    if LabelName(a) == LabelName(b) {
      assert NatToDecimal(a) == LabelName(a)[1..];
    }
    assert TempName(a)[0] != LabelName(b)[0];
  }

  // ---------------------------------------------------------------------
  // Expansion of a function that calls itself never ends

  /** `(defun f (...) (f))`: expanding a call of `f` expands the same call
      again, so generation fails however much fuel it is given, the way
      the recursive `gen_code` exhausts Python's recursion limit. */
  lemma {:induction false} SelfCallFails(fns: map<string, FunInfo>, fuel: nat, f: string, env: map<string, Operand>, c: Counters)
    requires f in fns && fns[f].body == Application(Symbol(Id, f), [])
    ensures Lower(fns, fuel, Application(Symbol(Id, f), []), env, c) == Err(InliningTooDeep(f))
    decreases fuel
  {
    var call := Application(Symbol(Id, f), []);
    assert Classify(fns, Symbol(Id, f)) == UserFunction(f);
    assert Lower(fns, fuel, call, env, c) == LowerInline(fns, fuel, f, [], env, c);
    assert LowerArgs(fns, fuel, [], env, c) == Ok(GenList([], [], c));
    if fuel > 0 {
      SelfCallFails(fns, fuel - 1, f, ParamEnv(fns[f].params), c);
      assert Lower(fns, fuel - 1, call, ParamEnv(fns[f].params), c).Err?;
    }
  }

  /** `gen_code` on `node` reaches a call of the user function `f`: the
      call itself, or a part the generator always visits. Both branches of
      an `if` and the body of a `defun` are always generated; a builtin
      generates only the operands it reads, and a call every argument. */
  predicate ReachesCall(fns: map<string, FunInfo>, f: string, node: Node)
    decreases node
  {
    match node
    case Defun(_, _, body) => ReachesCall(fns, f, body)
    case If(c, t, e) => ReachesCall(fns, f, c) || ReachesCall(fns, f, t) || ReachesCall(fns, f, e)
    case Application(op, args) =>
      (match Classify(fns, op)
       case NotASymbol => false
       case UserFunction(g) => g == f || exists i :: 0 <= i < |args| && ReachesCall(fns, f, args[i])
       case UnknownFunction(_) => exists i :: 0 <= i < |args| && ReachesCall(fns, f, args[i])
       case OtherToken => exists i :: 0 <= i < |args| && ReachesCall(fns, f, args[i])
       case CarOp => |args| >= 1 && ReachesCall(fns, f, args[0])
       case CdrOp => |args| >= 1 && ReachesCall(fns, f, args[0])
       case _ => (|args| >= 1 && ReachesCall(fns, f, args[0])) || (|args| >= 2 && ReachesCall(fns, f, args[1])))
    case _ => false
  }

  /** When the body of `f` reaches a call of `f`, such as
      `(defun f (n) (+ 1 (f n)))`, generating anything that reaches a call
      of `f` never yields code, however much fuel it is given: each
      expansion meets the same call again, the way the recursive `gen_code`
      exhausts Python's recursion limit. */
  lemma {:induction false} SelfCallNeverLowers(fns: map<string, FunInfo>, fuel: nat, f: string, node: Node,
                                              env: map<string, Operand>, c: Counters)
    requires f in fns && ReachesCall(fns, f, fns[f].body)
    requires ReachesCall(fns, f, node)
    ensures Lower(fns, fuel, node, env, c).Err?
    decreases fuel, node, 1
  {
    match node
    case Defun(name, params, body) =>
      SelfCallNeverLowers(fns, fuel, f, body, ParamEnv(params), c);
    case If(cond, t, e) =>
      IfNeverLowers(fns, fuel, f, cond, t, e, env, c);
    case Application(op, args) =>
      ApplicationNeverLowers(fns, fuel, f, op, args, env, c);
  }

  lemma {:induction false} IfNeverLowers(fns: map<string, FunInfo>, fuel: nat, f: string, cond: Node, t: Node, e: Node,
                                        env: map<string, Operand>, c: Counters)
    requires f in fns && ReachesCall(fns, f, fns[f].body)
    requires ReachesCall(fns, f, If(cond, t, e))
    ensures LowerIf(fns, fuel, cond, t, e, env, c).Err?
    decreases fuel, If(cond, t, e), 0
  {
    if ReachesCall(fns, f, cond) {
      SelfCallNeverLowers(fns, fuel, f, cond, env, c);
    } else if Lower(fns, fuel, cond, env, c).Ok? {
      var gc := Lower(fns, fuel, cond, env, c).value;
      var ct := gc.next.(labels := gc.next.labels + 3);
      if ReachesCall(fns, f, t) {
        SelfCallNeverLowers(fns, fuel, f, t, env, ct);
      } else if Lower(fns, fuel, t, env, ct).Ok? {
        var gt := Lower(fns, fuel, t, env, ct).value;
        assert LowerBranches(fns, fuel, cond, t, e, env, gc) == LowerElse(fns, fuel, cond, t, e, env, gc, gt);
        SelfCallNeverLowers(fns, fuel, f, e, env, Bump(gt.next));
      }
    }
  }

  lemma {:induction false} ApplicationNeverLowers(fns: map<string, FunInfo>, fuel: nat, f: string, op: Node, args: seq<Node>,
                                                 env: map<string, Operand>, c: Counters)
    requires f in fns && ReachesCall(fns, f, fns[f].body)
    requires ReachesCall(fns, f, Application(op, args))
    ensures LowerApplication(fns, fuel, op, args, env, c).Err?
    decreases fuel, Application(op, args), 0
  {
    match Classify(fns, op)
    case UserFunction(g) =>
      assert LowerApplication(fns, fuel, op, args, env, c) == LowerInline(fns, fuel, g, args, env, c);
      if exists i :: 0 <= i < |args| && ReachesCall(fns, f, args[i]) {
        ArgsReachingCallFail(fns, fuel, f, args, env, c);
      } else if LowerArgs(fns, fuel, args, env, c).Ok? && fuel > 0 {
        var ga := LowerArgs(fns, fuel, args, env, c).value;
        SelfCallNeverLowers(fns, fuel - 1, f, fns[f].body, ParamEnv(fns[f].params), ga.next);
      }
    case UnknownFunction(_) => ArgsReachingCallFail(fns, fuel, f, args, env, c);
    case OtherToken => ArgsReachingCallFail(fns, fuel, f, args, env, c);
    case CarOp => SelfCallNeverLowers(fns, fuel, f, args[0], env, c);
    case CdrOp => SelfCallNeverLowers(fns, fuel, f, args[0], env, c);
    case Arith => OperandsReachingCallFail(fns, fuel, f, args, env, c, BinaryShape(OpSymbol(op)));
    case Comparison => OperandsReachingCallFail(fns, fuel, f, args, env, c, BinaryShape(OpSymbol(op)));
    case ConsOp => OperandsReachingCallFail(fns, fuel, f, args, env, c, BuiltinShape("CONS"));
    case EqBuiltin => OperandsReachingCallFail(fns, fuel, f, args, env, c, BuiltinShape("EQ"));
  }

  lemma {:induction false} OperandsReachingCallFail(fns: map<string, FunInfo>, fuel: nat, f: string, args: seq<Node>,
                                                   env: map<string, Operand>, c: Counters, shape: Shape)
    requires f in fns && ReachesCall(fns, f, fns[f].body)
    requires (|args| >= 1 && ReachesCall(fns, f, args[0])) || (|args| >= 2 && ReachesCall(fns, f, args[1]))
    ensures LowerBuiltin(fns, fuel, args, env, c, 2, shape).Err?
    decreases fuel, args, 1
  {
    if ReachesCall(fns, f, args[0]) {
      SelfCallNeverLowers(fns, fuel, f, args[0], env, c);
    } else if Lower(fns, fuel, args[0], env, c).Ok? {
      SelfCallNeverLowers(fns, fuel, f, args[1], env, Lower(fns, fuel, args[0], env, c).value.next);
    }
  }

  /** An argument list in which some argument reaches such a call fails too. */
  lemma {:induction false} ArgsReachingCallFail(fns: map<string, FunInfo>, fuel: nat, f: string, args: seq<Node>,
                                                env: map<string, Operand>, c: Counters)
    requires f in fns && ReachesCall(fns, f, fns[f].body)
    requires exists i :: 0 <= i < |args| && ReachesCall(fns, f, args[i])
    ensures LowerArgs(fns, fuel, args, env, c).Err?
    decreases fuel, args, 0
  {
    var n := |args| - 1;
    var prefix := args[..n];
    if ReachesCall(fns, f, args[n]) {
      if LowerArgs(fns, fuel, prefix, env, c).Ok? {
        SelfCallNeverLowers(fns, fuel, f, args[n], env, LowerArgs(fns, fuel, prefix, env, c).value.next);
      }
    } else {
      var i :| 0 <= i < |args| && ReachesCall(fns, f, args[i]);
      assert prefix[i] == args[i];
      ArgsReachingCallFail(fns, fuel, f, prefix, env, c);
    }
  }
}
