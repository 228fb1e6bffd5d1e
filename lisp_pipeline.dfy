/** `p_program` of Parte_2/codigo_intermediario.py: collect the functions,
    analyse every top-level form, and generate the intermediate code only
    when the analysis found no error. */
module Pipeline {
  import opened Basics
  import opened LispAst
  import opened Semantics
  import opened CodeGen
  import opened CodeGenProperties
  import opened CodeGenState

  /** What `p_program` leaves in `p[0]`, or the exception it raises. */
  datatype Outcome =
    | Crashed                          // the analysis indexed a missing argument (IndexError)
    | Rejected(errors: seq<SemError>)  // `sem_ok` is False, with the error list
    | Aborted(error: GenError)         // the generator raised
    | Accepted(ir: seq<Line>)          // `sem_ok` is True, with the IR lines

  /** The analysis reaches no missing argument in any top-level form. */
  predicate ProgramSafe(ast: seq<Node>)
  {
    forall i :: 0 <= i < |ast| ==> AnalysisSafe(DefunTable(ast).entries, ast[i])
  }

  /** The error list: the duplicate-name errors, then the errors of each
      top-level form analysed in the empty environment, in order. */
  function SemanticErrors(ast: seq<Node>): seq<SemError>
    requires ProgramSafe(ast)
  {
    var t := DefunTable(ast);
    DuplicateErrors(t) + AnalyzeArgs(t.entries, ast, map[])
  }

  /** The whole of `p_program`. The code of every top-level form is
      generated in the empty environment, with the counters threaded from
      zero, and appended in order: the same fold as an argument list. */
  function CompileProgram(ast: seq<Node>, fuel: nat): Outcome
  {
    if !ProgramSafe(ast) then Crashed
    else
      var errs := SemanticErrors(ast);
      if errs != [] then Rejected(errs)
      else
        match LowerArgs(DefunTable(ast).entries, fuel, ast, map[], Counters(0, 0))
        case Err(e) => Aborted(e)
        case Ok(g) => Accepted(g.code)
  }

  /** `p_program`, step by step: the table, the duplicate check, the shared
      error list filled form by form, and then, only when it stayed empty,
      the generator set up from the table and run over every form. */
  method RunProgram(ast: seq<Node>, fuel: nat) returns (o: Outcome)
    ensures o == CompileProgram(ast, fuel)
  {
    var funcs := CollectDefuns(ast);
    var duplicates := DuplicateErrors(funcs);
    if !ProgramSafe(ast) {
      return Crashed;
    }
    var analyzer := new Analyzer(funcs.entries, duplicates);
    analyzer.AnalyzeEach(ast, map[]);
    if analyzer.errors != [] {
      return Rejected(analyzer.errors);
    }
    var gen := new Generator.Setup(funcs);
    var r := GenerateAll(gen, ast, fuel);
    if r.Err? {
      return Aborted(r.error);
    }
    o := Accepted(r.value);
  }

  /** The generation loop of `p_program`: each top-level form in the empty
      environment, its lines appended to the IR when there are any. */
  method GenerateAll(gen: Generator, ast: seq<Node>, fuel: nat) returns (r: Result<seq<Line>, GenError>)
    modifies gen
    ensures match LowerArgs(gen.functions, fuel, ast, map[], old(gen.Now()))
      case Err(e) => r == Err(e)
      case Ok(g) => r == Ok(g.code)
  {
    ghost var fns, c0 := gen.functions, gen.Now();
    var ir: seq<Line> := [];
    ghost var values: seq<Option<Operand>> := [];
    var i := 0;
    while i < |ast|
      invariant 0 <= i <= |ast|
      invariant LowerArgs(fns, fuel, ast[..i], map[], c0) == Ok(GenList(ir, values, gen.Now()))
    {
      ghost var before := gen.Now();
      assert ast[..i + 1][..i] == ast[..i];
      var g := gen.GenNode(ast[i], map[], fuel);
      if g.Err? {
        assert LowerArgs(fns, fuel, ast[..i + 1], map[], c0).Err?;
        ArgsErrorStops(fns, fuel, ast, map[], c0, i + 1);
        return Err(g.error);
      }
      assert LowerArgs(fns, fuel, ast[..i + 1], map[], c0)
        == Ok(GenList(ir + g.value.code, values + [g.value.value], gen.Now()));
      if g.value.code != [] {
        ir := ir + g.value.code;
      } else {
        assert ir + g.value.code == ir;
      }
      values := values + [g.value.value];
      i := i + 1;
    }
    assert ast[..i] == ast;
    r := Ok(ir);
  }

  /** `sem_ok` is False exactly when some top-level form has an error of
      its own (no name is ever reported as duplicated), and the errors are
      then the forms' errors in order. */
  lemma GateOnErrors(ast: seq<Node>, fuel: nat)
    requires ProgramSafe(ast)
    ensures CompileProgram(ast, fuel).Rejected? <==>
      exists i :: 0 <= i < |ast| && Analyze(DefunTable(ast).entries, ast[i], map[]).errors != []
    ensures CompileProgram(ast, fuel).Rejected? ==>
      CompileProgram(ast, fuel).errors == AnalyzeArgs(DefunTable(ast).entries, ast, map[])
  {
    var fns := DefunTable(ast).entries;
    assert SemanticErrors(ast) == AnalyzeArgs(fns, ast, map[]);
    AnalyzeArgsClean(fns, ast, map[]);
  }

  /** The IR of an accepted program defines each label at most once, and
      every `goto` and `if ... goto` names a label it defines. */
  lemma AcceptedLabels(ast: seq<Node>, fuel: nat)
    requires CompileProgram(ast, fuel).Accepted?
    ensures var ir := CompileProgram(ast, fuel).ir;
      && (forall x :: LabelDefs(ir)[x] <= 1)
      && (forall x :: x in JumpTargets(ir) ==> LabelDefs(ir)[x] == 1)
  {
    var fns := DefunTable(ast).entries;
    LowerArgsFootprint(fns, fuel, ast, map[], Counters(0, 0));
  }

  /** A function whose body calls itself passes the analysis, but the
      generator expands the call again and again: however deep the
      expansion may go, the program is aborted at its `defun`. */
  lemma RecursionAborts(f: string, fuel: nat)
    ensures var call := Application(Symbol(Id, f), []);
      CompileProgram([Defun(f, [], call), call], fuel) == Aborted(InliningTooDeep(f))
  {
    var call := Application(Symbol(Id, f), []);
    var ast := [Defun(f, [], call), call];
    var t := DefunTable(ast);
    assert ast[..1] == [Defun(f, [], call)] && ast[..1][..0] == [];
    assert DefunTable(ast[..1]).entries == map[f := FunInfo([], call)];
    assert t.entries == map[f := FunInfo([], call)];
    assert Classify(t.entries, Symbol(Id, f)) == UserFunction(f);
    assert ProgramSafe(ast);
    UserCallErrors(t.entries, Symbol(Id, f), [], map[]);
    UserCallErrors(t.entries, Symbol(Id, f), [], ParamTypes([]));
    assert AnalyzeArgs(t.entries, ast[..1], map[]) == [];
    assert SemanticErrors(ast) == [];
    SelfCallFails(t.entries, fuel, f, ParamEnv([]), Counters(0, 0));
    assert LowerArgs(t.entries, fuel, ast[..1], map[], Counters(0, 0)).Err?;
    ArgsErrorStops(t.entries, fuel, ast, map[], Counters(0, 0), 1);
  }

  /** A program that defines a function whose body reaches a call of
      itself, such as `(defun f (n) (+ 1 (f n)))`, is never accepted,
      however deep the expansion may go: generating its `defun` alone
      already expands the call again and again. */
  lemma SelfRecursionNeverAccepted(ast: seq<Node>, fuel: nat, f: string)
    requires f in DefunTable(ast).entries
    requires ReachesCall(DefunTable(ast).entries, f, DefunTable(ast).entries[f].body)
    ensures !CompileProgram(ast, fuel).Accepted?
  {
    var fns := DefunTable(ast).entries;
    DefunTableProvenance(ast, f);
    var i :| DefinesAt(ast, i, f) && fns[f] == FunInfo(ast[i].params, ast[i].body);
    assert ReachesCall(fns, f, ast[i]);
    ArgsReachingCallFail(fns, fuel, f, ast, map[], Counters(0, 0));
  }

  /** `(defun f (n) (+ 1 (f n)))`. */
  function IncrementProgram(): seq<Node>
  {
    [Defun("f", ["n"], Application(Symbol(Plus, "+"), [Number(1), Application(Symbol(Id, "f"), [Symbol(Id, "n")])]))]
  }

  lemma IncrementTable()
    ensures DefunTable(IncrementProgram()).entries == map["f" := FunInfo(["n"], IncrementProgram()[0].body)]
  {
    var ast := IncrementProgram();
    assert ast[..|ast| - 1] == [];
  }

  lemma IncrementAnalysis()
    ensures ProgramSafe(IncrementProgram()) && SemanticErrors(IncrementProgram()) == []
  {
    var ast := IncrementProgram();
    var body := ast[0].body;
    var call := body.args[1];
    IncrementTable();
    var fns := DefunTable(ast).entries;
    assert Classify(fns, Symbol(Id, "f")) == UserFunction("f");
    assert AnalysisSafe(fns, Symbol(Id, "n"));
    assert AnalysisSafe(fns, call);
    assert AnalysisSafe(fns, body);
    var env := ParamTypes(["n"]);
    assert Analyze(fns, Symbol(Id, "n"), env) == Typing(AnyTy, []);
    assert AnalyzeArgs(fns, [Symbol(Id, "n")], env) == [] by {
      assert [Symbol(Id, "n")][..0] == [];
    }
    UserCallErrors(fns, Symbol(Id, "f"), [Symbol(Id, "n")], env);
    ArithTyping(fns, Symbol(Plus, "+"), body.args, env);
    assert ast[..0] == [];
    assert AnalyzeArgs(fns, ast, map[]) == [];
  }

  /** `(defun f (n) (+ 1 (f n)))` passes the analysis, and generation aborts. */
  lemma IncrementRecursionAborts(fuel: nat)
    ensures CompileProgram(IncrementProgram(), fuel).Aborted?
  {
    var ast := IncrementProgram();
    IncrementTable();
    IncrementAnalysis();
    IncrementReaches();
    SelfRecursionNeverAccepted(ast, fuel, "f");
  }

  lemma IncrementReaches()
    ensures var fns := DefunTable(IncrementProgram()).entries;
      "f" in fns && ReachesCall(fns, "f", fns["f"].body)
  {
    IncrementTable();
    var fns := DefunTable(IncrementProgram()).entries;
    var body := IncrementProgram()[0].body;
    assert Classify(fns, Symbol(Id, "f")) == UserFunction("f");
    assert ReachesCall(fns, "f", body.args[1]);
  }
}
