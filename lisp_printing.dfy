/** The text `gen_code` of Parte_2/codigo_intermediario.py prints for its IR
    lines, and what running straight-line text computes. The source spells a
    temporary `t<N>` and a parameter by its own name, in one namespace, so a
    parameter named like a temporary is overwritten when that temporary is
    assigned. The corrected spelling puts `_` before every parameter. */
module Printing {
  import opened Basics
  import opened LispAst
  import opened Semantics
  import opened CodeGen
  import opened CodeGenProperties
  import opened Pipeline

  /** How an operand is spelled: as the source writes it, or with every
      parameter prefixed by `_`. */
  datatype Spelling = AsWritten | Prefixed

  function OperandText(sp: Spelling, o: Operand): string
  {
    match o
    case Temp(k) => TempName(k)
    case Name(p) => if sp == AsWritten then p else "_" + p
  }

  /** With the prefix, two operands are spelled alike only when they are
      the same operand: no temporary shares a variable with a parameter. */
  lemma PrefixedSpellingInjective(a: Operand, b: Operand)
    ensures OperandText(Prefixed, a) == OperandText(Prefixed, b) <==> a == b
  {
    var ta, tb := OperandText(Prefixed, a), OperandText(Prefixed, b);
    assert ta[0] == (if a.Temp? then 't' else '_');
    assert tb[0] == (if b.Temp? then 't' else '_');
    if ta == tb {
      if a.Temp? && b.Temp? {
        NamesDistinct(a.index, b.index);
      } else if a.Name? && b.Name? {
        assert a.name == ta[1..] && b.name == tb[1..];
      }
    }
  }

  /** As written, the parameter named `t<k>` and temporary `k` are one variable. */
  lemma AsWrittenSpellingCollides(k: nat)
    ensures OperandText(AsWritten, Name(TempName(k))) == OperandText(AsWritten, Temp(k))
  {
  }

  // ---------------------------------------------------------------------
  // Running printed straight-line code over integers

  type Store = map<string, int>

  /** The value a printed operand names in the store, if it has one. */
  function Read(sp: Spelling, o: Option<Operand>, store: Store): Option<int>
  {
    if o.Some? && OperandText(sp, o.value) in store then Some(store[OperandText(sp, o.value)]) else None
  }

  /** One printed line: an assignment writes the variable it prints, a
      comment, a function entry or a label changes nothing. Jumps, returns,
      `NIL`, symbols and the builtins are outside straight-line integer
      code and stop the run, as does reading a variable never written. */
  function Step(sp: Spelling, line: Line, store: Store): Option<Store>
  {
    match line
    case LoadConst(dst, v) => Some(store[TempName(dst) := v])
    case ParamAssign(p, src) =>
      (match Read(sp, src, store)
       case Some(x) => Some(store[OperandText(sp, Name(p)) := x])
       case None => None)
    case Move(dst, src) =>
      (match Read(sp, src, store)
       case Some(x) => Some(store[TempName(dst) := x])
       case None => None)
    case InlineResult(dst, src, _) =>
      (match Read(sp, src, store)
       case Some(x) => Some(store[TempName(dst) := x])
       case None => None)
    case BinaryOp(dst, left, op, right) =>
      (match (Read(sp, left, store), Read(sp, right, store))
       case (Some(a), Some(b)) =>
         if op == "+" then Some(store[TempName(dst) := a + b])
         else if op == "-" then Some(store[TempName(dst) := a - b])
         else if op == "*" then Some(store[TempName(dst) := a * b])
         else None
       case _ => None)
    case FunctionComment(_) => Some(store)
    case FunctionEntry(_) => Some(store)
    case ParamComment(_) => Some(store)
    case LabelDef(_) => Some(store)
    case InvalidOperatorComment => Some(store)
    case _ => None
  }

  /** The lines in order, each from the store the previous one left. */
  function Run(sp: Spelling, lines: seq<Line>, store: Store): Option<Store>
    decreases |lines|
  {
    if lines == [] then Some(store)
    else
      match Step(sp, lines[0], store)
      case None => None
      case Some(s) => Run(sp, lines[1..], s)
  }

  /** As written, assigning temporary `k` overwrites the parameter named
      `t<k>`, whatever the store held. */
  lemma AsWrittenTempClobbersParameter(k: nat, v: nat, store: Store)
    ensures var s := Step(AsWritten, LoadConst(k, v), store);
      s.Some? && Read(AsWritten, Some(Name(TempName(k))), s.value) == Some(v)
  {
  }

  /** With the prefix, a line that assigns no parameter leaves every
      parameter's value as it was. */
  lemma PrefixedStepKeepsParameter(line: Line, store: Store, p: string)
    requires !line.ParamAssign?
    requires Step(Prefixed, line, store).Some?
    ensures Read(Prefixed, Some(Name(p)), Step(Prefixed, line, store).value) == Read(Prefixed, Some(Name(p)), store)
  {
    var s := Step(Prefixed, line, store).value;
    if line.LoadConst? || line.Move? || line.InlineResult? || line.BinaryOp? {
      PrefixedSpellingInjective(Temp(line.dst), Name(p));
    }
  }

  /** With the prefix, a run of lines none of which assigns parameter `p`
      ends with `p` holding what it held at the start. */
  lemma {:induction false} PrefixedRunKeepsParameter(lines: seq<Line>, store: Store, p: string)
    requires forall i :: 0 <= i < |lines| ==> !(lines[i].ParamAssign? && lines[i].param == p)
    requires Run(Prefixed, lines, store).Some?
    ensures Read(Prefixed, Some(Name(p)), Run(Prefixed, lines, store).value) == Read(Prefixed, Some(Name(p)), store)
    decreases |lines|
  {
    if lines != [] {
      var s := Step(Prefixed, lines[0], store).value;
      if lines[0].ParamAssign? {
        PrefixedSpellingInjective(Name(lines[0].param), Name(p));
      } else {
        PrefixedStepKeepsParameter(lines[0], store, p);
      }
      assert forall i :: 0 <= i < |lines[1..]| ==> lines[1..][i] == lines[i + 1];
      PrefixedRunKeepsParameter(lines[1..], s, p);
    }
  }

  // ---------------------------------------------------------------------
  // The program that shows the capture

  /** `(defun h (t3) (+ 1 t3)) (h 2)`: `t3` is an ordinary identifier. */
  function CaptureProgram(): seq<Node>
  {
    [Defun("h", ["t3"], CaptureBody()), CaptureCall()]
  }

  function CaptureBody(): Node
  {
    Application(Symbol(Plus, "+"), [Number(1), Symbol(Id, "t3")])
  }

  /** Its IR: the block of `h`, then the expanded call of `(h 2)`. */
  function CaptureLines(): seq<Line>
  {
    [ FunctionComment("h"), FunctionEntry("h"), ParamComment("t3"),
      LoadConst(0, 1), BinaryOp(1, Some(Temp(0)), "+", Some(Name("t3"))), Return(Some(Temp(1))),
      LoadConst(2, 2), ParamAssign("t3", Some(Temp(2))),
      LoadConst(3, 1), BinaryOp(4, Some(Temp(3)), "+", Some(Name("t3"))),
      InlineResult(5, Some(Temp(4)), "h") ]
  }

  lemma CaptureTable()
    ensures DefunTable(CaptureProgram()).entries == map["h" := FunInfo(["t3"], CaptureBody())]
  {
    var ast := CaptureProgram();
    assert ast[..1] == [ast[0]] && ast[..1][..0] == [];
  }

  /** The call `(h 2)`. */
  function CaptureCall(): Node
  {
    Application(Symbol(Id, "h"), [Number(2)])
  }

  lemma CaptureBodyClean(fns: map<string, FunInfo>)
    requires fns == map["h" := FunInfo(["t3"], CaptureBody())]
    ensures AnalysisSafe(fns, CaptureBody())
    ensures Analyze(fns, CaptureBody(), ParamTypes(["t3"])).errors == []
  {
    var body := CaptureBody();
    assert Classify(fns, Symbol(Plus, "+")) == Arith;
    assert body.args[0] == Number(1) && body.args[1] == Symbol(Id, "t3");
    assert AnalysisSafe(fns, Number(1)) && AnalysisSafe(fns, Symbol(Id, "t3"));
    assert AnalysisSafe(fns, body);
    ArithTyping(fns, Symbol(Plus, "+"), body.args, ParamTypes(["t3"]));
  }

  lemma CaptureCallClean(fns: map<string, FunInfo>)
    requires fns == map["h" := FunInfo(["t3"], CaptureBody())]
    ensures AnalysisSafe(fns, CaptureCall())
    ensures Analyze(fns, CaptureCall(), map[]).errors == []
  {
    var call := CaptureCall();
    assert Classify(fns, Symbol(Id, "h")) == UserFunction("h");
    assert call.args[0] == Number(2);
    assert AnalysisSafe(fns, call);
    assert AnalyzeArgs(fns, [Number(2)], map[]) == [] by {
      assert [Number(2)][..0] == [];
    }
    UserCallErrors(fns, Symbol(Id, "h"), [Number(2)], map[]);
  }

  lemma CaptureFormsClean(fns: map<string, FunInfo>)
    requires fns == map["h" := FunInfo(["t3"], CaptureBody())]
    ensures forall i :: 0 <= i < |CaptureProgram()| ==> AnalysisSafe(fns, CaptureProgram()[i])
    ensures AnalyzeArgs(fns, CaptureProgram(), map[]) == []
  {
    CaptureBodyClean(fns);
    CaptureCallClean(fns);
    var ast := CaptureProgram();
    var defun := Defun("h", ["t3"], CaptureBody());
    assert ast[0] == defun && ast[1] == CaptureCall();
    assert Analyze(fns, defun, map[]).errors == [];
    assert ast[..1] == [defun] && ast[..1][..0] == [];
  }

  lemma CaptureAnalysis()
    ensures ProgramSafe(CaptureProgram()) && SemanticErrors(CaptureProgram()) == []
  {
    CaptureTable();
    CaptureFormsClean(DefunTable(CaptureProgram()).entries);
  }

  lemma CaptureBodyLowers(fns: map<string, FunInfo>, fuel: nat, k: nat)
    ensures Lower(fns, fuel, CaptureBody(), ParamEnv(["t3"]), Counters(k, 0))
      == Ok(Gen([LoadConst(k, 1), BinaryOp(k + 1, Some(Temp(k)), "+", Some(Name("t3")))], Some(Temp(k + 1)), Counters(k + 2, 0)))
  {
    var body := CaptureBody();
    var env := ParamEnv(["t3"]);
    assert "t3" in env && env["t3"] == Name("t3");
    assert Classify(fns, body.operator) == Arith;
    assert OpSymbol(body.operator) == "+";
    var g1 := Lower(fns, fuel, body.args[0], env, Counters(k, 0));
    assert g1 == Ok(Gen([LoadConst(k, 1)], Some(Temp(k)), Counters(k + 1, 0)));
    var g2 := Lower(fns, fuel, body.args[1], env, Counters(k + 1, 0));
    assert g2 == Ok(Gen([], Some(Name("t3")), Counters(k + 1, 0)));
    var line := ShapeLine(BinaryShape("+"), k + 1, [Some(Temp(k)), Some(Name("t3"))]);
    assert line == BinaryOp(k + 1, Some(Temp(k)), "+", Some(Name("t3")));
    assert [LoadConst(k, 1)] + [] + [line] == [LoadConst(k, 1), line];
    assert LowerBuiltin(fns, fuel, body.args, env, Counters(k, 0), 2, BinaryShape("+"))
      == Ok(Gen([LoadConst(k, 1), line], Some(Temp(k + 1)), Counters(k + 2, 0)));
    assert Lower(fns, fuel, body, env, Counters(k, 0))
      == LowerBuiltin(fns, fuel, body.args, env, Counters(k, 0), 2, BinaryShape("+"));
  }

  lemma CaptureDefunLowers(fns: map<string, FunInfo>, fuel: nat)
    ensures Lower(fns, fuel, CaptureProgram()[0], map[], Counters(0, 0)) == Ok(Gen(CaptureLines()[..6], None, Counters(2, 0)))
  {
    CaptureBodyLowers(fns, fuel, 0);
    assert ParamComments(["t3"]) == [ParamComment("t3")];
    assert OrNil(Some(Temp(1))) == Some(Temp(1));
    assert [FunctionComment("h"), FunctionEntry("h")] + [ParamComment("t3")]
      + [LoadConst(0, 1), BinaryOp(1, Some(Temp(0)), "+", Some(Name("t3")))] + [Return(Some(Temp(1)))]
      == CaptureLines()[..6];
  }

  lemma CaptureCallLowers(fns: map<string, FunInfo>, fuel: nat)
    requires fuel >= 1
    requires fns == map["h" := FunInfo(["t3"], CaptureBody())]
    ensures Lower(fns, fuel, CaptureProgram()[1], map[], Counters(2, 0)) == Ok(Gen(CallLines(), Some(Temp(5)), Counters(6, 0)))
  {
    assert Classify(fns, Symbol(Id, "h")) == UserFunction("h");
    CaptureBodyLowers(fns, fuel - 1, 3);
    LowerOne(fns, fuel, Number(2), map[], Counters(2, 0));
    assert ParamAssigns(["t3"], [Some(Temp(2))]) == [ParamAssign("t3", Some(Temp(2)))];
    assert OrNil(Some(Temp(4))) == Some(Temp(4));
    assert [LoadConst(2, 2)] + [ParamAssign("t3", Some(Temp(2)))]
      + [LoadConst(3, 1), BinaryOp(4, Some(Temp(3)), "+", Some(Name("t3")))] + [InlineResult(5, Some(Temp(4)), "h")]
      == CallLines();
    assert Lower(fns, fuel, CaptureProgram()[1], map[], Counters(2, 0))
      == LowerInline(fns, fuel, "h", [Number(2)], map[], Counters(2, 0));
  }

  /** A list of one node is generated as that node. */
  lemma LowerOne(fns: map<string, FunInfo>, fuel: nat, a: Node, env: map<string, Operand>, c: Counters)
    ensures LowerArgs(fns, fuel, [a], env, c) == match Lower(fns, fuel, a, env, c)
      case Err(e) => Err(e)
      case Ok(g) => Ok(GenList(g.code, [g.value], g.next))
  {
    assert [a][..0] == [];
    assert LowerArgs(fns, fuel, [], env, c) == Ok(GenList([], [], c));
    if Lower(fns, fuel, a, env, c).Ok? {
      var g := Lower(fns, fuel, a, env, c).value;
      assert [] + g.code == g.code;
      assert [] + [g.value] == [g.value];
    }
  }

  lemma CaptureLowers(fns: map<string, FunInfo>, fuel: nat)
    requires fuel >= 1
    requires fns == map["h" := FunInfo(["t3"], CaptureBody())]
    ensures LowerArgs(fns, fuel, CaptureProgram(), map[], Counters(0, 0)).Ok?
    ensures LowerArgs(fns, fuel, CaptureProgram(), map[], Counters(0, 0)).value.code == CaptureLines()
  {
    var ast := CaptureProgram();
    CaptureDefunLowers(fns, fuel);
    CaptureCallLowers(fns, fuel);
    assert ast[..1] == [ast[0]] && ast[..1][..0] == [];
    LowerOne(fns, fuel, ast[0], map[], Counters(0, 0));
    assert CaptureLines()[..6] + CallLines() == CaptureLines();
  }

  lemma CaptureCompiles(fuel: nat)
    requires fuel >= 1
    ensures CompileProgram(CaptureProgram(), fuel) == Accepted(CaptureLines())
  {
    CaptureTable();
    CaptureAnalysis();
    CaptureLowers(DefunTable(CaptureProgram()).entries, fuel);
  }

  lemma SmallTempNames()
    ensures TempName(2) == "t2" && TempName(3) == "t3" && TempName(4) == "t4" && TempName(5) == "t5"
  {
  }

  /** The lines of the expanded call `(h 2)`. */
  function CallLines(): seq<Line>
  {
    CaptureLines()[6..]
  }

  lemma RunCallAsWritten()
    ensures Run(AsWritten, CallLines(), map[]).Some?
    ensures Read(AsWritten, Some(Temp(5)), Run(AsWritten, CallLines(), map[]).value) == Some(2)
  {
    SmallTempNames();
    var call := CallLines();
    var s1 := map["t2" := 2];
    var s2 := s1["t3" := 2];
    var s3 := s2["t3" := 1];
    var s4 := s3["t4" := 2];
    var s5 := s4["t5" := 2];
    assert Step(AsWritten, call[0], map[]) == Some(s1);
    assert Step(AsWritten, call[1], s1) == Some(s2);
    assert Step(AsWritten, call[2], s2) == Some(s3);
    assert Step(AsWritten, call[3], s3) == Some(s4);
    assert Step(AsWritten, call[4], s4) == Some(s5);
    assert call[1..][1..][1..][1..][1..] == [];
    assert Run(AsWritten, call, map[]) == Some(s5);
  }

  lemma RunCallPrefixed()
    ensures Run(Prefixed, CallLines(), map[]).Some?
    ensures Read(Prefixed, Some(Temp(5)), Run(Prefixed, CallLines(), map[]).value) == Some(3)
  {
    SmallTempNames();
    var call := CallLines();
    var s1 := map["t2" := 2];
    var s2 := s1["_t3" := 2];
    assert OperandText(Prefixed, Name("t3")) == "_t3";
    var s3 := s2["t3" := 1];
    var s4 := s3["t4" := 3];
    var s5 := s4["t5" := 3];
    assert Step(Prefixed, call[0], map[]) == Some(s1);
    assert Step(Prefixed, call[1], s1) == Some(s2);
    assert Step(Prefixed, call[2], s2) == Some(s3);
    assert Step(Prefixed, call[3], s3) == Some(s4);
    assert Step(Prefixed, call[4], s4) == Some(s5);
    assert call[1..][1..][1..][1..][1..] == [];
    assert Run(Prefixed, call, map[]) == Some(s5);
  }

  /** As written, `(h 2)` stores the argument 2 in `t3`, overwrites it with
      the constant 1 of the body, and computes `t3 + t3`: the call yields 2
      where `1 + 2` is 3. The program passes the analysis. */
  lemma ParameterOverwritten(fuel: nat)
    requires fuel >= 1
    ensures CompileProgram(CaptureProgram(), fuel) == Accepted(CaptureLines())
    ensures CaptureLines() == CaptureLines()[..6] + CallLines()
    ensures Run(AsWritten, CallLines(), map[]).Some?
    ensures Read(AsWritten, Some(Temp(5)), Run(AsWritten, CallLines(), map[]).value) == Some(2)
  {
    CaptureCompiles(fuel);
    RunCallAsWritten();
  }

  /** With the prefix, the same lines keep the argument in `_t3`, and the
      call yields `1 + 2`. */
  lemma PrefixedKeepsArgument(fuel: nat)
    requires fuel >= 1
    ensures CompileProgram(CaptureProgram(), fuel) == Accepted(CaptureLines())
    ensures Run(Prefixed, CallLines(), map[]).Some?
    ensures Read(Prefixed, Some(Temp(5)), Run(Prefixed, CallLines(), map[]).value) == Some(1 + 2)
  {
    CaptureCompiles(fuel);
    RunCallPrefixed();
  }
}
