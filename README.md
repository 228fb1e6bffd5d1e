# A LISP-like compiler, a quadruple machine and three tree evaluators, in Dafny

This project models the executable core of a small teaching repository. The
repository holds four Python programs built around a LISP-like language:

- **Parte_2/codigo_intermediario.py** compiles programs to three-address code:
  - it remaps reserved words and builds a tagged syntax tree;
  - `collect_defuns` builds a table of the `defun`s;
  - `semantic_analyze_node` infers a type (`number`, `list` or `any`) and
    appends to a shared error list;
  - `gen_code` prints three-address lines; it draws `t<N>` and `L<N>` from two
    global counters and expands every call of a user function in place;
  - `p_program` generates code only when the error list stays empty.
- **Projeto/codigo_intermediario.py** has a `Compiler` class that turns binary
  operation trees into `(op, arg1, arg2, result)` quadruples. A
  `VirtualMachine` class runs those quadruples against a dictionary.
- **Parte_1/interpretador.py**: `eval_expr` is a recursive evaluator over the
  same trees.
- **lexy.py** is an s-expression evaluator. It has `quote`, `if`, `lambda`,
  `let`, `define`, closures, a `ChainMap` environment and list and arithmetic
  primitives.

The model follows the source's own form:

- Pure code, such as the parser actions, the analysis rules and the
  primitives, becomes datatypes, functions and lemmas.
- Code that changes state becomes classes:
  - `Semantics.Analyzer` holds the shared error list.
  - `CodeGenState.Generator` holds the two counters and the function table.
  - `Quadruples.Compiler` and `Quadruples.VirtualMachine` are the two Python
    classes.
  - `LexyEval.ChainMap` is the `ChainMap` that `define` writes into.
- Loops become methods with loop invariants: `CollectDefuns`, `Execute`,
  `LetLoop` and `LispDivLoop`.

Each method is proved against a specification function. The properties the
source promises are proved about those functions. Python's exceptions are
values of a `Result` or `Outcome` datatype.

Module layout, one file per module:

| file | module | models |
|---|---|---|
| basics.dfy | Basics | `Option`, `Result`, Python's `str(n)` |
| lisp_ast.dfy | LispAst | Parte_2 token kinds, the reserved table, the syntax tree and its parser actions |
| lisp_semantics.dfy | Semantics | `collect_defuns`, the duplicate check, `semantic_analyze_node` |
| lisp_codegen.dfy | CodeGen, CodeGenProperties | `gen_code` as a function over explicit counters; which labels and temporaries the code uses |
| lisp_codegen_state.dfy | CodeGenState | the global counters and `gen_code` as the source runs it |
| lisp_pipeline.dfy | Pipeline | `p_program` |
| py_values.dfy | PyValues | the operator table shared by Parte_1 and Projeto, with Python's `//`, `%` and comparisons |
| expr_ast.dfy | ExprAst | the tuples built by the Parte_1 and Projeto parsers |
| interpreter.dfy | Interpreter | `eval_expr` |
| quad_compiler.dfy | Quadruples | `Compiler`, `VirtualMachine` and one line of the read-eval loop |
| lexy_values.dfy | LexyValues | lexy's values, the `ChainMap` lookup, the primitives, `initial_env` |
| lexy_eval.dfy | LexyEval | `eval_ast` and the `ChainMap` object |
| lisp_printing.dfy | Printing | the IR lines as `gen_code` prints them, and what the printed lines compute |
| lexy_reader.dfy | LexyReader | lexy's token values and the quote rule |

## Model

| member | source | states |
|---|---|---|
| Basics.NatToDecimal | Parte_2/codigo_intermediario.py:423-433 | the counter text in `t{n}`/`L{n}` is a non-empty run of decimal digits; it is one digit exactly when n < 10 |
| Basics.NatToDecimalInjective | Parte_2/codigo_intermediario.py:423-433 | different counter values print as different digit strings |
| LispAst.ClassifyWord | Parte_2/codigo_intermediario.py:91-96 | an identifier stays `ID` exactly when it is not a reserved word; otherwise it gets that word's token kind from the table |
| LispAst.ReservedRoundTrip | Parte_2/codigo_intermediario.py:8-21 | the reserved table maps words to keyword kinds one-to-one: a word classifies as kind k exactly when k is spelled that word |
| LispAst.OpTokenToSymbol | Parte_2/codigo_intermediario.py:650-655 | arithmetic and comparison kinds map to the text their lexer rule matches; every other kind maps to its own name |
| LispAst.ApplicationFromElements | Parte_2/codigo_intermediario.py:235-241 | the operator followed by the arguments is exactly the list of elements |
| LispAst.WordAtomDispatch | Parte_2/codigo_intermediario.py:173-198 | a word read as an atom keeps its lexeme and its kind from the reserved table; the dispatch sees `cons`, `car`, `cdr` and `eq` exactly for those words, any other reserved word as a plain token, and an unreserved word as a user function exactly when it is in the table, otherwise as an unknown function |
| LispAst.Classify | Parte_2/codigo_intermediario.py:329-401 | the operator dispatch: not-a-symbol exactly for non-symbols; a user function exactly for an `ID` in the table; an unknown function only for names outside it |
| Semantics.Store | Parte_2/codigo_intermediario.py:274 | `funcs[name] = info` keeps every key listed once and updates the entry at `name` only |
| Semantics.DefunTable | Parte_2/codigo_intermediario.py:266-275 | the table is a well-formed dict: insertion-ordered keys, each listed once |
| Semantics.CollectDefuns | Parte_2/codigo_intermediario.py:266-275 | the loop over the top-level forms builds exactly `DefunTable` |
| Semantics.DefunTableEntries | Parte_2/codigo_intermediario.py:266-275 | a name has an entry exactly when a top-level `defun` defines it; the entry is that name's last `defun` |
| Semantics.DefunTableProvenance | Parte_2/codigo_intermediario.py:266-275 | every entry is the parameters and body of some top-level `defun` |
| Semantics.Duplicates | Parte_2/codigo_intermediario.py:115 | every name reported is a key that occurs more than once in the key list |
| Semantics.NoDuplicates | Parte_2/codigo_intermediario.py:115-117 | the key list of a dict has no repeated key, so the duplicate check reports nothing |
| Semantics.DuplicateErrors | Parte_2/codigo_intermediario.py:115-117 | the duplicate check never adds an error |
| Semantics.ParamTypes | Parte_2/codigo_intermediario.py:312 | a `defun` body's environment binds exactly the parameters, each to `any` |
| Semantics.AnalyzeLeaves | Parte_2/codigo_intermediario.py:290-305 | a number is `number` and `()` is `list`, without errors; a bound `ID` has its bound type; an unbound `ID` is `any` with one undeclared-variable error; any other token is `any` |
| Semantics.AnalyzeIf | Parte_2/codigo_intermediario.py:316-322 | the errors of the condition, then-branch and else-branch, in that order; the branches' type when they agree, otherwise `any` |
| Semantics.ImplicitElse | Parte_2/codigo_intermediario.py:209-217 | `(if c t)` is `(if c t ())`: its type is `list` when `t` is a list and `any` otherwise, and its errors are those of the condition then of `t` |
| Semantics.AnalyzeArgsClean | Parte_2/codigo_intermediario.py:344-345 | the arguments add no error exactly when each argument on its own adds none |
| Semantics.UserCallErrors | Parte_2/codigo_intermediario.py:339-346 | a user call is `any`; it adds one arity error exactly when the argument count differs from the parameter count, and then the errors of every argument |
| Semantics.ArithTyping | Parte_2/codigo_intermediario.py:349-358 | `+ - * /` always yield `number`; the whole error list for every count: the arity error when the count is not 2, then the errors of `args[0]` and `args[1]` where they exist, then one type error per `list` operand among them; `args[2..]` are never analysed |
| Semantics.ArithRuleErrors | Parte_2/codigo_intermediario.py:349-358 | the arithmetic rule over the operand count and the two operand results: `number`, and the errors are the count error (when the count is not 2), both operands' errors, then each operand's type error |
| Semantics.ArithErrors | Parte_2/codigo_intermediario.py:349-358 | the whole error list of the arithmetic rule over the argument list, for 0, 1 and 2 or more arguments; a missing operand adds neither errors nor a type error, and arguments after the second are not analysed |
| Semantics.CarCdrTyping | Parte_2/codigo_intermediario.py:375-389 | `car` yields `any` and `cdr` yields `list`; with one argument, no error is added beyond the argument's own exactly when its type is not `number` |
| Semantics.ListArgErrors | Parte_2/codigo_intermediario.py:375-389 | the same facts for the `car`/`cdr` rule over its error texts and result type |
| Semantics.BadOperatorErrors | Parte_2/codigo_intermediario.py:329-404 | a non-symbol operator gives `any` with one invalid-operator error, then the errors of the arguments; an `ID` that is neither a user function nor a builtin name gives `any` with one undefined-function error, then the arguments' errors |
| Semantics.Analyzer.constructor | Parte_2/codigo_intermediario.py:277-283 | the analyser starts from the function table and the error list it is handed |
| Semantics.Analyzer.AnalyzeNode | Parte_2/codigo_intermediario.py:277-411 | returns the node's inferred type and appends exactly the node's errors to the shared list |
| Semantics.Analyzer.AnalyzeDefun | Parte_2/codigo_intermediario.py:307-314 | a `defun` is `any`; its body is analysed with every parameter typed `any` |
| Semantics.Analyzer.AnalyzeIfNode | Parte_2/codigo_intermediario.py:316-322 | the `if` rule's type, with its errors appended |
| Semantics.Analyzer.AnalyzeApplicationNode | Parte_2/codigo_intermediario.py:324-409 | the application rule's type, with its errors appended |
| Semantics.Analyzer.AnalyzeArithOperator | Parte_2/codigo_intermediario.py:349-358 | for `+ - * /`: the application rule's type and errors |
| Semantics.Analyzer.AnalyzePairOperator | Parte_2/codigo_intermediario.py:360-396 | for comparisons, `cons` and `eq`: the application rule's type and errors |
| Semantics.Analyzer.AnalyzeListOperator | Parte_2/codigo_intermediario.py:375-389 | for `car` and `cdr`: the application rule's type and errors |
| Semantics.Analyzer.AnalyzeOtherOperator | Parte_2/codigo_intermediario.py:329-409 | for a non-symbol operator, a user function, an undefined function and any other token: the application rule's type and errors |
| Semantics.OtherApplication | Parte_2/codigo_intermediario.py:329-409 | those four cases are `any`, with the operator's own error followed by every argument's errors |
| Semantics.Analyzer.AnalyzeCall | Parte_2/codigo_intermediario.py:398-409 | other operators are `any`: the operator's own error, if any, then every argument's errors |
| Semantics.Analyzer.AnalyzeArith | Parte_2/codigo_intermediario.py:349-358 | the arithmetic rule's type and errors |
| Semantics.Analyzer.AnalyzeArithOperands | Parte_2/codigo_intermediario.py:350-353 | the count check, then the first and the second operand; a missing operand is `any` and adds nothing |
| Semantics.Analyzer.AnalyzeOperand | Parte_2/codigo_intermediario.py:352-353 | `analyse(args[k]) if len(args) > k else 'any'` |
| Semantics.Analyzer.ReportType | Parte_2/codigo_intermediario.py:354-357 | appends the operand error exactly when the operand's type is wrong |
| Semantics.Analyzer.AnalyzePair | Parte_2/codigo_intermediario.py:360-373 | comparisons and `cons`: the count check, then the errors of both arguments |
| Semantics.Analyzer.AnalyzeListArg | Parte_2/codigo_intermediario.py:375-389 | `car` and `cdr`: the count check, the argument, then the type check on it |
| Semantics.Analyzer.AnalyzeEach | Parte_2/codigo_intermediario.py:331-332 | analysing every node in turn appends the errors of each, in order |
| CodeGen.ParamEnv | Parte_2/codigo_intermediario.py:484-486 | the body environment binds exactly the parameters, each to its own name |
| CodeGen.ZipAssigns | Parte_2/codigo_intermediario.py:555-556 | one `p = at  # param` line per pair, in order, as many as the shorter list |
| CodeGen.Lower | Parte_2/codigo_intermediario.py:443-495 | lowering a node never moves either counter backwards |
| CodeGen.LowerIf | Parte_2/codigo_intermediario.py:497-504 | the counters never move backwards through an `if` |
| CodeGen.LowerBranches | Parte_2/codigo_intermediario.py:506-522 | after the condition, an `if` takes at least three fresh labels |
| CodeGen.LowerElse | Parte_2/codigo_intermediario.py:517-534 | the end of an `if` takes at least one fresh temporary, the shared result |
| CodeGen.LowerApplication | Parte_2/codigo_intermediario.py:536-648 | the counters never move backwards through an application |
| CodeGen.LowerBuiltin | Parte_2/codigo_intermediario.py:567-623 | the counters never move backwards through a builtin |
| CodeGen.LowerInline | Parte_2/codigo_intermediario.py:547-565 | the counters never move backwards through an expanded call |
| CodeGen.LowerCall | Parte_2/codigo_intermediario.py:625-646 | the counters never move backwards through a `CALL` line |
| CodeGen.LowerArgs | Parte_2/codigo_intermediario.py:551-554 | one value per argument; the counters never move backwards |
| CodeGenProperties.LowerFootprint | Parte_2/codigo_intermediario.py:443-648 | a node's code defines each label the counter handed out exactly once and no other; it jumps only to those labels and writes only the temporaries handed out; its value is one of those temporaries or a name |
| CodeGenProperties.LowerIfFootprint | Parte_2/codigo_intermediario.py:497-534 | the same footprint for an `if` |
| CodeGenProperties.LowerBranchesFootprint | Parte_2/codigo_intermediario.py:506-534 | the same footprint for an `if` after its condition |
| CodeGenProperties.LowerElseFootprint | Parte_2/codigo_intermediario.py:524-534 | the same footprint for the else part of an `if` |
| CodeGenProperties.LowerApplicationFootprint | Parte_2/codigo_intermediario.py:536-648 | the same footprint for every application |
| CodeGenProperties.LowerBuiltinFootprint | Parte_2/codigo_intermediario.py:567-623 | the same footprint for the builtins |
| CodeGenProperties.LowerInlineFootprint | Parte_2/codigo_intermediario.py:547-565 | the same footprint for an expanded user call |
| CodeGenProperties.InlineBodyFootprint | Parte_2/codigo_intermediario.py:557-558 | the body generated again at a call site has the same footprint |
| CodeGenProperties.LowerCallFootprint | Parte_2/codigo_intermediario.py:625-646 | the same footprint for a `CALL` line |
| CodeGenProperties.LowerArgsFootprint | Parte_2/codigo_intermediario.py:551-554 | the same footprint for an argument list, and every value is fresh or a name |
| CodeGenProperties.IfCodeFootprint | Parte_2/codigo_intermediario.py:510-533 | the jumps, the three labels and the two writes of the shared temporary complete the footprint of an `if` |
| CodeGenProperties.DefunFrame | Parte_2/codigo_intermediario.py:481-494 | a function's header, parameter comments and `return` line add no label, jump or write to its body's footprint |
| CodeGenProperties.InlineFrame | Parte_2/codigo_intermediario.py:555-564 | the parameter lines and the result line complete the footprint of an expanded call |
| CodeGenProperties.ParamEnvNamesOnly | Parte_2/codigo_intermediario.py:557 | a body environment maps names to names only |
| CodeGenProperties.NamesDistinct | Parte_2/codigo_intermediario.py:423-433 | two temporaries or two labels have the same name exactly when their counters are equal; no temporary is named like a label |
| CodeGenProperties.SelfCallFails | Parte_2/codigo_intermediario.py:547-558 | for the one body `(f)`: expanding a call of `f` fails with `InliningTooDeep(f)`, whatever the fuel |
| CodeGenProperties.SelfCallNeverLowers | Parte_2/codigo_intermediario.py:547-558 | when the body of `f` reaches a call of `f` through parts the generator always visits, any node that reaches such a call fails to lower, whatever the fuel |
| CodeGenProperties.IfNeverLowers | Parte_2/codigo_intermediario.py:497-534 | an `if` whose condition or either branch reaches a self-reaching call fails to lower |
| CodeGenProperties.ApplicationNeverLowers | Parte_2/codigo_intermediario.py:536-648 | an application that is such a call, or whose visited operands or arguments reach one, fails to lower |
| CodeGenProperties.OperandsReachingCallFail | Parte_2/codigo_intermediario.py:567-623 | a builtin whose first or second operand reaches such a call fails to lower |
| CodeGenProperties.ArgsReachingCallFail | Parte_2/codigo_intermediario.py:551-554 | an argument list with some argument that reaches such a call fails to lower |
| CodeGenState.ArgsErrorStops | Parte_2/codigo_intermediario.py:551-554 | once an argument raises, the whole list raises the same exception |
| CodeGenState.Generator.constructor | Parte_2/codigo_intermediario.py:414-416 | both counters start at zero and the function table is empty |
| CodeGenState.Generator.Reset | Parte_2/codigo_intermediario.py:418-421 | both counters go back to zero |
| CodeGenState.Generator.NewTemp | Parte_2/codigo_intermediario.py:423-427 | returns the counter's value before the call and increments it by one; the label counter is unchanged |
| CodeGenState.Generator.NewLabel | Parte_2/codigo_intermediario.py:429-433 | returns the label counter's value before the call and increments it by one; the temporary counter is unchanged |
| CodeGenState.Generator.Setup | Parte_2/codigo_intermediario.py:435-441 | both counters are zero and the table holds exactly the collected functions |
| CodeGenState.Generator.GenNode | Parte_2/codigo_intermediario.py:443-648 | gives `Lower`'s exception, or `Lower`'s lines and value with the counters left where `Lower` leaves them |
| CodeGenState.Generator.GenDefun | Parte_2/codigo_intermediario.py:475-495 | agrees with `Lower` on a `defun` |
| CodeGenState.Generator.GenIf | Parte_2/codigo_intermediario.py:497-508 | agrees with `LowerIf` |
| CodeGenState.Generator.GenBranches | Parte_2/codigo_intermediario.py:510-516 | with the three labels taken right after the condition, agrees with `LowerBranches` |
| CodeGenState.Generator.GenElse | Parte_2/codigo_intermediario.py:517-534 | agrees with `LowerElse` |
| CodeGenState.Generator.GenApplication | Parte_2/codigo_intermediario.py:536-548 | agrees with `LowerApplication` |
| CodeGenState.Generator.GenBuiltin | Parte_2/codigo_intermediario.py:567-623 | agrees with `LowerBuiltin` |
| CodeGenState.Generator.GenInline | Parte_2/codigo_intermediario.py:547-565 | agrees with `LowerInline` |
| CodeGenState.Generator.AppendParamAssigns | Parte_2/codigo_intermediario.py:555-556 | appends one `p = at  # param` line per pair of `zip(params, arg_temps)`, as many as the shorter list has |
| CodeGenState.Generator.GenCall | Parte_2/codigo_intermediario.py:625-646 | agrees with `LowerCall` |
| CodeGenState.Generator.GenArgs | Parte_2/codigo_intermediario.py:551-554 | agrees with `LowerArgs` |
| Pipeline.RunProgram | Parte_2/codigo_intermediario.py:105-150 | the step-by-step `p_program` has exactly the outcome of `CompileProgram` |
| Pipeline.GenerateAll | Parte_2/codigo_intermediario.py:137-145 | the generation loop gives the first exception, or the lines of every form in order |
| Pipeline.GateOnErrors | Parte_2/codigo_intermediario.py:123-129 | a program is rejected exactly when some top-level form has an error; the errors are then every form's errors, in order |
| Pipeline.AcceptedLabels | Parte_2/codigo_intermediario.py:137-150 | the IR of an accepted program defines each label at most once, and every jump target exactly once |
| Pipeline.RecursionAborts | Parte_2/codigo_intermediario.py:547-558 | the one program `(defun f () (f)) (f)` passes the analysis, but generation aborts with `InliningTooDeep(f)` |
| Pipeline.SelfRecursionNeverAccepted | Parte_2/codigo_intermediario.py:137-145 | a program defining a function whose body reaches a call of itself is never accepted, whatever the fuel |
| Pipeline.IncrementRecursionAborts | Parte_2/codigo_intermediario.py:547-558 | `(defun f (n) (+ 1 (f n)))` passes the analysis, and generation aborts |
| Printing.PrefixedSpellingInjective | Parte_2/codigo_intermediario.py:556 | with parameters printed under a prefix that no temporary starts with, two operands print alike exactly when they are the same operand |
| Printing.AsWrittenSpellingCollides | Parte_2/codigo_intermediario.py:423-427 | as written, a parameter named `t<k>` prints exactly as temporary k |
| Printing.AsWrittenTempClobbersParameter | Parte_2/codigo_intermediario.py:423-427 | as written, loading a constant into temporary k overwrites the value a parameter named `t<k>` reads |
| Printing.PrefixedStepKeepsParameter | Parte_2/codigo_intermediario.py:556 | with prefixed parameters, a line other than a parameter assignment leaves every parameter's value unchanged |
| Printing.PrefixedRunKeepsParameter | Parte_2/codigo_intermediario.py:556 | with prefixed parameters, a run of lines with no assignment to p leaves p's value unchanged |
| Printing.CaptureCompiles | Parte_2/codigo_intermediario.py:105-150 | `(defun h (t3) (+ 1 t3)) (h 2)` is accepted and compiles to the block of `h` followed by the expanded call |
| Printing.ParameterOverwritten | Parte_2/codigo_intermediario.py:547-564 | as printed, the expanded call of `(h 2)` yields 2: `t3 = 1` overwrites the parameter `t3` |
| Printing.PrefixedKeepsArgument | Parte_2/codigo_intermediario.py:547-564 | with prefixed parameters, the same lines yield 3, which is `1 + 2` |
| PyValues.OpOf | Projeto/codigo_intermediario.py:155-167 | a recognised spelling is that operator's own text |
| PyValues.OpRoundTrip | Projeto/codigo_intermediario.py:155-167 | every operator of the table is recognised from its spelling |
| PyValues.FloorDivision | Projeto/codigo_intermediario.py:159-160 | `//` and `%` divide exactly; the remainder has the divisor's sign and a smaller magnitude |
| PyValues.FloorDivisionUnique | Projeto/codigo_intermediario.py:159-160 | `//` and `%` are the only quotient and remainder with those properties |
| PyValues.Repeat | Parte_1/interpretador.py:99 | a string repeated n times is empty when n is not positive, and otherwise n times as long with the character at i equal to `s[i % len(s)]` |
| PyValues.StrCompareAntisymmetric | Parte_1/interpretador.py:104-107 | swapping the operands of a string comparison flips its sign |
| PyValues.StrCompareZero | Parte_1/interpretador.py:104-108 | two strings compare equal exactly when they are the same string |
| PyValues.IntegerArithmetic | Parte_1/interpretador.py:97-103 | on integers `+ - *` are exact; `//` and `%` by zero raise `ZeroDivisionError`; otherwise they give the floor quotient and remainder; `/` is a float |
| PyValues.ComparisonsOnNumbers | Parte_1/interpretador.py:104-109 | on two numbers the comparisons give the integer order as booleans; `=` never raises and `!=` is its negation |
| PyValues.ComparisonsMirror | Parte_1/interpretador.py:104-107 | `a > b` is `b < a` and `a >= b` is `b <= a`, exceptions included |
| PyValues.StringEqualityIsOrder | Parte_1/interpretador.py:106-108 | on strings, `=` holds exactly when `<=` and `>=` both hold |
| Interpreter.IntegerStep | Parte_1/interpretador.py:97-102 | on two integers, `+ - * div mod` from the operator table compute the integer operation, with `//` and `%` rounding down, and `div`/`mod` by 0 raise `ZeroDivisionError` |
| Interpreter.EvalIntegerTree | Parte_1/interpretador.py:87-102 | a tree of numbers and `+ - * div mod` evaluates to the integer an independent recursive definition gives, with Python's floor `//` and `%`, or raises `ZeroDivisionError` when some divisor is 0 |
| Interpreter.CallRuleUnobservable | Parte_1/interpretador.py:72-74 | the tuple `(call, ...)` that the call rule builds evaluates to `None`, under either reading of the rule's parts |
| Interpreter.UnboundNames | Parte_1/interpretador.py:90-97 | a name plus a number raises `TypeError`; a name plus a name concatenates the two error texts |
| Quadruples.TempNameInjective | Projeto/codigo_intermediario.py:91-94 | different counters give different temporary names |
| Quadruples.Compile | Projeto/codigo_intermediario.py:96-134 | the counter advances by exactly the number of quadruples appended |
| Quadruples.CompileCounts | Projeto/codigo_intermediario.py:96-134 | compiling raises exactly on an unknown tag; otherwise it appends one quadruple per operation node outside a call |
| Quadruples.Compiler.constructor | Projeto/codigo_intermediario.py:87-89 | the quadruple list is empty and the counter is zero |
| Quadruples.Compiler.NewTemp | Projeto/codigo_intermediario.py:91-94 | returns `t<k>`, k the counter before the call, and increments the counter by one; the code is unchanged |
| Quadruples.Compiler.GenerateCode | Projeto/codigo_intermediario.py:96-134 | appends `Compile`'s quadruples, moves the counter to where `Compile` leaves it, and returns its operand or exception |
| Quadruples.Compiler.GenerateBinop | Projeto/codigo_intermediario.py:111-128 | the same for an operation node: left operand, right operand, one quadruple into a fresh temporary |
| Quadruples.VirtualMachine.constructor | Projeto/codigo_intermediario.py:138-140 | the dictionary starts empty |
| Quadruples.VirtualMachine.Execute | Projeto/codigo_intermediario.py:142-171 | the result and the final dictionary are those of `Run`: instructions in order, the last one's value, `None` for none |
| Quadruples.RunStops | Projeto/codigo_intermediario.py:147-171 | once an instruction raises, nothing after it runs |
| Quadruples.RunAppend | Projeto/codigo_intermediario.py:147-171 | running two lists one after the other is running their concatenation |
| Quadruples.RunLast | Projeto/codigo_intermediario.py:147-169 | one more instruction runs from the dictionary the others left, unless they raised |
| Quadruples.OperationStep | Projeto/codigo_intermediario.py:148-169 | one operation's quadruple computes the interpreter's value of that operation and binds it to its temporary |
| Quadruples.Simulation | Projeto/codigo_intermediario.py:111-128 | on a tree without names, the quadruples compute the interpreter's value into the operand the compiler returns, or fail as the interpreter fails; they add only fresh temporaries |
| Quadruples.SimulationBinop | Projeto/codigo_intermediario.py:111-128 | the same, for an operation node, from its two operands |
| Quadruples.RunLine | Projeto/codigo_intermediario.py:193-207 | one line of the loop: a fresh compiler, then a fresh machine, gives `CompileAndRun` |
| Quadruples.CompiledAgrees | Projeto/codigo_intermediario.py:193-207 | for an operation or a call without names, compiling and running agrees with `eval_expr` |
| Quadruples.BareNumberLosesValue | Projeto/codigo_intermediario.py:193-207 | as written, a bare number gives `None` on the machine and the number in the interpreter |
| Quadruples.FixedAgrees | Projeto/codigo_intermediario.py:193-207 | using the compiler's returned operand when there is no quadruple makes the machine agree with `eval_expr` on every tree without names |
| LexyValues.LookupFirst | lexy.py:90-93 | a `ChainMap` finds a name exactly when some frame binds it, and takes the first such frame's value |
| LexyValues.InitialEnv | lexy.py:199-217 | one frame, in which every name it binds is found |
| LexyValues.PyEqReflexive | lexy.py:178 | every value that holds no closure at any depth is `==` to itself |
| LexyValues.ItemsEqReflexive | lexy.py:178 | element-wise `==` of a closure-free list with itself holds |
| LexyValues.LispDivLoop | lexy.py:170-176 | the loop of `lisp_div` gives `LispDiv` |
| LexyValues.TruncDivision | lexy.py:175 | `int(a / b)` leaves a remainder smaller than the divisor, with the dividend's sign, and is no larger than the dividend |
| LexyValues.DivFoldDefined | lexy.py:173-176 | with non-zero number divisors and a dividend below 2^53, `lisp_div` gives an integer no larger than the dividend |
| LexyValues.CarCdrOfCons | lexy.py:184-196 | `car` and `cdr` take back apart what `cons` puts together, and the result is not `null?` |
| LexyValues.ConsOfCarCdr | lexy.py:184-194 | a non-empty list is the `cons` of its `car` and its `cdr` |
| LexyValues.ListErrors | lexy.py:184-194 | `car` and `cdr` of `[]`, and `cons` onto a non-list, raise `LispError` |
| LexyValues.SubUndoesAdd | lexy.py:159-165 | `-` of one number negates it; subtracting b from a + b gives a |
| LexyValues.SumProductSplit | lexy.py:159-168 | sum and product split over any division of the arguments; with no arguments they are 0 and 1 |
| LexyValues.OrderingsMirror | lexy.py:179-182 | on numbers or strings, `(< a b)` is `(> b a)` and `(<= a b)` is `(>= b a)` |
| LexyEval.Eval | lexy.py:83-153 | evaluating any expression changes the first frame of the environment at most |
| LexyEval.EvalForm | lexy.py:99-137 | the same for special forms and applications |
| LexyEval.EvalLet | lexy.py:117-127 | the same for `let`: the `local` frame is gone afterwards |
| LexyEval.EvalBindings | lexy.py:121-125 | the same for the bindings loop of `let` |
| LexyEval.EvalDefine | lexy.py:128-137 | the same for `define` |
| LexyEval.EvalApplication | lexy.py:138-153 | the same for an application |
| LexyEval.EvalArgs | lexy.py:140 | the same for the argument list |
| LexyEval.ZipFrameKeys | lexy.py:150 | `dict(zip(params, args))` binds exactly the parameter names |
| LexyEval.ZipFrameValues | lexy.py:150 | each name is bound to the argument at its last occurrence |
| LexyEval.BindParamsBinds | lexy.py:146-150 | a closure call raises the argument-count error exactly when the counts differ; otherwise every parameter is bound to its argument |
| LexyEval.Atoms | lexy.py:86-93 | numbers, booleans and strings that start with `"` are themselves; any other string is the first frame's binding, or raises "Unbound symbol" |
| LexyEval.UnboundHead | lexy.py:88-93 | an application whose head no frame binds raises "Unbound symbol" for the head |
| LexyEval.QuoteUnevaluated | lexy.py:101-102 | `(quote x)` is x, unevaluated, with the environment untouched |
| LexyEval.IfBranches | lexy.py:103-110 | `(if c t e)` evaluates `t` exactly when the condition's value is neither `False` nor `[]`, and `e` otherwise, in the environment the condition left |
| LexyEval.IfTestAgainstNot | lexy.py:103-110 | the test `is not False and != []` agrees with Python's truth test exactly on values other than `0` and `""`, which choose the then branch although Python treats them as false |
| LexyEval.BindingsIgnoreLocal | lexy.py:119-125 | every binding expression of a `let` is evaluated outside the new bindings |
| LexyEval.LetLeavesNoBinding | lexy.py:117-127 | after a `let`, the environment is the one its binding expressions left; the `local` frame is dropped |
| LexyEval.DefineBinds | lexy.py:128-137 | `define` returns the value and binds the name to it in the first frame, where lookup then finds it |
| LexyEval.EvalArgsLength | lexy.py:140 | one value per argument |
| LexyEval.ClosureArity | lexy.py:145-152 | a wrong argument count raises; otherwise the body runs, with one unit of recursion budget less, in the parameters' frame in front of the captured copy |
| LexyEval.NotAFunctionRefused | lexy.py:153 | applying anything but a primitive or a closure raises "Application of non-function" |
| LexyEval.LetClosureLosesGlobals | lexy.py:111-127 | a closure made inside a `let` copies only the `let`'s frame, so `(let ((x 1)) ((lambda (y) (+ x y)) 2))` cannot find `+` |
| LexyEval.DefinedClosureCannotRecurse | lexy.py:111-137 | a closure copies the frame before `define` binds its name: after `(define f (lambda (n) (f n)))`, `(f 1)` cannot find `f` |
| LexyEval.LetLoop | lexy.py:117-127 | the loop that fills `local` gives `EvalLet` |
| LexyEval.ChainMap.constructor | lexy.py:217 | the object holds exactly the frames it is built from |
| LexyEval.ChainMap.Define | lexy.py:133-134 | `env.maps[0][name] = val` changes the first frame at `name` only, and lookup then finds `val` |
| LexyEval.ChainMap.Evaluate | lexy.py:83-153 | on success returns `Eval`'s value and leaves the frames as `Eval` leaves them, including a `define` in the first frame; on an exception returns it and keeps the frames |
| LexyReader.BoolLiteralsChoose | lexy.py:18-21 | `#t` and `#f` read as different values, and lexy's `if` takes the then branch for the first and the else branch for the second |
| LexyReader.QuoteReadBack | lexy.py:51-54 | reading `'e` and evaluating it gives back e unevaluated |
| LexyReader.StringLiteralLookedUp | lexy.py:28-31 | as written, a string literal's text is looked up as a symbol, and `"hi"` raises "Unbound symbol: hi" |
| LexyReader.StringLiteralKeptSelfEvaluates | lexy.py:86-87 | with the quotes kept, every string literal evaluates to itself |

## Left out

- The PLY lexer and parser generators are not modelled: the master-pattern order, LALR conflict resolution and `p_error`. The model gives the token kinds as a datatype, `t_ID` as a table lookup and the parser actions as constructors.
- Under PLY's rule order, `div`, `mod` and `exp` lex as `ID` in Projeto/codigo_intermediario.py and Parte_1/interpretador.py. The model takes whatever operator text a tree holds, so this has no effect on it.
- `t_NUMBER` of every lexer is not modelled; numbers arrive in the tree as natural numbers.
- The read-eval loops, the file runner and all printing are not modelled: Projeto/codigo_intermediario.py:175-211, Parte_1/interpretador.py:115-124, lexy.py:220-254 and the `__main__` block of Parte_2/codigo_intermediario.py. `Quadruples.RunLine` models only the compile-then-run part of one line.
- Lex.py, Parte_1/sintatica.py and the files under "Projeto 1" are not part of this model. They hold token declarations and a grammar, and their only logic is the reserved-word lookup that `LispAst.ClassifyWord` covers.
- Floating point is not modelled. True division `/` and `**` with a negative exponent give the outcome `Unmodelled` in `PyValues.Apply`.
- PyValues.Apply: an operator raises or gives `Unmodelled` as a whole. It does not carry the float on into later operations.
- LexyValues.LispDiv: `int(result / r)` is exact truncation only while the dividend is below 2^53 in magnitude. Beyond that the float rounding is not modelled, and the outcome is `Unmodelled`.
- LexyValues.LispMul: Python's repetition of strings and lists by an integer is not modelled; a non-number argument gives `Unmodelled`.
- LexyValues.LispCompare: ordering two lists or two closures, and `==` between closures, give `Unmodelled`. Python compares lists element by element and closures as tuples.
- LexyEval.BindParams: parameter or `let` names that are not strings (Python would use any hashable value as a key) give `Unmodelled`.
- LexyEval.Eval: an evaluation that raises returns no environment. Python keeps a `define` that ran in the first frame before the exception; only a read-eval loop could see that, and the loops are not modelled.
- LexyEval.ChainMap.Evaluate: on an exception, the frames are left as they were before the call. Python would keep any `define` that ran before it, for the reason given under `LexyEval.Eval`.
- `is_symbol` (lexy.py:80-81) is never called and is not modelled.
- lexy's `eval_ast` branch for a plain `dict` environment (lexy.py:116, 135-136) is not modelled, because every caller passes a `ChainMap`.
- Python's recursion limit is not modelled. A `fuel` parameter stands in for it:
  - `CodeGen.Lower` spends one unit for each user call it expands. Running out is the error `InliningTooDeep`, which stands for `RecursionError`.
  - `LexyEval.Eval` spends one unit for each closure call. Running out is `RecursionLimit`.
  - Programs that Python would still finish with a deeper stack than the fuel allows are reported as aborted.
- Semantics.Analyze: the analysis indexes `args[0]` and `args[1]` without a length check for comparisons, `cons`, `car`, `cdr` and `eq`. The `IndexError` there is the precondition `AnalysisSafe`, not behaviour, and `Pipeline.CompileProgram` reports it as `Crashed`. Code generation models the same crash as the error `MissingOperand`.
- Quadruples.VirtualMachine.Execute: an operator outside the table writes nothing. `env[result]` then either reads an older value or raises `KeyError`; both are modelled. The parsers build no operator outside the table, so this is the source's fallback for a hand-built list.
- CodeGenState.Generator.Setup: `global_codegen_setup` (Parte_2/codigo_intermediario.py:435-441) replaces a module-wide table that outlives each call. The model builds a new generator around the table instead, so the table is fixed for that generator's lifetime. `reset_codegen` never touches the table, so `Reset` behaves the same either way.
- The exact message strings of the analyser's errors are not modelled. Each error is a constructor that carries the data its message is built from.
- CodeGen.Line: the IR is kept as structured lines in which a parameter (`Name`) and a temporary (`Temp`) are different sorts. The source prints both into one namespace of variable names. So `CodeGenProperties.LowerFootprint`'s "writes only the temporaries it hands out" does not see a parameter named `t<N>` sharing a variable with a temporary; `Printing` models that capture separately (see Findings).
- CodeGen.LowerInline: nested expansions reuse the callee's own parameter names, so in `(defun g (x) x) (defun f (x) (+ (g 1) x)) (f 2)` the inner call's `x = ...  # param` overwrites the outer `x`. The model generates the same lines and does not claim they compute the intended value.
- Printing.Step: only the lines that `(defun h (t3) (+ 1 t3)) (h 2)` needs are given a meaning (constants, parameter and result moves, `+ - *`); labels, jumps, calls and the other builtins leave the run undefined, since the source never defines how its IR runs.

## Findings

| source | as written | input that shows it | evidently intended | confidence | as-written member | corrected member |
|---|---|---|---|---|---|---|
| Projeto/codigo_intermediario.py:193-207 | one line of the loop runs only the quadruples and drops the operand `generate_code` returns; a line with no operation appends no quadruple, so the machine reports `None` | the line `5`: the machine reports `None`, while `eval_expr` of the same tree gives `5` | the line's value is the returned operand when there is no quadruple to run, so compiling and running agrees with the interpreter | medium; not executed | Quadruples.BareNumberLosesValue | Quadruples.FixedAgrees |
| lexy.py:28-31 | `t_STRING` strips the quotes, but `eval_ast` treats a string as a literal only when it starts with `"` (lexy.py:86-87), so a string literal is looked up as a symbol | `"hi"` in the initial environment raises `LispError("Unbound symbol: hi")` instead of evaluating to the string | the token keeps its quotes, so every string literal evaluates to itself | high; not executed | LexyReader.StringLiteralLookedUp | LexyReader.StringLiteralKeptSelfEvaluates |
| Parte_2/codigo_intermediario.py:556 | a parameter is printed under its own name in its param line, in the same namespace as the temporaries `t<N>` that `new_temp` draws (423-427) | `(defun h (t3) (+ 1 t3)) (h 2)` prints `t2 = 2`, `t3 = t2  # param`, `t3 = 1`, `t4 = t3 + t3`, so the call yields 2 instead of 3 | a parameter never shares a variable with a temporary | high; not executed | Printing.ParameterOverwritten | Printing.PrefixedKeepsArgument |
