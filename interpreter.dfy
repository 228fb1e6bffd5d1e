/** `eval_expr` of Parte_1/interpretador.py: a recursive walk over the
    expression tuples that reads the global `env` dictionary. */
module Interpreter {
  import opened Basics
  import opened PyValues
  import opened ExprAst

  /** The value `env.get(name, ...)` falls back to for an unbound name. */
  function UndefinedMessage(name: string): string
  {
    "Erro: variável " + name + " não definida"
  }

  /** `eval_expr(expr)` with the global dictionary `env`. Both operands of a
      `binop` are evaluated, left first, before the operator is looked at;
      an exception or a float in an operand ends the evaluation. */
  function Eval(env: map<string, PyVal>, e: Expr): Outcome
  {
    match e
    case Number(n) => Value(PInt(n))
    case Id(x) => Value(if x in env then env[x] else PStr(UndefinedMessage(x)))
    case BinOp(op, left, right) =>
      (match Eval(env, left)
       case Value(lv) =>
         (match Eval(env, right)
          case Value(rv) =>
            (match OpOf(op)
             case Some(o) => Apply(o, lv, rv)
             case None => Value(PNone))
          case failed => failed)
       case failed => failed)
    case Call(_, _) => Value(PNone)
    case Other(_) => Value(PNone)
  }

  /** A tree of numbers under the integer operators `+`, `-`, `*`, `div`
      and `mod`. */
  predicate IntegerTree(e: Expr)
  {
    match e
    case Number(_) => true
    case BinOp(op, left, right) =>
      (op == "+" || op == "-" || op == "*" || op == "div" || op == "mod") && IntegerTree(left) && IntegerTree(right)
    case _ => false
  }

  /** The value of such a tree in integer arithmetic, with quotients
      rounded down; `None` when some divisor is zero. */
  function IntValue(e: Expr): Option<int>
    requires IntegerTree(e)
  {
    match e
    case Number(n) => Some(n)
    case BinOp(op, left, right) =>
      (match (IntValue(left), IntValue(right))
       case (Some(a), Some(b)) => IntStep(op, a, b)
       case _ => None)
  }

  /** One integer operator applied to two integers. */
  function IntStep(op: string, a: int, b: int): Option<int>
  {
    if op == "+" then Some(a + b)
    else if op == "-" then Some(a - b)
    else if op == "*" then Some(a * b)
    else if b == 0 then None
    else if op == "div" then Some(FloorQuotient(a, b))
    else Some(FloorRemainder(a, b))
  }

  /** The operator table agrees with `IntStep` on two integers. */
  lemma IntegerStep(op: string, a: int, b: int)
    requires op == "+" || op == "-" || op == "*" || op == "div" || op == "mod"
    ensures OpOf(op).Some?
    ensures Apply(OpOf(op).value, PInt(a), PInt(b)) == match IntStep(op, a, b)
      case Some(x) => Value(PInt(x))
      case None => Raised(ZeroDivisionError)
  {
    if op == "+" || op == "-" || op == "*" {
      IntegerArithmetic(a, b);
    } else if op == "div" {
      assert OpOf(op) == Some(FloorDiv);
    } else {
      assert OpOf(op) == Some(Mod);
    }
  }

  /** On an integer tree `eval_expr` is integer arithmetic: it yields the
      tree's value, or raises `ZeroDivisionError` when a divisor is zero;
      it never meets a `TypeError`, a float or an unknown operator. */
  lemma {:induction false} EvalIntegerTree(env: map<string, PyVal>, e: Expr)
    requires IntegerTree(e)
    ensures Eval(env, e) == match IntValue(e)
      case Some(x) => Value(PInt(x))
      case None => Raised(ZeroDivisionError)
  {
    if e.BinOp? {
      EvalIntegerTree(env, e.left);
      EvalIntegerTree(env, e.right);
      if IntValue(e.left).Some? && IntValue(e.right).Some? {
        IntegerStep(e.op, IntValue(e.left).value, IntValue(e.right).value);
      }
    }
  }

  /** Parte_1's call rule records the `(` token where Projeto's records the
      identifier, but `eval_expr` looks neither at a call's callee nor at
      its argument: under both rules a call is `None`, so the dropped
      identifier is never missed. */
  lemma CallRuleUnobservable(env: map<string, PyVal>, lparen: string, id: string, arg: Expr, rparen: string)
    ensures Eval(env, InterpreterCallRule(lparen, id, arg, rparen)) == Value(PNone)
    ensures Eval(env, ProjetoCallRule(lparen, id, arg, rparen)) == Value(PNone)
  {
  }

  /** Adding an unbound name to a number raises `TypeError`, since the name
      evaluates to the error text; two unbound names concatenate their texts. */
  lemma UnboundNames(x: string, y: string, n: nat)
    ensures Eval(map[], BinOp("+", Id(x), Number(n))) == Raised(TypeError)
    ensures Eval(map[], BinOp("+", Id(x), Id(y))) == Value(PStr(UndefinedMessage(x) + UndefinedMessage(y)))
  {
  }
}
