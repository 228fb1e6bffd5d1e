/** The values of lexy.py's Lisp, its environments (a `ChainMap` as a list
    of frames, innermost first), the primitives of `initial_env` and the
    ways an evaluation can fail. */
module LexyValues {
  import opened Basics
  import PyValues

  /** The Python functions `initial_env` binds, one tag each. */
  datatype Primitive = Add | Sub | Mul | Div | Eq | Lt | Gt | Le | Ge | Cons | Car | Cdr | IsNull

  /** A Python value the evaluator can see. A parsed program is built from
      the first four alone (string literals and symbols are both `Str`:
      the lexer strips the quotes of a literal); `Closure` is the tuple
      `('closure', params, body, env_snapshot)` and `Prim` a primitive. */
  datatype Value =
    | Int(i: int)
    | Bool(b: bool)
    | Str(s: string)
    | List(items: seq<Value>)
    | Closure(params: Value, body: Value, captured: map<string, Value>)
    | Prim(prim: Primitive)

  /** A `ChainMap`: never without a frame, the innermost one first. */
  type Env = frames: seq<map<string, Value>> | |frames| > 0 witness [map[]]

  /** The message-carrying `LispError`s the evaluator and primitives raise. */
  datatype LispError =
    | UnboundSymbol(name: string)   // "Unbound symbol: ..."
    | WrongArgCount                 // "Incorrect number of arguments"
    | NotAFunction(op: Value)       // "Application of non-function: ..."
    | ConsNeedsList                 // "cons second arg must be list"
    | CarOnEmpty                    // "car on empty"
    | CdrOnEmpty                    // "cdr on empty"
    | DivNeedsTwo                   // "Division needs at least two args"

  /** Why an evaluation produced no value: a `LispError`, one of Python's
      own exceptions, or Python behaviour this model does not follow. */
  datatype Failure =
    | Lisp(error: LispError)
    | TypeError
    | IndexError
    | ValueError
    | ZeroDivision
    | RecursionLimit
    | Unmodelled

  // ---------------------------------------------------------------------
  // Environments

  /** `env[name]` on a `ChainMap`: the binding of the first frame that has one. */
  function Lookup(frames: seq<map<string, Value>>, name: string): Option<Value>
  {
    if frames == [] then None
    else if name in frames[0] then Some(frames[0][name])
    else Lookup(frames[1..], name)
  }

  /** A name is found exactly when some frame binds it, and then with the
      value of the first frame that does. */
  lemma {:induction false} LookupFirst(frames: seq<map<string, Value>>, name: string)
    ensures Lookup(frames, name).Some? <==> exists i :: 0 <= i < |frames| && name in frames[i]
    ensures Lookup(frames, name).Some? ==>
      exists i :: 0 <= i < |frames| && name in frames[i] && Lookup(frames, name).value == frames[i][name]
        && forall j :: 0 <= j < i ==> name !in frames[j]
  {
    if frames != [] && name !in frames[0] {
      LookupFirst(frames[1..], name);
      if Lookup(frames, name).Some? {
        var i :| 0 <= i < |frames| - 1 && name in frames[1..][i] && Lookup(frames, name).value == frames[1..][i][name]
          && forall j :: 0 <= j < i ==> name !in frames[1..][j];
        assert forall j :: 0 <= j < i + 1 ==> name !in frames[j] by {
          forall j | 0 <= j < i + 1
            ensures name !in frames[j]
          {
            if j > 0 {
              assert frames[j] == frames[1..][j - 1];
            }
          }
        }
      } else {
        assert forall i :: 1 <= i < |frames| ==> frames[i] == frames[1..][i - 1];
      }
    }
  }

  /** The frame `initial_env` builds: the thirteen primitives and `#t`, `#f`. */
  function InitialFrame(): map<string, Value>
  {
    map[
      "+" := Prim(Add), "-" := Prim(Sub), "*" := Prim(Mul), "/" := Prim(Div),
      "=" := Prim(Eq), "<" := Prim(Lt), ">" := Prim(Gt), "<=" := Prim(Le), ">=" := Prim(Ge),
      "cons" := Prim(Cons), "car" := Prim(Car), "cdr" := Prim(Cdr), "null?" := Prim(IsNull),
      "#t" := Bool(true), "#f" := Bool(false)]
  }

  /** `initial_env()`: a `ChainMap` over that one frame. */
  function InitialEnv(): (env: Env)
    ensures |env| == 1
    ensures forall name :: name in env[0] ==> Lookup(env, name) == Some(env[0][name])
  {
    [InitialFrame()]
  }

  // ---------------------------------------------------------------------
  // Python's view of the values

  /** `int` and `bool` are the numbers. */
  predicate IsNumber(v: Value)
  {
    v.Int? || v.Bool?
  }

  function AsInt(v: Value): int
    requires IsNumber(v)
  {
    if v.Int? then v.i else if v.b then 1 else 0
  }

  predicate AllNumbers(vs: seq<Value>)
  {
    forall k :: 0 <= k < |vs| ==> IsNumber(vs[k])
  }

  /** The condition of `if`: only `False` and `[]` choose the else branch
      (`None`, the third value it tests for, is never produced). */
  predicate Truthy(v: Value)
  {
    v != Bool(false) && v != List([])
  }

  /** Python's `not v`: zero, `False`, the empty string and the empty list. */
  predicate Falsy(v: Value)
  {
    v == Int(0) || v == Bool(false) || v == Str("") || v == List([])
  }

  /** Python's `a == b`. Numbers compare by value, strings by content, lists
      element by element (stopping at the first unequal pair), primitives
      by identity, values of different kinds are unequal; `None` when a
      closure's tuple has to be compared. */
  function PyEq(a: Value, b: Value): Option<bool>
  {
    if IsNumber(a) && IsNumber(b) then Some(AsInt(a) == AsInt(b))
    else if a.Closure? || b.Closure? then
      (if a.Closure? && b.Closure? then None else Some(false))
    else if a.List? && b.List? then
      (if |a.items| != |b.items| then Some(false) else ItemsEq(a.items, b.items))
    else Some(a == b)
  }

  function ItemsEq(xs: seq<Value>, ys: seq<Value>): Option<bool>
    requires |xs| == |ys|
  {
    if xs == [] then Some(true)
    else
      match PyEq(xs[0], ys[0])
      case None => None
      case Some(false) => Some(false)
      case Some(true) => ItemsEq(xs[1..], ys[1..])
  }

  /** A value with no closure anywhere inside it. */
  predicate NoClosure(v: Value)
    decreases v
  {
    match v
    case Closure(_, _, _) => false
    case List(items) => forall k :: 0 <= k < |items| ==> NoClosure(items[k])
    case _ => true
  }

  /** On values without closures, at any depth, Python's `==` holds of
      every value and itself. */
  lemma {:induction false} PyEqReflexive(a: Value)
    requires NoClosure(a)
    ensures PyEq(a, a) == Some(true)
    decreases a, 1
  {
    if a.List? {
      ItemsEqReflexive(a.items);
    }
  }

  /** A list without closures is `==` to itself item by item. */
  lemma {:induction false} ItemsEqReflexive(xs: seq<Value>)
    requires forall k :: 0 <= k < |xs| ==> NoClosure(xs[k])
    ensures ItemsEq(xs, xs) == Some(true)
    decreases xs, 0
  {
    if xs != [] {
      PyEqReflexive(xs[0]);
      assert forall k :: 0 <= k < |xs[1..]| ==> xs[1..][k] == xs[k + 1];
      ItemsEqReflexive(xs[1..]);
    }
  }

  // ---------------------------------------------------------------------
  // The primitives

  /** `sum(vs)` over numbers. */
  function Sum(vs: seq<Value>): int
    requires AllNumbers(vs)
  {
    if vs == [] then 0 else AsInt(vs[0]) + Sum(vs[1..])
  }

  /** `functools.reduce(operator.mul, vs, 1)` over numbers. */
  function Product(vs: seq<Value>): int
    requires AllNumbers(vs)
  {
    if vs == [] then 1 else AsInt(vs[0]) * Product(vs[1..])
  }

  /** `lisp_add`: `sum` starts from `0`, so anything but a number is a `TypeError`. */
  function LispAdd(args: seq<Value>): Result<Value, Failure>
  {
    if AllNumbers(args) then Ok(Int(Sum(args))) else Err(TypeError)
  }

  /** `lisp_sub`: no argument is a `TypeError`, one is negated, more are the
      first minus the sum of the rest. */
  function LispSub(args: seq<Value>): Result<Value, Failure>
  {
    if args == [] || !AllNumbers(args) then Err(TypeError)
    else if |args| == 1 then Ok(Int(-AsInt(args[0])))
    else Ok(Int(AsInt(args[0]) - Sum(args[1..])))
  }

  /** `lisp_mul` over numbers; Python's repetition of strings, lists and
      tuples by a number is not modelled. */
  function LispMul(args: seq<Value>): Result<Value, Failure>
  {
    if AllNumbers(args) then Ok(Int(Product(args))) else Err(Unmodelled)
  }

  /** `int(a / b)` for integers: true division, then truncation toward zero. */
  function TruncQuotient(a: int, b: int): int
    requires b != 0
  {
    var q := (if a < 0 then -a else a) / (if b < 0 then -b else b);
    if (a < 0) != (b < 0) then -q else q
  }

  /** Python's `int / int` is correctly rounded, so below 2^53 the float
      never crosses an integer and `int(a / b)` truncates exactly. */
  const ExactFloatBound: int := 0x20_0000_0000_0000

  /** The loop of `lisp_div`, from `result` over the remaining divisors: a
      non-number divisor is a `TypeError`, zero a `ZeroDivisionError`. */
  function DivFold(result: int, rest: seq<Value>): Result<Value, Failure>
    decreases |rest|
  {
    if rest == [] then Ok(Int(result))
    else if !IsNumber(rest[0]) then Err(TypeError)
    else if AsInt(rest[0]) == 0 then Err(ZeroDivision)
    else if result <= -ExactFloatBound || ExactFloatBound <= result then Err(Unmodelled)
    else DivFold(TruncQuotient(result, AsInt(rest[0])), rest[1..])
  }

  /** `lisp_div`: at least two arguments, else `LispError`. */
  function LispDiv(args: seq<Value>): Result<Value, Failure>
  {
    if args == [] then Err(TypeError)
    else if |args| == 1 then Err(Lisp(DivNeedsTwo))
    else if !IsNumber(args[0]) then Err(TypeError)
    else DivFold(AsInt(args[0]), args[1..])
  }

  /** The loop of `lisp_div` as the source runs it. */
  method LispDivLoop(args: seq<Value>) returns (r: Result<Value, Failure>)
    ensures r == LispDiv(args)
  {
    if args == [] {
      return Err(TypeError);
    }
    if |args| == 1 {
      return Err(Lisp(DivNeedsTwo));
    }
    if !IsNumber(args[0]) {
      return Err(TypeError);
    }
    var result := AsInt(args[0]);
    var i := 1;
    while i < |args|
      invariant 1 <= i <= |args|
      invariant DivFold(result, args[i..]) == LispDiv(args)
    {
      var d := args[i];
      assert args[i..][0] == d && args[i..][1..] == args[i + 1..];
      if !IsNumber(d) {
        return Err(TypeError);
      }
      if AsInt(d) == 0 {
        return Err(ZeroDivision);
      }
      if result <= -ExactFloatBound || ExactFloatBound <= result {
        return Err(Unmodelled);
      }
      result := TruncQuotient(result, AsInt(d));
      i := i + 1;
    }
    r := Ok(Int(result));
  }

  /** The truncated quotient divides exactly, leaves a remainder smaller than
      the divisor with the sign of the dividend, and is no larger than it. */
  lemma TruncDivision(a: int, b: int)
    requires b != 0
    ensures var q := TruncQuotient(a, b); var r := a - b * q;
      && (if r < 0 then -r else r) < (if b < 0 then -b else b)
      && (a >= 0 ==> r >= 0) && (a <= 0 ==> r <= 0)
      && (if q < 0 then -q else q) <= (if a < 0 then -a else a)
  {
    var ma: nat, mb: nat := if a < 0 then -a else a, if b < 0 then -b else b;
    var q0, r0 := ma / mb, ma % mb;
    NaturalDivision(ma, mb);
    var q := TruncQuotient(a, b);
    assert q == if (a < 0) != (b < 0) then -q0 else q0;
    SignedProduct(b, q, mb, q0);
    if a >= 0 {
      assert b * q == mb * q0;
      assert a - b * q == r0;
    } else {
      assert b * q == -(mb * q0);
      assert a - b * q == -r0;
    }
  }

  lemma NaturalDivision(a: nat, b: nat)
    requires b > 0
    ensures b * (a / b) + a % b == a && 0 <= a % b < b && 0 <= a / b <= a
  {
    if a / b > a {
      MulAtLeast(b, a / b);
    }
  }

  lemma MulAtLeast(m: int, q: int)
    requires m >= 1 && q >= 0
    ensures m * q >= q
  {
  }

  /** `b * q` from the magnitudes, when the sign of `q` is that of `b`
      times the sign chosen for the quotient. */
  lemma SignedProduct(b: int, q: int, mb: nat, q0: nat)
    requires mb == (if b < 0 then -b else b)
    requires q == q0 || q == -(q0 as int)
    ensures q == q0 ==> b * q == (if b < 0 then -(mb * q0) else mb * q0)
    ensures q == -(q0 as int) ==> b * q == (if b < 0 then mb * q0 else -(mb * q0))
  {
  }

  /** With every divisor a non-zero number and a dividend below the float
      bound, `lisp_div` returns the quotients taken in turn, each no larger
      in magnitude than the last. */
  lemma {:induction false} DivFoldDefined(result: int, rest: seq<Value>)
    requires AllNumbers(rest) && forall k :: 0 <= k < |rest| ==> AsInt(rest[k]) != 0
    requires -ExactFloatBound < result < ExactFloatBound
    ensures DivFold(result, rest).Ok? && DivFold(result, rest).value.Int?
    ensures var q := DivFold(result, rest).value.i;
      (if q < 0 then -q else q) <= (if result < 0 then -result else result)
    decreases |rest|
  {
    if rest != [] {
      TruncDivision(result, AsInt(rest[0]));
      DivFoldDefined(TruncQuotient(result, AsInt(rest[0])), rest[1..]);
    }
  }

  /** `lisp_eq` and the orderings: exactly two arguments. Numbers and strings
      are ordered; two lists or two closures are ordered element by element,
      which is not modelled; any other pair is a `TypeError`. */
  function LispCompare(p: Primitive, args: seq<Value>): Result<Value, Failure>
    requires p.Eq? || p.Lt? || p.Gt? || p.Le? || p.Ge?
  {
    if |args| != 2 then Err(TypeError)
    else
      var a, b := args[0], args[1];
      if p.Eq? then
        (match PyEq(a, b) case Some(t) => Ok(Bool(t)) case None => Err(Unmodelled))
      else if IsNumber(a) && IsNumber(b) then Ok(Bool(Accepts(p, if AsInt(a) < AsInt(b) then -1 else if AsInt(a) == AsInt(b) then 0 else 1)))
      else if a.Str? && b.Str? then Ok(Bool(Accepts(p, PyValues.StrCompare(a.s, b.s))))
      else if (a.List? && b.List?) || (a.Closure? && b.Closure?) then Err(Unmodelled)
      else Err(TypeError)
  }

  /** Whether the ordering `p` holds for a comparison whose sign is `sign`. */
  predicate Accepts(p: Primitive, sign: int)
  {
    match p
    case Lt => sign < 0
    case Gt => sign > 0
    case Le => sign <= 0
    case Ge => sign >= 0
    case _ => sign == 0
  }

  /** `lisp_cons`: onto `[]` it makes `[a]`, onto a list it prepends, and
      anything else is a `LispError`. */
  function LispCons(args: seq<Value>): Result<Value, Failure>
  {
    if |args| != 2 then Err(TypeError)
    else if args[1] == List([]) then Ok(List([args[0]]))
    else if args[1].List? then Ok(List([args[0]] + args[1].items))
    else Err(Lisp(ConsNeedsList))
  }

  /** `lisp_car`: `lst[0]` once `not lst` has been ruled out; a string gives
      its first character, a closure's tuple its tag `'closure'`. */
  function LispCar(args: seq<Value>): Result<Value, Failure>
  {
    if |args| != 1 then Err(TypeError)
    else
      var v := args[0];
      if Falsy(v) then Err(Lisp(CarOnEmpty))
      else match v
        case List(items) => Ok(items[0])
        case Str(s) => Ok(Str(s[..1]))
        case Closure(_, _, _) => Ok(Str("closure"))
        case _ => Err(TypeError)
  }

  /** `lisp_cdr`: `lst[1:]` once `not lst` has been ruled out; the slice of
      a closure's tuple is not modelled. */
  function LispCdr(args: seq<Value>): Result<Value, Failure>
  {
    if |args| != 1 then Err(TypeError)
    else
      var v := args[0];
      if Falsy(v) then Err(Lisp(CdrOnEmpty))
      else match v
        case List(items) => Ok(List(items[1..]))
        case Str(s) => Ok(Str(s[1..]))
        case Closure(_, _, _) => Err(Unmodelled)
        case _ => Err(TypeError)
  }

  /** `lisp_null`: `lst == []`, true of the empty list alone. */
  function LispNull(args: seq<Value>): Result<Value, Failure>
  {
    if |args| != 1 then Err(TypeError) else Ok(Bool(args[0] == List([])))
  }

  /** `op(*args)` for a primitive. */
  function ApplyPrimitive(p: Primitive, args: seq<Value>): Result<Value, Failure>
  {
    match p
    case Add => LispAdd(args)
    case Sub => LispSub(args)
    case Mul => LispMul(args)
    case Div => LispDiv(args)
    case Cons => LispCons(args)
    case Car => LispCar(args)
    case Cdr => LispCdr(args)
    case IsNull => LispNull(args)
    case _ => LispCompare(p, args)
  }

  // ---------------------------------------------------------------------
  // Properties of the primitives

  /** `car` and `cdr` take back apart what `cons` put together. */
  lemma CarCdrOfCons(a: Value, l: seq<Value>)
    ensures LispCons([a, List(l)]) == Ok(List([a] + l))
    ensures LispCar([LispCons([a, List(l)]).value]) == Ok(a)
    ensures LispCdr([LispCons([a, List(l)]).value]) == Ok(List(l))
    ensures LispNull([LispCons([a, List(l)]).value]) == Ok(Bool(false))
  {
    assert ([a] + l)[1..] == l;
    if l == [] {
      assert [a] + l == [a];
    }
  }

  /** Every non-empty list is the `cons` of its `car` and its `cdr`. */
  lemma ConsOfCarCdr(l: seq<Value>)
    requires l != []
    ensures LispCons([LispCar([List(l)]).value, LispCdr([List(l)]).value]) == Ok(List(l))
  {
    assert [l[0]] + l[1..] == l;
    if |l| == 1 {
      assert l[1..] == [] && l == [l[0]];
    }
  }

  /** `car`, `cdr` of an empty list, and `cons` onto a non-list, raise `LispError`. */
  lemma ListErrors(a: Value, b: Value)
    requires !b.List?
    ensures LispCar([List([])]) == Err(Lisp(CarOnEmpty))
    ensures LispCdr([List([])]) == Err(Lisp(CdrOnEmpty))
    ensures LispCons([a, b]) == Err(Lisp(ConsNeedsList))
  {
  }

  /** `-` of one number negates it, and of several is the first minus the
      others: it undoes `+` (`(- (+ a b) b)` is `a`). */
  lemma SubUndoesAdd(a: int, b: int)
    ensures LispSub([Int(a)]) == Ok(Int(-a))
    ensures LispSub([LispAdd([Int(a), Int(b)]).value, Int(b)]) == Ok(Int(a))
  {
  }

  /** Adding or multiplying splits over any division of the arguments, and
      with no arguments gives the units `0` and `1`. */
  lemma {:induction false} SumProductSplit(xs: seq<Value>, ys: seq<Value>)
    requires AllNumbers(xs) && AllNumbers(ys)
    ensures AllNumbers(xs + ys)
    ensures Sum(xs + ys) == Sum(xs) + Sum(ys)
    ensures Product(xs + ys) == Product(xs) * Product(ys)
    ensures LispAdd([]) == Ok(Int(0)) && LispMul([]) == Ok(Int(1))
  {
    if xs != [] {
      assert (xs + ys)[1..] == xs[1..] + ys;
      SumProductSplit(xs[1..], ys);
      var a, p, q := AsInt(xs[0]), Product(xs[1..]), Product(ys);
      assert Product(xs + ys) == a * (p * q);
      assert a * (p * q) == (a * p) * q;
    } else {
      assert xs + ys == ys;
    }
  }

  /** The orderings are the mirror images of each other: `(< a b)` is
      `(> b a)` and `(<= a b)` is `(>= b a)`, on numbers and on strings. */
  lemma OrderingsMirror(a: Value, b: Value)
    requires (IsNumber(a) && IsNumber(b)) || (a.Str? && b.Str?)
    ensures LispCompare(Lt, [a, b]) == LispCompare(Gt, [b, a])
    ensures LispCompare(Le, [a, b]) == LispCompare(Ge, [b, a])
  {
    if a.Str? && b.Str? {
      PyValues.StrCompareAntisymmetric(a.s, b.s);
    }
  }
}
