/** The Python values and binary operators shared by the tree interpreter of
    Parte_1/interpretador.py and the quadruple machine of
    Projeto/codigo_intermediario.py: both map the same thirteen operator
    spellings onto Python's own `+ - * / // % ** < > <= >= == !=`. */
module PyValues {
  import opened Basics

  /** The values these programs can produce: integers, booleans (which
      Python treats as the integers 0 and 1), strings, and `None`. */
  datatype PyVal = PInt(i: int) | PBool(b: bool) | PStr(s: string) | PNone

  /** The exceptions an operator can raise. */
  datatype PyError = TypeError | ZeroDivisionError | KeyError | ValueError

  /** The result of an evaluation: a value, an exception, or a float, whose
      arithmetic is not modelled and which is carried to the end unchanged. */
  datatype Outcome = Value(v: PyVal) | Raised(error: PyError) | Unmodelled

  datatype BinOp = Add | Sub | Mul | TrueDiv | FloorDiv | Mod | Pow | Lt | Gt | Le | Ge | Eq | Ne

  /** The operator spelled `s` in the source's `if op == ...` chain. */
  function OpOf(s: string): (r: Option<BinOp>)
    ensures r.Some? ==> OpText(r.value) == s
  {
    if s == "+" then Some(Add)
    else if s == "-" then Some(Sub)
    else if s == "*" then Some(Mul)
    else if s == "/" then Some(TrueDiv)
    else if s == "div" then Some(FloorDiv)
    else if s == "mod" then Some(Mod)
    else if s == "exp" then Some(Pow)
    else if s == "<" then Some(Lt)
    else if s == ">" then Some(Gt)
    else if s == "<=" then Some(Le)
    else if s == ">=" then Some(Ge)
    else if s == "=" then Some(Eq)
    else if s == "!=" then Some(Ne)
    else None
  }

  /** The spelling of each operator. */
  function OpText(op: BinOp): string
  {
    match op
    case Add => "+"
    case Sub => "-"
    case Mul => "*"
    case TrueDiv => "/"
    case FloorDiv => "div"
    case Mod => "mod"
    case Pow => "exp"
    case Lt => "<"
    case Gt => ">"
    case Le => "<="
    case Ge => ">="
    case Eq => "="
    case Ne => "!="
  }

  /** Every operator is recognised from its own spelling. */
  lemma OpRoundTrip(op: BinOp)
    ensures OpOf(OpText(op)) == Some(op)
  {
  }

  // ---------------------------------------------------------------------
  // Integer arithmetic as Python does it

  /** Python's `a // b`: the quotient rounded down (Dafny's `/` is Euclidean). */
  function FloorQuotient(a: int, b: int): int
    requires b != 0
  {
    if b > 0 then a / b else (-a) / (-b)
  }

  /** Python's `a % b`: the remainder of `FloorQuotient`, with the sign of `b`. */
  function FloorRemainder(a: int, b: int): int
    requires b != 0
  {
    a - b * FloorQuotient(a, b)
  }

  /** `//` and `%` divide exactly, and the remainder lies between zero and
      the divisor: this is what makes the quotient the floor of `a / b`. */
  lemma FloorDivision(a: int, b: int)
    requires b != 0
    ensures b * FloorQuotient(a, b) + FloorRemainder(a, b) == a
    ensures b > 0 ==> 0 <= FloorRemainder(a, b) < b
    ensures b < 0 ==> b < FloorRemainder(a, b) <= 0
  {
    if b < 0 {
      var q := (-a) / (-b);
      assert (-b) * q + (-a) % (-b) == -a;
      assert FloorRemainder(a, b) == -((-a) % (-b));
    }
  }

  /** The quotient and remainder are the only pair with those properties. */
  lemma FloorDivisionUnique(a: int, b: int, q: int, r: int)
    requires b != 0
    requires b * q + r == a
    requires (b > 0 ==> 0 <= r < b) && (b < 0 ==> b < r <= 0)
    ensures q == FloorQuotient(a, b) && r == FloorRemainder(a, b)
  {
    FloorDivision(a, b);
    var q0, r0 := FloorQuotient(a, b), FloorRemainder(a, b);
    assert b * (q - q0) == r0 - r;
    if q > q0 {
      MulMonotone(b, q - q0);
    } else if q < q0 {
      MulMonotone(b, q0 - q);
    }
  }

  lemma MulMonotone(b: int, d: int)
    requires d >= 1 && b != 0
    ensures b > 0 ==> b * d >= b
    ensures b < 0 ==> b * d <= b
  {
  }

  /** `a ** n` for a non-negative exponent. */
  function Power(a: int, n: nat): int
  {
    if n == 0 then 1 else a * Power(a, n - 1)
  }

  /** `s * n`: `n` copies of `s`, none when `n` is not positive. The
      result starts with `s` and repeats with period `|s|`, which together
      with its length fixes every character. */
  function Repeat(s: string, n: int): (r: string)
    ensures |r| == if n <= 0 then 0 else |s| * n
    ensures n > 0 ==> r[..|s|] == s
    ensures forall i :: |s| <= i < |r| ==> r[i] == r[i - |s|]
    decreases n
  {
    if n <= 0 then "" else s + Repeat(s, n - 1)
  }

  /** Python's order on strings: lexicographic by code point; -1, 0 or 1. */
  function StrCompare(a: string, b: string): int
  {
    if a == [] && b == [] then 0
    else if a == [] then -1
    else if b == [] then 1
    else if a[0] < b[0] then -1
    else if a[0] > b[0] then 1
    else StrCompare(a[1..], b[1..])
  }

  /** Swapping the operands of a string comparison swaps its outcome. */
  lemma {:induction false} StrCompareAntisymmetric(a: string, b: string)
    ensures StrCompare(a, b) == -StrCompare(b, a)
    decreases |a|
  {
    if a != [] && b != [] && a[0] == b[0] {
      StrCompareAntisymmetric(a[1..], b[1..]);
    }
  }

  /** Two strings compare equal exactly when they are the same string. */
  lemma {:induction false} StrCompareZero(a: string, b: string)
    ensures StrCompare(a, b) == 0 <==> a == b
    decreases |a|
  {
    if a != [] && b != [] && a[0] == b[0] {
      StrCompareZero(a[1..], b[1..]);
      assert a == [a[0]] + a[1..] && b == [b[0]] + b[1..];
    }
  }

  // ---------------------------------------------------------------------
  // The operators

  /** `int` and `bool` take part in arithmetic as integers. */
  predicate IsNumber(v: PyVal)
  {
    v.PInt? || v.PBool?
  }

  function AsInt(v: PyVal): int
    requires IsNumber(v)
  {
    if v.PInt? then v.i else if v.b then 1 else 0
  }

  /** Python's `==` between these values: numbers by value, strings by
      content, `None` only to itself, anything else unequal. */
  predicate PyEquals(a: PyVal, b: PyVal)
  {
    if IsNumber(a) && IsNumber(b) then AsInt(a) == AsInt(b)
    else if a.PStr? && b.PStr? then a.s == b.s
    else a.PNone? && b.PNone?
  }

  /** The sign of the comparison of two numbers or two strings; `None`
      when Python refuses to order them. */
  function Order(a: PyVal, b: PyVal): Option<int>
  {
    if IsNumber(a) && IsNumber(b) then
      Some(if AsInt(a) < AsInt(b) then -1 else if AsInt(a) == AsInt(b) then 0 else 1)
    else if a.PStr? && b.PStr? then Some(StrCompare(a.s, b.s))
    else None
  }

  /** An ordering comparison: a boolean, or `TypeError`. */
  function Compare(a: PyVal, b: PyVal, accept: int -> bool): Outcome
  {
    match Order(a, b)
    case Some(sign) => Value(PBool(accept(sign)))
    case None => Raised(TypeError)
  }

  /** `+`: sum of numbers, concatenation of strings. */
  function Plus(a: PyVal, b: PyVal): Outcome
  {
    if IsNumber(a) && IsNumber(b) then Value(PInt(AsInt(a) + AsInt(b)))
    else if a.PStr? && b.PStr? then Value(PStr(a.s + b.s))
    else Raised(TypeError)
  }

  /** `*`: product of numbers, or a string repeated a number of times. */
  function Times(a: PyVal, b: PyVal): Outcome
  {
    if IsNumber(a) && IsNumber(b) then Value(PInt(AsInt(a) * AsInt(b)))
    else if a.PStr? && IsNumber(b) then Value(PStr(Repeat(a.s, AsInt(b))))
    else if IsNumber(a) && b.PStr? then Value(PStr(Repeat(b.s, AsInt(a))))
    else Raised(TypeError)
  }

  /** `/`, `//` and `%` on numbers; a zero divisor raises. `/` always
      yields a float. A string `%` is formatting: with no `%` in the
      string the single argument is left over, which raises. */
  function Divide(op: BinOp, a: PyVal, b: PyVal): Outcome
    requires op == TrueDiv || op == FloorDiv || op == Mod
  {
    if IsNumber(a) && IsNumber(b) then
      if AsInt(b) == 0 then Raised(ZeroDivisionError)
      else if op == TrueDiv then Unmodelled
      else if op == FloorDiv then Value(PInt(FloorQuotient(AsInt(a), AsInt(b))))
      else Value(PInt(FloorRemainder(AsInt(a), AsInt(b))))
    else if op == Mod && a.PStr? then
      if '%' in a.s then Unmodelled else Raised(TypeError)
    else Raised(TypeError)
  }

  /** `**`: an integer for a non-negative exponent; zero to a negative power
      raises, any other negative power is a float. */
  function Exponent(a: PyVal, b: PyVal): Outcome
  {
    if IsNumber(a) && IsNumber(b) then
      if AsInt(b) >= 0 then Value(PInt(Power(AsInt(a), AsInt(b))))
      else if AsInt(a) == 0 then Raised(ZeroDivisionError)
      else Unmodelled
    else Raised(TypeError)
  }

  /** The value of `a op b`. */
  function Apply(op: BinOp, a: PyVal, b: PyVal): Outcome
  {
    match op
    case Add => Plus(a, b)
    case Sub => if IsNumber(a) && IsNumber(b) then Value(PInt(AsInt(a) - AsInt(b))) else Raised(TypeError)
    case Mul => Times(a, b)
    case TrueDiv => Divide(op, a, b)
    case FloorDiv => Divide(op, a, b)
    case Mod => Divide(op, a, b)
    case Pow => Exponent(a, b)
    case Lt => Compare(a, b, sign => sign < 0)
    case Gt => Compare(a, b, sign => sign > 0)
    case Le => Compare(a, b, sign => sign <= 0)
    case Ge => Compare(a, b, sign => sign >= 0)
    case Eq => Value(PBool(PyEquals(a, b)))
    case Ne => Value(PBool(!PyEquals(a, b)))
  }

  // ---------------------------------------------------------------------
  // Properties of the operators

  /** On integers the arithmetic operators are the mathematical ones, with
      `div`/`mod` rounding down and `/` leaving the integers. */
  lemma IntegerArithmetic(x: int, y: int)
    ensures Apply(Add, PInt(x), PInt(y)) == Value(PInt(x + y))
    ensures Apply(Sub, PInt(x), PInt(y)) == Value(PInt(x - y))
    ensures Apply(Mul, PInt(x), PInt(y)) == Value(PInt(x * y))
    ensures y == 0 ==> Apply(FloorDiv, PInt(x), PInt(y)) == Raised(ZeroDivisionError)
    ensures y == 0 ==> Apply(Mod, PInt(x), PInt(y)) == Raised(ZeroDivisionError)
    ensures y != 0 ==> Apply(TrueDiv, PInt(x), PInt(y)) == Unmodelled
    ensures y != 0 ==>
      (exists q, r ::
         && Apply(FloorDiv, PInt(x), PInt(y)) == Value(PInt(q))
         && Apply(Mod, PInt(x), PInt(y)) == Value(PInt(r))
         && y * q + r == x && (y > 0 ==> 0 <= r < y) && (y < 0 ==> y < r <= 0))
  {
    if y != 0 {
      FloorDivision(x, y);
      var q, r := FloorQuotient(x, y), FloorRemainder(x, y);
      assert Apply(FloorDiv, PInt(x), PInt(y)) == Value(PInt(q));
      assert Apply(Mod, PInt(x), PInt(y)) == Value(PInt(r));
    }
  }

  /** The six comparisons never raise on two numbers and yield the
      booleans of the integer comparisons; `=` and `!=` never raise at all
      and always disagree. */
  lemma ComparisonsOnNumbers(a: PyVal, b: PyVal)
    ensures IsNumber(a) && IsNumber(b) ==>
      && Apply(Lt, a, b) == Value(PBool(AsInt(a) < AsInt(b)))
      && Apply(Gt, a, b) == Value(PBool(AsInt(a) > AsInt(b)))
      && Apply(Le, a, b) == Value(PBool(AsInt(a) <= AsInt(b)))
      && Apply(Ge, a, b) == Value(PBool(AsInt(a) >= AsInt(b)))
      && Apply(Eq, a, b) == Value(PBool(AsInt(a) == AsInt(b)))
    ensures Apply(Eq, a, b).Value? && Apply(Eq, a, b).v.PBool?
    ensures Apply(Ne, a, b) == Value(PBool(!Apply(Eq, a, b).v.b))
  {
  }

  /** `a > b` is `b < a` and `a >= b` is `b <= a`, for every pair of values,
      including the `TypeError` cases. */
  lemma ComparisonsMirror(a: PyVal, b: PyVal)
    ensures Apply(Gt, a, b) == Apply(Lt, b, a)
    ensures Apply(Ge, a, b) == Apply(Le, b, a)
  {
    if a.PStr? && b.PStr? {
      StrCompareAntisymmetric(a.s, b.s);
    }
  }

  /** On two strings, `=` agrees with `<=` and `>=` holding together. */
  lemma StringEqualityIsOrder(x: string, y: string)
    ensures Apply(Eq, PStr(x), PStr(y)) == Value(PBool(x == y))
    ensures (Apply(Le, PStr(x), PStr(y)) == Value(PBool(true)) && Apply(Ge, PStr(x), PStr(y)) == Value(PBool(true))) <==> x == y
  {
    StrCompareZero(x, y);
    StrCompareAntisymmetric(x, y);
  }
}
