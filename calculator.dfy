/** The calculator tool: a recursive evaluator over a parsed expression tree
    with an allow-list of operators, a magnitude bound and one error prefix.
    Numbers are reals; parsing and rounding happen outside the model. */
module Calculator {
  import opened Wrappers
  import Text

  datatype UnaryOp = USub | UAdd | Not | Invert

  datatype BinaryOp = Add | Sub | Mult | Div | Pow | FloorDiv | Mod | MatMult
                    | LShift | RShift | BitOr | BitXor | BitAnd

  /** The expression part of a parse tree; `Other` is every node kind that is
      neither a number, a unary nor a binary operation (names, calls, ...). */
  datatype Expr =
    | Num(value: real)
    | Unary(op: UnaryOp, operand: Expr)
    | Binary(left: Expr, bop: BinaryOp, right: Expr)
    | Other(kind: string)

  const Unsupported: string := "Unsupported operation"
  const DivisionByZero: string := "division by zero"
  const ZeroToNegative: string := "0.0 cannot be raised to a negative power"
  const OutOfRange: string := "Result out of allowed range"
  const ErrorPrefix: string := "Invalid expression: "

  /** The keys of `_ALLOWED_OPS` among the unary operators. */
  predicate AllowedUnary(op: UnaryOp) {
    op == USub
  }

  /** The keys of `_ALLOWED_OPS` among the binary operators. */
  predicate AllowedBinary(op: BinaryOp) {
    op in {Add, Sub, Mult, Div, Pow}
  }

  /** Only numbers and allowed operators. */
  predicate AllowedTree(e: Expr) {
    match e
    case Num(_) => true
    case Unary(op, a) => AllowedUnary(op) && AllowedTree(a)
    case Binary(l, op, r) => AllowedBinary(op) && AllowedTree(l) && AllowedTree(r)
    case Other(_) => false
  }

  /** `x ** n` for a natural `n`. */
  function PowNat(x: real, n: nat): real {
    if n == 0 then 1.0 else x * PowNat(x, n - 1)
  }

  lemma {:induction false} PowNatNonZero(x: real, n: nat)
    requires x != 0.0
    ensures PowNat(x, n) != 0.0
  {
    if n > 0 {
      PowNatNonZero(x, n - 1);
    }
  }

  /** `operator.pow`: integral exponents exactly; other exponents through `power`,
      which stands for the floating-point library. */
  function Power(x: real, y: real, power: (real, real) -> Result<real, string>): (r: Result<real, string>)
    ensures y == y.Floor as real && y >= 0.0 ==> r == Ok(PowNat(x, y.Floor as nat))
    ensures y == y.Floor as real && y < 0.0 ==> (r.Err? <==> x == 0.0)
  {
    if y != y.Floor as real then power(x, y)
    else if y >= 0.0 then Ok(PowNat(x, y.Floor as nat))
    else if x == 0.0 then Err(ZeroToNegative)
    else
      PowNatNonZero(x, (-y).Floor as nat);
      Ok(1.0 / PowNat(x, (-y).Floor as nat))
  }

  /** The operator applied to the two values. */
  function Apply(op: BinaryOp, a: real, b: real, power: (real, real) -> Result<real, string>): Result<real, string>
    requires AllowedBinary(op)
  {
    match op
    case Add => Ok(a + b)
    case Sub => Ok(a - b)
    case Mult => Ok(a * b)
    case Div => if b == 0.0 then Err(DivisionByZero) else Ok(a / b)
    case Pow => Power(a, b, power)
  }

  /** `_eval`: an operator outside the allow-list fails before its operands are
      looked at; otherwise the left operand is evaluated before the right. */
  function Eval(e: Expr, power: (real, real) -> Result<real, string>): (r: Result<real, string>)
    ensures r.Ok? ==> AllowedTree(e)
  {
    match e
    case Num(v) => Ok(v)
    case Unary(op, a) =>
      if !AllowedUnary(op) then Err(Unsupported)
      else
        var x := Eval(a, power);
        if x.Err? then x else Ok(-x.value)
    case Binary(l, op, rt) =>
      if !AllowedBinary(op) then Err(Unsupported)
      else
        var x := Eval(l, power);
        if x.Err? then x
        else
          var y := Eval(rt, power);
          if y.Err? then y else Apply(op, x.value, y.value, power)
    case Other(_) => Err(Unsupported)
  }

  function Abs(x: real): real {
    if x < 0.0 then -x else x
  }

  /** `safe_calculate`, given what `ast.parse` made of the text (its error
      message when the text does not parse); the result is before rounding. */
  function SafeCalculate(parsed: Result<Expr, string>, power: (real, real) -> Result<real, string>): (r: Result<real, string>)
    ensures r.Err? ==> Text.StartsWith(r.error, ErrorPrefix)
    ensures r.Ok? ==> Abs(r.value) <= 1000000000.0 && parsed.Ok? && AllowedTree(parsed.value)
  {
    if parsed.Err? then Err(ErrorPrefix + parsed.error)
    else
      var v := Eval(parsed.value, power);
      if v.Err? then Err(ErrorPrefix + v.error)
      else if Abs(v.value) > 1000000000.0 then Err(ErrorPrefix + OutOfRange)
      else Ok(v.value)
  }

  // Properties

  /** An unsupported operator at the root fails with "Unsupported operation"
      whatever its operands are. */
  lemma UnsupportedRoot(e: Expr, power: (real, real) -> Result<real, string>)
    requires e.Other? || (e.Unary? && !AllowedUnary(e.op)) || (e.Binary? && !AllowedBinary(e.bop))
    ensures Eval(e, power) == Err(Unsupported)
    ensures SafeCalculate(Ok(e), power) == Err(ErrorPrefix + Unsupported)
  {
  }

  /** A failing left operand decides the error: the right one is never the
      cause reported. */
  lemma LeftErrorFirst(l: Expr, op: BinaryOp, r: Expr, power: (real, real) -> Result<real, string>)
    requires AllowedBinary(op) && Eval(l, power).Err?
    ensures Eval(Binary(l, op, r), power) == Eval(l, power)
  {
  }

  /** A tree without `**` evaluates the same whatever `power` is:
      the result depends only on exact arithmetic. */
  lemma {:induction false} PowerIrrelevant(e: Expr, p1: (real, real) -> Result<real, string>, p2: (real, real) -> Result<real, string>)
    requires NoPow(e)
    ensures Eval(e, p1) == Eval(e, p2)
  {
    match e
    case Num(_) =>
    case Unary(_, a) => PowerIrrelevant(a, p1, p2);
    case Binary(l, _, rt) => PowerIrrelevant(l, p1, p2); PowerIrrelevant(rt, p1, p2);
    case Other(_) =>
  }

  predicate NoPow(e: Expr) {
    match e
    case Num(_) => true
    case Unary(_, a) => NoPow(a)
    case Binary(l, op, r) => op != Pow && NoPow(l) && NoPow(r)
    case Other(_) => true
  }

  /** Negating twice gives back the value. */
  lemma DoubleNegation(e: Expr, power: (real, real) -> Result<real, string>)
    ensures Eval(Unary(USub, Unary(USub, e)), power) == Eval(e, power)
  {
  }

  /** The documented examples: 2 + 3 * 4 is 14, (2 + 3) * 4 is 20,
      -(5 + 2) is -7 and 2 ** 3 is 8. */
  lemma Examples(power: (real, real) -> Result<real, string>)
    ensures SafeCalculate(Ok(Binary(Num(2.0), Add, Binary(Num(3.0), Mult, Num(4.0)))), power) == Ok(14.0)
    ensures SafeCalculate(Ok(Binary(Binary(Num(2.0), Add, Num(3.0)), Mult, Num(4.0))), power) == Ok(20.0)
    ensures SafeCalculate(Ok(Unary(USub, Binary(Num(5.0), Add, Num(2.0)))), power) == Ok(-7.0)
    ensures SafeCalculate(Ok(Binary(Num(2.0), Pow, Num(3.0))), power) == Ok(8.0)
    ensures SafeCalculate(Ok(Binary(Num(10.0), Div, Num(0.0))), power) == Err(ErrorPrefix + DivisionByZero)
  {
    assert PowNat(2.0, 3) == 8.0;
  }

  /** A result beyond 1e9 in magnitude is reported as out of range, inside the
      same error prefix. */
  lemma RangeRejected(e: Expr, power: (real, real) -> Result<real, string>)
    requires Eval(e, power).Ok? && Abs(Eval(e, power).value) > 1000000000.0
    ensures SafeCalculate(Ok(e), power) == Err(ErrorPrefix + OutOfRange)
  {
  }

  /** The bound is inclusive: a result of exactly 1e9 passes. */
  lemma BoundInclusive(power: (real, real) -> Result<real, string>)
    ensures SafeCalculate(Ok(Unary(USub, Num(1000000000.0))), power) == Ok(-1000000000.0)
    ensures SafeCalculate(Ok(Binary(Num(1000000000.0), Add, Num(1.0))), power) == Err(ErrorPrefix + OutOfRange)
  {
  }
}
