/**
 * The `f32` payload of `Value::Num`, as the extended real line: a finite
 * real, an infinity, or NaN. Rounding to 32 bits and the sign of zero are not
 * represented; the operations follow IEEE 754 on these values (NaN is
 * absorbing, `inf - inf` and `0 * inf` are NaN, `x / 0` is an infinity with
 * the sign of `x` or NaN when `x` is zero).
 */
module Float {
  import opened Wrappers
  import opened Cmp

  datatype F32 = Finite(r: real) | Inf(negative: bool) | NaN

  /** `0.0_f32`, the zero value of `f32`. */
  const Zero: F32 := Finite(0.0)

  /** `1.0_f32`, the multiplicative identity. */
  const One: F32 := Finite(1.0)

  /** Unary minus. */
  function Neg(a: F32): (r: F32)
    ensures a.Finite? ==> r.Finite? && a.r + r.r == 0.0
    ensures a.Inf? ==> r.Inf? && r.negative != a.negative
    ensures a.NaN? <==> r.NaN?
  {
    match a
    case Finite(x) => Finite(-x)
    case Inf(s) => Inf(!s)
    case NaN => NaN
  }

  /** `a + b`. Zero is a two-sided identity. */
  function Add(a: F32, b: F32): (r: F32)
    ensures b == Zero ==> r == a
    ensures a == Zero ==> r == b
    ensures r.NaN? <==> a.NaN? || b.NaN? || (a.Inf? && b.Inf? && a.negative != b.negative)
  {
    match (a, b)
    case (NaN, _) => NaN
    case (_, NaN) => NaN
    case (Inf(s), Inf(t)) => if s == t then Inf(s) else NaN
    case (Inf(s), Finite(_)) => Inf(s)
    case (Finite(_), Inf(t)) => Inf(t)
    case (Finite(x), Finite(y)) => Finite(x + y)
  }

  /** `a - b`, which IEEE 754 defines as `a + (-b)`. */
  function Sub(a: F32, b: F32): (r: F32)
    ensures b == Zero ==> r == a
    ensures a == Zero ==> r == Neg(b)
    ensures a.Finite? && b.Finite? ==> r == Finite(a.r - b.r)
  {
    Add(a, Neg(b))
  }

  /** `a * b`. */
  function Mul(a: F32, b: F32): (r: F32)
    ensures b == One ==> r == a
    ensures a.Finite? && b == Zero ==> r == Zero
    ensures b.Finite? && a == Zero ==> r == Zero
  {
    match (a, b)
    case (NaN, _) => NaN
    case (_, NaN) => NaN
    case (Inf(s), Inf(t)) => Inf(s != t)
    case (Inf(s), Finite(y)) => if y == 0.0 then NaN else Inf(s != (y < 0.0))
    case (Finite(x), Inf(t)) => if x == 0.0 then NaN else Inf(t != (x < 0.0))
    case (Finite(x), Finite(y)) =>
      assert y == 1.0 ==> x * y == x;
      Finite(x * y)
  }

  /** `a / b`. */
  function Div(a: F32, b: F32): (r: F32)
    ensures b == One ==> r == a
    ensures a == Zero && (b.Inf? || (b.Finite? && b.r != 0.0)) ==> r == Zero
    ensures a == Zero && b == Zero ==> r.NaN?
  {
    match (a, b)
    case (NaN, _) => NaN
    case (_, NaN) => NaN
    case (Inf(_), Inf(_)) => NaN
    case (Inf(s), Finite(y)) => Inf(s != (y < 0.0))
    case (Finite(_), Inf(_)) => Zero
    case (Finite(x), Finite(y)) =>
      if y != 0.0 then Finite(x / y)
      else if x == 0.0 then NaN
      else Inf(x < 0.0)
  }

  /** `f32 == f32`: NaN is equal to nothing, not even itself. */
  function Eq(a: F32, b: F32): (r: bool)
    ensures r ==> a == b
    ensures !a.NaN? ==> (r <==> a == b)
    ensures a.NaN? || b.NaN? ==> !r
  {
    match (a, b)
    case (Finite(x), Finite(y)) => x == y
    case (Inf(s), Inf(t)) => s == t
    case _ => false
  }

  /** Position on the extended real line, used to order infinities against finite values. */
  function Rank(a: F32): int {
    match a
    case Inf(s) => if s then -1 else 1
    case _ => 0
  }

  /** `f32::partial_cmp`: `None` when either operand is NaN, otherwise the order of the extended reals. */
  function PartialCmp(a: F32, b: F32): (r: Option<Ordering>)
    ensures r.None? <==> a.NaN? || b.NaN?
    ensures r == Some(Equal) <==> Eq(a, b)
    ensures r == Some(Less) <==> (a.Finite? && b.Finite? && a.r < b.r) || (!a.NaN? && !b.NaN? && Rank(a) < Rank(b))
  {
    match (a, b)
    case (NaN, _) => None
    case (_, NaN) => None
    case (Finite(x), Finite(y)) => Some(if x < y then Less else if x == y then Equal else Greater)
    case _ =>
      Some(if Rank(a) < Rank(b) then Less else if Rank(a) == Rank(b) then Equal else Greater)
  }

  /** Swapping the operands reverses the comparison. */
  lemma PartialCmpReverse(a: F32, b: F32)
    ensures PartialCmp(b, a) == if PartialCmp(a, b).Some? then Some(PartialCmp(a, b).value.Reverse()) else None
  {
  }

  /** IEEE 754 equality is not reflexive: `NaN != NaN`. */
  lemma NaNIsNotEqualToItself()
    ensures !Eq(NaN, NaN)
    ensures PartialCmp(NaN, NaN) == None
  {
  }
}
