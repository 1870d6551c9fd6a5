/**
 * `Value`: a boolean, a number or a string, with default-on-mismatch
 * conversions, same-variant-only equality and ordering, and a total
 * arithmetic that always yields a number (src/props/mod.rs).
 */
module Values {
  import opened Wrappers
  import opened Cmp
  import Float

  type F32 = Float.F32

  /** The three variants; `Estr`, `&str` and `String` payloads are all `string` here. */
  datatype Value = Bool(b: bool) | Num(n: F32) | Str(s: string)

  /** `Value::default()`. */
  const DefaultValue: Value := Bool(false)

  /**
   * The type `T` a caller asks a value to be read or written as: `bool`,
   * `f32`, `Estr`, or `Value` itself (the generic parameter of `AsRef`,
   * `AsMut`, `Props::get` and `Props::get_mut`).
   */
  datatype Target = AsBool | AsNum | AsStr | AsValue

  /** `v` already holds the variant that `t` asks for. */
  predicate Matches(v: Value, t: Target) {
    match t
    case AsBool => v.Bool?
    case AsNum => v.Num?
    case AsStr => v.Str?
    case AsValue => true
  }

  /** The zero value of `t`: `false`, `0.0`, `""`, or `Value::default()`. */
  function Zero(t: Target): (r: Value)
    ensures Matches(r, t)
  {
    match t
    case AsBool => Bool(false)
    case AsNum => Num(Float.Zero)
    case AsStr => Str("")
    case AsValue => DefaultValue
  }

  // ---------------------------------------------------------------------------
  // Conversions

  /** `Option<bool>::from(v)`: the payload exactly when `v` was built from a `bool`. */
  function TryBool(v: Value): (r: Option<bool>)
    ensures r.Some? <==> v.Bool?
    ensures r.Some? ==> Bool(r.value) == v
  {
    match v
    case Bool(b) => Some(b)
    case _ => None
  }

  /** `Option<f32>::from(v)`. */
  function TryNum(v: Value): (r: Option<F32>)
    ensures r.Some? <==> v.Num?
    ensures r.Some? ==> Num(r.value) == v
  {
    match v
    case Num(n) => Some(n)
    case _ => None
  }

  /** `Option<Estr>::from(v)` (and the `&str` and `String` forms). */
  function TryStr(v: Value): (r: Option<string>)
    ensures r.Some? <==> v.Str?
    ensures r.Some? ==> Str(r.value) == v
  {
    match v
    case Str(s) => Some(s)
    case _ => None
  }

  /** `bool::from(v)`: the fallible conversion with `false` in place of `None`. */
  function ToBool(v: Value): (r: bool)
    ensures r == TryBool(v).GetOr(false)
  {
    match v
    case Bool(b) => b
    case _ => false
  }

  /** `f32::from(v)`: the fallible conversion with `0.0` in place of `None`. */
  function ToNum(v: Value): (r: F32)
    ensures r == TryNum(v).GetOr(Float.Zero)
  {
    match v
    case Num(n) => n
    case _ => Float.Zero
  }

  /** `Estr::from(v)`: the fallible conversion with `""` in place of `None`. */
  function ToStr(v: Value): (r: string)
    ensures r == TryStr(v).GetOr("")
  {
    match v
    case Str(s) => s
    case _ => ""
  }

  /** Converting a primitive into a `Value` and back gives the primitive again. */
  lemma ConversionRoundTrip(b: bool, n: F32, s: string)
    ensures TryBool(Bool(b)) == Some(b) && TryNum(Bool(b)) == None && TryStr(Bool(b)) == None
    ensures TryNum(Num(n)) == Some(n) && TryBool(Num(n)) == None && TryStr(Num(n)) == None
    ensures TryStr(Str(s)) == Some(s) && TryBool(Str(s)) == None && TryNum(Str(s)) == None
    ensures ToBool(Bool(b)) == b && ToNum(Num(n)) == n && ToStr(Str(s)) == s
    ensures ToNum(Bool(b)) == Float.Zero && ToStr(Bool(b)) == ""
    ensures ToBool(Num(n)) == false && ToStr(Num(n)) == ""
    ensures ToBool(Str(s)) == false && ToNum(Str(s)) == Float.Zero
  {
  }

  /**
   * `AsRef<T>::as_ref`: `v` seen as a `t`. A value of the requested variant is
   * returned as it is; any other is replaced by the zero value of `t`. The
   * value itself is not changed (this is a function of `v`).
   */
  function Convert(v: Value, t: Target): (r: Value)
    ensures Matches(r, t)
    ensures Matches(v, t) ==> r == v
    ensures !Matches(v, t) ==> r == Zero(t)
  {
    match t
    case AsBool => Bool(ToBool(v))
    case AsNum => Num(ToNum(v))
    case AsStr => Str(ToStr(v))
    case AsValue => v
  }

  /** Viewing a value twice as the same type is the same as viewing it once. */
  lemma ConvertIdempotent(v: Value, t: Target)
    ensures Convert(Convert(v, t), t) == Convert(v, t)
  {
  }

  /** The default value seen as any type is that type's zero value. */
  lemma ConvertDefault(t: Target)
    ensures Convert(DefaultValue, t) == Zero(t)
  {
  }

  // ---------------------------------------------------------------------------
  // In-place access

  /**
   * A `&mut Value`: a place holding a value that the `AsMut` accessors and the
   * compound assignment operators overwrite.
   */
  class Slot {
    var value: Value

    constructor (v: Value)
      ensures value == v
    {
      value := v;
    }

    /**
     * `AsMut<T>::as_mut`: when the slot holds another variant than `t` asks
     * for, it is first overwritten with the zero value of `t` (the old value is
     * lost); the slot then holds variant `t` and its content is returned.
     */
    method AsMut(t: Target) returns (r: Value)
      modifies this
      ensures value == Convert(old(value), t)
      ensures Matches(value, t) && r == value
      ensures Matches(old(value), t) ==> value == old(value)
    {
      match t {
        case AsBool =>
          if !value.Bool? { value := Bool(false); }
        case AsNum =>
          if !value.Num? { value := Num(Float.Zero); }
        case AsStr =>
          if !value.Str? { value := Str(""); }
        case AsValue =>
      }
      r := value;
    }

    /** `*self += rhs` for a `Value` right-hand side. */
    method AddAssign(rhs: Value)
      modifies this
      ensures value == Add(old(value), rhs)
    {
      value := Add(value, rhs);
    }

    /** `*self += rhs` for an `f32` right-hand side. */
    method AddAssignNum(rhs: F32)
      modifies this
      ensures value == AddNum(old(value), rhs)
    {
      value := AddNum(value, rhs);
    }

    /** `*self -= rhs` for a `Value` right-hand side. */
    method SubAssign(rhs: Value)
      modifies this
      ensures value == Sub(old(value), rhs)
    {
      value := Sub(value, rhs);
    }

    /** `*self -= rhs` for an `f32` right-hand side. */
    method SubAssignNum(rhs: F32)
      modifies this
      ensures value == SubNum(old(value), rhs)
    {
      value := SubNum(value, rhs);
    }

    /** `*self *= rhs` for a `Value` right-hand side. */
    method MulAssign(rhs: Value)
      modifies this
      ensures value == Mul(old(value), rhs)
    {
      value := Mul(value, rhs);
    }

    /** `*self *= rhs` for an `f32` right-hand side. */
    method MulAssignNum(rhs: F32)
      modifies this
      ensures value == MulNum(old(value), rhs)
    {
      value := MulNum(value, rhs);
    }

    /** `*self /= rhs` for a `Value` right-hand side. */
    method DivAssign(rhs: Value)
      modifies this
      ensures value == Div(old(value), rhs)
    {
      value := Div(value, rhs);
    }

    /** `*self /= rhs` for an `f32` right-hand side. */
    method DivAssignNum(rhs: F32)
      modifies this
      ensures value == DivNum(old(value), rhs)
    {
      value := DivNum(value, rhs);
    }
  }

  /**
   * The `Value` documentation example: a string value read as `bool` gives
   * `false`; taken as a mutable `f32` it becomes `0.0`, and adding `10.0`
   * through that reference leaves `Num(10.0)` in it.
   */
  method AsMutExample() returns (asBool: bool, after: Value)
    ensures asBool == false
    ensures Eq(after, Num(Float.Finite(10.0)))
  {
    var slot := new Slot(Str("hello"));
    asBool := Convert(slot.value, AsBool).b;
    var num := slot.AsMut(AsNum);
    slot.value := Num(Float.Add(num.n, Float.Finite(10.0)));
    after := slot.value;
  }

  // ---------------------------------------------------------------------------
  // Equality

  /** Both values hold the same variant. */
  predicate SameVariant(v: Value, w: Value) {
    (v.Bool? && w.Bool?) || (v.Num? && w.Num?) || (v.Str? && w.Str?)
  }

  /**
   * `Value == Value`: equal payloads of the same variant, with `f32`
   * equality on numbers, so `Num(NaN)` equals nothing.
   */
  function Eq(v: Value, w: Value): (r: bool)
    ensures r ==> SameVariant(v, w)
    ensures r <==> v == w && v != Num(Float.NaN)
  {
    match (v, w)
    case (Bool(x), Bool(y)) => x == y
    case (Num(x), Num(y)) => Float.Eq(x, y)
    case (Str(x), Str(y)) => x == y
    case _ => false
  }

  /** `Value == bool`. */
  function EqBool(v: Value, other: bool): (r: bool)
    ensures r == Eq(v, Bool(other))
  {
    match v
    case Bool(x) => x == other
    case _ => false
  }

  /** `bool == Value`. */
  function BoolEq(self: bool, other: Value): (r: bool)
    ensures r == Eq(Bool(self), other)
  {
    match other
    case Bool(y) => self == y
    case _ => false
  }

  /** `Value == f32`. */
  function EqNum(v: Value, other: F32): (r: bool)
    ensures r == Eq(v, Num(other))
  {
    match v
    case Num(x) => Float.Eq(x, other)
    case _ => false
  }

  /** `f32 == Value`. */
  function NumEq(self: F32, other: Value): (r: bool)
    ensures r == Eq(Num(self), other)
  {
    match other
    case Num(y) => Float.Eq(self, y)
    case _ => false
  }

  /** `Value == Estr` (and `&str`, `String`). */
  function EqStr(v: Value, other: string): (r: bool)
    ensures r == Eq(v, Str(other))
  {
    match v
    case Str(x) => x == other
    case _ => false
  }

  /** `Estr == Value` (and `&str`, `String`). */
  function StrEq(self: string, other: Value): (r: bool)
    ensures r == Eq(Str(self), other)
  {
    match other
    case Str(y) => self == y
    case _ => false
  }

  /**
   * `Value` declares `Eq`, whose law is reflexivity, but `Num(NaN)` is not
   * equal to itself.
   */
  lemma EqNotReflexive()
    ensures !Eq(Num(Float.NaN), Num(Float.NaN))
    ensures forall v :: v != Num(Float.NaN) ==> Eq(v, v)
  {
  }

  // ---------------------------------------------------------------------------
  // Ordering

  /** The reversed comparison, `None` staying `None`. */
  function ReverseCmp(o: Option<Ordering>): Option<Ordering> {
    match o
    case Some(x) => Some(x.Reverse())
    case None => None
  }

  /**
   * `Value::partial_cmp(Value)`: the payload order within one variant,
   * `None` across variants.
   */
  function PartialCmp(v: Value, w: Value): (r: Option<Ordering>)
    ensures !SameVariant(v, w) ==> r == None
    ensures v.Bool? && w.Bool? ==> r == Some(CmpBool(v.b, w.b))
    ensures v.Num? && w.Num? ==> r == Float.PartialCmp(v.n, w.n)
    ensures v.Str? && w.Str? ==> r == Some(CmpStr(v.s, w.s))
    ensures r == Some(Equal) <==> Eq(v, w)
  {
    match (v, w)
    case (Bool(x), Bool(y)) => Some(CmpBool(x, y))
    case (Num(x), Num(y)) => Float.PartialCmp(x, y)
    case (Str(x), Str(y)) =>
      CmpStrEqual(x, y);
      Some(CmpStr(x, y))
    case _ => None
  }

  /** Comparing the other way round gives the reversed answer. */
  lemma PartialCmpReverse(v: Value, w: Value)
    ensures PartialCmp(w, v) == ReverseCmp(PartialCmp(v, w))
  {
    match (v, w)
    case (Num(x), Num(y)) =>
      Float.PartialCmpReverse(x, y);
    case (Str(x), Str(y)) =>
      CmpStrReverse(x, y);
    case _ =>
  }

  /** `Value::partial_cmp(bool)`. */
  function CmpWithBool(v: Value, other: bool): (r: Option<Ordering>)
    ensures r == PartialCmp(v, Bool(other))
  {
    match v
    case Bool(x) => Some(CmpBool(x, other))
    case _ => None
  }

  /** `bool::partial_cmp(Value)`. */
  function BoolCmpWith(self: bool, other: Value): (r: Option<Ordering>)
    ensures r == PartialCmp(Bool(self), other)
  {
    match other
    case Bool(y) => Some(CmpBool(self, y))
    case _ => None
  }

  /** `Value::partial_cmp(f32)`. */
  function CmpWithNum(v: Value, other: F32): (r: Option<Ordering>)
    ensures r == PartialCmp(v, Num(other))
  {
    match v
    case Num(x) => Float.PartialCmp(x, other)
    case _ => None
  }

  /** `f32::partial_cmp(Value)`. */
  function NumCmpWith(self: F32, other: Value): (r: Option<Ordering>)
    ensures r == PartialCmp(Num(self), other)
  {
    match other
    case Num(y) => Float.PartialCmp(self, y)
    case _ => None
  }

  /** `Value::partial_cmp(Estr)`. */
  function CmpWithStr(v: Value, other: string): (r: Option<Ordering>)
    ensures r == PartialCmp(v, Str(other))
  {
    match v
    case Str(x) => Some(CmpStr(x, other))
    case _ => None
  }

  /** `Estr::partial_cmp(Value)`. */
  function StrCmpWith(self: string, other: Value): (r: Option<Ordering>)
    ensures r == PartialCmp(Str(self), other)
  {
    match other
    case Str(y) => Some(CmpStr(self, y))
    case _ => None
  }

  // ---------------------------------------------------------------------------
  // Arithmetic. Every operator yields a `Num`. A non-number operand counts as
  // zero, except that dividing by a non-number divides by one.

  /** `Value + Value`: always a number. */
  function Add(v: Value, w: Value): (r: Value)
    ensures r.Num?
    ensures v.Num? && w.Num? ==> r == Num(Float.Add(v.n, w.n))
  {
    match (v, w)
    case (Num(x), Num(y)) => Num(Float.Add(x, y))
    case (Num(x), _) => Num(x)
    case (_, Num(y)) => Num(y)
    case _ => Num(Float.Zero)
  }

  /** Addition reads a non-number operand as zero. */
  lemma AddReadsOperandsAsNumbers(v: Value, w: Value)
    ensures Add(v, w) == Num(Float.Add(ToNum(v), ToNum(w)))
  {
  }

  /** `Value + f32`: the same as adding `Num(x)`. */
  function AddNum(v: Value, x: F32): (r: Value)
    ensures r == Add(v, Num(x))
  {
    match v
    case Num(y) => Num(Float.Add(y, x))
    case _ => Num(x)
  }

  /** `f32 + Value`: the same as adding to `Num(x)`. */
  function NumAdd(x: F32, w: Value): (r: Value)
    ensures r == Add(Num(x), w)
  {
    match w
    case Num(y) => Num(Float.Add(x, y))
    case _ => Num(x)
  }

  /** `Value - Value`: always a number. */
  function Sub(v: Value, w: Value): (r: Value)
    ensures r.Num?
    ensures v.Num? && w.Num? ==> r == Num(Float.Sub(v.n, w.n))
  {
    match (v, w)
    case (Num(x), Num(y)) => Num(Float.Sub(x, y))
    case (Num(x), _) => Num(x)
    case (_, Num(y)) => Num(Float.Neg(y))
    case _ => Num(Float.Zero)
  }

  /** Subtraction reads a non-number operand as zero. */
  lemma SubReadsOperandsAsNumbers(v: Value, w: Value)
    ensures Sub(v, w) == Num(Float.Sub(ToNum(v), ToNum(w)))
  {
  }

  /** `Value - f32`: the same as subtracting `Num(x)`. */
  function SubNum(v: Value, x: F32): (r: Value)
    ensures r == Sub(v, Num(x))
  {
    match v
    case Num(y) => Num(Float.Sub(y, x))
    case _ => Num(Float.Neg(x))
  }

  /**
   * `f32 - Value` as written: a non-number on the right gives `-x`, where
   * reading it as zero gives `x`.
   */
  function NumSubAsWritten(x: F32, w: Value): (r: Value)
    ensures r.Num?
    ensures w.Num? ==> r == Sub(Num(x), w)
    ensures !w.Num? ==> r == Num(Float.Neg(x))
  {
    match w
    case Num(y) => Num(Float.Sub(x, y))
    case _ => Num(Float.Neg(x))
  }

  /** The written `f32 - Value` disagrees with `Value - Value` for `1.0 - false`. */
  lemma NumSubAsWrittenFlipsSign()
    ensures NumSubAsWritten(Float.One, Bool(false)) == Num(Float.Finite(-1.0))
    ensures Sub(Num(Float.One), Bool(false)) == Num(Float.One)
  {
  }

  /** `f32 - Value` corrected: the same as subtracting from `Num(x)`. */
  function NumSub(x: F32, w: Value): (r: Value)
    ensures r == Sub(Num(x), w)
    ensures !w.Num? ==> r == Num(x)
  {
    match w
    case Num(y) => Num(Float.Sub(x, y))
    case _ => Num(x)
  }

  /** `Value * Value`: always a number, zero when either operand is not one. */
  function Mul(v: Value, w: Value): (r: Value)
    ensures r.Num?
    ensures v.Num? && w.Num? ==> r == Num(Float.Mul(v.n, w.n))
    ensures !v.Num? || !w.Num? ==> r == Num(Float.Zero)
  {
    match (v, w)
    case (Num(x), Num(y)) => Num(Float.Mul(x, y))
    case _ => Num(Float.Zero)
  }

  /**
   * Multiplication reads a non-number operand as zero; the two agree
   * whenever the operands read as finite numbers (zero times an infinity or
   * NaN would be NaN, where the operator gives zero).
   */
  lemma MulReadsOperandsAsNumbers(v: Value, w: Value)
    requires ToNum(v).Finite? && ToNum(w).Finite?
    ensures Mul(v, w) == Num(Float.Mul(ToNum(v), ToNum(w)))
  {
  }

  /** `Value * f32`: the same as multiplying by `Num(x)`. */
  function MulNum(v: Value, x: F32): (r: Value)
    ensures r == Mul(v, Num(x))
  {
    match v
    case Num(y) => Num(Float.Mul(y, x))
    case _ => Num(Float.Zero)
  }

  /** `f32 * Value`: the same as multiplying `Num(x)`. */
  function NumMul(x: F32, w: Value): (r: Value)
    ensures r == Mul(Num(x), w)
  {
    match w
    case Num(y) => Num(Float.Mul(x, y))
    case _ => Num(Float.Zero)
  }

  /** The divisor a value stands for: its number, or one for a non-number. */
  function Divisor(w: Value): F32 {
    match w
    case Num(y) => y
    case _ => Float.One
  }

  /**
   * `Value / Value`: always a number; a non-number divisor divides by one,
   * a non-number dividend gives zero.
   */
  function Div(v: Value, w: Value): (r: Value)
    ensures r.Num?
    ensures v.Num? ==> r == Num(Float.Div(v.n, Divisor(w)))
    ensures !v.Num? ==> r == Num(Float.Zero)
  {
    match (v, w)
    case (Num(x), Num(y)) => Num(Float.Div(x, y))
    case (Num(x), _) => Num(x)
    case (_, Num(_)) => Num(Float.Zero)
    case _ => Num(Float.Zero)
  }

  /** `Value / f32`: the same as dividing by `Num(x)`. */
  function DivNum(v: Value, x: F32): (r: Value)
    ensures r == Div(v, Num(x))
  {
    match v
    case Num(y) => Num(Float.Div(y, x))
    case _ => Num(Float.Zero)
  }

  /** `f32 / Value`: the same as dividing `Num(x)`. */
  function NumDiv(x: F32, w: Value): (r: Value)
    ensures r == Div(Num(x), w)
  {
    match w
    case Num(y) => Num(Float.Div(x, y))
    case _ => Num(x)
  }

  /**
   * Division by a non-number divides by one, so the dividend read as a number
   * comes back unchanged; and a non-number dividend reads as zero: whenever
   * zero divided by the divisor is zero (it is not zero or NaN), `Div`
   * agrees with dividing the operands read as numbers.
   */
  lemma DivReadsOperandsAsNumbers(v: Value, w: Value)
    ensures !w.Num? ==> Div(v, w) == Num(ToNum(v))
    ensures Divisor(w).Inf? || (Divisor(w).Finite? && Divisor(w).r != 0.0) ==>
              Div(v, w) == Num(Float.Div(ToNum(v), Divisor(w)))
  {
  }
}
