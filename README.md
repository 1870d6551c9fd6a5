# bevy_mod_props: `Value`, `Props` and `Links` in Dafny

This project models the three in-memory containers of `bevy_mod_props`, a
library of string-keyed data attached to ECS entities:

- `Value` (module `Values`, `value.dfy`): a boolean, number or string. It has
  default-on-mismatch conversions (`From`/`Into`, `AsRef`). `AsMut` overwrites
  a mismatched value with the zero value of the requested type. Equality and
  `partial_cmp` hold only within one variant. Arithmetic is total and always
  yields `Num`; a non-number operand counts as zero, except that dividing by a
  non-number divides by one.
- `Props` (module `Props`, `props.dfy`): an ordered map from property name to
  `Value`. `get` reads absent or mistyped properties as the zero value of the
  requested type. `get_mut` / `IndexMut` insert `Value::default()` (that is,
  `Bool(false)`) when the name is absent, then coerce in place.
- `Links` (module `Links`, `links.dfy`): a map from link name to a set of
  entity handles, with `set` (overwrite), `add`, `remove`, `clear`, and the
  reads `is_linked`, `get` (an unspecified member) and `list`.

Supporting modules:

- `Float` (`float.dfy`) models `f32` as the extended reals: `Finite(r)`,
  `Inf(negative)` or `NaN`. Operations follow IEEE 754 on those values, so
  `NaN` is absorbing and `NaN != NaN`. There is no rounding and no signed zero.
- `Cmp` (`cmp.dfy`) holds `Ordering`, the order on `bool`, and lexicographic
  string order. It proves that string order is a strict total order, and uses
  that to define the sorted key sequence a `BTreeMap` iterates in.
- `Wrappers` (`wrappers.dfy`) holds `Option`.

The generic type parameter `T` of `AsRef<T>`, `AsMut<T>`, `Props::get::<T>`
and `Props::get_mut::<T>` is the datatype `Values.Target`. Its cases are
`AsBool`, `AsNum`, `AsStr`, and `AsValue` (for `T = Value`). A read "as `T`"
is a `Value` of that variant. `Estr`, `&str` and `String` are all `string`.

`Props::get::<T>` takes any `T` with `From<Value> + Default`, so it also
reads as `Option<bool>`, `Option<f32>` or `Option<Estr>` (also `Option<&str>`
and `Option<String>`). Those reads are `Props.Props.TryGetBool`,
`TryGetNum` and `TryGetStr`. For an absent name they return `T::default()`,
which is `None`. Converting `props[name]` instead gives the conversion of
`Value::default()`, which for `Option<bool>` is `Some(false)`.

A `&mut Value` is the class `Values.Slot`. `AsMut` and the eight compound
assignment operators change its `value` field in place. `Props.GetMut` copies
the entry into a slot, applies `AsMut`, and stores the result back. A write
through the returned reference is a following `Set`, as in `AddAssignAt`.

`Value` implements `Eq`, whose law is reflexivity. Yet `Num(NaN)` is not
equal to itself (src/props/mod.rs:124-127, 495). `Values.EqNotReflexive`
states this.

## Model

| member | source | states |
|---|---|---|
| `Values.TryBool` | src/props/mod.rs:176-183 | `Some` exactly for a `Bool`, and converting the payload back gives the value |
| `Values.TryNum` | src/props/mod.rs:200-207 | `Some` exactly for a `Num`, and converting the payload back gives the value |
| `Values.TryStr` | src/props/mod.rs:245-252 | `Some` exactly for a `Str` (also the `String` and `Estr` forms at 266-294), and converting back gives the value |
| `Values.ToBool` | src/props/mod.rs:185-189 | equals the fallible conversion with `false` in place of `None` |
| `Values.ToNum` | src/props/mod.rs:209-213 | equals the fallible conversion with `0.0` in place of `None` |
| `Values.ToStr` | src/props/mod.rs:296-300 | equals the fallible conversion with `""` in place of `None` |
| `Values.ConversionRoundTrip` | src/props/mod.rs:170-300 | from a primitive and back gives it again; other variants give `None`, and the infallible forms give `false`, `0.0`, `""` |
| `Values.Zero` | src/props/mod.rs:305-332 | the zero value of each requested type has that type |
| `Values.Convert` | src/props/mod.rs:305-338 | `AsRef`: the value itself when of the requested variant, the zero value of that type otherwise; always of the requested type |
| `Values.ConvertIdempotent` | src/props/mod.rs:305-338 | viewing twice as one type equals viewing once |
| `Values.ConvertDefault` | src/props/mod.rs:148-152 | `Value::default()` viewed as any type is that type's zero value |
| `Values.Slot.AsMut` | src/props/mod.rs:340-389 | leaves a matching value unchanged, overwrites a mismatch with the zero value, afterwards holds the requested variant and returns it |
| `Values.AsMutExample` | src/props/mod.rs:108-122 | `Str("hello")` reads as `false`, and after `as_mut::<f32>() += 10.0` equals `Num(10.0)` |
| `Values.Eq` | src/props/mod.rs:484-493 | equal only within one variant, and exactly when the values are identical and not `Num(NaN)` |
| `Values.EqBool` | src/props/mod.rs:394-401 | `Value == bool` equals comparing with `Bool(b)` |
| `Values.BoolEq` | src/props/mod.rs:403-410 | `bool == Value` equals comparing `Bool(b)` with the value |
| `Values.EqNum` | src/props/mod.rs:412-419 | `Value == f32` equals comparing with `Num(x)` |
| `Values.NumEq` | src/props/mod.rs:421-428 | `f32 == Value` equals comparing `Num(x)` with the value |
| `Values.EqStr` | src/props/mod.rs:430-437 | `Value == &str` (also `String`, `Estr`, 448-473) equals comparing with `Str(s)` |
| `Values.StrEq` | src/props/mod.rs:439-446 | `&str == Value` (also `String`, `Estr`) equals comparing `Str(s)` with the value |
| `Values.EqNotReflexive` | src/props/mod.rs:124-127 | `Num(NaN)` is not equal to itself; every other value is |
| `Values.PartialCmp` | src/props/mod.rs:554-563 | `None` for any cross-variant pair; two booleans, two numbers or two strings compare by their payloads' order (`false < true`, IEEE order with `None` for NaN, lexicographic); `Some(Equal)` exactly when the values are equal |
| `Values.PartialCmpReverse` | src/props/mod.rs:554-563 | comparing the other way round reverses the ordering |
| `Values.CmpWithBool` | src/props/mod.rs:500-507 | `Value` vs `bool` equals comparing with `Bool(b)` |
| `Values.BoolCmpWith` | src/props/mod.rs:509-516 | `bool` vs `Value` equals comparing `Bool(b)` with the value |
| `Values.CmpWithNum` | src/props/mod.rs:518-525 | `Value` vs `f32` equals comparing with `Num(x)` |
| `Values.NumCmpWith` | src/props/mod.rs:527-534 | `f32` vs `Value` equals comparing `Num(x)` with the value |
| `Values.CmpWithStr` | src/props/mod.rs:536-543 | `Value` vs `Estr` equals comparing with `Str(s)` |
| `Values.StrCmpWith` | src/props/mod.rs:545-552 | `Estr` vs `Value` equals comparing `Str(s)` with the value |
| `Values.Add` | src/props/mod.rs:599-609 | always a `Num`; the float sum for two numbers |
| `Values.AddReadsOperandsAsNumbers` | src/props/mod.rs:566-569 | `Value + Value` is the sum of both operands read as numbers, a non-number reading as zero |
| `Values.AddNum` | src/props/mod.rs:571-580 | `Value + f32` equals `Value + Num(x)` |
| `Values.NumAdd` | src/props/mod.rs:582-591 | `f32 + Value` equals `Num(x) + Value` |
| `Values.Sub` | src/props/mod.rs:651-662 | always a `Num`; the float difference for two numbers |
| `Values.SubReadsOperandsAsNumbers` | src/props/mod.rs:620-621 | `Value - Value` is the difference of both operands read as numbers, so `(x, Num n)` gives `-n` |
| `Values.SubNum` | src/props/mod.rs:623-632 | `Value - f32` equals `Value - Num(x)`, so a non-number gives `-x` |
| `Values.NumSubAsWritten` | src/props/mod.rs:634-643 | `f32 - Value` as written: a non-number right operand gives `-x` |
| `Values.NumSubAsWrittenFlipsSign` | src/props/mod.rs:634-643 | `1.0 - false` gives `-1.0` as written, while `Num(1.0) - false` gives `1.0` |
| `Values.NumSub` | src/props/mod.rs:634-643 | corrected `f32 - Value`: equals `Num(x) - Value`, so a non-number gives `x` |
| `Values.Mul` | src/props/mod.rs:704-713 | always a `Num`; the float product for two numbers, zero when either is not a number |
| `Values.MulReadsOperandsAsNumbers` | src/props/mod.rs:673-674 | for operands reading as finite numbers, the product of both read as numbers |
| `Values.MulNum` | src/props/mod.rs:676-685 | `Value * f32` equals `Value * Num(x)`, zero for a non-number |
| `Values.NumMul` | src/props/mod.rs:687-696 | `f32 * Value` equals `Num(x) * Value` |
| `Values.Div` | src/props/mod.rs:757-768 | always a `Num`; a non-number divisor divides by one; a non-number dividend gives zero |
| `Values.DivReadsOperandsAsNumbers` | src/props/mod.rs:724-727 | dividing by a non-number returns the dividend read as a number; otherwise equal to dividing the operands read as numbers whenever zero over the divisor is zero |
| `Values.DivNum` | src/props/mod.rs:729-738 | `Value / f32` equals `Value / Num(x)`, zero for a non-number dividend |
| `Values.NumDiv` | src/props/mod.rs:740-749 | `f32 / Value` equals `Num(x) / Value`, so a non-number divisor gives `x` |
| `Values.Slot.AddAssign` | src/props/mod.rs:611-615 | `v += w` makes the slot `v + w` |
| `Values.Slot.AddAssignNum` | src/props/mod.rs:593-597 | `v += x` makes the slot `v + x` |
| `Values.Slot.SubAssign` | src/props/mod.rs:664-668 | `v -= w` makes the slot `v - w` |
| `Values.Slot.SubAssignNum` | src/props/mod.rs:645-649 | `v -= x` makes the slot `v - x` |
| `Values.Slot.MulAssign` | src/props/mod.rs:715-719 | `v *= w` makes the slot `v * w` |
| `Values.Slot.MulAssignNum` | src/props/mod.rs:698-702 | `v *= x` makes the slot `v * x` |
| `Values.Slot.DivAssign` | src/props/mod.rs:770-774 | `v /= w` makes the slot `v / w` |
| `Values.Slot.DivAssignNum` | src/props/mod.rs:751-755 | `v /= x` makes the slot `v / x` |
| `Props.Props.constructor` | src/props/mod.rs:797-799 | a new store holds no properties |
| `Props.Props.Index` | src/props/mod.rs:885-891 | the stored value, or `Bool(false)` for an absent name, without inserting it |
| `Props.Props.Get` | src/props/mod.rs:806-818 | of the requested type; the stored value when present and matching, otherwise the zero value; equals the indexed value viewed as that type |
| `Props.Props.TryGetBool` | src/props/mod.rs:806-818 | `get::<Option<bool>>`: `None` for an absent name; otherwise `Some` exactly when the stored value is a boolean, holding it |
| `Props.Props.TryGetNum` | src/props/mod.rs:806-818 | `get::<Option<f32>>`: `None` for an absent name; otherwise `Some` exactly when the stored value is a number, holding it |
| `Props.Props.TryGetStr` | src/props/mod.rs:806-818 | `get::<Option<Estr>>` (and `Option<String>`, `Option<&str>`): `None` for an absent name; otherwise `Some` exactly when the stored value is a string, holding it |
| `Props.TryGetAbsentIsNone` | src/props/mod.rs:813-817 | for an absent name every `Option` read is `None`, while converting `props[name]` gives `Some(false)` as `Option<bool>` |
| `Props.Props.GetMut` | src/props/mod.rs:820-828 | the name is present afterwards and holds the old entry (or `Bool(false)`) coerced to the requested type; typed reads of that type are unchanged; no other name changes |
| `Props.Props.IndexMut` | src/props/mod.rs:893-896 | inserts `Bool(false)` for an absent name and returns the entry; nothing else changes |
| `Props.Props.Set` | src/props/mod.rs:830-833 | overwrites only `name`; every typed read of `name` then sees the new value |
| `Props.Props.With` | src/props/mod.rs:835-839 | `set`, returning the same store |
| `Props.Props.Remove` | src/props/mod.rs:841-845 | removes only `name`; every typed read of it then gives the zero value |
| `Props.Props.Clear` | src/props/mod.rs:847-850 | no properties remain |
| `Props.Props.Keys` | src/props/mod.rs:857-860 | every property name exactly once, in strictly increasing order |
| `Props.Props.Iter` | src/props/mod.rs:852-855 | the (name, value) pairs, in key order |
| `Props.AddAssignAt` | src/props/mod.rs:38 | `props[name] += x` stores `props[name] + x`, inserting the default first |
| `Props.SubAssignAt` | src/props/mod.rs:35 | `props[name] -= x` stores `props[name] - x`, inserting the default first |
| `Props.DocExample` | src/props/mod.rs:10-39 | the documentation example: three `set`s build the same store as three `with`s; `props[name] == x` checks, defaults, `-= 32.0` on a missing property gives `-32.0`, `+= 10.0` on a string gives `10.0` |
| `Props.GetMutCoercesExample` | src/props/mod.rs:820-828 | `get_mut::<f32>` on a boolean property leaves `0.0`, and the boolean then reads as `false` |
| `Props.FiveMinusTwo` | src/props/mod.rs:593-597 | `(default + 5.0) - 2.0` is `3.0` |
| `Props.CompoundAssignExample` | src/props/mod.rs:893-896 | `p["n"] += 5.0; p["n"] -= 2.0` on an empty store leaves `3.0` |
| `Props.SortedABC` | src/props/mod.rs:852-860 | keys `a`, `b`, `c` come out in that order |
| `Props.IterOfABC` | src/props/mod.rs:852-855 | a store holding exactly `a`, `b`, `c` iterates them in key order with their values |
| `Props.IterationOrderExample` | src/props/mod.rs:852-855 | properties set as `c`, `a`, `b` iterate as `a`, `b`, `c` with their values |
| `Links.Links.constructor` | src/links/mod.rs:36-39 | a new `Links` has no links |
| `Links.Links.List` | src/links/mod.rs:85-92 | the targets under the name; empty for a name never used |
| `Links.Links.IsLinked` | src/links/mod.rs:67-74 | true exactly when the entity is in `list(name)`; false for a name never used |
| `Links.Links.Get` | src/links/mod.rs:76-83 | `None` exactly when `list(name)` is empty, otherwise some member of it |
| `Links.Links.Set` | src/links/mod.rs:42-47 | `list(name)` becomes `{t}`; other names unchanged |
| `Links.Links.Add` | src/links/mod.rs:49-53 | `list(name)` gains `t`; other names unchanged |
| `Links.Links.Remove` | src/links/mod.rs:55-59 | `list(name)` loses `t`, so `is_linked(name, t)` is false; the entry is created if absent; other names unchanged |
| `Links.Links.Clear` | src/links/mod.rs:61-65 | `list(name)` becomes empty; the entry is created if absent; other names unchanged |
| `Links.SetGetExample` | src/links/mod.rs:34-35 | after `set(name, t)`, `get(name)` is `Some(t)`; after `clear`, `None` |
| `Links.AddListExample` | src/links/mod.rs:3-16 | two `add`s under one name list both targets; `remove` takes one out |

## Findings

| source | as written | input that shows it | evidently intended | confidence | as-written member | corrected member |
|---|---|---|---|---|---|---|
| src/props/mod.rs:634-643 | `f32 - Value` returns `Num(-self)` when the right operand is not a number | `1.0 - Value::Bool(false)` gives `Num(-1.0)` | a non-number counts as zero (comment at 620-621, and `Value - Value` at 657): `Num(1.0)`, the same as `Value::Num(1.0) - Value::Bool(false)` | medium, not executed | `Values.NumSubAsWritten` (with `Values.NumSubAsWrittenFlipsSign`) | `Values.NumSub` |

## Left out

- `From<f64>` and the `f64` conversions (src/props/mod.rs:215-234): narrowing to 32 bits is not modelled.
- `f32` rounding, signed zero and the NaN payload are not modelled. Numbers are extended reals, and a division by zero takes the zero as `+0.0`.
- `AsRef`, `AsMut`, `get_mut` and `IndexMut` return references in the source. The model returns the referenced value. A later write through the reference is a separate `Set` on the store, or an assignment to the `Slot`.
- `Props::entry`, `into_keys`, `values`, `into_values`, `values_mut` and `IntoIterator`: these pass the `BTreeMap` API through. Their order is the one `Props.Props.Keys` states.
- `Props.Props.Keys`, `Props.Props.Iter`: ghost functions. They state the iteration order, not the iterator objects.
- `Display` (src/props/mod.rs:157-165): text formatting is not modelled.
- The `LazyLock` statics (src/props/mod.rs:323, 883): they become plain constant values.
- The ECS `Component` and `Resource` derives: host registration is not modelled.
- `Links.Links.Get`: it returns some member of the set rather than the first one in hash-set iteration order. The source leaves that choice undefined.
- src/props/ext.rs, src/links/ext.rs and src/registry/ext.rs: these forward calls into the ECS host's world, entity and command APIs. src/props/ext.rs is not part of this model.
- src/lib.rs: module declarations and a documentation example only.
- Values.MulReadsOperandsAsNumbers: holds only for operands that read as finite numbers. The source's comment says a non-number behaves as zero, but the code gives `0.0` whenever either operand is not a number. So `Num(inf) * Bool(_)` is `0.0`, not `inf * 0.0 = NaN`. `Values.Mul` states what the code does.
- Values.DivReadsOperandsAsNumbers: the second clause is limited to divisors other than zero and NaN. The code gives `0.0` for a non-number over any number, even where `0.0 / 0.0` would be `NaN`. `Values.Div` states what the code does.
- Props.Props.Get: the `f64` and `Option<f64>` instantiations of `get::<T>` are not modelled, since `f64` is left out. The `Option<bool>`, `Option<f32>` and `Option<Estr>`/`Option<String>`/`Option<&str>` instantiations are `TryGetBool`, `TryGetNum` and `TryGetStr`. `String` and `&str` read the same as `Estr`.
