/**
 * `Props`: an ordered map from property name to `Value` that reads absent or
 * mistyped properties as the zero value of the requested type and, on
 * mutable access, overwrites them with it (src/props/mod.rs).
 */
module Props {
  import opened Cmp
  import opened Wrappers
  import opened Values
  import Float

  /** The value stored under `name` in `m`, or `Value::default()`: what `entry(name).or_default()` leaves there. */
  function Lookup(m: map<string, Value>, name: string): Value {
    if name in m then m[name] else DefaultValue
  }

  class Props {
    /** The `BTreeMap<Estr, Value>`; its key order is `Cmp.CmpStr`. */
    var properties: map<string, Value>

    /** `Props::new()` / `Props::default()`: no properties. */
    constructor ()
      ensures properties == map[]
    {
      properties := map[];
    }

    /**
     * `props[name]` (`Index`): the stored value, or `Value::default()` when
     * the name is absent. Nothing is inserted.
     */
    function Index(name: string): (r: Value)
      reads this
      ensures name in properties ==> r == properties[name]
      ensures name !in properties ==> r == DefaultValue
    {
      Lookup(properties, name)
    }

    /**
     * `Props::get::<T>(name)`: the stored value when present and of the
     * requested type, the zero value of that type otherwise.
     */
    function Get(name: string, t: Target): (r: Value)
      reads this
      ensures Matches(r, t)
      ensures name in properties && Matches(properties[name], t) ==> r == properties[name]
      ensures name !in properties || !Matches(properties[name], t) ==> r == Zero(t)
      ensures r == Convert(Index(name), t)
    {
      if name in properties then Convert(properties[name], t) else Zero(t)
    }

    /**
     * `Props::get::<Option<bool>>(name)`: `None` for an absent name, which
     * is `T::default()` and not the conversion of `Value::default()`;
     * otherwise the fallible conversion of the stored value.
     */
    function TryGetBool(name: string): (r: Option<bool>)
      reads this
      ensures name !in properties ==> r == None
      ensures r.Some? <==> name in properties && properties[name].Bool?
      ensures r.Some? ==> Bool(r.value) == properties[name]
    {
      if name in properties then TryBool(properties[name]) else None
    }

    /** `Props::get::<Option<f32>>(name)`: as `TryGetBool`, for numbers. */
    function TryGetNum(name: string): (r: Option<Float.F32>)
      reads this
      ensures name !in properties ==> r == None
      ensures r.Some? <==> name in properties && properties[name].Num?
      ensures r.Some? ==> Num(r.value) == properties[name]
    {
      if name in properties then TryNum(properties[name]) else None
    }

    /**
     * `Props::get::<Option<Estr>>(name)` (also `Option<String>` and
     * `Option<&str>`): as `TryGetBool`, for strings.
     */
    function TryGetStr(name: string): (r: Option<string>)
      reads this
      ensures name !in properties ==> r == None
      ensures r.Some? <==> name in properties && properties[name].Str?
      ensures r.Some? ==> Str(r.value) == properties[name]
    {
      if name in properties then TryStr(properties[name]) else None
    }

    /**
     * `Props::get_mut::<T>(name)`: the entry is created as
     * `Value::default()` when absent, then coerced in place to type `t`
     * (`AsMut`); the slot's content afterwards is returned. Reads of type
     * `t` see what they saw before; no other name changes.
     */
    method GetMut(name: string, t: Target) returns (slot: Value)
      modifies this
      ensures properties == old(properties)[name := Convert(Lookup(old(properties), name), t)]
      ensures name in properties && slot == properties[name] && Matches(slot, t)
      ensures Get(name, t) == old(Get(name, t))
      ensures forall n :: n != name ==> Index(n) == old(Index(n))
    {
      var entry := if name in properties then properties[name] else DefaultValue;
      var cell := new Slot(entry);
      slot := cell.AsMut(t);
      properties := properties[name := slot];
    }

    /** `props[name]` as a place (`IndexMut`): `get_mut::<Value>`, inserting `Value::default()` when absent. */
    method IndexMut(name: string) returns (slot: Value)
      modifies this
      ensures properties == old(properties)[name := Lookup(old(properties), name)]
      ensures slot == Index(name) && slot == Lookup(old(properties), name)
    {
      slot := GetMut(name, AsValue);
    }

    /** `Props::set(name, value)`: insert or overwrite one property. */
    method Set(name: string, v: Value)
      modifies this
      ensures properties == old(properties)[name := v]
      ensures Index(name) == v
      ensures forall t :: Get(name, t) == Convert(v, t)
    {
      properties := properties[name := v];
    }

    /** `Props::with(name, value)`: `set`, returning the same store for chaining. */
    method With(name: string, v: Value) returns (self: Props)
      modifies this
      ensures self == this
      ensures properties == old(properties)[name := v]
    {
      Set(name, v);
      self := this;
    }

    /** `Props::remove(name)`: afterwards every read of `name` gives the zero value. */
    method Remove(name: string)
      modifies this
      ensures properties == old(properties) - {name}
      ensures forall t :: Get(name, t) == Zero(t)
    {
      properties := properties - {name};
    }

    /** `Props::clear()`: no properties remain. */
    method Clear()
      modifies this
      ensures properties == map[]
    {
      properties := map[];
    }

    /** `Props::keys()`: every property name exactly once, in increasing order. */
    ghost function Keys(): (r: seq<string>)
      reads this
      ensures StrictlySorted(r)
      ensures forall k :: k in r <==> k in properties
    {
      Sorted(properties.Keys)
    }

    /** `Props::iter()`: the (name, value) pairs in increasing name order. */
    ghost function Iter(): (r: seq<(string, Value)>)
      reads this
      ensures |r| == |Keys()|
      ensures forall i :: 0 <= i < |r| ==> r[i].0 == Keys()[i] && r[i].0 in properties && r[i].1 == properties[r[i].0]
    {
      var ks := Keys();
      var m := properties;
      seq(|ks|, i requires 0 <= i < |ks| => (ks[i], m[ks[i]]))
    }
  }

  /**
   * `props[name] += x`: mutable indexing gives the slot (inserting
   * `Value::default()` when absent), `AddAssign<f32>` updates it, and the
   * result is stored back under `name`.
   */
  method AddAssignAt(props: Props, name: string, x: Float.F32)
    modifies props
    ensures props.properties == old(props.properties)[name := AddNum(Lookup(old(props.properties), name), x)]
  {
    var place := props.IndexMut(name);
    var cell := new Slot(place);
    cell.AddAssignNum(x);
    props.Set(name, cell.value);
  }

  /** `props[name] -= x`, in the same way as `AddAssignAt`. */
  method SubAssignAt(props: Props, name: string, x: Float.F32)
    modifies props
    ensures props.properties == old(props.properties)[name := SubNum(Lookup(old(props.properties), name), x)]
  {
    var place := props.IndexMut(name);
    var cell := new Slot(place);
    cell.SubAssignNum(x);
    props.Set(name, cell.value);
  }

  /**
   * For an absent name the `Option` reads give `None`, while converting the
   * indexed value, which is `Value::default()`, gives `Some(false)` for
   * `bool` and `None` for the other two.
   */
  lemma TryGetAbsentIsNone(props: Props, name: string)
    requires name !in props.properties
    ensures props.TryGetBool(name) == None && TryBool(props.Index(name)) == Some(false)
    ensures props.TryGetNum(name) == None && TryNum(props.Index(name)) == None
    ensures props.TryGetStr(name) == None && TryStr(props.Index(name)) == None
  {
  }

  /**
   * The module documentation example: three `set`s build the same store as
   * three chained `with`s; typed reads of stored properties,
   * defaults for an absent or mistyped one, and `+=` / `-=` through mutable
   * indexing, which turn a missing property into `-32.0` and a string
   * property into `10.0`.
   */
  method DocExample() returns (boolProp: Value, numProp: Value, strProp: Value,
                               missing: Value, strAsNum: Float.F32, prop2: Value, strAfter: Value,
                               setBuilt: map<string, Value>, withBuilt: map<string, Value>)
    ensures setBuilt == withBuilt
    ensures EqBool(boolProp, true) && EqNum(numProp, Float.Finite(42.0)) && EqStr(strProp, "string")
    ensures EqBool(missing, false)
    ensures strAsNum == Float.Zero
    ensures EqNum(prop2, Float.Finite(-32.0))
    ensures EqNum(strAfter, Float.Finite(10.0))
  {
    var props := new Props();
    props.Set("bool_prop", Bool(true));
    props.Set("num_prop", Num(Float.Finite(42.0)));
    props.Set("str_prop", Str("string"));
    setBuilt := props.properties;
    props := new Props();
    props := props.With("bool_prop", Bool(true));
    props := props.With("num_prop", Num(Float.Finite(42.0)));
    props := props.With("str_prop", Str("string"));
    withBuilt := props.properties;
    boolProp := props.Index("bool_prop");
    numProp := props.Index("num_prop");
    strProp := props.Index("str_prop");
    missing := props.Index("non_existant");
    strAsNum := ToNum(props.Get("str_prop", AsNum));
    var _ := props.GetMut("str_prop", AsStr);
    props.Set("str_prop", Str("hello world"));
    SubAssignAt(props, "prop_2", Float.Finite(32.0));
    prop2 := props.Index("prop_2");
    AddAssignAt(props, "str_prop", Float.Finite(10.0));
    strAfter := props.Index("str_prop");
  }

  /**
   * Mutable access with the wrong type destroys the old value: after
   * `set("p", true)`, `get_mut::<f32>("p")` leaves `0.0` and the boolean
   * reads as `false`.
   */
  method GetMutCoercesExample() returns (asNum: Float.F32, asBool: bool)
    ensures asNum == Float.Zero && asBool == false
  {
    var props := new Props();
    props.Set("p", Bool(true));
    var _ := props.GetMut("p", AsNum);
    asNum := ToNum(props.Get("p", AsNum));
    asBool := ToBool(props.Get("p", AsBool));
  }

  /** The arithmetic of `CompoundAssignExample`: `(default + 5.0) - 2.0` is `3.0`. */
  lemma FiveMinusTwo()
    ensures SubNum(AddNum(DefaultValue, Float.Finite(5.0)), Float.Finite(2.0)) == Num(Float.Finite(3.0))
  {
    assert AddNum(DefaultValue, Float.Finite(5.0)) == Num(Float.Finite(5.0));
  }

  /** `p["n"] += 5.0; p["n"] -= 2.0` on an empty store leaves `3.0`. */
  method CompoundAssignExample() returns (n: Float.F32)
    ensures n == Float.Finite(3.0)
  {
    var props := new Props();
    AddAssignAt(props, "n", Float.Finite(5.0));
    SubAssignAt(props, "n", Float.Finite(2.0));
    n := ToNum(props.Get("n", AsNum));
    FiveMinusTwo();
  }

  /** Keys `"a"`, `"b"`, `"c"` come out in that order. */
  lemma SortedABC()
    ensures Sorted({"a", "b", "c"}) == ["a", "b", "c"]
  {
    assert StrictlySorted(["a", "b", "c"]);
    SortedUnique(Sorted({"a", "b", "c"}), ["a", "b", "c"]);
  }

  /** Properties set in any order are iterated in key order. */
  method IterationOrderExample() returns (props: Props)
    ensures props.Iter() == [("a", Bool(true)), ("b", Num(Float.One)), ("c", Str("x"))]
  {
    props := new Props();
    props := props.With("c", Str("x"));
    props := props.With("a", Bool(true));
    props := props.With("b", Num(Float.One));
    assert props.properties == map["a" := Bool(true), "b" := Num(Float.One), "c" := Str("x")];
    IterOfABC(props);
  }

  /** A store holding exactly `a`, `b`, `c` iterates them in that order. */
  lemma IterOfABC(props: Props)
    requires props.properties == map["a" := Bool(true), "b" := Num(Float.One), "c" := Str("x")]
    ensures props.Iter() == [("a", Bool(true)), ("b", Num(Float.One)), ("c", Str("x"))]
  {
    assert props.properties.Keys == {"a", "b", "c"};
    SortedABC();
    assert props.Keys() == ["a", "b", "c"];
  }
}
