/**
 * Three-way comparison (Rust's `std::cmp::Ordering`) and the orders the
 * property store relies on: `bool` (false before true) and strings
 * (lexicographic by code point, which is the byte order Rust uses for UTF-8
 * `str` and therefore the key order of a `BTreeMap<Estr, _>`).
 */
module Cmp {

  datatype Ordering = Less | Equal | Greater {

    /** `Ordering::reverse`: the result of comparing the operands the other way round. */
    function Reverse(): Ordering {
      match this
      case Less => Greater
      case Equal => Equal
      case Greater => Less
    }
  }

  /** `bool::cmp`: `false < true`. */
  function CmpBool(a: bool, b: bool): (r: Ordering)
    ensures r == Equal <==> a == b
    ensures r == Less <==> !a && b
  {
    if a == b then Equal else if b then Less else Greater
  }

  /** `str::cmp`: lexicographic order, a proper prefix coming first. */
  function CmpStr(a: string, b: string): Ordering
    decreases |a|
  {
    if a == [] then (if b == [] then Equal else Less)
    else if b == [] then Greater
    else if a[0] < b[0] then Less
    else if b[0] < a[0] then Greater
    else CmpStr(a[1..], b[1..])
  }

  /** Two strings compare `Equal` exactly when they are the same string. */
  lemma {:induction false} CmpStrEqual(a: string, b: string)
    ensures CmpStr(a, b) == Equal <==> a == b
    decreases |a|
  {
    if a != [] && b != [] && a[0] == b[0] {
      CmpStrEqual(a[1..], b[1..]);
      assert a == [a[0]] + a[1..];
      assert b == [b[0]] + b[1..];
    }
  }

  /** Swapping the operands reverses the comparison. */
  lemma {:induction false} CmpStrReverse(a: string, b: string)
    ensures CmpStr(b, a) == CmpStr(a, b).Reverse()
    decreases |a|
  {
    if a != [] && b != [] && a[0] == b[0] {
      CmpStrReverse(a[1..], b[1..]);
    }
  }

  /** `Less` is transitive. */
  lemma {:induction false} CmpStrLessTransitive(a: string, b: string, c: string)
    requires CmpStr(a, b) == Less && CmpStr(b, c) == Less
    ensures CmpStr(a, c) == Less
    decreases |a|
  {
    if a != [] && a[0] == b[0] && b[0] == c[0] {
      CmpStrLessTransitive(a[1..], b[1..], c[1..]);
    }
  }

  /** `m` is the least element of `s` in string order. */
  ghost predicate IsLeast(m: string, s: set<string>) {
    m in s && forall x :: x in s ==> CmpStr(m, x) != Greater
  }

  /** Every non-empty finite set of strings has a least element. */
  lemma {:induction false} LeastExists(s: set<string>)
    requires s != {}
    ensures exists m :: IsLeast(m, s)
    decreases s
  {
    var x :| x in s;
    CmpStrEqual(x, x);
    if s - {x} != {} {
      LeastExists(s - {x});
      var m :| IsLeast(m, s - {x});
      CmpStrReverse(x, m);
      if CmpStr(x, m) == Less {
        forall y | y in s
          ensures CmpStr(x, y) != Greater
        {
          if y != x {
            CmpStrEqual(m, y);
            if CmpStr(m, y) == Less {
              CmpStrLessTransitive(x, m, y);
            }
          }
        }
        assert IsLeast(x, s);
      } else {
        assert IsLeast(m, s);
      }
    } else {
      assert s == {x};
      assert IsLeast(x, s);
    }
  }

  /** Strictly increasing in string order (so also free of duplicates). */
  ghost predicate StrictlySorted(s: seq<string>) {
    forall i, j :: 0 <= i < j < |s| ==> CmpStr(s[i], s[j]) == Less
  }

  /**
   * The elements of `s` in increasing string order: the order in which an
   * ordered map keyed by `s` yields its keys.
   */
  ghost function Sorted(s: set<string>): (r: seq<string>)
    ensures StrictlySorted(r)
    ensures forall x :: x in r <==> x in s
    ensures |r| == |s|
    decreases s
  {
    if s == {} then []
    else
      LeastExists(s);
      var m :| IsLeast(m, s);
      var rest := Sorted(s - {m});
      var r := [m] + rest;
      assert StrictlySorted(r) by {
        forall i, j | 0 <= i < j < |r|
          ensures CmpStr(r[i], r[j]) == Less
        {
          if i == 0 {
            assert r[j] == rest[j - 1];
            CmpStrEqual(m, r[j]);
          } else {
            assert r[i] == rest[i - 1] && r[j] == rest[j - 1];
          }
        }
      }
      r
  }

  /** A strictly sorted sequence is determined by its elements. */
  lemma {:induction false} SortedUnique(a: seq<string>, b: seq<string>)
    requires StrictlySorted(a) && StrictlySorted(b)
    requires forall x :: x in a <==> x in b
    ensures a == b
    decreases |a|
  {
    if a != [] { assert a[0] in b; }
    if b != [] { assert b[0] in a; }
    if a != [] && b != [] {
      var i :| 0 <= i < |a| && a[i] == b[0];
      var j :| 0 <= j < |b| && b[j] == a[0];
      if i != 0 {
        CmpStrEqual(a[0], a[i]);
        assert j != 0;
        CmpStrReverse(a[0], b[0]);
        assert false;
      }
      forall x
        ensures x in a[1..] <==> x in b[1..]
      {
        if x in a[1..] {
          var k :| 1 <= k < |a| && a[k] == x;
          CmpStrEqual(a[0], x);
          assert x in b;
        }
        if x in b[1..] {
          var k :| 1 <= k < |b| && b[k] == x;
          CmpStrEqual(b[0], x);
          assert x in a;
        }
      }
      SortedUnique(a[1..], b[1..]);
      assert a == [a[0]] + a[1..];
      assert b == [b[0]] + b[1..];
    }
  }
}
