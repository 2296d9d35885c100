/** Option and Result values used throughout the model in place of
    `null`/`undefined` and of thrown errors. */
module Common {

  datatype Option<+T> = None | Some(value: T) {
    function GetOr(default: T): T {
      match this
      case Some(v) => v
      case None => default
    }
  }

  datatype Result<+T, +E> = Ok(value: T) | Err(error: E)

  function Min(a: int, b: int): int { if a < b then a else b }
  function Max(a: int, b: int): int { if a < b then b else a }

  /** A sequence computed element by element from `a + b` is the one
      computed from `a` followed by the one computed from `b`. */
  lemma MapAppend<T, U>(a: seq<T>, b: seq<T>, f: T -> U, fa: seq<U>, fb: seq<U>, fab: seq<U>)
    requires |fa| == |a| && |fb| == |b| && |fab| == |a| + |b|
    requires forall k :: 0 <= k < |a| ==> fa[k] == f(a[k])
    requires forall k :: 0 <= k < |b| ==> fb[k] == f(b[k])
    requires forall k :: 0 <= k < |a + b| ==> fab[k] == f((a + b)[k])
    ensures fab == fa + fb
  {
    forall k | 0 <= k < |fab|
      ensures fab[k] == (fa + fb)[k]
    {
      if k >= |a| {
        assert (a + b)[k] == b[k - |a|];
      }
    }
  }

  /** Number of elements of `s` satisfying `p`, i.e. `s.filter(p).length`. */
  function CountIf<T>(s: seq<T>, p: T -> bool): (n: nat)
    ensures n <= |s|
  {
    if s == [] then 0 else (if p(s[0]) then 1 else 0) + CountIf(s[1..], p)
  }

  lemma {:induction false} CountIfSnoc<T>(s: seq<T>, x: T, p: T -> bool)
    ensures CountIf(s + [x], p) == CountIf(s, p) + (if p(x) then 1 else 0)
  {
    if s == [] {
      assert [] + [x] == [x];
    } else {
      assert (s + [x])[1..] == s[1..] + [x];
      CountIfSnoc(s[1..], x, p);
    }
  }

  /** `s.filter(p)`: the elements of `s` satisfying `p`, in their order. */
  function Filter<T>(s: seq<T>, p: T -> bool): (r: seq<T>)
    ensures |r| <= |s|
    ensures forall x :: x in r ==> x in s && p(x)
  {
    if s == [] then [] else (if p(s[0]) then [s[0]] else []) + Filter(s[1..], p)
  }

  lemma {:induction false} FilterComplete<T>(s: seq<T>, p: T -> bool, x: T)
    requires x in s && p(x)
    ensures x in Filter(s, p)
  {
    if s[0] != x {
      FilterComplete(s[1..], p, x);
    }
  }

  lemma {:induction false} FilterLength<T>(s: seq<T>, p: T -> bool)
    ensures |Filter(s, p)| == CountIf(s, p)
  {
    if s != [] {
      FilterLength(s[1..], p);
    }
  }

  lemma {:induction false} FilterAppend<T>(a: seq<T>, b: seq<T>, p: T -> bool)
    ensures Filter(a + b, p) == Filter(a, p) + Filter(b, p)
  {
    if a == [] {
      assert a + b == b;
    } else {
      assert (a + b)[1..] == a[1..] + b;
      FilterAppend(a[1..], b, p);
    }
  }
}
