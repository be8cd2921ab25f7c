/** Weighted sums over sequences, and Go's in-place filter `keep := in[:0]`. */
module Sums {

  function Sum<T>(s: seq<T>, w: T -> int): int {
    if s == [] then 0 else Sum(s[..|s| - 1], w) + w(s[|s| - 1])
  }

  lemma SumPush<T>(s: seq<T>, x: T, w: T -> int)
    ensures Sum(s + [x], w) == Sum(s, w) + w(x)
  {
    assert (s + [x])[..|s|] == s;
  }

  lemma {:induction false} SumConcat<T>(s: seq<T>, t: seq<T>, w: T -> int)
    ensures Sum(s + t, w) == Sum(s, w) + Sum(t, w)
    decreases |t|
  {
    if t == [] {
      assert s + t == s;
    } else {
      assert (s + t)[..|s + t| - 1] == s + t[..|t| - 1];
      SumConcat(s, t[..|t| - 1], w);
    }
  }

  lemma SumPop<T>(s: seq<T>, w: T -> int)
    requires s != []
    ensures Sum(s, w) == w(s[0]) + Sum(s[1..], w)
  {
    assert s == [s[0]] + s[1..];
    SumConcat([s[0]], s[1..], w);
    SumPush([], s[0], w);
    assert [] + [s[0]] == [s[0]];
  }

  lemma SumRemove<T>(s: seq<T>, i: nat, w: T -> int)
    requires i < |s|
    ensures Sum(s[..i] + s[i + 1..], w) == Sum(s, w) - w(s[i])
  {
    SumConcat(s[..i], s[i + 1..], w);
    assert s == s[..i] + s[i..] && s[i..][1..] == s[i + 1..];
    SumConcat(s[..i], s[i..], w);
    SumPop(s[i..], w);
  }

  lemma {:induction false} SumAtLeast<T>(s: seq<T>, w: T -> int, lower: int)
    requires forall i :: 0 <= i < |s| ==> w(s[i]) >= lower
    ensures Sum(s, w) >= lower * |s|
    decreases |s|
  {
    if s != [] {
      SumAtLeast(s[..|s| - 1], w, lower);
      assert w(s[|s| - 1]) >= lower;
      assert lower * |s| == lower * (|s| - 1) + lower;
    }
  }

  lemma {:induction false} SumZero<T>(s: seq<T>, w: T -> int)
    requires forall i :: 0 <= i < |s| ==> w(s[i]) == 0
    ensures Sum(s, w) == 0
    decreases |s|
  {
    if s != [] { SumZero(s[..|s| - 1], w); }
  }

  function Filter<T>(s: seq<T>, p: T -> bool): (r: seq<T>)
    ensures |r| <= |s|
  {
    if s == [] then []
    else Filter(s[..|s| - 1], p) + (if p(s[|s| - 1]) then [s[|s| - 1]] else [])
  }

  lemma {:induction false} FilterMembers<T>(s: seq<T>, p: T -> bool)
    ensures forall x :: x in Filter(s, p) ==> x in s && p(x)
    decreases |s|
  {
    if s != [] { FilterMembers(s[..|s| - 1], p); }
  }

  function Not<T>(p: T -> bool): T -> bool {
    x => !p(x)
  }

  /** A filter and its complement split every weighted sum. */
  lemma {:induction false} SumFilter<T>(s: seq<T>, p: T -> bool, w: T -> int)
    ensures Sum(Filter(s, p), w) + Sum(Filter(s, Not(p)), w) == Sum(s, w)
    decreases |s|
  {
    if s != [] {
      var init, last := s[..|s| - 1], s[|s| - 1];
      SumFilter(init, p, w);
      SumPush(Filter(init, p), last, w);
      SumPush(Filter(init, Not(p)), last, w);
      assert Filter(init, p) + [] == Filter(init, p);
      assert Filter(init, Not(p)) + [] == Filter(init, Not(p));
    }
  }

  lemma FilterPush<T>(s: seq<T>, x: T, p: T -> bool)
    ensures Filter(s + [x], p) == Filter(s, p) + (if p(x) then [x] else [])
  {
    assert (s + [x])[..|s|] == s;
  }

  /** The loop `keep := in[:0]; for c := range in { if ... { keep = append(keep, c) } }`:
      survivors are copied down over the array they are read from. */
  method KeepInPlace<T>(a: array<T>, p: T -> bool) returns (n: nat, rest: seq<T>)
    modifies a
    ensures n <= a.Length
    ensures a[..n] == Filter(old(a[..]), p)
    ensures rest == Filter(old(a[..]), Not(p))
  {
    n, rest := 0, [];
    ghost var was := a[..];
    for i := 0 to a.Length
      invariant n <= i
      invariant a[i..] == was[i..]
      invariant a[..n] == Filter(was[..i], p)
      invariant rest == Filter(was[..i], Not(p))
    {
      var c := a[i];
      assert c == a[i..][0] == was[i];
      assert was[..i + 1] == was[..i] + [c];
      FilterPush(was[..i], c, p);
      FilterPush(was[..i], c, Not(p));
      assert a[i + 1..] == a[i..][1..] == was[i + 1..];
      if p(c) {
        ghost var front := a[..n];
        a[n] := c;
        assert a[..n + 1] == front + [c];
        n := n + 1;
      } else {
        rest := rest + [c];
      }
    }
    assert was[..a.Length] == was;
  }

  /** `copy(in[idx:], in[idx+1:])`: removal by copying the tail down one place. */
  method RemoveInPlace<T>(a: array<T>, idx: nat)
    requires idx < a.Length
    modifies a
    ensures a[..a.Length - 1] == old(a[..])[..idx] + old(a[..])[idx + 1..]
  {
    ghost var was := a[..];
    var i := idx;
    while i + 1 < a.Length
      invariant idx <= i < a.Length
      invariant a[..i] == was[..idx] + was[idx + 1..i + 1]
      invariant a[i..] == was[i..]
    {
      assert a[i + 1] == a[i..][1] == was[i + 1];
      assert a[i + 1..] == a[i..][1..] == was[i + 1..];
      ghost var front := a[..i];
      a[i] := a[i + 1];
      assert a[..i + 1] == front + [was[i + 1]];
      i := i + 1;
    }
  }
}
