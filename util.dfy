/** Helpers shared by the model: optional values, thrown errors, and the
    searches JavaScript arrays offer (`find`, `findIndex`, `filter`). */
module Util {

  /** A value that may be absent (`T | null` or an optional property). */
  datatype Option<T> = None | Some(value: T) {
    /** `x ?? d`: the value when present, the default otherwise. */
    function GetOr(default: T): T {
      match this
      case Some(v) => v
      case None => default
    }
  }

  /** The outcome of an operation that may throw `new Error(message)`. */
  datatype Result<T> = Ok(value: T) | Err(message: string)

  /** `s.findIndex(p)`, with `-1` written as `None`. */
  function FindIndex<T>(s: seq<T>, p: T -> bool): (r: Option<nat>)
    ensures r.Some? ==> r.value < |s| && p(s[r.value])
    ensures r.Some? ==> forall j :: 0 <= j < r.value ==> !p(s[j])
    ensures r.None? <==> forall j :: 0 <= j < |s| ==> !p(s[j])
  {
    if s == [] then None
    else if p(s[0]) then Some(0)
    else match FindIndex(s[1..], p)
      case None => None
      case Some(k) => Some(k + 1)
  }

  /** The first index satisfying `p` is the one `FindIndex` returns. */
  lemma FindIndexAt<T>(s: seq<T>, p: T -> bool, i: nat)
    requires i < |s| && p(s[i]) && forall j :: 0 <= j < i ==> !p(s[j])
    ensures FindIndex(s, p) == Some(i)
  {
  }

  /** `s.find(p) || null`: the first element that satisfies `p`. */
  function Find<T>(s: seq<T>, p: T -> bool): (r: Option<T>)
    ensures r.None? <==> forall j :: 0 <= j < |s| ==> !p(s[j])
    ensures r.Some? ==> exists j :: 0 <= j < |s| && s[j] == r.value && p(s[j]) &&
                                   forall k :: 0 <= k < j ==> !p(s[k])
  {
    match FindIndex(s, p)
    case None => None
    case Some(i) => Some(s[i])
  }

  /** `a` is `b` with some elements deleted: same relative order. */
  ghost predicate IsSubsequence<T>(a: seq<T>, b: seq<T>)
    decreases |b|
  {
    if a == [] then true
    else if b == [] then false
    else (a[0] == b[0] && IsSubsequence(a[1..], b[1..])) || IsSubsequence(a, b[1..])
  }

  /** `s.filter(p)`. */
  function Filter<T(!new)>(s: seq<T>, p: T -> bool): (r: seq<T>)
    ensures forall i :: 0 <= i < |r| ==> r[i] in s && p(r[i])
    ensures forall j :: 0 <= j < |s| && p(s[j]) ==> s[j] in r
    ensures IsSubsequence(r, s)
    ensures multiset(r) <= multiset(s) && |r| <= |s|
    ensures |r| == |s| <==> forall j :: 0 <= j < |s| ==> p(s[j])
    ensures |r| == |s| ==> r == s
  {
    if s == [] then []
    else
      assert s == [s[0]] + s[1..];
      if p(s[0]) then [s[0]] + Filter(s[1..], p) else Filter(s[1..], p)
  }

  /** Filtering keeps each element that passes as often as it occurs,
      and no element that fails. */
  lemma {:induction false} FilterCount<T(!new)>(s: seq<T>, p: T -> bool)
    ensures forall y :: multiset(Filter(s, p))[y] == if p(y) then multiset(s)[y] else 0
  {
    if s != [] {
      FilterCount(s[1..], p);
      assert s == [s[0]] + s[1..];
    }
  }

  /** One step of `Filter`: the head, when it passes, then the rest. */
  lemma FilterStep<T(!new)>(s: seq<T>, p: T -> bool)
    requires s != []
    ensures Filter(s, p) == (if p(s[0]) then [s[0]] else []) + Filter(s[1..], p)
  {
  }

  /** Filtering with a weaker test keeps at least as many elements. */
  lemma {:induction false} FilterImplies<T(!new)>(s: seq<T>, p: T -> bool, q: T -> bool)
    requires forall i :: 0 <= i < |s| && p(s[i]) ==> q(s[i])
    ensures |Filter(s, p)| <= |Filter(s, q)|
  {
    if s != [] {
      FilterImplies(s[1..], p, q);
    }
  }

  /** Two tests that never hold together select at most `|s|` elements
      between them. */
  lemma {:induction false} FilterDisjoint<T(!new)>(s: seq<T>, p: T -> bool, q: T -> bool)
    requires forall i :: 0 <= i < |s| ==> !(p(s[i]) && q(s[i]))
    ensures |Filter(s, p)| + |Filter(s, q)| <= |s|
  {
    if s != [] {
      FilterDisjoint(s[1..], p, q);
    }
  }

  /** Moving a part between the two sides of a multiset equation. */
  lemma MultisetShift<T>(x: multiset<T>, y: multiset<T>, p: multiset<T>, q: multiset<T>,
                         o: multiset<T>, a: multiset<T>)
    requires x + p == y + q && q + o == p + a
    ensures x + o == y + a
  {
    forall t ensures (x + o)[t] == (y + a)[t] {
      assert (x + p)[t] == (y + q)[t];
      assert (q + o)[t] == (p + a)[t];
    }
  }

  /** Cancelling a common part of both sides of a multiset equation. */
  lemma MultisetCancel<T>(x: multiset<T>, y: multiset<T>, o: multiset<T>, a: multiset<T>)
    requires x + o == y + (o + a)
    ensures x == y + a
  {
    forall t ensures x[t] == (y + a)[t] {
      assert (x + o)[t] == (y + (o + a))[t];
    }
  }

  /** A multiset equation between sequences' contents also equates sizes. */
  lemma MultisetSizes<T>(x: multiset<T>, y: multiset<T>, p: seq<T>, q: seq<T>)
    requires x + multiset(p) == y + multiset(q)
    ensures |x| + |p| == |y| + |q|
  {
    assert |x + multiset(p)| == |x| + |multiset(p)|;
    assert |y + multiset(q)| == |y| + |multiset(q)|;
  }

  /** Replacing the element at `k` of `a` by `v` on one side of a multiset
      equation amounts to trading `a[k]` for `v`. */
  lemma MultisetSwapOne<T>(x: multiset<T>, y: multiset<T>, a: seq<T>, k: nat, v: T)
    requires k < |a| && x + multiset(a) == y + multiset(a[k := v])
    ensures x + multiset{a[k]} == y + multiset{v}
    ensures |x| == |y|
  {
    assert multiset(a[k := v]) + multiset{a[k]} == multiset(a) + multiset{v};
    MultisetShift(x, y, multiset(a), multiset(a[k := v]), multiset{a[k]}, multiset{v});
    MultisetSizes(x, y, a, a[k := v]);
  }
}
