/** Generic list operations standing in for JavaScript's `Array.prototype.filter`,
    `reverse` (in place) and `slice`. */
module Seqs {

  function Min(a: int, b: int): int {
    if a <= b then a else b
  }

  /** `a` can be obtained from `b` by deleting elements: order is kept. */
  predicate IsSubsequence<T(==)>(a: seq<T>, b: seq<T>) {
    if a == [] then true
    else if b == [] then false
    else if a[0] == b[0] then IsSubsequence(a[1..], b[1..])
    else IsSubsequence(a, b[1..])
  }

  lemma {:induction false} SubsequenceReflexive<T>(s: seq<T>)
    ensures IsSubsequence(s, s)
  {
    if s != [] {
      SubsequenceReflexive(s[1..]);
    }
  }

  lemma {:induction false} SubsequenceOfTail<T>(a: seq<T>, b: seq<T>)
    requires b != [] && IsSubsequence(a, b[1..])
    ensures IsSubsequence(a, b)
    decreases |a| + |b|
  {
    if a != [] && a[0] == b[0] {
      SubsequenceDropFirst(a, b[1..]);
    }
  }

  lemma {:induction false} SubsequenceDropFirst<T>(a: seq<T>, b: seq<T>)
    requires a != [] && IsSubsequence(a, b)
    ensures IsSubsequence(a[1..], b)
    decreases |a| + |b|
  {
    if a[0] == b[0] {
      SubsequenceOfTail(a[1..], b);
    } else {
      SubsequenceDropFirst(a, b[1..]);
      SubsequenceOfTail(a[1..], b);
    }
  }

  /** `items.filter(p)`. */
  function Filter<T(==)>(s: seq<T>, p: T -> bool): (r: seq<T>)
    ensures |r| <= |s|
    ensures forall i :: 0 <= i < |r| ==> r[i] in s && p(r[i])
    ensures forall i :: 0 <= i < |s| && p(s[i]) ==> s[i] in r
    ensures IsSubsequence(r, s)
    ensures (forall i :: 0 <= i < |s| ==> p(s[i])) ==> r == s
  {
    if s == [] then []
    else
      var rest := Filter(s[1..], p);
      assert forall i :: 1 <= i < |s| ==> s[i] == s[1..][i - 1];
      if p(s[0]) then [s[0]] + rest
      else SubsequenceOfTail(rest, s); rest
  }

  /** `filter` keeps every copy of a passing element and no copy of a failing one. */
  lemma {:induction false} FilterCounts<T>(s: seq<T>, p: T -> bool, x: T)
    ensures multiset(Filter(s, p))[x] == if p(x) then multiset(s)[x] else 0
  {
    if s != [] {
      FilterCounts(s[1..], p, x);
      assert s == [s[0]] + s[1..];
    }
  }

  /** How much of `s` a reader consumes to collect its first `n` elements that pass
      `p`: it stops just before the (n+1)-th passing element, so the failing elements
      after the n-th passing one are consumed too, and all of `s` when at most `n`
      pass. */
  function KeptPrefix<T(==)>(s: seq<T>, p: T -> bool, n: nat): (c: nat)
    ensures c <= |s|
    ensures Filter(s[..c], p) == Slice(Filter(s, p), 0, n)
    ensures |Filter(s, p)| <= n ==> c == |s|
    ensures s != [] && n > 0 ==> c > 0
  {
    if s == [] then 0
    else if p(s[0]) && n == 0 then 0
    else
      var m := if p(s[0]) then n - 1 else n;
      var c := 1 + KeptPrefix(s[1..], p, m);
      KeptPrefixStep(s, p, n, m, c);
      c
  }

  /** One step of `KeptPrefix`: consuming the first element, then the rest. */
  lemma KeptPrefixStep<T>(s: seq<T>, p: T -> bool, n: nat, m: nat, c: nat)
    requires s != [] && 1 <= c <= |s| && m == if p(s[0]) then n - 1 else n
    requires !p(s[0]) || n > 0
    requires Filter(s[1..][..c - 1], p) == Slice(Filter(s[1..], p), 0, m)
    ensures Filter(s[..c], p) == Slice(Filter(s, p), 0, n)
  {
    var pre := s[..c];
    assert pre[1..] == s[1..][..c - 1];
    assert pre[0] == s[0];
    if p(s[0]) {
      SliceCons(s[0], Filter(s[1..], p), n);
    }
  }

  /** Taking `n > 0` elements of `[x] + t` takes `x` and `n - 1` elements of `t`. */
  lemma SliceCons<T>(x: T, t: seq<T>, n: nat)
    requires n > 0
    ensures Slice([x] + t, 0, n) == [x] + Slice(t, 0, n - 1)
  {
    var l, r := Slice([x] + t, 0, n), [x] + Slice(t, 0, n - 1);
    assert |l| == |r|;
    forall k | 0 <= k < |l|
      ensures l[k] == r[k]
    {
      if k > 0 {
        assert r[k] == Slice(t, 0, n - 1)[k - 1];
      }
    }
  }

  /** The elements of `s` in the opposite order. */
  function Reverse<T>(s: seq<T>): seq<T> {
    if s == [] then [] else Reverse(s[1..]) + [s[0]]
  }

  lemma {:induction false} ReverseAt<T>(s: seq<T>)
    ensures |Reverse(s)| == |s|
    ensures forall k :: 0 <= k < |s| ==> Reverse(s)[k] == s[|s| - 1 - k]
  {
    if s != [] {
      ReverseAt(s[1..]);
    }
  }

  /** `s.slice(from, to)` for non-negative bounds: both ends are clamped to the length. */
  function Slice<T>(s: seq<T>, from: nat, to: nat): (r: seq<T>)
    ensures |r| == if from <= to && from <= |s| then Min(to, |s|) - from else 0
    ensures forall k :: 0 <= k < |r| ==> r[k] == s[from + k]
  {
    var hi := Min(to, |s|);
    if from < hi then s[from..hi] else []
  }

  /** `a.reverse()`: reverses the array in place. */
  method ReverseInPlace<T>(a: array<T>)
    modifies a
    ensures a[..] == Reverse(old(a[..]))
  {
    ghost var orig := a[..];
    var lo, hi := 0, a.Length;
    while lo + 1 < hi
      invariant 0 <= lo <= hi && lo + hi == a.Length
      invariant forall k :: 0 <= k < lo ==> a[k] == orig[a.Length - 1 - k]
      invariant forall k :: hi <= k < a.Length ==> a[k] == orig[a.Length - 1 - k]
      invariant forall k :: lo <= k < hi ==> a[k] == orig[k]
    {
      a[lo], a[hi - 1] := a[hi - 1], a[lo];
      lo, hi := lo + 1, hi - 1;
    }
    ReverseAt(orig);
    assert a[..] == Reverse(orig);
  }
}
