/** Optional values, standing for JavaScript's `undefined`/`null` alternatives. */
module Options {
  datatype Option<+T> = None | Some(value: T)
}

/** The two slicing idioms the application uses to bound its lists. */
module Seqs {

  /** `s.slice(-n)` for n >= 1: the last `n` elements, or all of `s` when shorter. */
  function KeepLast<T>(s: seq<T>, n: nat): (r: seq<T>)
    ensures |r| <= n && |r| <= |s|
    ensures |s| <= n ==> r == s
    ensures |s| > n ==> |r| == n
    ensures r == s[|s| - |r|..]
  {
    if |s| <= n then s else s[|s| - n..]
  }

  /** `s.slice(0, n)`: the first `n` elements, or all of `s` when shorter. */
  function Take<T>(s: seq<T>, n: nat): (r: seq<T>)
    ensures |r| == if |s| <= n then |s| else n
    ensures r == s[..|r|]
  {
    if |s| <= n then s else s[..n]
  }

  /** Appending one element to a bounded list and keeping the last `n`:
      the new element is last, and before it stand the most recent
      `n - 1` (or fewer) previous elements in their original order. */
  lemma AppendKeepLast<T>(s: seq<T>, x: T, n: nat)
    requires n >= 1
    ensures var r := KeepLast(s + [x], n);
      && 1 <= |r| <= n
      && r[|r| - 1] == x
      && r[..|r| - 1] == KeepLast(s, n - 1)
  {
    var r := KeepLast(s + [x], n);
    if |s| + 1 <= n {
      assert r == s + [x];
      assert r[..|r| - 1] == s;
    } else {
      assert r == (s + [x])[|s| + 1 - n..];
      assert r[..|r| - 1] == s[|s| + 1 - n..];
    }
  }

  /** Pushing onto a list already at most `n` long and then dropping the
      head once if it grew past `n` (the `push` + `shift` idiom) is the
      same as keeping the last `n`. */
  lemma PushShiftIsKeepLast<T>(s: seq<T>, x: T, n: nat)
    requires |s| <= n
    ensures (if |s + [x]| > n then (s + [x])[1..] else s + [x]) == KeepLast(s + [x], n)
  {
  }

  /** Keeping the last `n` before appending more changes nothing about
      which elements are kept in the end. */
  lemma KeepLastThenAppend<T>(s: seq<T>, t: seq<T>, n: nat)
    ensures KeepLast(KeepLast(s, n) + t, n) == KeepLast(s + t, n)
  {
    var k := KeepLast(s, n);
    var w := s + t;
    assert k + t == w[|s| - |k|..];
    if |s| > n {
      var r1, r2 := KeepLast(k + t, n), KeepLast(w, n);
      assert |r1| == n == |r2|;
      assert forall i :: 0 <= i < n ==> r1[i] == w[|w| - n + i] == r2[i];
    }
  }
  /** Pushing `x` with truncation and then appending the rest with
      truncation equals pushing everything at once. */
  lemma PushThenAppend<T>(s: seq<T>, x: T, t: seq<T>, n: nat)
    ensures KeepLast(KeepLast(s + [x], n) + t, n) == KeepLast(s + ([x] + t), n)
  {
    KeepLastThenAppend(s + [x], t, n);
    assert s + [x] + t == s + ([x] + t);
  }

  /** `s.filter(p)`: every element satisfying `p` is kept as often as it
      occurs, every other element is dropped. */
  function Filter<T(!new)>(s: seq<T>, p: T -> bool): (r: seq<T>)
    ensures |r| <= |s|
    ensures forall i :: 0 <= i < |r| ==> p(r[i])
    ensures forall x :: multiset(r)[x] == if p(x) then multiset(s)[x] else 0
    ensures forall x :: x in s && p(x) ==> x in r
    decreases |s|
  {
    if |s| == 0 then []
    else
      assert s == [s[0]] + s[1..];
      var rest := Filter(s[1..], p);
      if p(s[0]) then [s[0]] + rest else rest
  }

  /** Filtering keeps the order: a filtered concatenation is the
      concatenation of the filtered parts. With the one-element case,
      which the multiplicities above already fix, this determines the
      result completely. */
  lemma {:induction false} FilterAppend<T(!new)>(a: seq<T>, b: seq<T>, p: T -> bool)
    ensures Filter(a + b, p) == Filter(a, p) + Filter(b, p)
    decreases |a|
  {
    if |a| > 0 {
      assert (a + b)[1..] == a[1..] + b;
      FilterAppend(a[1..], b, p);
    } else {
      assert a + b == b;
    }
  }

  /** Filtering a list with one more element at the end. */
  lemma FilterSnoc<T(!new)>(s: seq<T>, x: T, p: T -> bool)
    ensures Filter(s + [x], p) == Filter(s, p) + (if p(x) then [x] else [])
  {
    FilterAppend(s, [x], p);
    FilterSingle(x, p);
  }

  /** Filtering one element keeps it exactly when it satisfies `p`. */
  lemma FilterSingle<T(!new)>(x: T, p: T -> bool)
    ensures Filter([x], p) == if p(x) then [x] else []
  {
    assert [x] == [x] + [];
  }

}
