/** `Array.prototype.sort((a, b) => key(b) - key(a))`: a stable sort into
    non-increasing key order, written as an insertion sort. */
module Sorting {
  import opened Seqs

  ghost predicate SortedDesc<T>(s: seq<T>, key: T -> int)
  {
    forall i, j :: 0 <= i < j < |s| ==> key(s[i]) >= key(s[j])
  }

  /** The elements of `s` whose key is `k`, in their order in `s`. */
  function WithKey<T>(s: seq<T>, key: T -> int, k: int): (r: seq<T>)
    ensures |r| <= |s|
    ensures forall i :: 0 <= i < |r| ==> key(r[i]) == k
  {
    if |s| == 0 then []
    else (if key(s[0]) == k then [s[0]] else []) + WithKey(s[1..], key, k)
  }

  /** Puts `x` in front of the first element whose key is not larger than its own. */
  function Insert<T>(x: T, s: seq<T>, key: T -> int): (r: seq<T>)
    requires SortedDesc(s, key)
    ensures SortedDesc(r, key)
    ensures multiset(r) == multiset(s) + multiset{x}
    ensures |r| == |s| + 1
  {
    if |s| == 0 || key(s[0]) <= key(x) then
      ConsSorted(x, s, key);
      [x] + s
    else
      var rest := Insert(x, s[1..], key);
      assert s == [s[0]] + s[1..];
      HeadBounds(s, x, rest, key);
      ConsSorted(s[0], rest, key);
      [s[0]] + rest
  }

  /** A head whose key bounds every key of a sorted tail keeps it sorted. */
  lemma ConsSorted<T>(h: T, t: seq<T>, key: T -> int)
    requires SortedDesc(t, key)
    requires |t| == 0 || key(h) >= key(t[0])
    ensures SortedDesc([h] + t, key)
  {
  }

  /** The head of a sorted `s` bounds the keys of `rest`, which holds `x`
      (with a smaller key) and the tail of `s`. */
  lemma HeadBounds<T>(s: seq<T>, x: T, rest: seq<T>, key: T -> int)
    requires |s| > 0 && SortedDesc(s, key) && key(s[0]) > key(x)
    requires multiset(rest) == multiset(s[1..]) + multiset{x}
    ensures forall i :: 0 <= i < |rest| ==> key(s[0]) >= key(rest[i])
  {
    forall i | 0 <= i < |rest|
      ensures key(s[0]) >= key(rest[i])
    {
      assert rest[i] in multiset(rest);
      if rest[i] != x {
        assert rest[i] in multiset(s[1..]);
        var j :| 1 <= j < |s| && s[j] == rest[i] by {
          assert rest[i] in s[1..];
        }
      }
    }
  }

  /** Sorts `s` into non-increasing key order; the result is a permutation of `s`. */
  function SortDesc<T>(s: seq<T>, key: T -> int): (r: seq<T>)
    ensures SortedDesc(r, key)
    ensures multiset(r) == multiset(s)
    ensures |r| == |s|
  {
    if |s| == 0 then []
    else
      assert s == [s[0]] + s[1..];
      Insert(s[0], SortDesc(s[1..], key), key)
  }

  lemma {:induction false} InsertWithKey<T>(x: T, s: seq<T>, key: T -> int, k: int)
    requires SortedDesc(s, key)
    ensures WithKey(Insert(x, s, key), key, k)
      == (if key(x) == k then [x] else []) + WithKey(s, key, k)
  {
    if |s| == 0 || key(s[0]) <= key(x) {
      assert ([x] + s)[1..] == s;
    } else {
      var rest := Insert(x, s[1..], key);
      assert Insert(x, s, key) == [s[0]] + rest;
      assert ([s[0]] + rest)[1..] == rest;
      InsertWithKey(x, s[1..], key, k);
      var head: seq<T> := if key(s[0]) == k then [s[0]] else [];
      assert WithKey(s, key, k) == head + WithKey(s[1..], key, k);
      assert WithKey([s[0]] + rest, key, k) == head + WithKey(rest, key, k);
      if key(x) == k {
        assert head == [];
      }
    }
  }

  /** Stability: for every key value, the elements carrying it keep their
      relative order. Together with sortedness this fixes the result. */
  lemma {:induction false} SortDescStable<T>(s: seq<T>, key: T -> int, k: int)
    ensures WithKey(SortDesc(s, key), key, k) == WithKey(s, key, k)
  {
    if |s| > 0 {
      SortDescStable(s[1..], key, k);
      InsertWithKey(s[0], SortDesc(s[1..], key), key, k);
    }
  }

  /** The elements of a prefix that have key `k` are a prefix of the
      elements of the whole that have key `k`. */
  lemma {:induction false} WithKeyPrefix<T>(t: seq<T>, key: T -> int, k: int, m: nat)
    requires m <= |t|
    ensures var w := WithKey(t[..m], key, k);
      |w| <= |WithKey(t, key, k)| && w == WithKey(t, key, k)[..|w|]
    decreases m
  {
    if m > 0 {
      assert t[..m][1..] == t[1..][..m - 1];
      WithKeyPrefix(t[1..], key, k, m - 1);
    }
  }

  /** Among elements with equal keys, `TopN` keeps the earliest ones of `s`,
      in their order in `s`. */
  lemma TopNTies<T>(s: seq<T>, key: T -> int, n: nat, k: int)
    ensures var w := WithKey(TopN(s, key, n), key, k);
      |w| <= |WithKey(s, key, k)| && w == WithKey(s, key, k)[..|w|]
  {
    var sorted := SortDesc(s, key);
    assert |sorted| == |multiset(sorted)| == |s|;
    var m := if |s| <= n then |s| else n;
    assert TopN(s, key, n) == sorted[..m];
    SortDescStable(s, key, k);
    WithKeyPrefix(sorted, key, k, m);
  }

  /** `sort(...).slice(0, n)`: at most `n` elements of `s`, largest key
      first, and every element left out has a key no larger than any kept. */
  function TopN<T>(s: seq<T>, key: T -> int, n: nat): (r: seq<T>)
    ensures |r| == if |s| <= n then |s| else n
    ensures SortedDesc(r, key)
    ensures multiset(r) <= multiset(s)
    ensures forall x :: x in multiset(s) - multiset(r) ==>
      forall i :: 0 <= i < |r| ==> key(x) <= key(r[i])
  {
    var sorted := SortDesc(s, key);
    var m := if |s| <= n then |s| else n;
    SortedPrefix(sorted, key, m);
    TopOfSorted(sorted, key, m);
    Take(sorted, n)
  }

  /** In a sorted sequence, whatever lies beyond the first `m` elements has a
      key no larger than any of them. */
  lemma TopOfSorted<T>(t: seq<T>, key: T -> int, m: nat)
    requires SortedDesc(t, key) && m <= |t|
    ensures forall x :: x in multiset(t) - multiset(t[..m]) ==>
      forall i :: 0 <= i < m ==> key(x) <= key(t[i])
  {
    var rest := t[m..];
    assert t == t[..m] + rest;
    forall x | x in multiset(t) - multiset(t[..m])
      ensures forall i :: 0 <= i < m ==> key(x) <= key(t[i])
    {
      assert x in rest;
      var j :| 0 <= j < |rest| && rest[j] == x;
      assert x == t[m + j];
    }
  }

  /** A prefix of a sorted sequence is sorted and takes nothing the sequence lacks. */
  lemma SortedPrefix<T>(t: seq<T>, key: T -> int, m: nat)
    requires SortedDesc(t, key) && m <= |t|
    ensures SortedDesc(t[..m], key)
    ensures multiset(t[..m]) <= multiset(t)
  {
    assert t == t[..m] + t[m..];
  }
}
