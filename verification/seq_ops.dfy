/**
 The array operations the slices are written with, over immutable sequences:
 `findIndex` and `find` (first element whose key equals a value), `filter`
 with a `!==` test (drop every element whose key equals a value), and the
 replacement of one position. Elements are compared through a key projection
 so that one definition serves task ids, template ids and template styles.
 */
module SeqOps {
  import opened Types

  /** Number of elements whose key is `k`. */
  function CountKey<T, K(==)>(s: seq<T>, key: T -> K, k: K): (n: nat)
    ensures n <= |s|
    ensures n == 0 <==> forall i :: 0 <= i < |s| ==> key(s[i]) != k
    decreases |s|
  {
    if |s| == 0 then 0
    else (if key(s[0]) == k then 1 else 0) + CountKey(s[1..], key, k)
  }

  /**
   `findIndex`: the index of the FIRST element whose key is `k`, or -1 when
   there is none.
   */
  function FindIndexBy<T, K(==)>(s: seq<T>, key: T -> K, k: K): (r: int)
    ensures -1 <= r < |s|
    ensures r == -1 <==> forall i :: 0 <= i < |s| ==> key(s[i]) != k
    ensures 0 <= r ==> key(s[r]) == k
    ensures 0 <= r ==> forall i :: 0 <= i < r ==> key(s[i]) != k
    decreases |s|
  {
    if |s| == 0 then -1
    else if key(s[0]) == k then 0
    else
      var r := FindIndexBy(s[1..], key, k);
      if r == -1 then -1 else r + 1
  }

  /** `find`: the first element whose key is `k`, if any. */
  function FindBy<T, K(==)>(s: seq<T>, key: T -> K, k: K): (r: Option<T>)
    ensures r.None? <==> forall i :: 0 <= i < |s| ==> key(s[i]) != k
    ensures r.Some? ==> key(r.value) == k
    ensures r.Some? ==> exists i :: 0 <= i < |s| && s[i] == r.value
                                   && forall j :: 0 <= j < i ==> key(s[j]) != k
  {
    var i := FindIndexBy(s, key, k);
    if i == -1 then None else Some(s[i])
  }

  /** `filter(x => key(x) !== k)`: drop every element whose key is `k`. */
  function RemoveBy<T(==), K(==)>(s: seq<T>, key: T -> K, k: K): (r: seq<T>)
    ensures |r| == |s| - CountKey(s, key, k)
    ensures forall i :: 0 <= i < |r| ==> key(r[i]) != k && r[i] in s
    ensures forall i :: 0 <= i < |s| && key(s[i]) != k ==> s[i] in r
    decreases |s|
  {
    if |s| == 0 then []
    else if key(s[0]) == k then RemoveBy(s[1..], key, k)
    else [s[0]] + RemoveBy(s[1..], key, k)
  }

  /**
   `s[findIndex(...)] = x` guarded by `index !== -1`: replace the first element
   whose key is `k` by `x`; leave `s` alone when there is none.
   */
  function ReplaceFirstBy<T, K(==)>(s: seq<T>, key: T -> K, k: K, x: T): (r: seq<T>)
    ensures |r| == |s|
    ensures FindIndexBy(s, key, k) == -1 ==> r == s
    ensures FindIndexBy(s, key, k) >= 0 ==> r[FindIndexBy(s, key, k)] == x
    ensures forall j :: 0 <= j < |s| && j != FindIndexBy(s, key, k) ==> r[j] == s[j]
  {
    var i := FindIndexBy(s, key, k);
    if i == -1 then s else s[i := x]
  }

  /**
   `b` keeps elements of `a` in their relative order: a greedy left-to-right
   match of `b`'s elements against `a`'s succeeds.
   */
  predicate IsSubsequence<T(==)>(b: seq<T>, a: seq<T>)
    decreases |a|
  {
    if |b| == 0 then true
    else if |a| == 0 then false
    else if b[0] == a[0] then IsSubsequence(b[1..], a[1..])
    else IsSubsequence(b, a[1..])
  }

  /** Filtering keeps the survivors in their original relative order. */
  lemma {:induction false} RemoveByIsSubsequence<T, K>(s: seq<T>, key: T -> K, k: K)
    ensures IsSubsequence(RemoveBy(s, key, k), s)
    decreases |s|
  {
    if |s| > 0 {
      RemoveByIsSubsequence(s[1..], key, k);
      var rest := RemoveBy(s[1..], key, k);
      if key(s[0]) != k {
        assert RemoveBy(s, key, k) == [s[0]] + rest;
        assert ([s[0]] + rest)[1..] == rest;
      } else {
        SkipHeadPreservesSubsequence(rest, s);
      }
    }
  }

  /** A subsequence of `a[1..]` is a subsequence of `a`. */
  lemma {:induction false} SkipHeadPreservesSubsequence<T>(b: seq<T>, a: seq<T>)
    requires |a| > 0
    requires IsSubsequence(b, a[1..])
    ensures IsSubsequence(b, a)
    decreases |a|, |b|, 1
  {
    if |b| > 0 && b[0] == a[0] {
      // greedy matching takes a[0]; the rest of b must then fit into a[1..]
      SubsequenceDropHead(b, a[1..]);
    }
  }

  /** If `b` fits into `a`, so does `b[1..]`. */
  lemma {:induction false} SubsequenceDropHead<T>(b: seq<T>, a: seq<T>)
    requires |b| > 0
    requires IsSubsequence(b, a)
    ensures IsSubsequence(b[1..], a)
    decreases |a| + 1, |b|, 0
  {
    assert |a| > 0;
    if b[0] == a[0] {
      SkipHeadPreservesSubsequence(b[1..], a);
    } else {
      SubsequenceDropHead(b, a[1..]);
      SkipHeadPreservesSubsequence(b[1..], a);
    }
  }

  /** Filtering a sequence that holds no element with key `k` returns it unchanged. */
  lemma {:induction false} RemoveByAbsent<T, K>(s: seq<T>, key: T -> K, k: K)
    requires forall i :: 0 <= i < |s| ==> key(s[i]) != k
    ensures RemoveBy(s, key, k) == s
    decreases |s|
  {
    if |s| > 0 {
      RemoveByAbsent(s[1..], key, k);
      assert s == [s[0]] + s[1..];
    }
  }

  /** Filtering twice by the same key is filtering once. */
  lemma {:induction false} RemoveByIdempotent<T, K>(s: seq<T>, key: T -> K, k: K)
    ensures RemoveBy(RemoveBy(s, key, k), key, k) == RemoveBy(s, key, k)
  {
    var r := RemoveBy(s, key, k);
    RemoveByAbsent(r, key, k);
  }

  /** Filtering distributes over concatenation. */
  lemma {:induction false} RemoveByAppend<T, K>(a: seq<T>, b: seq<T>, key: T -> K, k: K)
    ensures RemoveBy(a + b, key, k) == RemoveBy(a, key, k) + RemoveBy(b, key, k)
    decreases |a|
  {
    if |a| == 0 {
      assert a + b == b;
    } else {
      assert (a + b)[0] == a[0];
      assert (a + b)[1..] == a[1..] + b;
      RemoveByAppend(a[1..], b, key, k);
    }
  }

  /**
   Two sequences whose keys agree position by position have the same first
   match for every key.
   */
  lemma FindIndexSameKeys<T, K>(a: seq<T>, b: seq<T>, key: T -> K, k: K)
    requires |a| == |b|
    requires forall i :: 0 <= i < |a| ==> key(a[i]) == key(b[i])
    ensures FindIndexBy(a, key, k) == FindIndexBy(b, key, k)
  {
  }
}
