/** Order-preserving filtering of sequences (JavaScript's Array.prototype.filter)
    and uniqueness of keys within a sequence. */
module Seqs {

  /** The elements of `s` that `keep` accepts. The contract below says which
      elements appear; their order and multiplicity (those of `s`) follow from
      FilterConcat together with the one-element case. */
  function Filter<T(==)>(s: seq<T>, keep: T -> bool): (r: seq<T>)
    ensures |r| <= |s|
    ensures forall i :: 0 <= i < |r| ==> r[i] in s && keep(r[i])
    ensures forall i :: 0 <= i < |s| && keep(s[i]) ==> s[i] in r
    ensures (forall i :: 0 <= i < |s| ==> keep(s[i])) ==> r == s
    ensures (forall i :: 0 <= i < |s| ==> !keep(s[i])) ==> r == []
  {
    if s == [] then []
    else (if keep(s[0]) then [s[0]] else []) + Filter(s[1..], keep)
  }

  /** Filtering distributes over concatenation, so it keeps the relative order
      of the elements it keeps. */
  lemma {:induction false} FilterConcat<T>(a: seq<T>, b: seq<T>, keep: T -> bool)
    ensures Filter(a + b, keep) == Filter(a, keep) + Filter(b, keep)
  {
    if a == [] {
      assert a + b == b;
    } else {
      assert (a + b)[0] == a[0];
      assert (a + b)[1..] == a[1..] + b;
      FilterConcat(a[1..], b, keep);
    }
  }

  /** No two elements of `s` share a key. */
  ghost predicate UniqueKeys<T, K>(s: seq<T>, key: T -> K) {
    forall i, j :: 0 <= i < j < |s| ==> key(s[i]) != key(s[j])
  }

  /** No element of `s` has key `k`. */
  ghost predicate KeyAbsent<T, K>(s: seq<T>, key: T -> K, k: K) {
    forall i :: 0 <= i < |s| ==> key(s[i]) != k
  }

  lemma FilterKeepsKeyAbsent<T, K>(s: seq<T>, keep: T -> bool, key: T -> K, k: K)
    requires KeyAbsent(s, key, k)
    ensures KeyAbsent(Filter(s, keep), key, k)
  {
  }

  lemma {:induction false} FilterKeepsUniqueKeys<T, K>(s: seq<T>, keep: T -> bool, key: T -> K)
    requires UniqueKeys(s, key)
    ensures UniqueKeys(Filter(s, keep), key)
  {
    if s != [] {
      var tail := Filter(s[1..], keep);
      FilterKeepsUniqueKeys(s[1..], keep, key);
      if keep(s[0]) {
        assert KeyAbsent(s[1..], key, key(s[0]));
        FilterKeepsKeyAbsent(s[1..], keep, key, key(s[0]));
        PrependKeepsUniqueKeys(s[0], tail, key);
      }
    }
  }

  lemma AppendKeepsUniqueKeys<T, K>(s: seq<T>, x: T, key: T -> K)
    requires UniqueKeys(s, key) && KeyAbsent(s, key, key(x))
    ensures UniqueKeys(s + [x], key)
  {
  }

  lemma PrependKeepsUniqueKeys<T, K>(x: T, s: seq<T>, key: T -> K)
    requires UniqueKeys(s, key) && KeyAbsent(s, key, key(x))
    ensures UniqueKeys([x] + s, key)
  {
  }
}
