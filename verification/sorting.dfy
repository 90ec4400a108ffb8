/** Stable sorting in descending order of an integer key: the behaviour of
    `xs.sort((a, b) => key(b) - key(a))` (`Array.prototype.sort` is stable).
    Stability and permutation are stated together: for every key value, the
    elements carrying that value appear in the output exactly as in the
    input. */
module Sorting {

  predicate SortedDesc<T>(s: seq<T>, key: T -> int)
  {
    forall i, j :: 0 <= i < j < |s| ==> key(s[i]) >= key(s[j])
  }

  /** The elements of `s` whose key is `v`, in their order in `s`. */
  function Bucket<T>(s: seq<T>, key: T -> int, v: int): seq<T>
    decreases |s|
  {
    if |s| == 0 then []
    else (if key(s[0]) == v then [s[0]] else []) + Bucket(s[1..], key, v)
  }

  /** Places `x` in front of the first element whose key is not greater
      than its own, so `x` precedes every element of equal key. */
  function Insert<T>(x: T, s: seq<T>, key: T -> int): (r: seq<T>)
    ensures |r| == |s| + 1
    decreases |s|
  {
    if |s| == 0 then [x]
    else if key(s[0]) <= key(x) then [x] + s
    else [s[0]] + Insert(x, s[1..], key)
  }

  function SortDesc<T>(s: seq<T>, key: T -> int): (r: seq<T>)
    ensures |r| == |s|
    ensures multiset(r) == multiset(s)
    ensures SortedDesc(r, key)
    ensures forall v :: Bucket(r, key, v) == Bucket(s, key, v)
    decreases |s|
  {
    if |s| == 0 then []
    else
      var rest := SortDesc(s[1..], key);
      InsertSorted(s[0], rest, key);
      InsertMultiset(s[0], rest, key);
      forall v ensures Bucket(Insert(s[0], rest, key), key, v) == Bucket(s, key, v) {
        InsertBucket(s[0], rest, key, v);
      }
      assert s == [s[0]] + s[1..];
      Insert(s[0], rest, key)
  }

  /** A prefix of a descending sort of `s` is a sub-multiset of `s`, and
      every element of `s` it leaves out has a key no greater than any key
      it keeps: the prefix holds the top `k` keys. */
  lemma SortedPrefixIsTop<T>(s: seq<T>, t: seq<T>, key: T -> int, k: nat)
    requires multiset(t) == multiset(s)
    requires SortedDesc(t, key)
    requires k <= |t|
    ensures multiset(t[..k]) <= multiset(s)
    ensures forall i :: 0 <= i < |s| && s[i] !in t[..k] ==>
      forall j :: 0 <= j < k ==> key(s[i]) <= key(t[j])
  {
    assert t == t[..k] + t[k..];
    assert multiset(t) == multiset(t[..k]) + multiset(t[k..]);
    forall i | 0 <= i < |s| && s[i] !in t[..k]
      ensures forall j :: 0 <= j < k ==> key(s[i]) <= key(t[j])
    {
      assert s[i] in multiset(t);
      var m :| 0 <= m < |t| && t[m] == s[i];
    }
  }

  lemma {:induction false} InsertSorted<T>(x: T, s: seq<T>, key: T -> int)
    requires SortedDesc(s, key)
    ensures SortedDesc(Insert(x, s, key), key)
    decreases |s|
  {
    if |s| > 0 && key(s[0]) > key(x) {
      InsertSorted(x, s[1..], key);
      InsertHeads(x, s[1..], key, key(s[0]));
    }
  }

  /** Every element of `Insert(x, s)` is bounded by a bound of `x` and of `s`. */
  lemma {:induction false} InsertHeads<T>(x: T, s: seq<T>, key: T -> int, b: int)
    requires key(x) <= b
    requires forall i :: 0 <= i < |s| ==> key(s[i]) <= b
    ensures forall i :: 0 <= i < |Insert(x, s, key)| ==> key(Insert(x, s, key)[i]) <= b
    ensures |Insert(x, s, key)| == |s| + 1
    decreases |s|
  {
    if |s| > 0 && key(s[0]) > key(x) {
      InsertHeads(x, s[1..], key, b);
    }
  }

  lemma {:induction false} InsertMultiset<T>(x: T, s: seq<T>, key: T -> int)
    ensures multiset(Insert(x, s, key)) == multiset(s) + multiset{x}
    decreases |s|
  {
    if |s| > 0 && key(s[0]) > key(x) {
      InsertMultiset(x, s[1..], key);
      assert s == [s[0]] + s[1..];
    }
  }

  /** Inserting `x` adds it at the front of its own bucket and leaves the
      other buckets unchanged. */
  lemma {:induction false} InsertBucket<T>(x: T, s: seq<T>, key: T -> int, v: int)
    ensures Bucket(Insert(x, s, key), key, v) == Bucket([x] + s, key, v)
    decreases |s|
  {
    if |s| == 0 {
    } else if key(s[0]) <= key(x) {
    } else {
      var t := Insert(x, s[1..], key);
      InsertBucket(x, s[1..], key, v);
      assert ([s[0]] + t)[1..] == t;
      assert ([x] + s)[1..] == s;
      assert ([x] + s[1..])[1..] == s[1..];
      assert Bucket(Insert(x, s, key), key, v)
          == (if key(s[0]) == v then [s[0]] else []) + Bucket(t, key, v);
    }
  }
}
