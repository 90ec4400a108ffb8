/** A JavaScript `Map<string, T>` keyed by a record's own id, represented as
    the sequence of its values in insertion order (the order in which
    `Array.from(map.values())` yields them). A JavaScript map never holds a
    key twice; `UniqueKeys` states that fact where a proof needs it. */
module Tables {
  import opened Wrappers

  predicate HasKey<T>(s: seq<T>, key: T -> string, k: string)
  {
    exists i :: 0 <= i < |s| && key(s[i]) == k
  }

  predicate UniqueKeys<T>(s: seq<T>, key: T -> string)
  {
    forall i, j :: 0 <= i < j < |s| ==> key(s[i]) != key(s[j])
  }

  /** `map.get(k)`. */
  function Get<T>(s: seq<T>, key: T -> string, k: string): (r: Option<T>)
    ensures r.Some? <==> HasKey(s, key, k)
    ensures r.Some? ==> r.value in s && key(r.value) == k
    decreases |s|
  {
    if |s| == 0 then None
    else if key(s[0]) == k then Some(s[0])
    else
      var r := Get(s[1..], key, k);
      assert HasKey(s[1..], key, k) ==> HasKey(s, key, k) by {
        if HasKey(s[1..], key, k) {
          var i :| 0 <= i < |s[1..]| && key(s[1..][i]) == k;
          assert key(s[i + 1]) == k;
        }
      }
      r
  }

  /** Overwrites, in place, the records whose key is that of `x`. */
  function Replace<T>(s: seq<T>, key: T -> string, x: T): (r: seq<T>)
    ensures |r| == |s|
    ensures forall i :: 0 <= i < |s| ==> r[i] == if key(s[i]) == key(x) then x else s[i]
    decreases |s|
  {
    if |s| == 0 then []
    else [if key(s[0]) == key(x) then x else s[0]] + Replace(s[1..], key, x)
  }

  /** `map.set(key(x), x)`: an existing key keeps its position, a new key
      goes last. */
  function Set<T>(s: seq<T>, key: T -> string, x: T): (r: seq<T>)
    ensures HasKey(s, key, key(x)) ==> |r| == |s|
    ensures !HasKey(s, key, key(x)) ==> r == s + [x]
    ensures forall i :: 0 <= i < |s| && key(s[i]) != key(x) ==> r[i] == s[i]
  {
    if HasKey(s, key, key(x)) then Replace(s, key, x) else s + [x]
  }

  /** After `set`, `get` of the same key yields the value just stored. */
  lemma {:induction false} GetSetSame<T>(s: seq<T>, key: T -> string, x: T)
    ensures Get(Set(s, key, x), key, key(x)) == Some(x)
  {
    if HasKey(s, key, key(x)) {
      GetReplaceSame(s, key, x);
    } else {
      GetAppendMissing(s, key, x);
    }
  }

  /** `set` does not disturb `get` of any other key. */
  lemma {:induction false} GetSetOther<T>(s: seq<T>, key: T -> string, x: T, k: string)
    requires k != key(x)
    ensures Get(Set(s, key, x), key, k) == Get(s, key, k)
  {
    if HasKey(s, key, key(x)) {
      GetReplaceOther(s, key, x, k);
    } else {
      GetAppendOther(s, key, x, k);
    }
  }

  lemma {:induction false} GetReplaceSame<T>(s: seq<T>, key: T -> string, x: T)
    requires HasKey(s, key, key(x))
    ensures Get(Replace(s, key, x), key, key(x)) == Some(x)
    decreases |s|
  {
    if key(s[0]) != key(x) {
      var i :| 0 <= i < |s| && key(s[i]) == key(x);
      assert key(s[1..][i - 1]) == key(x);
      GetReplaceSame(s[1..], key, x);
      assert Replace(s, key, x)[1..] == Replace(s[1..], key, x);
    }
  }

  lemma {:induction false} GetReplaceOther<T>(s: seq<T>, key: T -> string, x: T, k: string)
    requires k != key(x)
    ensures Get(Replace(s, key, x), key, k) == Get(s, key, k)
    decreases |s|
  {
    if |s| > 0 {
      GetReplaceOther(s[1..], key, x, k);
      assert Replace(s, key, x)[1..] == Replace(s[1..], key, x);
    }
  }

  lemma {:induction false} GetAppendMissing<T>(s: seq<T>, key: T -> string, x: T)
    requires !HasKey(s, key, key(x))
    ensures Get(s + [x], key, key(x)) == Some(x)
    decreases |s|
  {
    if |s| == 0 {
      assert (s + [x])[0] == x;
    } else {
      assert (s + [x])[1..] == s[1..] + [x];
      assert forall j :: 0 <= j < |s[1..]| ==> key(s[1..][j]) == key(s[j + 1]);
      GetAppendMissing(s[1..], key, x);
    }
  }

  lemma {:induction false} GetAppendOther<T>(s: seq<T>, key: T -> string, x: T, k: string)
    requires k != key(x)
    ensures Get(s + [x], key, k) == Get(s, key, k)
    decreases |s|
  {
    if |s| == 0 {
      assert (s + [x])[0] == x;
    } else {
      assert (s + [x])[1..] == s[1..] + [x];
      GetAppendOther(s[1..], key, x, k);
    }
  }

  /** `set` keeps every key held once. */
  lemma SetKeepsUnique<T>(s: seq<T>, key: T -> string, x: T)
    requires UniqueKeys(s, key)
    ensures UniqueKeys(Set(s, key, x), key)
  {
    var r := Set(s, key, x);
    if HasKey(s, key, key(x)) {
      forall i, j | 0 <= i < j < |r|
        ensures key(r[i]) != key(r[j])
      {
      }
    } else {
      forall i, j | 0 <= i < j < |r|
        ensures key(r[i]) != key(r[j])
      {
        if j == |s| {
          assert r[j] == x;
          assert r[i] == s[i];
        }
      }
    }
  }

  /** Index of the first element satisfying `p` (`Array.prototype.find`). */
  function FirstIndex<T>(s: seq<T>, p: T -> bool): (r: Option<nat>)
    ensures r.Some? ==> r.value < |s| && p(s[r.value])
    ensures r.Some? ==> forall j :: 0 <= j < r.value ==> !p(s[j])
    ensures r.None? ==> forall j :: 0 <= j < |s| ==> !p(s[j])
    decreases |s|
  {
    if |s| == 0 then None
    else if p(s[0]) then Some(0)
    else
      match FirstIndex(s[1..], p)
      case None => None
      case Some(i) => Some(i + 1)
  }

  /** `array.find(p)`. */
  function Find<T>(s: seq<T>, p: T -> bool): (r: Option<T>)
    ensures r.Some? ==> r.value in s && p(r.value)
    ensures r.Some? ==> exists i :: 0 <= i < |s| && s[i] == r.value && forall j :: 0 <= j < i ==> !p(s[j])
    ensures r.None? ==> forall j :: 0 <= j < |s| ==> !p(s[j])
  {
    match FirstIndex(s, p)
    case None => None
    case Some(i) => Some(s[i])
  }

  /** Appending to a sequence none of whose elements satisfies `p`: the
      first appended element that does is the one found. */
  lemma FindAfterMisses<T>(s: seq<T>, x: T, y: T, p: T -> bool)
    requires forall j :: 0 <= j < |s| ==> !p(s[j])
    requires p(x)
    ensures Find(s + [x, y], p) == Some(x)
  {
    var t := s + [x, y];
    assert t[|s|] == x;
    assert forall j :: 0 <= j < |s| ==> t[j] == s[j];
    var first := FirstIndex(t, p);
    assert first.Some?;
    assert first.value == |s|;
  }

  /** A key absent from `s` and different from `x`'s is absent from `s + [x]`. */
  lemma MissingAfterAppend<T>(s: seq<T>, key: T -> string, x: T, k: string)
    requires !HasKey(s, key, k) && key(x) != k
    ensures !HasKey(s + [x], key, k)
  {
    forall i | 0 <= i < |s + [x]|
      ensures key((s + [x])[i]) != k
    {
      if i < |s| {
        assert (s + [x])[i] == s[i];
      }
    }
  }

  /** Removes the element at position `i`. */
  function RemoveAt<T>(s: seq<T>, i: nat): (r: seq<T>)
    requires i < |s|
    ensures |r| == |s| - 1
  {
    s[..i] + s[i + 1..]
  }
}
