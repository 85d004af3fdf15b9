/**
 * The ordering `Array.prototype.sort` produces with the comparators the extensions pass it:
 * a stable sort, largest key first. Keys are pairs compared lexicographically, which covers
 * both the one-key comparators (`b.timestamp - a.timestamp`) and the two-key ones
 * (favourite flag, then time; time, then use count).
 */
module Ordering {

  datatype Key = Key(primary: int, secondary: int)

  /** The comparator puts an element with key `a` strictly before one with key `b`. */
  predicate Before(a: Key, b: Key) {
    a.primary > b.primary || (a.primary == b.primary && a.secondary > b.secondary)
  }

  predicate AtLeast(a: Key, b: Key) {
    !Before(b, a)
  }

  predicate SortedDesc<T>(s: seq<T>, key: T -> Key) {
    forall i, j :: 0 <= i < j < |s| ==> AtLeast(key(s[i]), key(s[j]))
  }

  /** The elements of `s` whose key is `k`, in their order in `s`. */
  function WithKey<T>(s: seq<T>, key: T -> Key, k: Key): seq<T> {
    if s == [] then [] else (if key(s[0]) == k then [s[0]] else []) + WithKey(s[1..], key, k)
  }

  /** Places `x` after every element whose key is not below its own. */
  function Insert<T>(x: T, s: seq<T>, key: T -> Key): (r: seq<T>)
    ensures multiset(r) == multiset(s) + multiset{x}
    ensures |r| == |s| + 1
  {
    if s == [] then [x]
    else if Before(key(x), key(s[0])) then [x] + s
    else
      assert s == [s[0]] + s[1..];
      [s[0]] + Insert(x, s[1..], key)
  }

  lemma {:induction false} InsertSorted<T>(x: T, s: seq<T>, key: T -> Key)
    requires SortedDesc(s, key)
    ensures SortedDesc(Insert(x, s, key), key)
    ensures s != [] && !Before(key(x), key(s[0])) ==> Insert(x, s, key)[0] == s[0]
  {
    if s != [] && !Before(key(x), key(s[0])) {
      InsertSorted(x, s[1..], key);
      var t := Insert(x, s[1..], key);
      assert t[0] == x || t[0] == s[1];
    }
  }

  /** Nothing after a strictly larger head has the head's key... or any key above it. */
  lemma NoKeyAboveHead<T>(s: seq<T>, key: T -> Key, k: Key)
    requires SortedDesc(s, key)
    requires s != [] && Before(k, key(s[0]))
    ensures WithKey(s, key, k) == []
  {
    var i := 1;
    while i < |s|
      invariant 1 <= i <= |s|
      invariant WithKey(s, key, k) == WithKey(s[i..], key, k)
    {
      assert AtLeast(key(s[0]), key(s[i]));
      assert s[i..][1..] == s[i + 1..];
      i := i + 1;
    }
  }

  lemma {:induction false} InsertWithKey<T>(x: T, s: seq<T>, key: T -> Key, k: Key)
    requires SortedDesc(s, key)
    ensures WithKey(Insert(x, s, key), key, k)
         == WithKey(s, key, k) + (if key(x) == k then [x] else [])
  {
    if s == [] {
    } else if Before(key(x), key(s[0])) {
      assert ([x] + s)[1..] == s;
      if key(x) == k {
        NoKeyAboveHead(s, key, k);
      }
    } else {
      SortedTail(s, key);
      InsertWithKey(x, s[1..], key, k);
      var t := Insert(x, s[1..], key);
      assert Insert(x, s, key) == [s[0]] + t;
      assert ([s[0]] + t)[0] == s[0] && ([s[0]] + t)[1..] == t;
    }
  }

  lemma SortedTail<T>(s: seq<T>, key: T -> Key)
    requires s != [] && SortedDesc(s, key)
    ensures SortedDesc(s[1..], key)
  {
    forall i, j | 0 <= i < j < |s| - 1
      ensures AtLeast(key(s[1..][i]), key(s[1..][j]))
    {
      assert s[1..][i] == s[i + 1] && s[1..][j] == s[j + 1];
    }
  }

  /** `[...s].sort(comparator)`: insertion of each element in turn into the sorted prefix. */
  function SortDesc<T>(s: seq<T>, key: T -> Key): (r: seq<T>)
    ensures multiset(r) == multiset(s)
    ensures |r| == |s|
    ensures SortedDesc(r, key)
  {
    if s == [] then []
    else
      var prefix := SortDesc(s[..|s| - 1], key);
      InsertSorted(s[|s| - 1], prefix, key);
      assert s == s[..|s| - 1] + [s[|s| - 1]];
      Insert(s[|s| - 1], prefix, key)
  }

  lemma WithKeyAppend<T>(s: seq<T>, x: T, key: T -> Key, k: Key)
    ensures WithKey(s + [x], key, k) == WithKey(s, key, k) + (if key(x) == k then [x] else [])
  {
    if s != [] {
      assert (s + [x])[1..] == s[1..] + [x];
    }
  }

  /** Stability: elements with equal keys keep their relative order. */
  lemma {:induction false} SortDescStable<T>(s: seq<T>, key: T -> Key, k: Key)
    ensures WithKey(SortDesc(s, key), key, k) == WithKey(s, key, k)
  {
    if s != [] {
      var p, last := s[..|s| - 1], s[|s| - 1];
      assert s == p + [last];
      assert SortDesc(s, key) == Insert(last, SortDesc(p, key), key);
      SortDescStable(p, key, k);
      InsertWithKey(last, SortDesc(p, key), key, k);
      WithKeyAppend(p, last, key, k);
    }
  }

  /** `slice(0, n)`. */
  function Take<T>(s: seq<T>, n: nat): (r: seq<T>)
    ensures |r| == if |s| < n then |s| else n
    ensures r == s[..|r|]
  {
    if |s| <= n then s else s[..n]
  }
}
