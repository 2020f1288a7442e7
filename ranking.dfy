/** The stable ordering LINQ's `OrderBy`, `OrderByDescending` and
    `ThenByDescending` produce, as one stable sort by a two-part key, largest
    key first. Every ranking tier of the search is an instance of it. */
module Ranking {

  /** A sort key compared lexicographically: `major` first, then `minor`. */
  datatype Key = Key(major: int, minor: int)

  /** `a` sorts strictly before `b`. */
  predicate Above(a: Key, b: Key) {
    a.major > b.major || (a.major == b.major && a.minor > b.minor)
  }

  /** No element is above one that precedes it. */
  predicate Descending<T>(xs: seq<T>, key: T -> Key) {
    forall i, j :: 0 <= i < j < |xs| ==> !Above(key(xs[j]), key(xs[i]))
  }

  /** Places `x` in front of the first element of `ys` that is not strictly above it. */
  function Insert<T>(x: T, ys: seq<T>, key: T -> Key): (r: seq<T>)
    ensures |r| == |ys| + 1
    ensures multiset(r) == multiset(ys) + multiset{x}
  {
    if |ys| == 0 || !Above(key(ys[0]), key(x)) then [x] + ys
    else
      assert ys == [ys[0]] + ys[1..];
      [ys[0]] + Insert(x, ys[1..], key)
  }

  /** Stable insertion sort, largest key first. */
  function SortDescending<T>(xs: seq<T>, key: T -> Key): (r: seq<T>)
    ensures |r| == |xs|
    ensures multiset(r) == multiset(xs)
  {
    if |xs| == 0 then []
    else
      assert xs == [xs[0]] + xs[1..];
      Insert(xs[0], SortDescending(xs[1..], key), key)
  }

  /** The elements of `xs` whose key is `k`, in their order in `xs`. */
  function WithKey<T>(xs: seq<T>, key: T -> Key, k: Key): seq<T> {
    if |xs| == 0 then []
    else (if key(xs[0]) == k then [xs[0]] else []) + WithKey(xs[1..], key, k)
  }

  lemma {:induction false} InsertKeepsDescending<T>(x: T, ys: seq<T>, key: T -> Key)
    requires Descending(ys, key)
    ensures Descending(Insert(x, ys, key), key)
  {
    if |ys| > 0 && Above(key(ys[0]), key(x)) {
      var rest := Insert(x, ys[1..], key);
      InsertKeepsDescending(x, ys[1..], key);
      forall j | 0 <= j < |rest|
        ensures !Above(key(rest[j]), key(ys[0]))
      {
        assert rest[j] in multiset(rest);
        if rest[j] != x {
          assert rest[j] in multiset(ys[1..]);
          var m :| 0 <= m < |ys[1..]| && ys[1..][m] == rest[j];
          assert ys[m + 1] == rest[j];
        }
      }
      var r := Insert(x, ys, key);
      assert r == [ys[0]] + rest;
      forall i, j | 0 <= i < j < |r|
        ensures !Above(key(r[j]), key(r[i]))
      {
        if i > 0 {
          assert r[i] == rest[i - 1] && r[j] == rest[j - 1];
        } else {
          assert r[j] == rest[j - 1];
        }
      }
    }
  }

  /** The sort puts its input in non-increasing key order. */
  lemma {:induction false} SortIsDescending<T>(xs: seq<T>, key: T -> Key)
    ensures Descending(SortDescending(xs, key), key)
  {
    if |xs| > 0 {
      SortIsDescending(xs[1..], key);
      InsertKeepsDescending(xs[0], SortDescending(xs[1..], key), key);
    }
  }

  lemma {:induction false} InsertStable<T>(x: T, ys: seq<T>, key: T -> Key, k: Key)
    ensures WithKey(Insert(x, ys, key), key, k)
         == (if key(x) == k then [x] else []) + WithKey(ys, key, k)
  {
    if |ys| > 0 && Above(key(ys[0]), key(x)) {
      InsertStable(x, ys[1..], key, k);
      var r := Insert(x, ys, key);
      assert r[1..] == Insert(x, ys[1..], key);
    } else {
      var r := [x] + ys;
      assert r[1..] == ys;
    }
  }

  /** Stability: the elements sharing one key keep their relative input order. */
  lemma {:induction false} SortStable<T>(xs: seq<T>, key: T -> Key, k: Key)
    ensures WithKey(SortDescending(xs, key), key, k) == WithKey(xs, key, k)
  {
    if |xs| > 0 {
      SortStable(xs[1..], key, k);
      InsertStable(xs[0], SortDescending(xs[1..], key), key, k);
    }
  }

  /** Two elements swap exactly when the second is strictly above the first. */
  lemma SortTwo<T>(x: T, y: T, key: T -> Key)
    ensures SortDescending([x, y], key) == if Above(key(y), key(x)) then [y, x] else [x, y]
  {
    assert [x, y][1..] == [y];
    assert SortDescending([y], key) == [y];
    assert Insert(x, [y], key) == if Above(key(y), key(x)) then [y] + Insert(x, [], key) else [x, y];
  }

  /** One step of the sort and one step of the insertion, unfolded. */
  lemma SortStep<T>(x: T, xs: seq<T>, key: T -> Key)
    ensures SortDescending([x] + xs, key) == Insert(x, SortDescending(xs, key), key)
  {
    assert ([x] + xs)[1..] == xs;
  }

  lemma InsertStep<T>(x: T, y: T, ys: seq<T>, key: T -> Key)
    ensures Insert(x, [y] + ys, key) == if Above(key(y), key(x)) then [y] + Insert(x, ys, key) else [x, y] + ys
  {
    assert ([y] + ys)[1..] == ys;
  }
}
