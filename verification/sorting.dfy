/** The sorts the application asks pandas for (`sort_values`, `sort_index`),
    as one insertion sort over a lexicographic key of up to three reals.
    A descending column is sorted by its negation. The sort is stable: among
    equal keys the input order is kept, as pandas keeps it when it sorts by
    several columns. */
module Sorting {

  datatype Key = Key(major: real, middle: real, minor: real)

  /** Lexicographic order on keys: a total preorder. */
  predicate KeyLe(x: Key, y: Key) {
    || x.major < y.major
    || (x.major == y.major && x.middle < y.middle)
    || (x.major == y.major && x.middle == y.middle && x.minor <= y.minor)
  }

  predicate SortedBy<T>(s: seq<T>, key: T -> Key) {
    forall i, j :: 0 <= i < j < |s| ==> KeyLe(key(s[i]), key(s[j]))
  }

  /** Keys compare totally and transitively. */
  lemma KeyLeTotal(x: Key, y: Key)
    ensures KeyLe(x, y) || KeyLe(y, x)
  {
  }

  lemma KeyLeTransitive(x: Key, y: Key, z: Key)
    requires KeyLe(x, y) && KeyLe(y, z)
    ensures KeyLe(x, z)
  {
  }

  /** Putting an element no greater than any other in front keeps a sequence sorted. */
  lemma SortedCons<T>(h: T, t: seq<T>, key: T -> Key)
    requires SortedBy(t, key)
    requires forall y :: y in t ==> KeyLe(key(h), key(y))
    ensures SortedBy([h] + t, key)
  {
    var r := [h] + t;
    forall i, j | 0 <= i < j < |r| ensures KeyLe(key(r[i]), key(r[j])) {
      if i == 0 {
        assert r[j] == t[j - 1] && r[j] in t;
      } else {
        assert r[i] == t[i - 1] && r[j] == t[j - 1];
      }
    }
  }

  function Insert<T>(x: T, s: seq<T>, key: T -> Key): (r: seq<T>)
    requires SortedBy(s, key)
    ensures multiset(r) == multiset(s) + multiset{x}
    ensures SortedBy(r, key)
  {
    if s == [] then [x]
    else if KeyLe(key(x), key(s[0])) then
      assert forall y :: y in s ==> KeyLe(key(x), key(y)) by {
        forall y | y in s ensures KeyLe(key(x), key(y)) {
          var j :| 0 <= j < |s| && s[j] == y;
          if j > 0 { KeyLeTransitive(key(x), key(s[0]), key(y)); }
        }
      }
      SortedCons(x, s, key);
      [x] + s
    else
      var tail := Insert(x, s[1..], key);
      assert s == [s[0]] + s[1..];
      assert forall y :: y in tail ==> KeyLe(key(s[0]), key(y)) by {
        forall y | y in tail ensures KeyLe(key(s[0]), key(y)) {
          assert y in multiset(tail);
          if y == x {
            KeyLeTotal(key(x), key(s[0]));
          } else {
            assert y in multiset(s[1..]);
            var j :| 0 <= j < |s[1..]| && s[1..][j] == y;
            assert s[j + 1] == y;
          }
        }
      }
      SortedCons(s[0], tail, key);
      [s[0]] + tail
  }

  /** The sort: a permutation of its input, ordered by `key`. */
  function SortBy<T>(s: seq<T>, key: T -> Key): (r: seq<T>)
    ensures multiset(r) == multiset(s)
    ensures SortedBy(r, key)
  {
    if s == [] then []
    else
      assert s == [s[0]] + s[1..];
      Insert(s[0], SortBy(s[1..], key), key)
  }

  /** The elements of `s` whose key is `k`, in their order. */
  function WithKey<T>(s: seq<T>, key: T -> Key, k: Key): seq<T> {
    if s == [] then [] else (if key(s[0]) == k then [s[0]] else []) + WithKey(s[1..], key, k)
  }

  lemma {:induction false} WithKeyAppend<T>(a: seq<T>, b: seq<T>, key: T -> Key, k: Key)
    ensures WithKey(a + b, key, k) == WithKey(a, key, k) + WithKey(b, key, k)
  {
    if a == [] {
      assert a + b == b;
    } else {
      assert (a + b)[0] == a[0] && (a + b)[1..] == a[1..] + b;
      WithKeyAppend(a[1..], b, key, k);
    }
  }

  /** Inserting puts the new element before every element of equal key. */
  lemma {:induction false} InsertWithKey<T>(x: T, s: seq<T>, key: T -> Key, k: Key)
    requires SortedBy(s, key)
    ensures WithKey(Insert(x, s, key), key, k) == (if key(x) == k then [x] else []) + WithKey(s, key, k)
  {
    var single := if key(x) == k then [x] else [];
    assert WithKey([x], key, k) == single by {
      assert [x][1..] == [];
    }
    if s == [] {
      assert Insert(x, s, key) == [x];
    } else if KeyLe(key(x), key(s[0])) {
      assert Insert(x, s, key) == [x] + s;
      WithKeyAppend([x], s, key, k);
    } else {
      var tail := Insert(x, s[1..], key);
      assert Insert(x, s, key) == [s[0]] + tail;
      InsertWithKey(x, s[1..], key, k);
      WithKeyAppend([s[0]], tail, key, k);
      assert s == [s[0]] + s[1..];
      WithKeyAppend([s[0]], s[1..], key, k);
      assert key(s[0]) != key(x);
      assert WithKey([s[0]], key, k) == [] || single == [];
    }
  }

  /** Stability: the elements of each key come out in their input order. */
  lemma {:induction false} SortByStable<T>(s: seq<T>, key: T -> Key, k: Key)
    ensures WithKey(SortBy(s, key), key, k) == WithKey(s, key, k)
  {
    if s != [] {
      SortByStable(s[1..], key, k);
      InsertWithKey(s[0], SortBy(s[1..], key), key, k);
    }
  }

  /** A sorted output has the length of its input and only its elements. */
  lemma SortByElements<T>(s: seq<T>, key: T -> Key)
    ensures |SortBy(s, key)| == |s|
    ensures forall x :: x in SortBy(s, key) <==> x in s
  {
    var r := SortBy(s, key);
    assert |multiset(r)| == |multiset(s)|;
    forall x ensures x in r <==> x in s {
      assert x in r <==> x in multiset(r);
      assert x in s <==> x in multiset(s);
    }
  }
}
