/** A stable sort by a two-part key, ascending in lexicographic order.
    It stands for JavaScript's `Array.prototype.sort`, which is stable,
    called with a comparator that orders by such a key, and for a SQL
    `ORDER BY a ASC, b DESC` (a descending column becomes a negated key part). */
module Sorting {
  import opened Seqs

  datatype Key = Key(major: int, minor: int)

  predicate KeyLess(a: Key, b: Key) {
    a.major < b.major || (a.major == b.major && a.minor < b.minor)
  }

  predicate KeyLe(a: Key, b: Key) {
    !KeyLess(b, a)
  }

  /** Every element's key is at most every later element's key. */
  ghost predicate SortedBy<T>(s: seq<T>, key: T -> Key) {
    forall i, j :: 0 <= i < j < |s| ==> KeyLe(key(s[i]), key(s[j]))
  }

  /** The elements whose key is `k`. */
  function HasKey<T>(key: T -> Key, k: Key): T -> bool {
    (y: T) => key(y) == k
  }

  /** Inserts `x` in front of the first element whose key is not smaller,
      so `x` stays ahead of every element with an equal key. */
  function Insert<T>(x: T, t: seq<T>, key: T -> Key): (r: seq<T>)
    ensures multiset(r) == multiset(t) + multiset{x}
    ensures |r| == |t| + 1
  {
    if t == [] || !KeyLess(key(t[0]), key(x)) then [x] + t
    else
      assert t == [t[0]] + t[1..];
      [t[0]] + Insert(x, t[1..], key)
  }

  /** Insertion sort from the right: each element is inserted into the sorted
      rest, which holds only elements that came after it. */
  function SortBy<T>(s: seq<T>, key: T -> Key): (r: seq<T>)
    ensures multiset(r) == multiset(s)
    ensures |r| == |s|
  {
    if s == [] then []
    else
      assert s == [s[0]] + s[1..];
      Insert(s[0], SortBy(s[1..], key), key)
  }

  lemma {:induction false} InsertSorted<T>(x: T, t: seq<T>, key: T -> Key)
    requires SortedBy(t, key)
    ensures SortedBy(Insert(x, t, key), key)
  {
    if t == [] || !KeyLess(key(t[0]), key(x)) {
      var r := [x] + t;
      forall i, j | 0 <= i < j < |r| ensures KeyLe(key(r[i]), key(r[j])) {
        if i == 0 && j > 1 {
          assert KeyLe(key(t[0]), key(t[j - 1]));
        }
      }
    } else {
      var u := Insert(x, t[1..], key);
      InsertSorted(x, t[1..], key);
      var r := [t[0]] + u;
      forall i, j | 0 <= i < j < |r| ensures KeyLe(key(r[i]), key(r[j])) {
        if i == 0 {
          var y := r[j];
          assert y in multiset(u);
          assert y == x || y in multiset(t[1..]);
          if y != x {
            var k :| 0 <= k < |t[1..]| && t[1..][k] == y;
            assert KeyLe(key(t[0]), key(t[k + 1]));
          }
        } else {
          assert r[i] == u[i - 1] && r[j] == u[j - 1];
        }
      }
    }
  }

  /** The sorted sequence is ordered by the key. */
  lemma {:induction false} SortBySorted<T>(s: seq<T>, key: T -> Key)
    ensures SortedBy(SortBy(s, key), key)
  {
    if s != [] {
      SortBySorted(s[1..], key);
      InsertSorted(s[0], SortBy(s[1..], key), key);
    }
  }

  /** Inserting `x` adds `x` in front of the elements that share its key
      and leaves the subsequence of every other key as it was. */
  lemma {:induction false} InsertStable<T>(x: T, t: seq<T>, key: T -> Key, k: Key)
    ensures Filter(Insert(x, t, key), HasKey(key, k)) == Filter([x] + t, HasKey(key, k))
  {
    if t == [] || !KeyLess(key(t[0]), key(x)) {
    } else {
      InsertStable(x, t[1..], key, k);
      assert ([t[0]] + Insert(x, t[1..], key))[1..] == Insert(x, t[1..], key);
      assert ([x] + t)[1..] == t;
      assert ([x] + t[1..])[1..] == t[1..];
      assert t == [t[0]] + t[1..];
      assert key(t[0]) != key(x);
    }
  }

  /** Stability: for every key, the elements with that key appear in the
      sorted sequence in the same order as in the input. */
  lemma {:induction false} SortByStable<T>(s: seq<T>, key: T -> Key, k: Key)
    ensures Filter(SortBy(s, key), HasKey(key, k)) == Filter(s, HasKey(key, k))
  {
    if s != [] {
      SortByStable(s[1..], key, k);
      InsertStable(s[0], SortBy(s[1..], key), key, k);
      assert ([s[0]] + SortBy(s[1..], key))[1..] == SortBy(s[1..], key);
    }
  }

  /** A sequence already ordered by the key is left as it is. */
  lemma {:induction false} SortBySortedIsIdentity<T>(s: seq<T>, key: T -> Key)
    requires SortedBy(s, key)
    ensures SortBy(s, key) == s
  {
    if s != [] {
      assert SortedBy(s[1..], key) by {
        forall i, j | 0 <= i < j < |s[1..]| ensures KeyLe(key(s[1..][i]), key(s[1..][j])) {
          assert s[1..][i] == s[i + 1] && s[1..][j] == s[j + 1];
        }
      }
      SortBySortedIsIdentity(s[1..], key);
      if |s| > 1 {
        assert KeyLe(key(s[0]), key(s[1]));
      }
      assert s == [s[0]] + s[1..];
    }
  }

  /** Two elements are swapped exactly when the second has the smaller key. */
  lemma SortPair<T>(x: T, y: T, key: T -> Key)
    ensures SortBy([x, y], key) == if KeyLess(key(y), key(x)) then [y, x] else [x, y]
  {
    assert [x, y][1..] == [y];
    assert [y][1..] == [];
    assert SortBy([y], key) == [y];
  }

  /** The first `n` elements of the sorted sequence are ordered, come from
      the input, and no input element left out has a smaller key than any
      element kept: they are `n` smallest (SQL `ORDER BY … LIMIT n`). */
  lemma TakeSortedIsSmallest<T>(s: seq<T>, key: T -> Key, n: nat)
    ensures SortedBy(Take(SortBy(s, key), n), key)
    ensures multiset(Take(SortBy(s, key), n)) <= multiset(s)
    ensures forall x, y :: x in multiset(s) - multiset(Take(SortBy(s, key), n)) && y in Take(SortBy(s, key), n) ==>
              KeyLe(key(y), key(x))
  {
    var sorted := SortBy(s, key);
    SortBySorted(s, key);
    var r := Take(sorted, n);
    var rest := sorted[|r|..];
    assert sorted == r + rest;
    assert multiset(sorted) == multiset(r) + multiset(rest);
    forall x, y | x in multiset(s) - multiset(r) && y in r ensures KeyLe(key(y), key(x)) {
      assert x in multiset(rest);
      var j :| 0 <= j < |rest| && rest[j] == x;
      var i :| 0 <= i < |r| && r[i] == y;
      assert sorted[i] == y && sorted[|r| + j] == x;
    }
  }
}
