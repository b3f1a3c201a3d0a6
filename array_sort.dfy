/** `Array.prototype.sort` with a numeric comparator, as the `Todo.list`
    views use it: `(a, b) => key(a) - key(b)` orders by ascending key and
    `(a, b) => key(b) - key(a)` by descending key. The engine's sort is
    stable, so elements with equal keys keep their relative order; the
    model is a stable insertion sort with that contract. */
module ArraySort {

  datatype Direction = Ascending | Descending

  /** A key `a` may stand before a key `b` when the comparator does not
      ask to swap them, i.e. when it returns a value `<= 0`. */
  predicate InOrder(a: int, b: int, dir: Direction) {
    match dir
    case Ascending => a <= b
    case Descending => a >= b
  }

  ghost predicate Sorted<T>(s: seq<T>, key: T -> int, dir: Direction) {
    forall i, j :: 0 <= i < j < |s| ==> InOrder(key(s[i]), key(s[j]), dir)
  }

  /** The elements of `s` whose key is `k`, in their order in `s`. */
  function WithKey<T>(s: seq<T>, key: T -> int, k: int): seq<T> {
    if s == [] then []
    else if key(s[0]) == k then [s[0]] + WithKey(s[1..], key, k)
    else WithKey(s[1..], key, k)
  }

  /** Inserts `x` before the first element it may precede. */
  function Insert<T>(x: T, s: seq<T>, key: T -> int, dir: Direction): seq<T> {
    if s == [] then [x]
    else if InOrder(key(x), key(s[0]), dir) then [x] + s
    else [s[0]] + Insert(x, s[1..], key, dir)
  }

  lemma {:induction false} InsertAddsOne<T>(x: T, s: seq<T>, key: T -> int, dir: Direction)
    ensures multiset(Insert(x, s, key, dir)) == multiset(s) + multiset{x}
  {
    if s != [] && !InOrder(key(x), key(s[0]), dir) {
      InsertAddsOne(x, s[1..], key, dir);
      assert s == [s[0]] + s[1..];
    }
  }

  /** Every element of a sorted `s` after its head may follow the head. */
  lemma HeadPrecedes<T>(s: seq<T>, key: T -> int, dir: Direction, y: T)
    requires Sorted(s, key, dir) && s != [] && y in s[1..]
    ensures InOrder(key(s[0]), key(y), dir)
  {
    var j :| 0 <= j < |s[1..]| && s[1..][j] == y;
    assert s[j + 1] == y;
  }

  lemma {:induction false} InsertKeepsOrder<T>(x: T, s: seq<T>, key: T -> int, dir: Direction)
    requires Sorted(s, key, dir)
    ensures Sorted(Insert(x, s, key, dir), key, dir)
  {
    if s != [] && !InOrder(key(x), key(s[0]), dir) {
      var tail := Insert(x, s[1..], key, dir);
      InsertKeepsOrder(x, s[1..], key, dir);
      InsertAddsOne(x, s[1..], key, dir);
      forall y | y in tail
        ensures InOrder(key(s[0]), key(y), dir)
      {
        assert y in multiset(tail);
        if y != x {
          assert y in multiset(s[1..]);
          HeadPrecedes(s, key, dir, y);
        }
      }
      ConsKeepsOrder(s[0], tail, key, dir);
    }
  }

  /** A head that may precede every element of a sorted tail gives a
      sorted sequence. */
  lemma ConsKeepsOrder<T>(x: T, s: seq<T>, key: T -> int, dir: Direction)
    requires Sorted(s, key, dir)
    requires forall y | y in s :: InOrder(key(x), key(y), dir)
    ensures Sorted([x] + s, key, dir)
  {
    var r := [x] + s;
    forall i, j | 0 <= i < j < |r|
      ensures InOrder(key(r[i]), key(r[j]), dir)
    {
      assert r[j] == s[j - 1];
      if i > 0 {
        assert r[i] == s[i - 1];
      }
    }
  }

  lemma {:induction false} InsertIsStable<T>(x: T, s: seq<T>, key: T -> int, dir: Direction, k: int)
    ensures WithKey(Insert(x, s, key, dir), key, k)
         == if key(x) == k then [x] + WithKey(s, key, k) else WithKey(s, key, k)
  {
    if s == [] {
      assert WithKey([x], key, k) == (if key(x) == k then [x] else []) by {
        assert [x][1..] == [];
      }
    } else if InOrder(key(x), key(s[0]), dir) {
      assert ([x] + s)[1..] == s;
    } else {
      InsertIsStable(x, s[1..], key, dir, k);
      var r := [s[0]] + Insert(x, s[1..], key, dir);
      assert r[1..] == Insert(x, s[1..], key, dir);
      // x goes past s[0] only when their keys differ
      assert key(s[0]) != key(x);
    }
  }

  /** The list the view shows: `s` sorted by `key` in direction `dir`;
      a permutation of `s` that keeps equal keys in their original order. */
  function SortBy<T>(s: seq<T>, key: T -> int, dir: Direction): (r: seq<T>)
    ensures multiset(r) == multiset(s)
    ensures Sorted(r, key, dir)
  {
    if s == [] then []
    else
      var rest := SortBy(s[1..], key, dir);
      InsertSortsHead(s, rest, key, dir);
      Insert(s[0], rest, key, dir)
  }

  /** Inserting the head of `s` into a sorted permutation of its tail gives
      a sorted permutation of `s`. */
  lemma InsertSortsHead<T>(s: seq<T>, rest: seq<T>, key: T -> int, dir: Direction)
    requires s != [] && multiset(rest) == multiset(s[1..]) && Sorted(rest, key, dir)
    ensures multiset(Insert(s[0], rest, key, dir)) == multiset(s)
    ensures Sorted(Insert(s[0], rest, key, dir), key, dir)
  {
    InsertAddsOne(s[0], rest, key, dir);
    InsertKeepsOrder(s[0], rest, key, dir);
    assert s == [s[0]] + s[1..];
  }

  lemma {:induction false} SortByIsStable<T>(s: seq<T>, key: T -> int, dir: Direction, k: int)
    ensures WithKey(SortBy(s, key, dir), key, k) == WithKey(s, key, k)
  {
    if s != [] {
      SortByIsStable(s[1..], key, dir, k);
      InsertIsStable(s[0], SortBy(s[1..], key, dir), key, dir, k);
    }
  }
}
