/**
 * The stable sorts the sources rely on: JavaScript's `Array.prototype.sort`
 * (stable since ES2019) and Rust's `slice::sort_by`/`sort_by_key` (stable),
 * each with a comparator that compares integer keys. A key is a pair of
 * integers compared lexicographically, which covers both one-key comparators
 * (second component 0) and the two-key (year, month) comparators.
 */
module StableSort {

  type Key = (int, int)

  /** Lexicographic order on keys. */
  predicate KeyLe(a: Key, b: Key) {
    a.0 < b.0 || (a.0 == b.0 && a.1 <= b.1)
  }

  ghost predicate SortedBy<T>(s: seq<T>, key: T -> Key) {
    forall i, j :: 0 <= i < j < |s| ==> KeyLe(key(s[i]), key(s[j]))
  }

  /** The elements of `s` whose key is `k`, in their order in `s`. */
  function WithKey<T>(s: seq<T>, key: T -> Key, k: Key): seq<T> {
    if s == [] then []
    else (if key(s[0]) == k then [s[0]] else []) + WithKey(s[1..], key, k)
  }

  /**
   * Inserts `x` into `s` after every element whose key is not greater than
   * `x`'s: one step of insertion sort, scanning from the back.
   */
  function Insert<T>(s: seq<T>, x: T, key: T -> Key): (r: seq<T>)
    ensures |r| == |s| + 1
  {
    if s == [] || KeyLe(key(s[|s| - 1]), key(x)) then s + [x]
    else Insert(s[..|s| - 1], x, key) + [s[|s| - 1]]
  }

  lemma {:induction false} InsertPermutes<T>(s: seq<T>, x: T, key: T -> Key)
    ensures multiset(Insert(s, x, key)) == multiset(s) + multiset{x}
    decreases |s|
  {
    if !(s == [] || KeyLe(key(s[|s| - 1]), key(x))) {
      InsertPermutes(s[..|s| - 1], x, key);
      assert s == s[..|s| - 1] + [s[|s| - 1]];
    }
  }

  /** Stable sort by `key`: insertion sort of the elements in input order. */
  function SortBy<T>(s: seq<T>, key: T -> Key): (r: seq<T>)
    ensures |r| == |s|
  {
    if s == [] then []
    else Insert(SortBy(s[..|s| - 1], key), s[|s| - 1], key)
  }

  /** `SortBy` permutes its input. */
  lemma {:induction false} SortByPermutes<T>(s: seq<T>, key: T -> Key)
    ensures multiset(SortBy(s, key)) == multiset(s)
    decreases |s|
  {
    if s != [] {
      SortByPermutes(s[..|s| - 1], key);
      InsertPermutes(SortBy(s[..|s| - 1], key), s[|s| - 1], key);
      assert s == s[..|s| - 1] + [s[|s| - 1]];
    }
  }

  lemma {:induction false} InsertSorted<T>(s: seq<T>, x: T, key: T -> Key)
    requires SortedBy(s, key)
    ensures SortedBy(Insert(s, x, key), key)
    decreases |s|
  {
    if s == [] || KeyLe(key(s[|s| - 1]), key(x)) {
    } else {
      var p := s[..|s| - 1];
      var l := s[|s| - 1];
      InsertSorted(p, x, key);
      var q := Insert(p, x, key);
      InsertPermutes(p, x, key);
      assert multiset(q) == multiset(p) + multiset{x};
      forall i | 0 <= i < |q| ensures KeyLe(key(q[i]), key(l)) {
        assert q[i] in multiset(q);
        if q[i] != x {
          assert q[i] in multiset(p);
          var j :| 0 <= j < |p| && p[j] == q[i];
          assert s[j] == p[j];
        }
      }
    }
  }

  /** The result of `SortBy` is sorted. */
  lemma {:induction false} SortBySorted<T>(s: seq<T>, key: T -> Key)
    ensures SortedBy(SortBy(s, key), key)
    decreases |s|
  {
    if s != [] {
      SortBySorted(s[..|s| - 1], key);
      InsertSorted(SortBy(s[..|s| - 1], key), s[|s| - 1], key);
    }
  }

  lemma {:induction false} WithKeyConcat<T>(a: seq<T>, b: seq<T>, key: T -> Key, k: Key)
    ensures WithKey(a + b, key, k) == WithKey(a, key, k) + WithKey(b, key, k)
    decreases |a|
  {
    if a == [] {
      assert a + b == b;
    } else {
      WithKeyConcat(a[1..], b, key, k);
      assert (a + b)[0] == a[0];
      assert (a + b)[1..] == a[1..] + b;
    }
  }

  lemma {:induction false} InsertStable<T>(s: seq<T>, x: T, key: T -> Key, k: Key)
    ensures WithKey(Insert(s, x, key), key, k) == WithKey(s, key, k) + WithKey([x], key, k)
    decreases |s|
  {
    if s == [] || KeyLe(key(s[|s| - 1]), key(x)) {
      WithKeyConcat(s, [x], key, k);
    } else {
      var p := s[..|s| - 1];
      var l := s[|s| - 1];
      InsertStable(p, x, key, k);
      WithKeyConcat(Insert(p, x, key), [l], key, k);
      WithKeyConcat(p, [l], key, k);
      assert s == p + [l];
      // x and l have different keys, so at most one of them has key k
      assert key(x) != key(l);
    }
  }

  /** `SortBy` is stable: the elements of each key keep their input order. */
  lemma {:induction false} SortByStable<T>(s: seq<T>, key: T -> Key, k: Key)
    ensures WithKey(SortBy(s, key), key, k) == WithKey(s, key, k)
    decreases |s|
  {
    if s != [] {
      var p := s[..|s| - 1];
      SortByStable(p, key, k);
      InsertStable(SortBy(p, key), s[|s| - 1], key, k);
      WithKeyConcat(p, [s[|s| - 1]], key, k);
      assert s == p + [s[|s| - 1]];
    }
  }

  lemma {:induction false} WithKeyHead<T>(s: seq<T>, key: T -> Key, i: nat)
    requires i < |s|
    requires forall j :: 0 <= j < i ==> key(s[j]) != key(s[i])
    ensures WithKey(s, key, key(s[i])) != [] && WithKey(s, key, key(s[i]))[0] == s[i]
    decreases i
  {
    if i > 0 {
      WithKeyHead(s[1..], key, i - 1);
    }
  }

  /**
   * The first element of a stable sort is the first element of the input
   * whose key is least.
   */
  lemma SortByHead<T>(s: seq<T>, key: T -> Key, i: nat)
    requires i < |s|
    requires forall j :: 0 <= j < |s| ==> KeyLe(key(s[i]), key(s[j]))
    requires forall j :: 0 <= j < i ==> key(s[j]) != key(s[i])
    ensures SortBy(s, key)[0] == s[i]
  {
    var r := SortBy(s, key);
    SortBySorted(s, key);
    SortByPermutes(s, key);
    SortByStable(s, key, key(s[i]));
    WithKeyHead(s, key, i);
    assert r[0] in multiset(s);
    var j :| 0 <= j < |s| && s[j] == r[0];
    assert s[i] in multiset(r);
    var m :| 0 <= m < |r| && r[m] == s[i];
    assert key(r[0]) == key(s[i]);
    WithKeyHead(r, key, 0);
  }

  lemma InsertStep<T>(p: seq<T>, x: T, key: T -> Key, j: nat)
    requires 0 < j <= |p| && !KeyLe(key(p[j - 1]), key(x))
    ensures Insert(p[..j], x, key) == Insert(p[..j - 1], x, key) + [p[j - 1]]
  {
    assert p[..j][..j - 1] == p[..j - 1];
  }

  /**
   * Moves `a[i]` left past the greater elements of the sorted prefix
   * `a[..i]`: the prefix becomes `Insert(old prefix, old a[i])`.
   */
  method InsertInPlace<T>(a: array<T>, i: nat, key: T -> Key)
    requires i < a.Length
    modifies a
    ensures a[..i + 1] == Insert(old(a[..i]), old(a[i]), key)
    ensures a[i + 1..] == old(a[i + 1..])
  {
    ghost var prefix := a[..i];
    ghost var rest := a[i + 1..];
    var x := a[i];
    var j := ShiftGreater(a, i, x, key, prefix, rest);
    InsertStop(prefix, x, key, j);
    ghost var before := a[..];
    a[j] := x;
    assert a[..] == before[j := x];
    Place(before, prefix, rest, i, j, x);
  }

  /**
   * The loop of `InsertInPlace`: shifts the elements of the sorted prefix
   * whose key exceeds that of `x` one place right, and returns the gap.
   */
  method ShiftGreater<T>(a: array<T>, i: nat, x: T, key: T -> Key, ghost prefix: seq<T>, ghost rest: seq<T>)
    returns (j: nat)
    requires i < a.Length && a[..i] == prefix && a[i + 1..] == rest
    modifies a
    ensures j <= i && a[..j] == prefix[..j] && a[j + 1..i + 1] == prefix[j..i] && a[i + 1..] == rest
    ensures j == 0 || KeyLe(key(prefix[j - 1]), key(x))
    ensures Insert(prefix, x, key) == Insert(prefix[..j], x, key) + prefix[j..i]
  {
    j := i;
    assert prefix[..i] == prefix && prefix[i..i] == [];
    while j > 0 && !KeyLe(key(a[j - 1]), key(x))
      invariant 0 <= j <= i
      invariant a[..j] == prefix[..j]
      invariant a[j + 1..i + 1] == prefix[j..i]
      invariant a[i + 1..] == rest
      invariant Insert(prefix, x, key) == Insert(prefix[..j], x, key) + prefix[j..i]
    {
      assert Insert(prefix, x, key) == Insert(prefix[..j - 1], x, key) + prefix[j - 1..i] by {
        InsertStep(prefix, x, key, j);
        assert prefix[j - 1..i] == [prefix[j - 1]] + prefix[j..i];
      }
      ghost var before := a[..];
      a[j] := a[j - 1];
      assert a[..] == before[j := before[j - 1]];
      ShiftLeft(before, prefix, rest, i, j);
      j := j - 1;
    }
    assert j > 0 ==> a[j - 1] == prefix[j - 1];
  }

  /** One shift of the insertion loop keeps the prefix, the shifted block and the rest in place. */
  lemma ShiftLeft<T>(s: seq<T>, prefix: seq<T>, rest: seq<T>, i: nat, j: nat)
    requires 0 < j <= i < |s| && |prefix| == i
    requires s[..j] == prefix[..j] && s[j + 1..i + 1] == prefix[j..i] && s[i + 1..] == rest
    ensures var t := s[j := s[j - 1]];
      t[..j - 1] == prefix[..j - 1] && t[j..i + 1] == prefix[j - 1..i] && t[i + 1..] == rest
  {
    var t := s[j := s[j - 1]];
    assert s[j - 1] == prefix[j - 1];
    assert t[..j - 1] == s[..j - 1] == prefix[..j - 1];
    assert t[j..i + 1] == [prefix[j - 1]] + s[j + 1..i + 1];
  }

  /** Putting the element into the gap leaves the inserted prefix followed by the untouched rest. */
  lemma Place<T>(s: seq<T>, prefix: seq<T>, rest: seq<T>, i: nat, j: nat, x: T)
    requires j <= i < |s| && |prefix| == i
    requires s[..j] == prefix[..j] && s[j + 1..i + 1] == prefix[j..i] && s[i + 1..] == rest
    ensures s[j := x][..i + 1] == prefix[..j] + [x] + prefix[j..i]
    ensures s[j := x][i + 1..] == rest
  {
    var t := s[j := x];
    assert t[..i + 1] == t[..j] + [x] + t[j + 1..i + 1];
  }

  lemma InsertStop<T>(p: seq<T>, x: T, key: T -> Key, j: nat)
    requires j <= |p| && (j == 0 || KeyLe(key(p[j - 1]), key(x)))
    ensures Insert(p[..j], x, key) == p[..j] + [x]
  {
  }

  /** Sorts `a` in place with insertion sort; the outcome is `SortBy`. */
  method SortInPlace<T>(a: array<T>, key: T -> Key)
    modifies a
    ensures a[..] == SortBy(old(a[..]), key)
  {
    ghost var orig := a[..];
    var i := 0;
    while i < a.Length
      invariant 0 <= i <= a.Length
      invariant a[..i] == SortBy(orig[..i], key)
      invariant a[i..] == orig[i..]
    {
      InsertInPlace(a, i, key);
      assert orig[..i + 1][..i] == orig[..i];
      i := i + 1;
    }
    assert orig[..a.Length] == orig;
  }
}
