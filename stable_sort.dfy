/** Python's `sorted(xs, key=key, reverse=...)` on a real-valued key, as
    app/services.py and festival_roi_analysis.py use it to rank events by
    their metric value: a stable sort, ascending or descending. Python keeps
    equal-key elements in input order in both directions (`reverse=True`
    does not reverse ties). */
module StableSort {
  import opened Seqs

  datatype Direction = Ascending | Descending

  /** Key `a` may stand before key `b` in the given direction. */
  predicate InOrder(a: real, b: real, dir: Direction)
  {
    match dir
    case Ascending => a <= b
    case Descending => a >= b
  }

  /** `s` is ordered by `key` in direction `dir` (non-decreasing for
      ascending, non-increasing for descending). */
  predicate Sorted<T(==, !new)>(s: seq<T>, key: T -> real, dir: Direction)
  {
    forall i, j :: 0 <= i < j < |s| ==> InOrder(key(s[i]), key(s[j]), dir)
  }

  /** Holds of the elements whose key is `k`. */
  function HasKey<T>(key: T -> real, k: real): T -> bool
  {
    e => key(e) == k
  }

  /** The elements of `s` whose key is `k`, in their order in `s`. */
  function KeyClass<T(==, !new)>(s: seq<T>, key: T -> real, k: real): seq<T>
  {
    Filter(s, HasKey(key, k))
  }

  /** Stability: for every key value, the elements carrying it appear in
      `r` in exactly the order they have in `s`. */
  ghost predicate KeepsTies<T(!new)>(r: seq<T>, s: seq<T>, key: T -> real)
  {
    forall k :: KeyClass(r, key, k) == KeyClass(s, key, k)
  }

  /** Inserts `x` into the sorted `s` after every element that must precede
      it and before every element it ties with. */
  function Insert<T(==, !new)>(x: T, s: seq<T>, key: T -> real, dir: Direction): (r: seq<T>)
    requires Sorted(s, key, dir)
    ensures Sorted(r, key, dir)
    ensures multiset(r) == multiset(s) + multiset{x}
    ensures |r| == |s| + 1
  {
    if s == [] then [x]
    else if !InOrder(key(x), key(s[0]), dir) then
      var rest := Insert(x, s[1..], key, dir);
      assert s == [s[0]] + s[1..];
      InsertBehindHead(x, s, rest, key, dir);
      [s[0]] + rest
    else
      ConsSorted(x, s, key, dir);
      [x] + s
  }

  /** Putting an element in front of a sorted sequence keeps it sorted when
      it may stand before every element. */
  lemma ConsSorted<T(!new)>(y: T, rest: seq<T>, key: T -> real, dir: Direction)
    requires Sorted(rest, key, dir)
    requires forall z :: z in rest ==> InOrder(key(y), key(z), dir)
    ensures Sorted([y] + rest, key, dir)
  {
    var r := [y] + rest;
    forall i, j | 0 <= i < j < |r| ensures InOrder(key(r[i]), key(r[j]), dir) {
      assert r[j] == rest[j - 1];
      if i > 0 {
        assert r[i] == rest[i - 1];
      }
    }
  }

  /** The head of `s` may stand before every element of `rest`, which holds
      the rest of `s` and an element that must come after the head. */
  lemma InsertBehindHead<T(!new)>(x: T, s: seq<T>, rest: seq<T>, key: T -> real, dir: Direction)
    requires Sorted(s, key, dir) && s != [] && !InOrder(key(x), key(s[0]), dir)
    requires Sorted(rest, key, dir) && multiset(rest) == multiset(s[1..]) + multiset{x}
    ensures Sorted([s[0]] + rest, key, dir)
  {
    forall y | y in rest ensures InOrder(key(s[0]), key(y), dir) {
      assert y in multiset(rest);
      if y != x {
        assert y in multiset(s[1..]);
        assert y in s[1..];
        var k :| 0 <= k < |s[1..]| && s[1..][k] == y;
        assert s[k + 1] == y;
      }
    }
    ConsSorted(s[0], rest, key, dir);
  }

  /** The stable sort: sorted, a permutation of its input, ties in input
      order. Its recursion inserts each element in front of the elements it
      ties with, which were behind it in the input. */
  function Sort<T(==, !new)>(s: seq<T>, key: T -> real, dir: Direction): (r: seq<T>)
    ensures Sorted(r, key, dir)
    ensures multiset(r) == multiset(s)
    ensures |r| == |s|
  {
    if s == [] then []
    else
      assert s == [s[0]] + s[1..];
      Insert(s[0], Sort(s[1..], key, dir), key, dir)
  }

  lemma {:induction false} InsertKeyClass<T(!new)>(x: T, s: seq<T>, key: T -> real, dir: Direction, k: real)
    requires Sorted(s, key, dir)
    ensures KeyClass(Insert(x, s, key, dir), key, k)
         == KeyClass([x], key, k) + KeyClass(s, key, k)
  {
    var p := HasKey(key, k);
    if s == [] {
    } else if !InOrder(key(x), key(s[0]), dir) {
      var rest := s[1..];
      var ins := Insert(x, rest, key, dir);
      InsertKeyClass(x, rest, key, dir, k);
      assert Insert(x, s, key, dir) == [s[0]] + ins;
      KeyClassPastHead(x, s, ins, key, dir, k);
    } else {
      FilterAppend([x], s, p);
    }
  }

  /** When the head of `s` strictly precedes `x`, at most one of the two has
      key `k`, so `x` can move past the head within the key class. */
  lemma KeyClassPastHead<T(!new)>(x: T, s: seq<T>, ins: seq<T>, key: T -> real, dir: Direction, k: real)
    requires s != [] && !InOrder(key(x), key(s[0]), dir)
    requires KeyClass(ins, key, k) == KeyClass([x], key, k) + KeyClass(s[1..], key, k)
    ensures KeyClass([s[0]] + ins, key, k) == KeyClass([x], key, k) + KeyClass(s, key, k)
  {
    var p := HasKey(key, k);
    var a, b, c := Filter([s[0]], p), Filter([x], p), Filter(s[1..], p);
    FilterSingleton(s[0], p);
    FilterSingleton(x, p);
    FilterAppend([s[0]], ins, p);
    FilterCons(s, p);
    assert Filter([s[0]] + ins, p) == a + (b + c);
    assert Filter(s, p) == a + c;
    if key(s[0]) == k {
      assert key(x) != k;
      assert b == [];
      assert a + (b + c) == b + (a + c);
    } else {
      assert a == [];
    }
  }

  /** The sort is stable: equal-key elements keep their input order. */
  lemma {:induction false} SortKeepsTies<T(!new)>(s: seq<T>, key: T -> real, dir: Direction)
    ensures KeepsTies(Sort(s, key, dir), s, key)
  {
    if s != [] {
      SortKeepsTies(s[1..], key, dir);
      forall k ensures KeyClass(Sort(s, key, dir), key, k) == KeyClass(s, key, k) {
        InsertKeyClass(s[0], Sort(s[1..], key, dir), key, dir, k);
        assert s == [s[0]] + s[1..];
        FilterAppend([s[0]], s[1..], HasKey(key, k));
      }
    }
  }

  /** Sorting an already sorted sequence changes nothing. */
  lemma {:induction false} SortSortedIsIdentity<T(!new)>(s: seq<T>, key: T -> real, dir: Direction)
    requires Sorted(s, key, dir)
    ensures Sort(s, key, dir) == s
  {
    if s != [] {
      assert Sorted(s[1..], key, dir);
      SortSortedIsIdentity(s[1..], key, dir);
      assert s == [s[0]] + s[1..];
    }
  }

  /** Membership in a key class. */
  lemma InKeyClass<T(!new)>(s: seq<T>, key: T -> real, k: real, x: T)
    ensures x in KeyClass(s, key, k) <==> x in s && key(x) == k
  {
    var r := KeyClass(s, key, k);
    FilterSpec(s, HasKey(key, k));
    if x in r {
      SubsequenceMultiset(r, s);
      assert x in multiset(r);
    }
    if x in s && key(x) == k {
      assert x in multiset(s);
      assert HasKey(key, k)(x);
      assert multiset(r)[x] == multiset(s)[x];
    }
  }

  /** The first element of a sorted sequence is in order before all. */
  lemma SortedHead<T(!new)>(s: seq<T>, key: T -> real, dir: Direction, y: T)
    requires Sorted(s, key, dir) && s != [] && y in s
    ensures InOrder(key(s[0]), key(y), dir)
  {
    var j :| 0 <= j < |s| && s[j] == y;
  }

  /** Two non-empty sorted sequences with equal key classes start with the
      same element: both heads carry the extreme key, and each is the first
      element of that key's class. */
  lemma SortedTiesHead<T(!new)>(a: seq<T>, b: seq<T>, key: T -> real, dir: Direction)
    requires Sorted(a, key, dir) && Sorted(b, key, dir)
    requires a != [] && b != []
    requires KeyClass(a, key, key(a[0])) == KeyClass(b, key, key(a[0]))
    requires KeyClass(a, key, key(b[0])) == KeyClass(b, key, key(b[0]))
    ensures a[0] == b[0]
  {
    var ka, kb := key(a[0]), key(b[0]);
    InKeyClass(a, key, ka, a[0]);
    var ya := KeyClass(b, key, ka)[0];
    InKeyClass(b, key, ka, ya);
    SortedHead(b, key, dir, ya);
    InKeyClass(b, key, kb, b[0]);
    var yb := KeyClass(a, key, kb)[0];
    InKeyClass(a, key, kb, yb);
    SortedHead(a, key, dir, yb);
    assert ka == kb;
    var p := HasKey(key, ka);
    FilterCons(a, p);
    FilterCons(b, p);
    FilterSingleton(a[0], p);
    FilterSingleton(b[0], p);
  }

  /** Removing the same first element keeps the key classes equal. */
  lemma KeepsTiesTail<T(!new)>(a: seq<T>, b: seq<T>, key: T -> real)
    requires a != [] && b != [] && a[0] == b[0]
    requires KeepsTies(a, b, key)
    ensures KeepsTies(a[1..], b[1..], key)
  {
    forall k ensures KeyClass(a[1..], key, k) == KeyClass(b[1..], key, k) {
      var p := HasKey(key, k);
      FilterCons(a, p);
      FilterCons(b, p);
      var head := Filter([a[0]], p);
      assert KeyClass(a, key, k) == KeyClass(b, key, k);
      assert Filter(a[1..], p) == Filter(a, p)[|head|..];
      assert Filter(b[1..], p) == Filter(b, p)[|head|..];
    }
  }

  /** Two sorted sequences with the same elements in the same order within
      every tie are equal: sortedness and stability determine the result. */
  lemma {:induction false} SortedTiesUnique<T(!new)>(a: seq<T>, b: seq<T>, key: T -> real, dir: Direction)
    requires Sorted(a, key, dir) && Sorted(b, key, dir)
    requires KeepsTies(a, b, key)
    ensures a == b
    decreases |a|
  {
    if a == [] || b == [] {
      // the head of a non-empty one would have an empty key class in the other
      if a != [] {
        InKeyClass(a, key, key(a[0]), a[0]);
        InKeyClass(b, key, key(a[0]), a[0]);
      } else if b != [] {
        InKeyClass(a, key, key(b[0]), b[0]);
        InKeyClass(b, key, key(b[0]), b[0]);
      }
    } else {
      assert KeyClass(a, key, key(a[0])) == KeyClass(b, key, key(a[0]));
      assert KeyClass(a, key, key(b[0])) == KeyClass(b, key, key(b[0]));
      SortedTiesHead(a, b, key, dir);
      KeepsTiesTail(a, b, key);
      assert Sorted(a[1..], key, dir) && Sorted(b[1..], key, dir);
      SortedTiesUnique(a[1..], b[1..], key, dir);
      assert a == [a[0]] + a[1..];
      assert b == [b[0]] + b[1..];
    }
  }

  /** A prefix of the sorted sequence (Python's `sorted(...)[:n]`) is itself
      sorted, draws only on the input, and within every tie takes the
      earliest input elements, in input order. */
  lemma SortPrefix<T(!new)>(s: seq<T>, key: T -> real, dir: Direction, n: nat)
    requires n <= |s|
    ensures Sorted(Sort(s, key, dir)[..n], key, dir)
    ensures multiset(Sort(s, key, dir)[..n]) <= multiset(s)
    ensures forall k :: IsPrefix(KeyClass(Sort(s, key, dir)[..n], key, k), KeyClass(s, key, k))
  {
    var r := Sort(s, key, dir);
    assert r == r[..n] + r[n..];
    assert multiset(r) == multiset(r[..n]) + multiset(r[n..]);
    SortKeepsTies(s, key, dir);
    forall k ensures IsPrefix(KeyClass(r[..n], key, k), KeyClass(s, key, k)) {
      FilterPrefix(r, n, HasKey(key, k));
    }
  }
}
