/** Generic sequence helpers shared by the model: optional values, results,
    order-preserving filtering, subsequences and sums. */
module Seqs {

  datatype Option<+T> = None | Some(value: T)

  datatype Result<+R, +E> = Success(value: R) | Failure(error: E)

  function Min(a: int, b: int): int { if a <= b then a else b }

  function Max(a: int, b: int): int { if a >= b then a else b }

  function Abs(n: int): nat { if n < 0 then -n else n }

  /** `a` can be obtained from `b` by deleting elements (order kept). */
  predicate IsSubsequence<T(==)>(a: seq<T>, b: seq<T>)
    decreases |b|
  {
    if a == [] then true
    else if b == [] then false
    else (a[0] == b[0] && IsSubsequence(a[1..], b[1..])) || IsSubsequence(a, b[1..])
  }

  /** `a` is a prefix of `b`. */
  predicate IsPrefix<T(==)>(a: seq<T>, b: seq<T>)
  {
    |a| <= |b| && a == b[..|a|]
  }

  /** The elements of `s` that satisfy `p`, in their original order
      (a Python list comprehension with an `if` clause). */
  function Filter<T(==, !new)>(s: seq<T>, p: T -> bool): (r: seq<T>)
    ensures |r| <= |s|
  {
    if s == [] then []
    else if p(s[0]) then [s[0]] + Filter(s[1..], p)
    else Filter(s[1..], p)
  }

  /** What filtering keeps: a subsequence of `s` whose elements all satisfy
      `p`, holding every element that satisfies `p` as often as `s` does. */
  lemma {:induction false} FilterSpec<T(!new)>(s: seq<T>, p: T -> bool)
    ensures IsSubsequence(Filter(s, p), s)
    ensures forall x :: x in Filter(s, p) ==> p(x)
    ensures forall x :: p(x) ==> multiset(Filter(s, p))[x] == multiset(s)[x]
  {
    if s != [] {
      var rest := Filter(s[1..], p);
      FilterSpec(s[1..], p);
      assert s == [s[0]] + s[1..];
      if p(s[0]) {
        assert ([s[0]] + rest)[1..] == rest;
      }
    }
  }

  lemma {:induction false} FilterAppend<T(!new)>(a: seq<T>, b: seq<T>, p: T -> bool)
    ensures Filter(a + b, p) == Filter(a, p) + Filter(b, p)
  {
    if a == [] {
      assert a + b == b;
    } else {
      assert (a + b)[1..] == a[1..] + b;
      FilterAppend(a[1..], b, p);
    }
  }

  lemma FilterSingleton<T(!new)>(x: T, p: T -> bool)
    ensures Filter([x], p) == if p(x) then [x] else []
  {
    assert [x][1..] == [];
  }

  lemma FilterCons<T(!new)>(s: seq<T>, p: T -> bool)
    requires s != []
    ensures Filter(s, p) == Filter([s[0]], p) + Filter(s[1..], p)
  {
    FilterSingleton(s[0], p);
  }

  /** Filtering a prefix of `s` gives a prefix of filtering `s`. */
  lemma {:induction false} FilterPrefix<T(!new)>(s: seq<T>, n: nat, p: T -> bool)
    requires n <= |s|
    ensures IsPrefix(Filter(s[..n], p), Filter(s, p))
  {
    assert s == s[..n] + s[n..];
    FilterAppend(s[..n], s[n..], p);
  }

  /** A sequence that is a subsequence of `s`, keeps only `p`-elements and
      keeps every one of them is exactly `Filter(s, p)`: the contract of
      `Filter` determines its result. */
  lemma {:induction false} FilterUnique<T(!new)>(r: seq<T>, s: seq<T>, p: T -> bool)
    requires IsSubsequence(r, s)
    requires forall x :: x in r ==> p(x)
    requires forall x :: p(x) ==> multiset(r)[x] == multiset(s)[x]
    ensures r == Filter(s, p)
    decreases |s|
  {
    if s == [] {
      assert r == [];
    } else {
      var x := s[0];
      assert s == [x] + s[1..];
      if p(x) {
        // x must be matched with r[0]: otherwise r would be a subsequence of
        // s[1..] and would miss one occurrence of x.
        if r != [] && r[0] == x && IsSubsequence(r[1..], s[1..]) {
          assert r == [x] + r[1..];
          forall y | p(y) ensures multiset(r[1..])[y] == multiset(s[1..])[y] {
            assert multiset(r) == multiset{x} + multiset(r[1..]);
            assert multiset(s) == multiset{x} + multiset(s[1..]);
          }
          FilterUnique(r[1..], s[1..], p);
        } else {
          assert IsSubsequence(r, s[1..]);
          SubsequenceMultiset(r, s[1..]);
          assert false;
        }
      } else {
        if r != [] && r[0] == x {
          assert false;
        }
        assert IsSubsequence(r, s[1..]);
        forall y | p(y) ensures multiset(r)[y] == multiset(s[1..])[y] {
          assert multiset(s) == multiset{x} + multiset(s[1..]);
        }
        FilterUnique(r, s[1..], p);
      }
    }
  }

  /** A subsequence never holds more copies of an element than the whole. */
  lemma {:induction false} SubsequenceMultiset<T>(a: seq<T>, b: seq<T>)
    requires IsSubsequence(a, b)
    ensures multiset(a) <= multiset(b)
    decreases |b|
  {
    if a == [] {
    } else {
      assert b == [b[0]] + b[1..];
      if a[0] == b[0] && IsSubsequence(a[1..], b[1..]) {
        assert a == [a[0]] + a[1..];
        SubsequenceMultiset(a[1..], b[1..]);
      } else {
        SubsequenceMultiset(a, b[1..]);
      }
    }
  }

  /** Sum of `f` over `s` (Python's `sum(f(x) for x in s)`). */
  function Sum<T>(s: seq<T>, f: T -> real): real
  {
    if s == [] then 0.0 else f(s[0]) + Sum(s[1..], f)
  }

  /** Integer sum of `f` over `s`. */
  function SumInt<T>(s: seq<T>, f: T -> int): int
  {
    if s == [] then 0 else f(s[0]) + SumInt(s[1..], f)
  }

  lemma {:induction false} SumAppend<T>(a: seq<T>, b: seq<T>, f: T -> real)
    ensures Sum(a + b, f) == Sum(a, f) + Sum(b, f)
  {
    if a == [] {
      assert a + b == b;
    } else {
      assert (a + b)[1..] == a[1..] + b;
      SumAppend(a[1..], b, f);
    }
  }

  lemma {:induction false} SumIntAppend<T>(a: seq<T>, b: seq<T>, f: T -> int)
    ensures SumInt(a + b, f) == SumInt(a, f) + SumInt(b, f)
  {
    if a == [] {
      assert a + b == b;
    } else {
      assert (a + b)[1..] == a[1..] + b;
      SumIntAppend(a[1..], b, f);
    }
  }

  /** The real sum of an integer-valued `f` is the integer sum, cast. */
  lemma {:induction false} SumIntAsReal<T>(s: seq<T>, f: T -> int, g: T -> real)
    requires forall x :: g(x) == f(x) as real
    ensures Sum(s, g) == SumInt(s, f) as real
  {
    if s != [] {
      SumIntAsReal(s[1..], f, g);
    }
  }

  /** Taking one term out of a sum. */
  lemma SumRemoveAt<T>(t: seq<T>, i: nat, f: T -> real)
    requires i < |t|
    ensures Sum(t, f) == f(t[i]) + Sum(t[..i] + t[i + 1..], f)
  {
    var pre, post := t[..i], t[i + 1..];
    var rest := [t[i]] + post;
    assert t == pre + rest;
    assert rest[1..] == post;
    assert Sum(rest, f) == f(t[i]) + Sum(post, f);
    SumAppend(pre, rest, f);
    SumAppend(pre, post, f);
  }

  /** Taking one element out of a multiset. */
  lemma MultisetRemoveAt<T>(t: seq<T>, i: nat)
    requires i < |t|
    ensures multiset(t) == multiset{t[i]} + multiset(t[..i] + t[i + 1..])
  {
    var pre, post := t[..i], t[i + 1..];
    assert t == pre + [t[i]] + post;
  }

  /** A sum does not depend on the order of its terms. */
  lemma {:induction false} SumPermutation<T>(s: seq<T>, t: seq<T>, f: T -> real)
    requires multiset(s) == multiset(t)
    ensures Sum(s, f) == Sum(t, f)
    decreases |s|
  {
    if s == [] {
      assert |t| == |multiset(t)| == 0;
    } else {
      var x := s[0];
      assert x in multiset(s);
      assert x in multiset(t);
      var i :| 0 <= i < |t| && t[i] == x;
      var rest := t[..i] + t[i + 1..];
      MultisetRemoveAt(t, i);
      MultisetRemoveAt(s, 0);
      assert s[..0] + s[1..] == s[1..];
      assert multiset(s[1..]) == multiset(s) - multiset{x};
      assert multiset(rest) == multiset(t) - multiset{x};
      SumPermutation(s[1..], rest, f);
      SumRemoveAt(t, i, f);
    }
  }

  /** The integer sum does not depend on the order of its terms either. */
  lemma SumIntPermutation<T>(s: seq<T>, t: seq<T>, f: T -> int)
    requires multiset(s) == multiset(t)
    ensures SumInt(s, f) == SumInt(t, f)
  {
    var g := (x: T) => f(x) as real;
    SumIntAsReal(s, f, g);
    SumIntAsReal(t, f, g);
    SumPermutation(s, t, g);
  }
}
