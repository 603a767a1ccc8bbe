/** String helpers for the formatting and loading code: decimal digits,
    Python's `,` thousands grouping, `str.join`, and Python's ordering of
    strings (by code point, as `sorted` uses it). */
module Text {
  import opened Seqs

  predicate IsDigit(c: char) { '0' <= c <= '9' }

  predicate AllDigits(s: string) { forall i :: 0 <= i < |s| ==> IsDigit(s[i]) }

  function DigitChar(d: nat): (c: char)
    requires d < 10
    ensures IsDigit(c)
  {
    (48 + d) as char
  }

  function DigitValue(c: char): nat
    requires IsDigit(c)
  {
    (c as int - 48) as nat
  }

  /** The decimal digits of `n`, without leading zeros ("0" for zero). */
  function NatToDigits(n: nat): (s: string)
    ensures |s| >= 1 && AllDigits(s)
    ensures |s| > 1 ==> s[0] != '0'
  {
    if n < 10 then [DigitChar(n)] else NatToDigits(n / 10) + [DigitChar(n % 10)]
  }

  /** The number a string of decimal digits denotes. */
  function DigitsValue(s: string): nat
    requires AllDigits(s)
  {
    if s == [] then 0 else 10 * DigitsValue(s[..|s| - 1]) + DigitValue(s[|s| - 1])
  }

  /** Reading the digits back gives the number. */
  lemma {:induction false} DigitsRoundTrip(n: nat)
    ensures DigitsValue(NatToDigits(n)) == n
  {
    if n >= 10 {
      DigitsRoundTrip(n / 10);
      var s := NatToDigits(n);
      assert s[..|s| - 1] == NatToDigits(n / 10);
    }
  }

  /** Python's `,` grouping of a digit string: a comma before every group of
      three digits counted from the right. */
  function GroupThousands(ds: string): (g: string)
  {
    if |ds| <= 3 then ds else GroupThousands(ds[..|ds| - 3]) + "," + ds[|ds| - 3..]
  }

  /** The string without its commas. */
  function RemoveCommas(s: string): string
  {
    if s == [] then [] else RemoveCommas(s[..|s| - 1]) + (if s[|s| - 1] == ',' then [] else [s[|s| - 1]])
  }

  lemma {:induction false} RemoveCommasAppend(a: string, b: string)
    ensures RemoveCommas(a + b) == RemoveCommas(a) + RemoveCommas(b)
    decreases |b|
  {
    if b != [] {
      assert (a + b)[..|a + b| - 1] == a + b[..|b| - 1];
      RemoveCommasAppend(a, b[..|b| - 1]);
    } else {
      assert a + b == a;
    }
  }

  lemma {:induction false} RemoveCommasOfDigits(s: string)
    requires AllDigits(s)
    ensures RemoveCommas(s) == s
  {
    if s != [] {
      RemoveCommasOfDigits(s[..|s| - 1]);
    }
  }

  /** Grouping only inserts commas: removing them gives the digits back. */
  lemma {:induction false} GroupThousandsRemoveCommas(ds: string)
    requires AllDigits(ds)
    ensures RemoveCommas(GroupThousands(ds)) == ds
    decreases |ds|
  {
    if |ds| <= 3 {
      RemoveCommasOfDigits(ds);
    } else {
      var head, tail := ds[..|ds| - 3], ds[|ds| - 3..];
      GroupThousandsRemoveCommas(head);
      RemoveCommasAppend(GroupThousands(head) + ",", tail);
      RemoveCommasAppend(GroupThousands(head), ",");
      assert RemoveCommas(",") == [];
      RemoveCommasOfDigits(tail);
      assert ds == head + tail;
    }
  }

  /** Grouping keeps the leading digit in front. */
  lemma {:induction false} GroupThousandsHead(ds: string)
    requires ds != []
    ensures GroupThousands(ds) != [] && GroupThousands(ds)[0] == ds[0]
    decreases |ds|
  {
    if |ds| > 3 {
      GroupThousandsHead(ds[..|ds| - 3]);
    }
  }

  /** One comma per full group of three digits after the first. */
  lemma {:induction false} GroupThousandsLength(ds: string)
    requires ds != []
    ensures |GroupThousands(ds)| == |ds| + (|ds| - 1) / 3
    decreases |ds|
  {
    if |ds| > 3 {
      GroupThousandsLength(ds[..|ds| - 3]);
    }
  }

  /** Where the commas are: counting from the right end, every fourth
      character is a comma and every other one is a digit, so the digits
      fall into groups of three with at most three leading ones. */
  predicate GroupedShape(g: string)
  {
    forall i :: 0 <= i < |g| ==> (g[i] == ',' <==> (|g| - i) % 4 == 0) && (g[i] != ',' ==> IsDigit(g[i]))
  }

  lemma {:induction false} GroupThousandsShape(ds: string)
    requires AllDigits(ds)
    ensures GroupedShape(GroupThousands(ds))
    decreases |ds|
  {
    var g := GroupThousands(ds);
    if |ds| <= 3 {
      forall i | 0 <= i < |g| ensures (g[i] == ',' <==> (|g| - i) % 4 == 0) && (g[i] != ',' ==> IsDigit(g[i])) {
        assert IsDigit(ds[i]);
      }
    } else {
      var head, tail := ds[..|ds| - 3], ds[|ds| - 3..];
      assert AllDigits(head) && AllDigits(tail) && |tail| == 3;
      GroupThousandsShape(head);
      var gh := GroupThousands(head);
      assert GroupedShape(gh);
      assert g == gh + "," + tail;
      assert |g| == |gh| + 4;
      forall i | 0 <= i < |g| ensures (g[i] == ',' <==> (|g| - i) % 4 == 0) && (g[i] != ',' ==> IsDigit(g[i])) {
        if i < |gh| {
          assert g[i] == gh[i];
          assert |g| - i == (|gh| - i) + 4;
        } else if i == |gh| {
          assert g[i] == ',' && |g| - i == 4;
        } else {
          assert g[i] == tail[i - |gh| - 1];
          assert IsDigit(tail[i - |gh| - 1]);
          assert 1 <= |g| - i <= 3;
        }
      }
    }
  }

  /** `sep.join(parts)`. */
  function Join(parts: seq<string>, sep: string): string
  {
    if parts == [] then ""
    else if |parts| == 1 then parts[0]
    else parts[0] + sep + Join(parts[1..], sep)
  }

  /** Python's `a < b` on strings: lexicographic by code point, a proper
      prefix coming first. */
  predicate LexLess(a: string, b: string)
  {
    if a == [] then b != []
    else if b == [] then false
    else if a[0] != b[0] then a[0] < b[0]
    else LexLess(a[1..], b[1..])
  }

  /** Strictly increasing in Python's string order (so sorted and without
      duplicates). */
  predicate StrictlySorted(xs: seq<string>)
  {
    forall i, j :: 0 <= i < j < |xs| ==> LexLess(xs[i], xs[j])
  }

  lemma {:induction false} LexLessIrreflexive(a: string)
    ensures !LexLess(a, a)
  {
    if a != [] {
      LexLessIrreflexive(a[1..]);
    }
  }

  lemma {:induction false} LexLessAsymmetric(a: string, b: string)
    ensures !(LexLess(a, b) && LexLess(b, a))
  {
    if a != [] && b != [] && a[0] == b[0] {
      LexLessAsymmetric(a[1..], b[1..]);
    }
  }

  /** Python's `sorted` of a set is determined by the set: two strictly
      sorted sequences with the same elements are equal. */
  lemma {:induction false} StrictlySortedUnique(a: seq<string>, b: seq<string>)
    requires StrictlySorted(a) && StrictlySorted(b)
    requires forall x :: x in a <==> x in b
    ensures a == b
    decreases |a|
  {
    SameElementsEmpty(a, b);
    if a != [] && b != [] {
      if a[0] != b[0] {
        assert a[0] in b && b[0] in a;
        var j :| 0 <= j < |b| && b[j] == a[0];
        var k :| 0 <= k < |a| && a[k] == b[0];
        LexLessAsymmetric(a[0], b[0]);
        assert false;
      }
      forall x ensures x in a[1..] <==> x in b[1..] {
        if x in a[1..] {
          var k :| 1 <= k < |a| && a[k] == x;
          LexLessIrreflexive(a[0]);
          assert x in b && x != b[0];
          var j :| 0 <= j < |b| && b[j] == x;
          assert j != 0;
        }
        if x in b[1..] {
          var k :| 1 <= k < |b| && b[k] == x;
          LexLessIrreflexive(b[0]);
          assert x in a && x != a[0];
          var j :| 0 <= j < |a| && a[j] == x;
          assert j != 0;
        }
      }
      StrictlySortedUnique(a[1..], b[1..]);
      assert a == [a[0]] + a[1..] && b == [b[0]] + b[1..];
    }
  }

  lemma SameElementsEmpty<T>(a: seq<T>, b: seq<T>)
    requires forall x :: x in a <==> x in b
    ensures a == [] <==> b == []
  {
    if a != [] {
      assert a[0] in b;
    }
    if b != [] {
      assert b[0] in a;
    }
  }

  /** Every subsequence of a sorted sequence is sorted. */
  lemma {:induction false} SubsequenceSorted(r: seq<string>, s: seq<string>)
    requires IsSubsequence(r, s) && StrictlySorted(s)
    ensures StrictlySorted(r)
    decreases |s|
  {
    if r != [] {
      if r[0] == s[0] && IsSubsequence(r[1..], s[1..]) {
        SubsequenceSorted(r[1..], s[1..]);
        SubsequenceMultiset(r[1..], s[1..]);
        forall j | 0 < j < |r| ensures LexLess(r[0], r[j]) {
          assert r[j] == r[1..][j - 1];
          assert r[j] in multiset(s[1..]);
          var m :| 0 <= m < |s[1..]| && s[1..][m] == r[j];
          assert s[m + 1] == r[j];
        }
      } else {
        SubsequenceSorted(r, s[1..]);
      }
    }
  }

  /** Python's `s.rjust(width)`, as `f"{s:>width}"` pads: spaces in front up
      to `width` characters. */
  function PadLeft(s: string, width: nat): (r: string)
    ensures |r| == Max(|s|, width)
  {
    if |s| >= width then s else Spaces(width - |s|) + s
  }

  /** Right alignment keeps the text at the end, after spaces only. */
  lemma PadLeftLayout(s: string, width: nat)
    ensures var r := PadLeft(s, width);
      r[|r| - |s|..] == s && forall i :: 0 <= i < |r| - |s| ==> r[i] == ' '
  {
  }

  /** `f"{s:<width}"`: spaces after `s` up to `width` characters. */
  function PadRight(s: string, width: nat): (r: string)
    ensures |r| == Max(|s|, width)
  {
    if |s| >= width then s else s + Spaces(width - |s|)
  }

  /** Left alignment keeps the text at the start, before spaces only. */
  lemma PadRightLayout(s: string, width: nat)
    ensures var r := PadRight(s, width);
      r[..|s|] == s && forall i :: |s| <= i < |r| ==> r[i] == ' '
  {
  }

  function Spaces(n: nat): (r: string)
    ensures |r| == n && forall i :: 0 <= i < n ==> r[i] == ' '
  {
    Repeat(' ', n)
  }

  /** `c * n` in Python: the character repeated `n` times. */
  function Repeat(c: char, n: nat): (r: string)
    ensures |r| == n && forall i :: 0 <= i < n ==> r[i] == c
  {
    if n == 0 then "" else Repeat(c, n - 1) + [c]
  }

  /** Python's `s.split(sep)` for a one-character separator: the pieces
      between separators, always at least one. */
  function Split(s: string, sep: char): (parts: seq<string>)
    ensures |parts| >= 1
  {
    if s == [] then [""]
    else
      var rest := Split(s[1..], sep);
      if s[0] == sep then [""] + rest else [[s[0]] + rest[0]] + rest[1..]
  }

  lemma {:induction false} SplitNoSeparator(a: string, sep: char)
    requires sep !in a
    ensures Split(a, sep) == [a]
  {
    if a != [] {
      SplitNoSeparator(a[1..], sep);
      assert a == [a[0]] + a[1..];
    }
  }

  lemma {:induction false} SplitAfterPiece(a: string, b: string, sep: char)
    requires sep !in a
    ensures Split(a + [sep] + b, sep) == [a] + Split(b, sep)
  {
    if a == [] {
      assert (a + [sep] + b)[1..] == b;
    } else {
      assert (a + [sep] + b)[1..] == a[1..] + [sep] + b;
      SplitAfterPiece(a[1..], b, sep);
      assert a == [a[0]] + a[1..];
    }
  }

  /** Splitting text joined on a separator that no piece contains gives the
      pieces back. */
  lemma {:induction false} SplitJoin(parts: seq<string>, sep: char)
    requires parts != []
    requires forall i :: 0 <= i < |parts| ==> sep !in parts[i]
    ensures Split(Join(parts, [sep]), sep) == parts
  {
    if |parts| == 1 {
      SplitNoSeparator(parts[0], sep);
    } else {
      SplitJoin(parts[1..], sep);
      SplitAfterPiece(parts[0], Join(parts[1..], [sep]), sep);
      assert parts == [parts[0]] + parts[1..];
    }
  }
}
