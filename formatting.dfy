/** Currency formatting (festival_roi/formatting.py, and its copy at
    festival_roi_analysis.py:92-94): `f"{symbol}{spacer}{value:,.2f}"`.
    The value is taken as a whole number of hundredths, so the two decimals
    are exact; rounding a float to two places is not modelled. */
module Formatting {
  import opened Seqs
  import opened Text

  /** The digits of `n` grouped in threes with commas, as `f"{n:,}"` prints
      a non-negative integer. */
  function GroupedDigits(n: nat): (s: string)
    ensures s != [] && IsDigit(s[0])
  {
    var ds := NatToDigits(n);
    GroupThousandsHead(ds);
    GroupThousands(ds)
  }

  /** Dropping the commas gives back the plain decimal digits. */
  lemma GroupedDigitsPlain(n: nat)
    ensures RemoveCommas(GroupedDigits(n)) == NatToDigits(n)
  {
    GroupThousandsRemoveCommas(NatToDigits(n));
  }

  /** The commas fall every fourth character from the right. */
  lemma GroupedDigitsShape(n: nat)
    ensures GroupedShape(GroupedDigits(n))
  {
    GroupThousandsShape(NatToDigits(n));
  }

  /** Reads a comma-grouped digit string back into its number. */
  function ParseGrouped(s: string): Option<nat>
  {
    var ds := RemoveCommas(s);
    if s != [] && AllDigits(ds) then Some(DigitsValue(ds)) else None
  }

  /** Grouping loses nothing: the number can be read back. */
  lemma GroupedRoundTrip(n: nat)
    ensures ParseGrouped(GroupedDigits(n)) == Some(n)
  {
    GroupedDigitsPlain(n);
    DigitsRoundTrip(n);
  }

  /** The unsigned part of `f"{value:,.2f}"` for `value == m / 100`: the
      grouped whole part, a point and exactly two decimals. */
  function FormatUnsigned(m: nat): (s: string)
    ensures |s| >= 4 && s[|s| - 3] == '.' && IsDigit(s[|s| - 2]) && IsDigit(s[|s| - 1])
    ensures IsDigit(s[0])
  {
    AmountText(m / 100, m % 100 / 10, m % 100 % 10)
  }

  /** The whole part grouped, a point, then the tenths and hundredths digits. */
  function AmountText(units: nat, tens: nat, ones: nat): (s: string)
    requires tens < 10 && ones < 10
    ensures |s| >= 4 && s[|s| - 3] == '.' && IsDigit(s[|s| - 2]) && IsDigit(s[|s| - 1])
    ensures IsDigit(s[0])
  {
    GroupedDigits(units) + "." + [DigitChar(tens), DigitChar(ones)]
  }

  /** Everything before the point is the whole part, grouped in threes. */
  lemma FormatUnsignedGrouped(m: nat)
    ensures var s := FormatUnsigned(m); s[..|s| - 3] == GroupedDigits(m / 100)
  {
    var g := GroupedDigits(m / 100);
    var s := g + "." + [DigitChar(m % 100 / 10), DigitChar(m % 100 % 10)];
    assert FormatUnsigned(m) == s;
    assert s[..|s| - 3] == g;
  }

  /** Reads an unsigned amount with two decimals back into hundredths. */
  function ParseUnsigned(s: string): Option<int>
  {
    if |s| < 4 || s[|s| - 3] != '.' || !IsDigit(s[|s| - 2]) || !IsDigit(s[|s| - 1]) then None
    else
      match ParseGrouped(s[..|s| - 3])
      case None => None
      case Some(units) => Some(units * 100 + DigitValue(s[|s| - 2]) * 10 + DigitValue(s[|s| - 1]))
  }

  lemma DigitCharValue(d: nat)
    requires d < 10
    ensures DigitValue(DigitChar(d)) == d
  {
  }

  lemma UnsignedRoundTrip(m: nat)
    ensures ParseUnsigned(FormatUnsigned(m)) == Some(m)
  {
    var units, tens, ones := m / 100, m % 100 / 10, m % 100 % 10;
    HundredthsSplit(m);
    assert FormatUnsigned(m) == AmountText(units, tens, ones);
    AmountTextRoundTrip(units, tens, ones);
  }

  /** The whole part and the two digits read back as the hundredths they
      denote. */
  lemma AmountTextRoundTrip(units: nat, tens: nat, ones: nat)
    requires tens < 10 && ones < 10
    ensures ParseUnsigned(AmountText(units, tens, ones)) == Some(units * 100 + tens * 10 + ones)
  {
    GroupedRoundTrip(units);
    ParseUnsignedParts(GroupedDigits(units), tens, ones, units);
  }

  /** Reading `g.ab` takes the whole part from `g` and the hundredths from
      the two digits. */
  lemma ParseUnsignedParts(g: string, tens: nat, ones: nat, units: nat)
    requires g != [] && tens < 10 && ones < 10 && ParseGrouped(g) == Some(units)
    ensures ParseUnsigned(g + "." + [DigitChar(tens), DigitChar(ones)]) == Some(units * 100 + tens * 10 + ones)
  {
    var s := g + "." + [DigitChar(tens), DigitChar(ones)];
    assert s[..|s| - 3] == g;
    assert s[|s| - 3] == '.' && s[|s| - 2] == DigitChar(tens) && s[|s| - 1] == DigitChar(ones);
    DigitCharValue(tens);
    DigitCharValue(ones);
  }

  lemma HundredthsSplit(m: nat)
    ensures (m / 100) * 100 + (m % 100 / 10) * 10 + m % 100 % 10 == m
  {
    var cents := m % 100;
    assert cents / 10 * 10 + cents % 10 == cents;
  }

  /** `f"{value:,.2f}"` for `value == h / 100`: a minus sign exactly for
      negative values, then the unsigned amount. */
  function FormatAmount(h: int): (s: string)
    ensures |s| >= 4 && s[|s| - 3] == '.' && IsDigit(s[|s| - 2]) && IsDigit(s[|s| - 1])
    ensures h < 0 <==> s[0] == '-'
    ensures h >= 0 ==> IsDigit(s[0])
  {
    SignOf(h) + FormatUnsigned(Abs(h))
  }

  /** Between the sign and the decimals stands the whole part of the
      magnitude, its digits grouped in threes by commas. */
  lemma FormatAmountGrouped(h: int)
    ensures var s := FormatAmount(h);
      |SignOf(h)| <= |s| - 3 && s[|SignOf(h)|..|s| - 3] == GroupedDigits(Abs(h) / 100)
    ensures var s := FormatAmount(h);
      |SignOf(h)| <= |s| - 3 && GroupedShape(s[|SignOf(h)|..|s| - 3])
  {
    var u := FormatUnsigned(Abs(h));
    FormatUnsignedGrouped(Abs(h));
    SignedWholePart(SignOf(h), u);
    GroupedDigitsShape(Abs(h) / 100);
  }

  lemma SignedWholePart(sign: string, u: string)
    requires |u| >= 3
    ensures (sign + u)[|sign|..|sign + u| - 3] == u[..|u| - 3]
  {
    var s := sign + u;
    forall i | 0 <= i < |u| - 3 ensures s[|sign|..|s| - 3][i] == u[i] {
      assert s[|sign| + i] == u[i];
    }
  }

  /** The minus sign of a negative amount. */
  function SignOf(h: int): string
  {
    if h < 0 then "-" else ""
  }

  /** Reads an amount printed with two decimals back into hundredths. */
  function ParseAmount(s: string): Option<int>
  {
    var negative := |s| > 0 && s[0] == '-';
    match ParseUnsigned(if negative then s[1..] else s)
    case None => None
    case Some(m) => Some(if negative then -m else m)
  }

  /** The printed amount denotes exactly the value it was made from. */
  lemma AmountRoundTrip(h: int)
    ensures ParseAmount(FormatAmount(h)) == Some(h)
  {
    if h < 0 {
      NegativeAmountRoundTrip(h);
    } else {
      UnsignedAmountRoundTrip(h);
    }
  }

  lemma NegativeAmountRoundTrip(h: int)
    requires h < 0
    ensures ParseAmount(FormatAmount(h)) == Some(h)
  {
    var u := FormatUnsigned(Abs(h));
    var s := FormatAmount(h);
    assert s == "-" + u;
    assert s[1..] == u;
    UnsignedRoundTrip(Abs(h));
    assert ParseUnsigned(s[1..]) == Some(Abs(h));
  }

  lemma UnsignedAmountRoundTrip(h: int)
    requires h >= 0
    ensures ParseAmount(FormatAmount(h)) == Some(h)
  {
    var s := FormatAmount(h);
    assert s == FormatUnsigned(Abs(h));
    assert IsDigit(s[0]) && s[0] != '-';
    UnsignedRoundTrip(Abs(h));
  }

  /** Nothing between a one-character symbol and the number, one space
      after any other symbol (the empty one included). */
  function Spacer(symbol: string): (r: string)
    ensures |symbol| == 1 ==> r == ""
    ensures |symbol| != 1 ==> r == " "
  {
    if |symbol| == 1 then "" else " "
  }

  /** `format_currency(h / 100, symbol)`: the symbol, the spacer, then the
      amount, which reads back as `h`. */
  function FormatCurrency(h: int, symbol: string): (s: string)
    ensures |s| == |symbol| + |Spacer(symbol)| + |FormatAmount(h)|
    ensures s[..|symbol|] == symbol
    ensures |symbol| == 1 ==> s[1..] == FormatAmount(h)
    ensures |symbol| != 1 ==> s[|symbol|] == ' ' && s[|symbol| + 1..] == FormatAmount(h)
    ensures ParseAmount(s[|symbol| + |Spacer(symbol)|..]) == Some(h)
  {
    var a := FormatAmount(h);
    AmountRoundTrip(h);
    Concat3Parts(symbol, Spacer(symbol), a);
    symbol + Spacer(symbol) + a
  }

  lemma Concat3Parts(x: string, y: string, z: string)
    ensures (x + y + z)[..|x|] == x
    ensures (x + y + z)[|x| + |y|..] == z
    ensures |y| == 0 ==> (x + y + z)[|x|..] == z
    ensures |y| == 1 ==> (x + y + z)[|x|] == y[0] && (x + y + z)[|x| + 1..] == z
  {
  }
}
