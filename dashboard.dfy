/** The terminal sales dashboard demo (dashboard_demo/simple_dashboard.py):
    headline figures, revenue grouped by a column, and an ASCII bar chart.
    Each sales row is a record; Python's conversions of its dictionary
    entries (`float`, `int`, `str`) are the identity on it. Printing and the
    KPI text block are not modelled. */
module Dashboard {
  import opened Seqs
  import opened Text
  import Formatting

  /** One sales record: month, channel, revenue and number of orders. */
  datatype SalesRow = SalesRow(month: string, channel: string, revenue: real, orders: int)

  function MonthOf(r: SalesRow): string { r.month }

  function ChannelOf(r: SalesRow): string { r.channel }

  function RevenueOf(r: SalesRow): real { r.revenue }

  function OrdersOf(r: SalesRow): int { r.orders }

  /** The label of every row, in row order. */
  function LabelsOf(rows: seq<SalesRow>, labelOf: SalesRow -> string): (r: seq<string>)
    ensures |r| == |rows| && forall i :: 0 <= i < |rows| ==> r[i] == labelOf(rows[i])
  {
    seq(|rows|, i requires 0 <= i < |rows| => labelOf(rows[i]))
  }

  /** The distinct elements of `xs` in order of first appearance. */
  function FirstSeen(xs: seq<string>): (r: seq<string>)
    ensures |r| <= |xs|
  {
    if xs == [] then []
    else
      var seen := FirstSeen(xs[..|xs| - 1]);
      if xs[|xs| - 1] in seen then seen else seen + [xs[|xs| - 1]]
  }

  /** The position of the first occurrence of `x` in `xs`. */
  function IndexOf(xs: seq<string>, x: string): (i: nat)
    requires x in xs
    ensures i < |xs| && xs[i] == x
    ensures forall j :: 0 <= j < i ==> xs[j] != x
  {
    if xs[0] == x then 0 else 1 + IndexOf(xs[1..], x)
  }

  /** Every element appears in `FirstSeen`, and nothing else does. */
  lemma {:induction false} FirstSeenMembers(xs: seq<string>)
    ensures forall x :: x in FirstSeen(xs) <==> x in xs
  {
    if xs != [] {
      var init := xs[..|xs| - 1];
      FirstSeenMembers(init);
      assert xs == init + [xs[|xs| - 1]];
    }
  }

  /** No element is listed twice. */
  lemma {:induction false} FirstSeenDistinct(xs: seq<string>)
    ensures forall i, j :: 0 <= i < j < |FirstSeen(xs)| ==> FirstSeen(xs)[i] != FirstSeen(xs)[j]
  {
    if xs != [] {
      FirstSeenDistinct(xs[..|xs| - 1]);
    }
  }

  lemma IndexOfExtend(xs: seq<string>, y: string, x: string)
    requires x in xs
    ensures x in xs + [y] && IndexOf(xs + [y], x) == IndexOf(xs, x)
  {
    var i := IndexOf(xs, x);
    var k := IndexOf(xs + [y], x);
    assert (xs + [y])[i] == x;
    assert xs[k] == x;
  }

  /** Every element of `ys` occurs in `xs`, and `ys` lists them in the order
      of their first occurrence in `xs`. */
  ghost predicate FirstIndexOrdered(xs: seq<string>, ys: seq<string>)
  {
    && (forall x :: x in ys ==> x in xs)
    && (forall i, j :: 0 <= i < j < |ys| ==> IndexOf(xs, ys[i]) < IndexOf(xs, ys[j]))
  }

  /** The elements are listed in the order of their first appearance. */
  lemma {:induction false} FirstSeenOrder(xs: seq<string>)
    ensures FirstIndexOrdered(xs, FirstSeen(xs))
  {
    if xs != [] {
      var init, last := xs[..|xs| - 1], xs[|xs| - 1];
      FirstSeenOrder(init);
      assert xs == init + [last];
      FirstSeenOrderStep(init, last);
    }
  }

  lemma FirstSeenOrderStep(init: seq<string>, last: string)
    requires FirstIndexOrdered(init, FirstSeen(init))
    ensures FirstIndexOrdered(init + [last], FirstSeen(init + [last]))
  {
    var xs := init + [last];
    assert xs[..|xs| - 1] == init;
    var seen, r := FirstSeen(init), FirstSeen(xs);
    FirstSeenMembers(init);
    FirstSeenMembers(xs);
    forall i, j | 0 <= i < j < |r| ensures IndexOf(xs, r[i]) < IndexOf(xs, r[j]) {
      assert r[i] == seen[i];
      IndexOfExtend(init, last, seen[i]);
      if j < |seen| {
        assert r[j] == seen[j];
        IndexOfExtend(init, last, seen[j]);
      } else {
        assert r[j] == last && last !in init;
        assert IndexOf(xs, last) == |init|;
      }
    }
  }

  /** Holds of the rows carrying the label `group`. */
  function HasLabel(labelOf: SalesRow -> string, group: string): SalesRow -> bool
  {
    r => labelOf(r) == group
  }

  /** The revenue summed over the rows carrying the label `group`. */
  function LabelTotal(rows: seq<SalesRow>, labelOf: SalesRow -> string, group: string): real
  {
    Sum(Filter(rows, HasLabel(labelOf, group)), RevenueOf)
  }

  /** A dictionary from label to running total (`order` holding its keys in
      insertion order) that groups exactly the revenue of `rows`. */
  ghost predicate Tallied(rows: seq<SalesRow>, labelOf: SalesRow -> string, order: seq<string>, totals: map<string, real>)
  {
    && order == FirstSeen(LabelsOf(rows, labelOf))
    && (forall l :: l in totals <==> l in order)
    && (forall l :: l in totals ==> totals[l] == LabelTotal(rows, labelOf, l))
  }

  lemma LabelTotalStep(rows: seq<SalesRow>, labelOf: SalesRow -> string, n: nat, group: string)
    requires n < |rows|
    ensures LabelTotal(rows[..n + 1], labelOf, group)
         == LabelTotal(rows[..n], labelOf, group) + (if labelOf(rows[n]) == group then rows[n].revenue else 0.0)
  {
    var p := HasLabel(labelOf, group);
    assert rows[..n + 1] == rows[..n] + [rows[n]];
    FilterAppend(rows[..n], [rows[n]], p);
    FilterSingleton(rows[n], p);
    SumAppend(Filter(rows[..n], p), Filter([rows[n]], p), RevenueOf);
  }

  lemma LabelsOfStep(rows: seq<SalesRow>, labelOf: SalesRow -> string, n: nat)
    requires n < |rows|
    ensures LabelsOf(rows[..n + 1], labelOf) == LabelsOf(rows[..n], labelOf) + [labelOf(rows[n])]
  {
  }

  /** A label no row carries has nothing to sum. */
  lemma UnseenLabelTotal(rows: seq<SalesRow>, labelOf: SalesRow -> string, group: string)
    requires group !in LabelsOf(rows, labelOf)
    ensures LabelTotal(rows, labelOf, group) == 0.0
  {
    var p := HasLabel(labelOf, group);
    forall x | p(x) ensures multiset([])[x] == multiset(rows)[x] {
      assert x !in rows;
    }
    FilterUnique([], rows, p);
  }

  /** One step of `totals[label] = totals.get(label, 0.0) + revenue`, with
      a new label appended to the key order. */
  lemma TallyStep(rows: seq<SalesRow>, labelOf: SalesRow -> string, n: nat, order: seq<string>, totals: map<string, real>,
                  order': seq<string>, totals': map<string, real>)
    requires n < |rows|
    requires Tallied(rows[..n], labelOf, order, totals)
    requires var l := labelOf(rows[n]);
      && order' == (if l in totals then order else order + [l])
      && totals' == totals[l := (if l in totals then totals[l] else 0.0) + rows[n].revenue]
    ensures Tallied(rows[..n + 1], labelOf, order', totals')
  {
    var l := labelOf(rows[n]);
    var before := LabelsOf(rows[..n], labelOf);
    var labels := LabelsOf(rows[..n + 1], labelOf);
    LabelsOfStep(rows, labelOf, n);
    assert labels[..|labels| - 1] == before;
    assert order' == FirstSeen(labels);
    forall k | k in totals' ensures totals'[k] == LabelTotal(rows[..n + 1], labelOf, k) {
      LabelTotalStep(rows, labelOf, n, k);
      if k == l && l !in totals {
        FirstSeenMembers(before);
        UnseenLabelTotal(rows[..n], labelOf, l);
      }
    }
  }

  /** One row of `aggregate_revenue`: a new label starts at zero and joins
      the key order, then the row's revenue is added to its label. */
  method AddToGroup(rows: seq<SalesRow>, labelOf: SalesRow -> string, n: nat, order: seq<string>, totals: map<string, real>)
    returns (order': seq<string>, totals': map<string, real>)
    requires n < |rows| && Tallied(rows[..n], labelOf, order, totals)
    ensures Tallied(rows[..n + 1], labelOf, order', totals')
  {
    var group := labelOf(rows[n]);
    var value := rows[n].revenue;
    order', totals' := order, totals;
    if group !in totals' {
      totals' := totals'[group := 0.0];
      order' := order' + [group];
    }
    totals' := totals'[group := totals'[group] + value];
    assert totals' == totals[group := (if group in totals then totals[group] else 0.0) + value];
    TallyStep(rows, labelOf, n, order, totals, order', totals');
  }

  /** `aggregate_revenue`: one entry per label, in first-appearance order,
      paired with the revenue summed over the rows carrying it. */
  method AggregateRevenue(rows: seq<SalesRow>, labelOf: SalesRow -> string) returns (series: seq<(string, real)>)
    ensures |series| == |FirstSeen(LabelsOf(rows, labelOf))|
    ensures forall i :: 0 <= i < |series| ==>
      series[i].0 == FirstSeen(LabelsOf(rows, labelOf))[i] && series[i].1 == LabelTotal(rows, labelOf, series[i].0)
  {
    var totals: map<string, real> := map[];
    var order: seq<string> := [];
    for n := 0 to |rows|
      invariant Tallied(rows[..n], labelOf, order, totals)
    {
      order, totals := AddToGroup(rows, labelOf, n, order, totals);
    }
    assert rows[..|rows|] == rows;
    TalliedSeries(rows, labelOf, order, totals);
    series := SeriesOf(order, totals);
  }

  /** The dictionary's items in key order. */
  function SeriesOf(order: seq<string>, totals: map<string, real>): (series: seq<(string, real)>)
    requires forall l :: l in order ==> l in totals
    ensures |series| == |order|
    ensures forall i :: 0 <= i < |order| ==> series[i] == (order[i], totals[order[i]])
  {
    seq(|order|, i requires 0 <= i < |order| => (order[i], totals[order[i]]))
  }

  lemma TalliedSeries(rows: seq<SalesRow>, labelOf: SalesRow -> string, order: seq<string>, totals: map<string, real>)
    requires Tallied(rows, labelOf, order, totals)
    ensures forall l :: l in order ==> l in totals
    ensures var series := SeriesOf(order, totals);
      && |series| == |FirstSeen(LabelsOf(rows, labelOf))|
      && forall i :: 0 <= i < |series| ==>
        series[i].0 == FirstSeen(LabelsOf(rows, labelOf))[i] && series[i].1 == LabelTotal(rows, labelOf, series[i].0)
  {
  }

  /** No element occurs twice. */
  predicate Distinct(xs: seq<string>)
  {
    forall i, j :: 0 <= i < j < |xs| ==> xs[i] != xs[j]
  }

  /** The label totals of `labels`, added up. */
  function TotalOver(labels: seq<string>, rows: seq<SalesRow>, labelOf: SalesRow -> string): real
  {
    if labels == [] then 0.0 else LabelTotal(rows, labelOf, labels[0]) + TotalOver(labels[1..], rows, labelOf)
  }

  lemma {:induction false} TotalOverEmpty(labels: seq<string>, labelOf: SalesRow -> string)
    ensures TotalOver(labels, [], labelOf) == 0.0
  {
    if labels != [] {
      TotalOverEmpty(labels[1..], labelOf);
    }
  }

  /** Adding a row adds its revenue to the total of its own label only. */
  lemma {:induction false} TotalOverStep(labels: seq<string>, rows: seq<SalesRow>, labelOf: SalesRow -> string, n: nat)
    requires n < |rows| && Distinct(labels)
    ensures TotalOver(labels, rows[..n + 1], labelOf)
         == TotalOver(labels, rows[..n], labelOf) + (if labelOf(rows[n]) in labels then rows[n].revenue else 0.0)
  {
    if labels != [] {
      LabelTotalStep(rows, labelOf, n, labels[0]);
      TotalOverStep(labels[1..], rows, labelOf, n);
      if labelOf(rows[n]) == labels[0] {
        assert labelOf(rows[n]) !in labels[1..];
      }
    }
  }

  /** Grouping loses no revenue: over any list of distinct labels that
      covers every row, the group totals add up to the total revenue. */
  lemma {:induction false} TotalOverCovering(labels: seq<string>, rows: seq<SalesRow>, labelOf: SalesRow -> string, n: nat)
    requires n <= |rows| && Distinct(labels)
    requires forall i :: 0 <= i < n ==> labelOf(rows[i]) in labels
    ensures TotalOver(labels, rows[..n], labelOf) == Sum(rows[..n], RevenueOf)
  {
    if n == 0 {
      TotalOverEmpty(labels, labelOf);
    } else {
      var prev, last := rows[..n - 1], rows[n - 1];
      TotalOverCovering(labels, rows, labelOf, n - 1);
      TotalOverStep(labels, rows, labelOf, n - 1);
      assert labelOf(last) in labels;
      assert rows[..n] == prev + [last];
      SumAppend(prev, [last], RevenueOf);
      assert Sum([last], RevenueOf) == last.revenue;
    }
  }

  /** The totals `aggregate_revenue` lists add up to the total revenue. */
  lemma GroupedTotalsSum(rows: seq<SalesRow>, labelOf: SalesRow -> string)
    ensures TotalOver(FirstSeen(LabelsOf(rows, labelOf)), rows, labelOf) == Sum(rows, RevenueOf)
  {
    var labels := LabelsOf(rows, labelOf);
    FirstSeenDistinct(labels);
    FirstSeenMembers(labels);
    forall i | 0 <= i < |rows| ensures labelOf(rows[i]) in FirstSeen(labels) {
      assert labels[i] == labelOf(rows[i]);
    }
    TotalOverCovering(FirstSeen(labels), rows, labelOf, |rows|);
    assert rows[..|rows|] == rows;
  }

  /** The headline figures `calculate_kpis` returns. */
  datatype Kpis = Kpis(totalRevenue: real, totalOrders: int, averageOrderValue: real, topChannel: string, topMonth: string)

  /** Python's `max(d, key=d.get)` over the keys `keys` (in insertion
      order): the position of the first key with the largest value. */
  function FirstMaxIndex(keys: seq<string>, totals: map<string, real>): (i: nat)
    requires keys != [] && forall k :: k in keys ==> k in totals
    ensures i < |keys|
    ensures forall j :: 0 <= j < |keys| ==> totals[keys[j]] <= totals[keys[i]]
    ensures forall j :: 0 <= j < i ==> totals[keys[j]] < totals[keys[i]]
  {
    if |keys| == 1 then 0
    else
      var best := FirstMaxIndex(keys[..|keys| - 1], totals);
      if totals[keys[|keys| - 1]] > totals[keys[best]] then |keys| - 1 else best
  }

  /** `best` is the label with the largest revenue total; among labels tied
      for it, the one whose first row comes first. */
  predicate IsTopLabel(rows: seq<SalesRow>, labelOf: SalesRow -> string, best: string)
  {
    var order := FirstSeen(LabelsOf(rows, labelOf));
    && best in order
    && (forall l :: l in order ==> LabelTotal(rows, labelOf, l) <= LabelTotal(rows, labelOf, best))
    && (forall j :: 0 <= j < IndexOf(order, best) ==> LabelTotal(rows, labelOf, order[j]) < LabelTotal(rows, labelOf, best))
  }

  /** The tie rule makes the top label unique. */
  lemma TopLabelUnique(rows: seq<SalesRow>, labelOf: SalesRow -> string, a: string, b: string)
    requires IsTopLabel(rows, labelOf, a) && IsTopLabel(rows, labelOf, b)
    ensures a == b
  {
    var order := FirstSeen(LabelsOf(rows, labelOf));
    var ia, ib := IndexOf(order, a), IndexOf(order, b);
    assert !(ia < ib) && !(ib < ia);
  }

  /** The key `max` picks from a tallied dictionary is the top label. */
  lemma FirstMaxIsTop(rows: seq<SalesRow>, labelOf: SalesRow -> string, order: seq<string>, totals: map<string, real>)
    requires Tallied(rows, labelOf, order, totals) && order != []
    ensures IsTopLabel(rows, labelOf, order[FirstMaxIndex(order, totals)])
  {
    var i := FirstMaxIndex(order, totals);
    FirstSeenDistinct(LabelsOf(rows, labelOf));
    var k := IndexOf(order, order[i]);
    assert k == i;
    forall l | l in order ensures LabelTotal(rows, labelOf, l) <= LabelTotal(rows, labelOf, order[i]) {
      var j :| 0 <= j < |order| && order[j] == l;
    }
  }

  /** `max(d, key=d.get) if d else "N/A"`. */
  function TopKey(order: seq<string>, totals: map<string, real>): (r: string)
    requires forall k :: k in order ==> k in totals
    ensures order == [] ==> r == "N/A"
    ensures order != [] ==> r in order && forall k :: k in order ==> totals[k] <= totals[r]
    ensures forall j :: 0 <= j < |order| && totals[order[j]] == totals[r] ==> r in order[..j + 1]
  {
    if order == [] then "N/A"
    else
      var i := FirstMaxIndex(order, totals);
      FirstMaxBefore(order, totals, i);
      order[i]
  }

  /** The first maximal key comes no later than any other maximal key. */
  lemma FirstMaxBefore(order: seq<string>, totals: map<string, real>, i: nat)
    requires i < |order| && forall k :: k in order ==> k in totals
    requires forall j :: 0 <= j < i ==> totals[order[j]] < totals[order[i]]
    ensures forall j :: 0 <= j < |order| && totals[order[j]] == totals[order[i]] ==> order[i] in order[..j + 1]
  {
    forall j | 0 <= j < |order| && totals[order[j]] == totals[order[i]]
      ensures order[i] in order[..j + 1]
    {
      assert order[..j + 1][i] == order[i];
    }
  }

  lemma SumsStep(rows: seq<SalesRow>, n: nat)
    requires n < |rows|
    ensures Sum(rows[..n + 1], RevenueOf) == Sum(rows[..n], RevenueOf) + rows[n].revenue
    ensures SumInt(rows[..n + 1], OrdersOf) == SumInt(rows[..n], OrdersOf) + rows[n].orders
  {
    assert rows[..n + 1] == rows[..n] + [rows[n]];
    SumAppend(rows[..n], [rows[n]], RevenueOf);
    SumIntAppend(rows[..n], [rows[n]], OrdersOf);
  }

  /** `d[label] = d.get(label, 0.0) + revenue` for row `n`, with `order`
      following the dictionary's key insertion order. */
  method AddRevenue(rows: seq<SalesRow>, labelOf: SalesRow -> string, n: nat, order: seq<string>, totals: map<string, real>)
    returns (order': seq<string>, totals': map<string, real>)
    requires n < |rows| && Tallied(rows[..n], labelOf, order, totals)
    ensures Tallied(rows[..n + 1], labelOf, order', totals')
  {
    var group := labelOf(rows[n]);
    order' := if group in totals then order else order + [group];
    totals' := totals[group := (if group in totals then totals[group] else 0.0) + rows[n].revenue];
    TallyStep(rows, labelOf, n, order, totals, order', totals');
  }

  /** `calculate_kpis`: total revenue and orders, the average order value
      (zero without orders), and the top channel and month by revenue
      ("N/A" without rows). */
  method CalculateKpis(rows: seq<SalesRow>) returns (k: Kpis)
    ensures k.totalRevenue == Sum(rows, RevenueOf)
    ensures k.totalOrders == SumInt(rows, OrdersOf)
    ensures k.totalOrders == 0 ==> k.averageOrderValue == 0.0
    ensures k.totalOrders != 0 ==> k.averageOrderValue == k.totalRevenue / k.totalOrders as real
    ensures rows == [] ==> k.topChannel == "N/A" && k.topMonth == "N/A"
    ensures rows != [] ==> IsTopLabel(rows, ChannelOf, k.topChannel) && IsTopLabel(rows, MonthOf, k.topMonth)
  {
    var byChannel: map<string, real> := map[];
    var channels: seq<string> := [];
    var byMonth: map<string, real> := map[];
    var months: seq<string> := [];
    var totalRevenue := 0.0;
    var totalOrders := 0;
    for n := 0 to |rows|
      invariant totalRevenue == Sum(rows[..n], RevenueOf)
      invariant totalOrders == SumInt(rows[..n], OrdersOf)
      invariant Tallied(rows[..n], ChannelOf, channels, byChannel)
      invariant Tallied(rows[..n], MonthOf, months, byMonth)
    {
      var revenue, orders := rows[n].revenue, rows[n].orders;
      SumsStep(rows, n);
      totalRevenue := totalRevenue + revenue;
      totalOrders := totalOrders + orders;
      channels, byChannel := AddRevenue(rows, ChannelOf, n, channels, byChannel);
      months, byMonth := AddRevenue(rows, MonthOf, n, months, byMonth);
    }
    assert rows[..|rows|] == rows;
    var average := if totalOrders != 0 then totalRevenue / totalOrders as real else 0.0;
    if rows != [] {
      assert ChannelOf(rows[0]) in channels && MonthOf(rows[0]) in months by {
        FirstSeenMembers(LabelsOf(rows, ChannelOf));
        FirstSeenMembers(LabelsOf(rows, MonthOf));
        assert LabelsOf(rows, ChannelOf)[0] == ChannelOf(rows[0]);
        assert LabelsOf(rows, MonthOf)[0] == MonthOf(rows[0]);
      }
      FirstMaxIsTop(rows, ChannelOf, channels, byChannel);
      FirstMaxIsTop(rows, MonthOf, months, byMonth);
    }
    k := Kpis(totalRevenue, totalOrders, average, TopKey(channels, byChannel), TopKey(months, byMonth));
  }

  /** Rounding to the nearest integer, ties to the even one, as `.0f`
      formatting rounds a value that lies exactly halfway. */
  function RoundHalfEven(x: real): (r: int)
    ensures -0.5 <= r as real - x <= 0.5
    ensures (r as real - x == 0.5 || x - r as real == 0.5) ==> r % 2 == 0
  {
    var f := x.Floor;
    var d := x - f as real;
    if d < 0.5 then f
    else if d > 0.5 then f + 1
    else if f % 2 == 0 then f else f + 1
  }

  /** A grouped digit string has no line break in it. */
  lemma GroupedDigitsSingleLine(n: nat)
    ensures '\n' !in Formatting.GroupedDigits(n)
  {
    var g := Formatting.GroupedDigits(n);
    Formatting.GroupedDigitsShape(n);
    forall i | 0 <= i < |g| ensures g[i] != '\n' {
      assert g[i] == ',' || IsDigit(g[i]);
    }
  }

  /** The dollar text for a sign and a magnitude: a dollar sign, a minus
      sign exactly when one is given, and no line break. */
  lemma DollarText(sign: string, n: nat)
    requires sign == "" || sign == "-"
    ensures var s := "$" + sign + Formatting.GroupedDigits(n);
      && |s| >= 2 && s[0] == '$' && (s[1] == '-' <==> sign == "-")
      && '\n' !in s
  {
    var digits := Formatting.GroupedDigits(n);
    var s := "$" + sign + digits;
    GroupedDigitsSingleLine(n);
    forall i | 1 + |sign| <= i < |s| ensures s[i] != '\n' {
      assert s[i] == digits[i - 1 - |sign|];
    }
    assert s[1] == if sign == "-" then '-' else digits[0];
  }

  /** After the sign come the digits of the magnitude grouped in threes by
      commas, and they read back as the magnitude. */
  lemma DollarTextReadsBack(sign: string, n: nat)
    requires sign == "" || sign == "-"
    ensures var s := "$" + sign + Formatting.GroupedDigits(n);
      s[1 + |sign|..] == Formatting.GroupedDigits(n) && GroupedShape(s[1 + |sign|..])
    ensures var s := "$" + sign + Formatting.GroupedDigits(n);
      Formatting.ParseGrouped(s[1 + |sign|..]) == Some(n)
  {
    var s := "$" + sign + Formatting.GroupedDigits(n);
    assert s[1 + |sign|..] == Formatting.GroupedDigits(n);
    Formatting.GroupedRoundTrip(n);
    Formatting.GroupedDigitsShape(n);
  }

  /** `format_currency`, `f"${value:,.0f}"`: a dollar sign, a minus sign for
      a negative value (even one that rounds to zero), and the rounded
      magnitude with its digits grouped in threes. */
  function FormatCurrency(value: real): (s: string)
    ensures |s| >= 2 && s[0] == '$'
    ensures value < 0.0 <==> s[1] == '-'
    ensures '\n' !in s
  {
    DollarText(if value < 0.0 then "-" else "", Abs(RoundHalfEven(value)));
    "$" + (if value < 0.0 then "-" else "") + Formatting.GroupedDigits(Abs(RoundHalfEven(value)))
  }

  /** After the dollar sign and any minus sign stand the digits of the
      value rounded half to even, without its sign, grouped in threes by
      commas; they read back as that magnitude. */
  lemma FormatCurrencyReadsBack(value: real)
    ensures var s := FormatCurrency(value);
      s[if value < 0.0 then 2 else 1..] == Formatting.GroupedDigits(Abs(RoundHalfEven(value)))
    ensures var s := FormatCurrency(value);
      GroupedShape(s[if value < 0.0 then 2 else 1..])
    ensures var s := FormatCurrency(value);
      Formatting.ParseGrouped(s[if value < 0.0 then 2 else 1..]) == Some(Abs(RoundHalfEven(value)))
  {
    DollarTextReadsBack(if value < 0.0 then "-" else "", Abs(RoundHalfEven(value)));
  }

  /** Reads `f"{n:,}"` back: an optional minus sign, then grouped digits. */
  function ParseNumber(s: string): Option<int>
  {
    if |s| > 0 && s[0] == '-' then
      match Formatting.ParseGrouped(s[1..])
      case None => None
      case Some(m) => Some(0 - m as int)
    else
      match Formatting.ParseGrouped(s)
      case None => None
      case Some(m) => Some(m as int)
  }

  /** `format_number`, `f"{value:,}"`: the integer with its digits grouped
      in threes by commas, a minus sign in front of a negative one. */
  function FormatNumber(value: int): (s: string)
    ensures value < 0 <==> (|s| > 0 && s[0] == '-')
  {
    var digits := Formatting.GroupedDigits(Abs(value));
    if value < 0 then "-" + digits else digits
  }

  /** The digits after the sign fall in groups of three, and the text reads
      back as the number. */
  lemma FormatNumberReadsBack(value: int)
    ensures GroupedShape(FormatNumber(value)[if value < 0 then 1 else 0..])
    ensures ParseNumber(FormatNumber(value)) == Some(value)
  {
    if value < 0 {
      NegativeFormatNumber(value);
    } else {
      UnsignedFormatNumber(value);
    }
  }

  lemma NegativeFormatNumber(value: int)
    requires value < 0
    ensures GroupedShape(FormatNumber(value)[1..])
    ensures ParseNumber(FormatNumber(value)) == Some(value)
  {
    var m := Abs(value);
    Formatting.GroupedDigitsShape(m);
    assert FormatNumber(value) == "-" + Formatting.GroupedDigits(m);
    NegativeNumberReadsBack(m);
  }

  lemma UnsignedFormatNumber(value: int)
    requires value >= 0
    ensures GroupedShape(FormatNumber(value)[0..])
    ensures ParseNumber(FormatNumber(value)) == Some(value)
  {
    var m := Abs(value);
    Formatting.GroupedDigitsShape(m);
    assert FormatNumber(value)[0..] == FormatNumber(value) == Formatting.GroupedDigits(m);
    UnsignedNumberReadsBack(m);
  }

  lemma NegativeNumberReadsBack(m: nat)
    ensures ("-" + Formatting.GroupedDigits(m))[1..] == Formatting.GroupedDigits(m)
    ensures ParseNumber("-" + Formatting.GroupedDigits(m)) == Some(0 - m)
  {
    var g := Formatting.GroupedDigits(m);
    Formatting.GroupedRoundTrip(m);
    ParseSignedDigits(g, m);
  }

  /** A minus sign in front of text that reads back as `m` reads back as `-m`. */
  lemma ParseSignedDigits(g: string, m: nat)
    requires Formatting.ParseGrouped(g) == Some(m)
    ensures ("-" + g)[1..] == g
    ensures ParseNumber("-" + g) == Some(0 - m)
  {
    var s := "-" + g;
    assert s[1..] == g;
  }

  lemma UnsignedNumberReadsBack(m: nat)
    ensures ParseNumber(Formatting.GroupedDigits(m)) == Some(m as int)
  {
    var g := Formatting.GroupedDigits(m);
    Formatting.GroupedRoundTrip(m);
    ParseUnsignedDigits(g, m);
  }

  /** Text starting with a digit that reads back as `m` reads back as `m`. */
  lemma ParseUnsignedDigits(g: string, m: nat)
    requires g != [] && Text.IsDigit(g[0])
    requires Formatting.ParseGrouped(g) == Some(m)
    ensures ParseNumber(g) == Some(m as int)
  {
    assert g[0] != '-';
  }

  /** Python's `int(x)` of a float: truncation toward zero. */
  function Trunc(x: real): (r: int)
    ensures x >= 0.0 ==> 0 <= r && r as real <= x < r as real + 1.0
    ensures x < 0.0 ==> r <= 0 && r as real - 1.0 < x <= r as real
  {
    if x >= 0.0 then x.Floor else -((-x).Floor)
  }

  /** The bar length for `value` on a chart whose largest value is
      `maxValue`: zero when that maximum is zero, otherwise the value scaled
      so that the maximum gets 40 characters, truncated, and at least 1. */
  function BarLength(value: real, maxValue: real): (r: nat)
    ensures maxValue == 0.0 ==> r == 0
    ensures maxValue != 0.0 ==> r >= 1
    ensures maxValue > 0.0 && value <= maxValue ==> r <= 40
    ensures maxValue > 0.0 && value == maxValue ==> r == 40
  {
    if maxValue == 0.0 then 0
    else
      var scale := 40.0 / maxValue;
      var t := Trunc(value * scale);
      ScaledToForty(value, maxValue);
      if t < 1 then 1 else t
  }

  /** Scaling by `40 / maxValue` takes the maximum to 40 and anything below
      it to at most 40. */
  lemma ScaledToForty(value: real, maxValue: real)
    requires maxValue != 0.0
    ensures maxValue > 0.0 && value <= maxValue ==> value * (40.0 / maxValue) <= 40.0
    ensures maxValue * (40.0 / maxValue) == 40.0
  {
    var scale := 40.0 / maxValue;
    assert maxValue * scale == 40.0;
    if maxValue > 0.0 && value <= maxValue {
      assert scale > 0.0;
      assert value * scale <= maxValue * scale;
    }
  }

  lemma TruncMonotone(x: real, y: real)
    requires x <= y
    ensures Trunc(x) <= Trunc(y)
  {
  }

  /** A larger value never gets a shorter bar. */
  lemma BarLengthMonotone(v: real, w: real, maxValue: real)
    requires v <= w && maxValue > 0.0
    ensures BarLength(v, maxValue) <= BarLength(w, maxValue)
  {
    var scale := 40.0 / maxValue;
    assert scale > 0.0;
    assert v * scale <= w * scale;
    TruncMonotone(v * scale, w * scale);
  }

  /** `max(value for _, value in series)`. */
  function SeriesMax(series: seq<(string, real)>): (m: real)
    requires series != []
    ensures forall i :: 0 <= i < |series| ==> series[i].1 <= m
    ensures exists i :: 0 <= i < |series| && series[i].1 == m
  {
    if |series| == 1 then series[0].1
    else
      var rest := SeriesMax(series[1..]);
      assert forall i :: 1 <= i < |series| ==> series[i] == series[1..][i - 1];
      if series[0].1 >= rest then series[0].1 else rest
  }

  /** The layout of a chart line: the label right-aligned in five columns
      and a separator, then `bar` block characters padded with spaces to
      forty columns, then a space and the amount. */
  predicate ChartLineLayout(line: string, group: string, bar: nat, amount: string)
  {
    var head := PadLeft(group, 5) + " | ";
    && |line| == |head| + Max(bar, 40) + 1 + |amount|
    && line[..|head|] == head
    && (forall j :: |head| <= j < |head| + bar ==> line[j] == '\U{2588}')
    && (forall j :: |head| + bar <= j < |head| + Max(bar, 40) ==> line[j] == ' ')
    && line[|head| + Max(bar, 40)..] == " " + amount
  }

  lemma PadLeftSingleLine(group: string, width: nat)
    requires '\n' !in group
    ensures '\n' !in PadLeft(group, width)
  {
    var p := PadLeft(group, width);
    forall k | 0 <= k < |p| ensures p[k] != '\n' {
      if |group| < width && k >= width - |group| {
        assert p[k] == group[k - (width - |group|)];
      }
    }
  }

  /** A bar padded to forty columns between a prefix and a suffix. */
  lemma BarBetween(head: string, bar: nat, tail: string)
    ensures var padded := PadRight(Repeat('\U{2588}', bar), 40);
      var line := head + padded + tail;
      && |padded| == Max(bar, 40)
      && line[..|head|] == head
      && (forall j :: |head| <= j < |head| + bar ==> line[j] == '\U{2588}')
      && (forall j :: |head| + bar <= j < |head| + Max(bar, 40) ==> line[j] == ' ')
      && line[|head| + Max(bar, 40)..] == tail
  {
    var blocks := Repeat('\U{2588}', bar);
    var padded := PadRight(blocks, 40);
    var line := head + padded + tail;
    assert line[..|head|] == head;
    assert line[|head| + |padded|..] == tail;
    forall j | |head| <= j < |head| + bar ensures line[j] == '\U{2588}' {
      assert line[j] == padded[j - |head|] == blocks[j - |head|];
    }
    forall j | |head| + bar <= j < |head| + |padded| ensures line[j] == ' ' {
      assert line[j] == padded[j - |head|];
    }
  }

  /** The text of a chart line has the chart-line layout. */
  lemma ChartLineText(group: string, bar: nat, amount: string)
    ensures ChartLineLayout(PadLeft(group, 5) + " | " + PadRight(Repeat('\U{2588}', bar), 40) + " " + amount, group, bar, amount)
  {
    var head := PadLeft(group, 5) + " | ";
    var padded := PadRight(Repeat('\U{2588}', bar), 40);
    BarBetween(head, bar, " " + amount);
    assert PadLeft(group, 5) + " | " + padded + " " + amount == head + padded + (" " + amount);
  }

  /** A chart line has no line break unless its label or amount has one. */
  lemma ChartLineSingleLine(group: string, bar: nat, amount: string)
    requires '\n' !in amount
    ensures '\n' !in group ==> '\n' !in PadLeft(group, 5) + " | " + PadRight(Repeat('\U{2588}', bar), 40) + " " + amount
  {
    if '\n' in group {
      return;
    }
    var left := PadLeft(group, 5);
    var padded := PadRight(Repeat('\U{2588}', bar), 40);
    PadLeftSingleLine(group, 5);
    assert '\n' !in padded by {
      forall k | 0 <= k < |padded| ensures padded[k] != '\n' {
        if k < bar {
          assert padded[k] == Repeat('\U{2588}', bar)[k];
        }
      }
    }
    var line := left + " | " + padded + " " + amount;
    forall k | 0 <= k < |line| ensures line[k] != '\n' {
      if k < |left| {
        assert line[k] == left[k];
      } else if k < |left| + 3 {
      } else if k < |left| + 3 + |padded| {
        assert line[k] == padded[k - |left| - 3];
      } else if k > |left| + 3 + |padded| {
        assert line[k] == amount[k - |left| - 4 - |padded|];
      }
    }
  }

  /** One chart line, `f"{label:>5} | {bar:<40} {format_currency(value)}"`,
      with `bar` as long as `BarLength` says. */
  function ChartLine(group: string, value: real, maxValue: real): (r: string)
    ensures |group| <= 5 && BarLength(value, maxValue) <= 40 ==> |r| == 49 + |FormatCurrency(value)|
  {
    PadLeft(group, 5) + " | " + PadRight(Repeat('\U{2588}', BarLength(value, maxValue)), 40) + " " + FormatCurrency(value)
  }

  /** A chart line has the layout above, with a bar of `BarLength`
      characters and the amount `FormatCurrency` prints, and it is a single
      line when the label is. */
  lemma ChartLineShape(group: string, value: real, maxValue: real)
    ensures ChartLineLayout(ChartLine(group, value, maxValue), group, BarLength(value, maxValue), FormatCurrency(value))
    ensures '\n' !in group ==> '\n' !in ChartLine(group, value, maxValue)
  {
    ChartLineText(group, BarLength(value, maxValue), FormatCurrency(value));
    ChartLineSingleLine(group, BarLength(value, maxValue), FormatCurrency(value));
  }

  /** The line drawing of an entry against the largest value `maxValue`. */
  function LineOf(maxValue: real): ((string, real)) -> string
  {
    (entry: (string, real)) => ChartLine(entry.0, entry.1, maxValue)
  }

  /** `[f(x) for x in xs]`. */
  function MapLines<T>(xs: seq<T>, f: T -> string): (lines: seq<string>)
    ensures |lines| == |xs|
  {
    if xs == [] then [] else [f(xs[0])] + MapLines(xs[1..], f)
  }

  /** Element `i` of the mapped list is the image of `xs[i]`. */
  lemma {:induction false} MapLinesEntry<T>(xs: seq<T>, f: T -> string, i: nat)
    requires i < |xs|
    ensures MapLines(xs, f)[i] == f(xs[i])
  {
    if i > 0 {
      MapLinesEntry(xs[1..], f, i - 1);
    }
  }

  /** Mapping one more element appends its image. */
  lemma {:induction false} MapLinesSnoc<T>(xs: seq<T>, f: T -> string, n: nat)
    requires n < |xs|
    ensures MapLines(xs[..n + 1], f) == MapLines(xs[..n], f) + [f(xs[n])]
  {
    if n > 0 {
      MapLinesSnoc(xs[1..], f, n - 1);
      assert xs[..n + 1][1..] == xs[1..][..n];
      assert xs[..n][1..] == xs[1..][..n - 1];
    }
  }

  lemma HeadSnoc<T>(head: T, body: seq<T>, last: T)
    ensures [head] + (body + [last]) == ([head] + body) + [last]
  {
  }

  /** The lines of the chart: the title, then `(no data)` for an empty
      series, or else one line per entry, each scaled against the largest
      value. */
  function ChartLines(series: seq<(string, real)>, title: string): (lines: seq<string>)
    ensures series == [] ==> lines == [title, "(no data)"]
    ensures series != [] ==> |lines| == |series| + 1 && lines[0] == title
  {
    if series == [] then [title, "(no data)"] else [title] + MapLines(series, LineOf(SeriesMax(series)))
  }

  /** Line `i + 1` of a non-empty chart draws entry `i`: its label, a bar of
      `BarLength` blocks scaled against the largest value (none when that
      maximum is zero, at least one otherwise) and its amount. */
  lemma ChartLinesEntry(series: seq<(string, real)>, title: string, i: nat)
    requires i < |series|
    ensures var maxValue := SeriesMax(series);
      var bar := BarLength(series[i].1, maxValue);
      && ChartLineLayout(ChartLines(series, title)[i + 1], series[i].0, bar, FormatCurrency(series[i].1))
      && (maxValue == 0.0 ==> bar == 0)
      && (maxValue != 0.0 ==> bar >= 1)
  {
    var maxValue := SeriesMax(series);
    MapLinesEntry(series, LineOf(maxValue), i);
    ChartLineShape(series[i].0, series[i].1, maxValue);
  }

  /** `render_bar_chart`: the chart lines joined by line breaks. */
  method RenderBarChart(series: seq<(string, real)>, title: string) returns (out: string)
    ensures out == Join(ChartLines(series, title), "\n")
  {
    if series == [] {
      return title + "\n" + "(no data)";
    }
    var maxValue := SeriesMax(series);
    var lines := [title];
    for i := 0 to |series|
      invariant lines == [title] + MapLines(series[..i], LineOf(maxValue))
    {
      var (group, value) := series[i];
      var line := ChartLine(group, value, maxValue);
      assert line == LineOf(maxValue)(series[i]);
      MapLinesSnoc(series, LineOf(maxValue), i);
      HeadSnoc(title, MapLines(series[..i], LineOf(maxValue)), line);
      lines := lines + [line];
    }
    assert series[..|series|] == series;
    out := Join(lines, "\n");
  }

  /** Without line breaks in the title and labels, the rendered text has
      exactly the chart's lines: two for an empty series, else one more
      than the series has entries. */
  lemma RenderedLines(series: seq<(string, real)>, title: string)
    requires '\n' !in title
    requires forall i :: 0 <= i < |series| ==> '\n' !in series[i].0
    ensures Split(Join(ChartLines(series, title), "\n"), '\n') == ChartLines(series, title)
    ensures |Split(Join(ChartLines(series, title), "\n"), '\n')| == if series == [] then 2 else |series| + 1
  {
    ChartLinesSingle(series, title);
    assert "\n" == ['\n'];
    SplitJoin(ChartLines(series, title), '\n');
  }

  /** Without line breaks in the title and labels, no chart line has one. */
  lemma ChartLinesSingle(series: seq<(string, real)>, title: string)
    requires '\n' !in title
    requires forall i :: 0 <= i < |series| ==> '\n' !in series[i].0
    ensures forall i :: 0 <= i < |ChartLines(series, title)| ==> '\n' !in ChartLines(series, title)[i]
  {
    var lines := ChartLines(series, title);
    forall i | 0 <= i < |lines| ensures '\n' !in lines[i] {
      if i > 0 && series != [] {
        MapLinesEntry(series, LineOf(SeriesMax(series)), i - 1);
        ChartLineShape(series[i - 1].0, series[i - 1].1, SeriesMax(series));
      }
    }
  }
}
