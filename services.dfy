/** The dashboard's analysis service (app/services.py): summary, top and
    bottom rankings, underperformers against a ROI target and the chart
    payload, all computed from one list of events without changing it. */
module Services {
  import opened Seqs
  import opened Models
  import opened Ranking
  import opened Json
  import opened Analysis
  import opened StableSort
  import opened Reporting

  /** Parallel arrays for the dashboard chart, in input order. */
  datatype ChartPayload = ChartPayload(labels: seq<string>, roi: seq<real>, profit: seq<real>, attendance: seq<int>)

  /** The dictionary `analyse_events` returns. */
  datatype AnalysisResult = AnalysisResult(
    summary: Summary,
    topEvents: seq<FestivalEvent>,
    bottomEvents: seq<FestivalEvent>,
    underperformers: seq<FestivalEvent>,
    chart: ChartPayload,
    roiTarget: Option<real>)

  /** The ranking key `lambda event: metric_value(event, rank_by)`. */
  function RankKey(metric: string): FestivalEvent -> real
  {
    e => MetricValue(e, metric)
  }

  /** `max(0, min(n, len))`: a requested count clamped to `[0, len]`. */
  function Clamp(n: int, len: nat): (r: nat)
    ensures r <= len
    ensures n <= 0 ==> r == 0
    ensures 0 <= n <= len ==> r == n
    ensures n >= len ==> r == len
  {
    Max(0, Min(n, len))
  }

  /** Holds of the events whose ROI is below `target`. */
  function RoiBelow(target: real): FestivalEvent -> bool
  {
    e => Roi(e) < target
  }

  /** The events flagged against an optional ROI target: none without a
      target, otherwise those with ROI strictly below it, in input order. */
  function Underperformers(events: seq<FestivalEvent>, roiTarget: Option<real>): (r: seq<FestivalEvent>)
    ensures roiTarget.None? ==> r == []
    ensures roiTarget.Some? ==> IsSubsequence(r, events)
    ensures roiTarget.Some? ==> forall e :: e in r ==> Roi(e) < roiTarget.value
    ensures roiTarget.Some? ==> forall e :: Roi(e) < roiTarget.value ==> multiset(r)[e] == multiset(events)[e]
  {
    match roiTarget
    case None => []
    case Some(t) =>
      FilterSpec(events, RoiBelow(t));
      Filter(events, RoiBelow(t))
  }

  /** The chart payload: one entry per event, in input order, with its name,
      its ROI as a percentage, its profit and its attendance. */
  function BuildChartPayload(events: seq<FestivalEvent>): (c: ChartPayload)
    ensures |c.labels| == |c.roi| == |c.profit| == |c.attendance| == |events|
    ensures forall i :: 0 <= i < |events| ==>
      c.labels[i] == events[i].name && c.roi[i] == Roi(events[i]) * 100.0
      && c.profit[i] + events[i].cost == events[i].revenue && c.attendance[i] == events[i].attendance
  {
    ChartPayload(
      seq(|events|, i requires 0 <= i < |events| => events[i].name),
      seq(|events|, i requires 0 <= i < |events| => Roi(events[i]) * 100.0),
      seq(|events|, i requires 0 <= i < |events| => Profit(events[i])),
      seq(|events|, i requires 0 <= i < |events| => events[i].attendance))
  }

  /** The top of the ranking: the first `top` (clamped to `[0, n]`) events
      of a stable descending sort by the metric. They are in non-increasing
      order, drawn from the input, and within every tie they are the
      earliest input events, in input order. */
  function TopEvents(events: seq<FestivalEvent>, rankBy: string, top: int): (r: seq<FestivalEvent>)
    ensures |r| == Clamp(top, |events|)
    ensures IsPrefix(r, Sort(events, RankKey(rankBy), Descending))
    ensures Sorted(r, RankKey(rankBy), Descending)
    ensures multiset(r) <= multiset(events)
    ensures forall k :: IsPrefix(KeyClass(r, RankKey(rankBy), k), KeyClass(events, RankKey(rankBy), k))
  {
    var key := RankKey(rankBy);
    var rankedDesc := if events != [] then Sort(events, key, Descending) else [];
    var topCount := Clamp(top, |rankedDesc|);
    SortPrefix(events, key, Descending, topCount);
    rankedDesc[..topCount]
  }

  /** The bottom of the ranking: nothing unless `bottom > 0`, else the first
      `min(bottom, n)` events of an independent stable ascending sort, in
      non-decreasing order and with ties in input order. */
  function BottomEvents(events: seq<FestivalEvent>, rankBy: string, bottom: int): (r: seq<FestivalEvent>)
    ensures bottom <= 0 ==> r == []
    ensures bottom > 0 ==> |r| == Min(bottom, |events|)
    ensures IsPrefix(r, Sort(events, RankKey(rankBy), Ascending))
    ensures Sorted(r, RankKey(rankBy), Ascending)
    ensures multiset(r) <= multiset(events)
    ensures forall k :: IsPrefix(KeyClass(r, RankKey(rankBy), k), KeyClass(events, RankKey(rankBy), k))
  {
    var key := RankKey(rankBy);
    var bottomCount := Clamp(bottom, |events|);
    SortPrefix(events, key, Ascending, bottomCount);
    SortPrefix(events, key, Ascending, 0);
    if bottom > 0 then Sort(events, key, Ascending)[..bottomCount] else []
  }

  /** `analyse_events`: the summary of all events, the top and bottom of the
      ranking by `rankBy`, the underperformers, the chart, and the target
      echoed back. No input is an error: an empty list gives empty lists. */
  function AnalyseEvents(events: seq<FestivalEvent>, rankBy: string, top: int, bottom: int, roiTarget: Option<real>): (r: AnalysisResult)
    ensures r.summary == Summarize(events)
    ensures r.roiTarget == roiTarget
    ensures r.topEvents == TopEvents(events, rankBy, top)
    ensures r.bottomEvents == BottomEvents(events, rankBy, bottom)
    ensures r.underperformers == Underperformers(events, roiTarget)
    ensures r.chart == BuildChartPayload(events)
    ensures events == [] ==> r.topEvents == [] && r.bottomEvents == [] && r.underperformers == []
  {
    AnalysisResult(
      Summarize(events),
      TopEvents(events, rankBy, top),
      BottomEvents(events, rankBy, bottom),
      Underperformers(events, roiTarget),
      BuildChartPayload(events),
      roiTarget)
  }

  /** `serialize_events`: the event dictionaries in input order; reading
      them back gives the events again. */
  function SerializeEvents(events: seq<FestivalEvent>): (r: seq<Json>)
    ensures |r| == |events|
    ensures forall i :: 0 <= i < |events| ==> r[i] == EventAsDict(events[i])
    ensures EventsFromDicts(r) == Some(events)
  {
    EventDictsRoundTrip(events);
    EventDicts(events)
  }
}
