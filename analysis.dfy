/** Aggregate statistics over a collection of events
    (festival_roi/analysis.py). */
module Analysis {
  import opened Seqs
  import opened Models
  import opened Json

  /** The summary dictionary: event count, averages and totals. */
  datatype Summary = Summary(
    events: nat,
    avgRoi: real,
    avgProfit: real,
    totalProfit: real,
    totalAttendance: int,
    avgCostPerAttendee: real)

  /** The all-zero summary returned for an empty collection. */
  const EmptySummary := Summary(0, 0.0, 0.0, 0.0, 0, 0.0)

  /** Summarises `events`: an empty collection gives the all-zero summary,
      otherwise totals are sums over the events and averages are guarded
      against division by zero. */
  function Summarize(events: seq<FestivalEvent>): (r: Summary)
    ensures r.events == |events|
    ensures events == [] ==> r == EmptySummary
    ensures r.totalProfit == Sum(events, Revenue) - Sum(events, Cost)
    ensures r.totalAttendance == SumInt(events, Attendance)
    ensures events != [] ==> r.avgProfit * (|events| as real) == r.totalProfit
    ensures events != [] ==> r.avgRoi * (|events| as real) == Sum(events, Roi)
    ensures r.totalAttendance == 0 ==> r.avgCostPerAttendee == 0.0
    ensures r.totalAttendance != 0 ==> r.avgCostPerAttendee * (r.totalAttendance as real) == Sum(events, Cost)
  {
    if events == [] then EmptySummary
    else
      var n := |events| as real;
      var totalProfit := Sum(events, Profit);
      var totalAttendance := SumInt(events, Attendance);
      var totalCost := Sum(events, Cost);
      TotalProfitIsRevenueMinusCost(events);
      Summary(
        |events|,
        Sum(events, Roi) / n,
        totalProfit / n,
        totalProfit,
        totalAttendance,
        if totalAttendance != 0 then totalCost / (totalAttendance as real) else 0.0)
  }

  /** The summed profit is the summed revenue less the summed cost. */
  lemma {:induction false} TotalProfitIsRevenueMinusCost(events: seq<FestivalEvent>)
    ensures Sum(events, Profit) == Sum(events, Revenue) - Sum(events, Cost)
  {
    if events != [] {
      TotalProfitIsRevenueMinusCost(events[1..]);
    }
  }

  /** Order is irrelevant: permuting the input changes no field of the
      summary, since every field is a count or a sum. */
  lemma SummarizePermutation(s: seq<FestivalEvent>, t: seq<FestivalEvent>)
    requires multiset(s) == multiset(t)
    ensures Summarize(s) == Summarize(t)
  {
    assert |s| == |multiset(s)| == |multiset(t)| == |t|;
    SumPermutation(s, t, Profit);
    SumPermutation(s, t, Roi);
    SumPermutation(s, t, Cost);
    SumIntPermutation(s, t, Attendance);
  }

  /** The summary as the dictionary the source returns, with its six keys;
      the count and the total attendance are integers, the rest numbers. */
  function SummaryAsDict(s: Summary): (j: Json)
    ensures j.JObject?
    ensures j.fields.Keys == {"events", "avg_roi", "avg_profit", "total_profit", "total_attendance", "avg_cost_per_attendee"}
  {
    JObject(map[
      "events" := JInt(s.events),
      "avg_roi" := JNumber(s.avgRoi),
      "avg_profit" := JNumber(s.avgProfit),
      "total_profit" := JNumber(s.totalProfit),
      "total_attendance" := JInt(s.totalAttendance),
      "avg_cost_per_attendee" := JNumber(s.avgCostPerAttendee)])
  }

  /** Reads a summary back from its dictionary. */
  function SummaryFromDict(j: Json): Option<Summary>
  {
    match (GetInt(j, "events"), GetNumber(j, "avg_roi"), GetNumber(j, "avg_profit"),
           GetNumber(j, "total_profit"), GetInt(j, "total_attendance"), GetNumber(j, "avg_cost_per_attendee"))
    case (Some(n), Some(roi), Some(profit), Some(total), Some(att), Some(cpa)) =>
      if n >= 0 then Some(Summary(n, roi, profit, total, att, cpa)) else None
    case _ => None
  }

  /** Reading the dictionary back gives the same summary values. */
  lemma SummaryDictRoundTrip(s: Summary)
    ensures SummaryFromDict(SummaryAsDict(s)) == Some(s)
  {
  }
}
