/** Choosing the number events are ranked by (festival_roi/ranking.py; the
    command-line script festival_roi_analysis.py carries an identical copy,
    which this model does not define twice). */
module Ranking {
  import opened Models

  /** The ranking value of `e` under the metric named `metric`: "profit"
      selects the profit, "attendance" the attendance as a number, and every
      other name, "roi" and unknown names alike, falls back to ROI. The
      function is total: no metric name is an error. */
  function MetricValue(e: FestivalEvent, metric: string): (r: real)
    ensures metric == "profit" ==> r == Profit(e)
    ensures metric == "attendance" ==> r == e.attendance as real
    ensures metric != "profit" && metric != "attendance" ==> r == Roi(e)
  {
    if metric == "profit" then Profit(e)
    else if metric == "attendance" then e.attendance as real
    else Roi(e)
  }

  /** The three metric names the command line accepts. */
  predicate IsRankChoice(metric: string)
  {
    metric == "roi" || metric == "profit" || metric == "attendance"
  }

  /** Any name outside the three choices ranks exactly like "roi". */
  lemma UnknownMetricRanksByRoi(e: FestivalEvent, metric: string)
    requires !IsRankChoice(metric)
    ensures MetricValue(e, metric) == MetricValue(e, "roi")
  {
  }
}
