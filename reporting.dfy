/** Serialising events and analysis results (festival_roi/reporting.py):
    the flat event dictionary and the report document that `export_report`
    writes. Creating the directory and writing the file are not modelled;
    the document is kept as a `Json` value. */
module Reporting {
  import opened Seqs
  import opened Models
  import opened Json
  import opened Analysis

  /** The seven keys of an event dictionary. */
  const EventKeys: set<string> := {"name", "cost", "revenue", "attendance", "roi", "profit", "cost_per_attendee"}

  /** The seven keys of the report document. */
  const ReportKeys: set<string> :=
    {"title", "summary", "ranking_metric", "top_events", "bottom_events", "roi_target", "underperforming_events"}

  /** The flat dictionary of an event: its four stored fields and its three
      derived metrics. */
  function EventAsDict(e: FestivalEvent): (j: Json)
    ensures j.JObject? && j.fields.Keys == EventKeys
    ensures GetNumber(j, "roi") == Some(Roi(e))
    ensures GetNumber(j, "profit") == Some(Profit(e))
    ensures GetNumber(j, "cost_per_attendee") == Some(CostPerAttendee(e))
  {
    JObject(map[
      "name" := JString(e.name),
      "cost" := JNumber(e.cost),
      "revenue" := JNumber(e.revenue),
      "attendance" := JInt(e.attendance),
      "roi" := JNumber(Roi(e)),
      "profit" := JNumber(Profit(e)),
      "cost_per_attendee" := JNumber(CostPerAttendee(e))])
  }

  /** Reads an event back from its dictionary; the derived entries must
      agree with the metrics recomputed from the stored ones. */
  function EventFromDict(j: Json): Option<FestivalEvent>
  {
    match (GetString(j, "name"), GetNumber(j, "cost"), GetNumber(j, "revenue"), GetInt(j, "attendance"))
    case (Some(name), Some(cost), Some(revenue), Some(attendance)) =>
      var e := FestivalEvent(name, cost, revenue, attendance);
      if GetNumber(j, "roi") == Some(Roi(e)) && GetNumber(j, "profit") == Some(Profit(e))
         && GetNumber(j, "cost_per_attendee") == Some(CostPerAttendee(e))
      then Some(e) else None
    case _ => None
  }

  /** Reading an event dictionary back gives the event. */
  lemma EventDictRoundTrip(e: FestivalEvent)
    ensures EventFromDict(EventAsDict(e)) == Some(e)
  {
  }

  /** `[event_as_dict(event) for event in events]`. */
  function EventDicts(events: seq<FestivalEvent>): (r: seq<Json>)
    ensures |r| == |events|
    ensures forall i :: 0 <= i < |events| ==> r[i] == EventAsDict(events[i])
  {
    seq(|events|, i requires 0 <= i < |events| => EventAsDict(events[i]))
  }

  /** Reads a list of event dictionaries back, failing if any entry fails. */
  function EventsFromDicts(items: seq<Json>): Option<seq<FestivalEvent>>
  {
    if items == [] then Some([])
    else
      match (EventFromDict(items[0]), EventsFromDicts(items[1..]))
      case (Some(e), Some(rest)) => Some([e] + rest)
      case _ => None
  }

  /** Reading a serialised event list back gives the same events, in the
      same order. */
  lemma {:induction false} EventDictsRoundTrip(events: seq<FestivalEvent>)
    ensures EventsFromDicts(EventDicts(events)) == Some(events)
  {
    if events != [] {
      assert EventDicts(events)[1..] == EventDicts(events[1..]);
      EventDictsRoundTrip(events[1..]);
      EventDictRoundTrip(events[0]);
      assert events == [events[0]] + events[1..];
    }
  }

  /** The report document that `export_report` writes, with the summary
      dictionary, the metric name, the three event lists and the optional
      ROI target (None becomes null). */
  function ReportPayload(
    summary: Summary,
    topEvents: seq<FestivalEvent>,
    metric: string,
    bottomEvents: seq<FestivalEvent>,
    underperformers: seq<FestivalEvent>,
    roiTarget: Option<real>,
    title: string): (j: Json)
    ensures j.JObject? && j.fields.Keys == ReportKeys
    ensures j.fields["title"] == JString(title)
    ensures j.fields["summary"] == SummaryAsDict(summary)
    ensures j.fields["ranking_metric"] == JString(metric)
    ensures j.fields["roi_target"] == if roiTarget.Some? then JNumber(roiTarget.value) else JNull
    ensures j.fields["top_events"] == JArray(EventDicts(topEvents))
    ensures j.fields["bottom_events"] == JArray(EventDicts(bottomEvents))
    ensures j.fields["underperforming_events"] == JArray(EventDicts(underperformers))
  {
    JObject(map[
      "title" := JString(title),
      "summary" := SummaryAsDict(summary),
      "ranking_metric" := JString(metric),
      "top_events" := JArray(EventDicts(topEvents)),
      "bottom_events" := JArray(EventDicts(bottomEvents)),
      "roi_target" := if roiTarget.Some? then JNumber(roiTarget.value) else JNull,
      "underperforming_events" := JArray(EventDicts(underperformers))])
  }

  /** What a reader of the report document gets back. */
  datatype Report = Report(
    summary: Summary,
    topEvents: seq<FestivalEvent>,
    metric: string,
    bottomEvents: seq<FestivalEvent>,
    underperformers: seq<FestivalEvent>,
    roiTarget: Option<real>,
    title: string)

  function EventListField(j: Json, key: string): Option<seq<FestivalEvent>>
  {
    if j.JObject? && key in j.fields && j.fields[key].JArray? then EventsFromDicts(j.fields[key].items) else None
  }

  /** Parses a report document back into its parts. */
  function ReportFromPayload(j: Json): Option<Report>
  {
    if !(j.JObject? && "summary" in j.fields && "roi_target" in j.fields) then None
    else
      var target: Option<Option<real>> :=
        match j.fields["roi_target"]
        case JNull => Some(None)
        case JNumber(t) => Some(Some(t))
        case _ => None;
      match (SummaryFromDict(j.fields["summary"]), EventListField(j, "top_events"), GetString(j, "ranking_metric"),
             EventListField(j, "bottom_events"), EventListField(j, "underperforming_events"), target, GetString(j, "title"))
      case (Some(s), Some(top), Some(m), Some(bottom), Some(under), Some(t), Some(title)) =>
        Some(Report(s, top, m, bottom, under, t, title))
      case _ => None
  }

  /** Re-reading an exported report reproduces the same summary values, the
      same metric, title and target, and the same ordered event lists. */
  lemma ReportRoundTrip(
    summary: Summary,
    topEvents: seq<FestivalEvent>,
    metric: string,
    bottomEvents: seq<FestivalEvent>,
    underperformers: seq<FestivalEvent>,
    roiTarget: Option<real>,
    title: string)
    ensures ReportFromPayload(ReportPayload(summary, topEvents, metric, bottomEvents, underperformers, roiTarget, title))
         == Some(Report(summary, topEvents, metric, bottomEvents, underperformers, roiTarget, title))
  {
    var j := ReportPayload(summary, topEvents, metric, bottomEvents, underperformers, roiTarget, title);
    SummaryDictRoundTrip(summary);
    EventListRoundTrip(j, "top_events", topEvents);
    EventListRoundTrip(j, "bottom_events", bottomEvents);
    EventListRoundTrip(j, "underperforming_events", underperformers);
    assert GetString(j, "ranking_metric") == Some(metric);
    assert GetString(j, "title") == Some(title);
    ReportFieldsRead(j, Report(summary, topEvents, metric, bottomEvents, underperformers, roiTarget, title));
  }

  /** A list of event dictionaries stored under `key` reads back as the events. */
  lemma EventListRoundTrip(j: Json, key: string, events: seq<FestivalEvent>)
    requires j.JObject? && key in j.fields && j.fields[key] == JArray(EventDicts(events))
    ensures EventListField(j, key) == Some(events)
  {
    EventDictsRoundTrip(events);
  }

  /** A document each of whose fields reads back as the matching part of `r`
      reads back as `r`. */
  lemma ReportFieldsRead(j: Json, r: Report)
    requires j.JObject? && "summary" in j.fields && "roi_target" in j.fields
    requires SummaryFromDict(j.fields["summary"]) == Some(r.summary)
    requires EventListField(j, "top_events") == Some(r.topEvents)
    requires EventListField(j, "bottom_events") == Some(r.bottomEvents)
    requires EventListField(j, "underperforming_events") == Some(r.underperformers)
    requires GetString(j, "ranking_metric") == Some(r.metric)
    requires GetString(j, "title") == Some(r.title)
    requires j.fields["roi_target"] == if r.roiTarget.Some? then JNumber(r.roiTarget.value) else JNull
    ensures ReportFromPayload(j) == Some(r)
  {
  }
}
