/** The selection pipeline of the command-line script's `main`
    (festival_roi_analysis.py:97-138): choose the events, filter them by
    attendance, summarise, rank, flag and optionally hand a report to the
    exporter. Argument parsing and every line printed are not modelled; the
    parsed arguments arrive as a value, and the outcome of loading the CSV
    file named by `--input` arrives as a parameter. */
module Cli {
  import opened Seqs
  import opened Models
  import opened Ranking
  import opened Json
  import opened Analysis
  import opened StableSort
  import opened Reporting
  import opened Services
  import opened Io
  import opened SampleData

  /** The parsed command line. */
  datatype Args = Args(
    input: Option<string>,
    top: int,
    bottom: int,
    minAttendance: int,
    summaryOnly: bool,
    exportJson: Option<string>,
    rankBy: string,
    currency: string,
    reportTitle: string,
    roiTarget: Option<real>)

  /** The argument defaults: top 3, no bottom list, no attendance floor,
      ranking by ROI, `$`, the default title, no target. */
  const DefaultArgs := Args(None, 3, 0, 0, false, None, "roi", "$", "Festival ROI Summary", None)

  /** A request to write `document` to `path`. */
  datatype ExportRequest = ExportRequest(path: string, document: Json)

  /** Everything `main` computes before it starts printing. */
  datatype Selection = Selection(
    events: seq<FestivalEvent>,
    summary: Summary,
    topEvents: seq<FestivalEvent>,
    bottomEvents: seq<FestivalEvent>,
    underperformers: seq<FestivalEvent>,
    exportRequest: Option<ExportRequest>)

  /** Holds of the events with at least `minimum` attendees. */
  function AttendanceAtLeast(minimum: int): FestivalEvent -> bool
  {
    (e: FestivalEvent) => e.attendance >= minimum
  }

  /** The events `main` starts from: the loaded file when `--input` is
      given, the demonstration events otherwise. */
  function SourceEvents(args: Args, loaded: Result<seq<FestivalEvent>, LoadError>): (r: seq<FestivalEvent>)
    requires args.input.Some? ==> loaded.Success?
    ensures args.input.Some? ==> r == loaded.value
    ensures args.input.None? ==> r == SampleEvents() && |r| == 4
  {
    if args.input.Some? then loaded.value else SampleEvents()
  }

  /** The working list: with a positive floor, the events at or above it;
      otherwise all of them. */
  function WorkingEvents(args: Args, source: seq<FestivalEvent>): (r: seq<FestivalEvent>)
    ensures |r| <= |source|
    ensures args.minAttendance <= 0 ==> r == source
    ensures args.minAttendance > 0 ==> forall e :: e in r ==> e in source && e.attendance >= args.minAttendance
  {
    FilterSpec(source, AttendanceAtLeast(args.minAttendance));
    if args.minAttendance > 0 then Filter(source, AttendanceAtLeast(args.minAttendance)) else source
  }

  /** With a positive floor the working list is exactly the events at or
      above it, in their order; without one it is the whole list. */
  lemma WorkingEventsFloor(args: Args, source: seq<FestivalEvent>)
    ensures args.minAttendance <= 0 ==> WorkingEvents(args, source) == source
    ensures args.minAttendance > 0 ==> IsSubsequence(WorkingEvents(args, source), source)
    ensures args.minAttendance > 0 ==> forall e :: e in WorkingEvents(args, source) ==> e.attendance >= args.minAttendance
    ensures args.minAttendance > 0 ==> forall e: FestivalEvent :: e.attendance >= args.minAttendance ==>
      multiset(WorkingEvents(args, source))[e] == multiset(source)[e]
  {
    FilterSpec(source, AttendanceAtLeast(args.minAttendance));
  }

  /** The report header label of a ranking metric (the dictionary lookup in
      `main`); only the three command-line choices have one. */
  function RankLabel(rankBy: string): (r: Option<string>)
    ensures r.Some? <==> IsRankChoice(rankBy)
    ensures r == Some("ROI") <==> rankBy == "roi"
    ensures r == Some("Profit") <==> rankBy == "profit"
    ensures r == Some("Attendance") <==> rankBy == "attendance"
  {
    if rankBy == "roi" then Some("ROI")
    else if rankBy == "profit" then Some("Profit")
    else if rankBy == "attendance" then Some("Attendance")
    else None
  }

  /** The two rankings of `main`: the clamped top of a stable descending
      sort, the bottom of a separate ascending sort only when its clamped
      count is non-zero, and both cleared by summary-only. */
  method Rankings(events: seq<FestivalEvent>, args: Args) returns (topEvents: seq<FestivalEvent>, bottomEvents: seq<FestivalEvent>)
    ensures topEvents == (if args.summaryOnly then [] else TopEvents(events, args.rankBy, args.top))
    ensures bottomEvents == (if args.summaryOnly then [] else BottomEvents(events, args.rankBy, args.bottom))
  {
    var key := RankKey(args.rankBy);
    var topCount := Clamp(args.top, |events|);
    var rankedDesc: seq<FestivalEvent> := [];
    if events != [] {
      rankedDesc := Sort(events, key, Descending);
    }
    topEvents := rankedDesc[..topCount];
    assert topEvents == TopEvents(events, args.rankBy, args.top);
    var bottomCount := Clamp(args.bottom, |events|);
    bottomEvents := [];
    if bottomCount != 0 {
      bottomEvents := Sort(events, key, Ascending)[..bottomCount];
    }
    assert bottomEvents == BottomEvents(events, args.rankBy, args.bottom);
    if args.summaryOnly {
      topEvents := [];
      bottomEvents := [];
    }
  }

  /** What `main` computes from its working list `s.events`: the summary,
      the two rankings (both empty under summary-only), the underperformers,
      and the report handed over only when an export path is given,
      carrying the ranking metric in its metric slot. */
  predicate IsAnalysis(s: Selection, args: Args)
  {
    && s.summary == Summarize(s.events)
    && s.topEvents == (if args.summaryOnly then [] else TopEvents(s.events, args.rankBy, args.top))
    && s.bottomEvents == (if args.summaryOnly then [] else BottomEvents(s.events, args.rankBy, args.bottom))
    && s.underperformers == Underperformers(s.events, args.roiTarget)
    && s.exportRequest == (if args.exportJson.None? then None else Some(ExportRequest(args.exportJson.value,
         ReportPayload(s.summary, s.topEvents, args.rankBy, s.bottomEvents, s.underperformers, args.roiTarget, args.reportTitle))))
  }

  /** The part of `main` after the working list is fixed. */
  method Analyse(events: seq<FestivalEvent>, args: Args) returns (s: Selection)
    ensures s.events == events
    ensures IsAnalysis(s, args)
  {
    var summary := Summarize(events);
    var topEvents, bottomEvents := Rankings(events, args);
    var underperformers := Underperformers(events, args.roiTarget);
    var exportRequest: Option<ExportRequest> := None;
    if args.exportJson.Some? {
      exportRequest := Some(ExportRequest(args.exportJson.value,
        ReportPayload(summary, topEvents, args.rankBy, bottomEvents, underperformers, args.roiTarget, args.reportTitle)));
    }
    s := Selection(events, summary, topEvents, bottomEvents, underperformers, exportRequest);
  }

  /** The start of `main`: a failed load aborts; otherwise the loaded file
      (or the demonstration events without `--input`) filtered by the
      attendance floor. */
  method ChooseEvents(args: Args, loaded: Result<seq<FestivalEvent>, LoadError>) returns (r: Result<seq<FestivalEvent>, LoadError>)
    ensures r.Failure? <==> args.input.Some? && loaded.Failure?
    ensures r.Failure? ==> r.error == loaded.error
    ensures r.Success? ==> r.value == WorkingEvents(args, SourceEvents(args, loaded))
  {
    var events := SampleEvents();
    if args.input.Some? {
      if loaded.Failure? {
        return Failure(loaded.error);
      }
      events := loaded.value;
    }
    if args.minAttendance > 0 {
      events := Filter(events, AttendanceAtLeast(args.minAttendance));
    }
    return Success(events);
  }

  /** `main` up to the printing: a failed load aborts; otherwise the working
      list is chosen, filtered by attendance and analysed, ranking and
      flagging exactly as the dashboard's analysis service
      (`Services.AnalyseEvents`) does. */
  method SelectEvents(args: Args, loaded: Result<seq<FestivalEvent>, LoadError>) returns (r: Result<Selection, LoadError>)
    ensures r.Failure? <==> args.input.Some? && loaded.Failure?
    ensures r.Failure? ==> r.error == loaded.error
    ensures r.Success? ==> r.value.events == WorkingEvents(args, SourceEvents(args, loaded))
    ensures r.Success? ==> IsAnalysis(r.value, args)
  {
    var working := ChooseEvents(args, loaded);
    if working.Failure? {
      return Failure(working.error);
    }
    var selection := Analyse(working.value, args);
    return Success(selection);
  }
}
