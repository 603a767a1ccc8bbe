/** What the analysis yields on the four sample events. */
module Scenarios {
  import opened Seqs
  import opened Models
  import opened Analysis
  import opened StableSort
  import opened Services
  import opened SampleData
  import opened Cli

  /** Filtering four elements keeps those that pass, in order. */
  lemma FilterFour<T(!new)>(s: seq<T>, p: T -> bool)
    requires |s| == 4
    ensures Filter(s, p) == (if p(s[0]) then [s[0]] else []) + (if p(s[1]) then [s[1]] else [])
                          + (if p(s[2]) then [s[2]] else []) + (if p(s[3]) then [s[3]] else [])
  {
    var a, b, c, d := [s[0]], [s[1]], [s[2]], [s[3]];
    var ab := a + b;
    var abc := ab + c;
    assert s == abc + d;
    FilterAppend(abc, d, p);
    FilterAppend(ab, c, p);
    FilterAppend(a, b, p);
    FilterSingleton(s[0], p);
    FilterSingleton(s[1], p);
    FilterSingleton(s[2], p);
    FilterSingleton(s[3], p);
  }

  /** The sample list is already in descending ROI order. */
  lemma SampleSortedByRoi()
    ensures Sorted(SampleEvents(), RankKey("roi"), Descending)
  {
    var s := SampleEvents();
    var key := RankKey("roi");
    SampleRoisDecrease();
    forall i, j | 0 <= i < j < |s| ensures InOrder(key(s[i]), key(s[j]), Descending) {
      assert key(s[i]) == Roi(s[i]) && key(s[j]) == Roi(s[j]);
    }
  }

  /** So the default top three by ROI are its first three events, and
      asking for a hundred yields all four. */
  lemma SampleTopByRoi()
    ensures TopEvents(SampleEvents(), "roi", 3) == SampleEvents()[..3]
    ensures TopEvents(SampleEvents(), "roi", 100) == SampleEvents()
  {
    var s := SampleEvents();
    SampleSortedByRoi();
    SortSortedIsIdentity(s, RankKey("roi"), Descending);
    var top3, top100 := TopEvents(s, "roi", 3), TopEvents(s, "roi", 100);
    assert |top3| == 3 && IsPrefix(top3, s);
    assert |top100| == 4 && IsPrefix(top100, s);
  }

  /** Against a 20% target only Winter Village falls short. */
  lemma SampleUnderperformers()
    ensures Underperformers(SampleEvents(), Some(0.2)) == [SampleEvents()[3]]
    ensures SampleEvents()[3].name == "Winter Village"
  {
    var s := SampleEvents();
    SampleRois();
    FilterFour(s, RoiBelow(0.2));
  }

  /** An attendance floor of 6000 keeps Coastal Sounds and Winter Village. */
  lemma SampleAttendanceFloor()
    ensures WorkingEvents(DefaultArgs.(minAttendance := 6000), SampleEvents()) == [SampleEvents()[1], SampleEvents()[3]]
  {
    SampleAttendanceFilter();
  }

  lemma SampleAttendanceFilter()
    ensures Filter(SampleEvents(), AttendanceAtLeast(6000)) == [SampleEvents()[1], SampleEvents()[3]]
  {
    var s := SampleEvents();
    var p := AttendanceAtLeast(6000);
    assert !p(s[0]) && p(s[1]) && !p(s[2]) && p(s[3]);
    KeepSecondAndFourth(s, p);
  }

  lemma KeepSecondAndFourth<T(!new)>(s: seq<T>, p: T -> bool)
    requires |s| == 4 && !p(s[0]) && p(s[1]) && !p(s[2]) && p(s[3])
    ensures Filter(s, p) == [s[1], s[3]]
  {
    FilterFour(s, p);
  }

  /** Those two events have 17700 attendees between them. */
  lemma SampleAttendanceFloorTotal()
    ensures Summarize(WorkingEvents(DefaultArgs.(minAttendance := 6000), SampleEvents())).totalAttendance == 17700
  {
    SampleAttendanceFloor();
    var s := SampleEvents();
    var kept := [s[1], s[3]];
    assert kept[1..][1..] == [];
    assert SumInt(kept, Attendance) == 8500 + SumInt(kept[1..], Attendance);
  }

  /** Everything in the command-line report agrees with the dashboard's
      analysis service run on the same working list. */
  lemma SelectionAgreesWithService(s: Selection, args: Args)
    requires IsAnalysis(s, args)
    ensures var a := AnalyseEvents(s.events, args.rankBy, args.top, args.bottom, args.roiTarget);
      && s.summary == a.summary
      && s.underperformers == a.underperformers
      && (!args.summaryOnly ==> s.topEvents == a.topEvents && s.bottomEvents == a.bottomEvents)
      && (args.summaryOnly ==> s.topEvents == [] && s.bottomEvents == [])
  {
  }
}
