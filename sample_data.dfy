/** The four demonstration events (festival_roi/sample_data.py; the
    command-line script carries an identical copy, defined once here). */
module SampleData {
  import opened Models

  /** The demonstration events, in their fixed order: every cost and every
      attendance is positive, so no division guard fires. */
  function SampleEvents(): (r: seq<FestivalEvent>)
    ensures |r| == 4
    ensures forall i :: 0 <= i < |r| ==> r[i].cost > 0.0 && r[i].attendance > 0
  {
    [
      FestivalEvent("Spring Lights", 45000.0, 86000.0, 5000),
      FestivalEvent("Coastal Sounds", 78000.0, 120000.0, 8500),
      FestivalEvent("Harvest Gala", 30000.0, 41000.0, 3600),
      FestivalEvent("Winter Village", 90000.0, 99000.0, 9200)
    ]
  }

  /** The ROI of each demonstration event as an exact fraction. */
  lemma SampleRois()
    ensures Roi(SampleEvents()[0]) == 41.0 / 45.0
    ensures Roi(SampleEvents()[1]) == 7.0 / 13.0
    ensures Roi(SampleEvents()[2]) == 11.0 / 30.0
    ensures Roi(SampleEvents()[3]) == 1.0 / 10.0
  {
  }

  /** ROI strictly decreases along the demonstration list. */
  lemma SampleRoisDecrease()
    ensures forall i, j :: 0 <= i < j < |SampleEvents()| ==> Roi(SampleEvents()[i]) > Roi(SampleEvents()[j])
  {
    SampleRois();
  }
}
