/** The festival event record and its derived metrics
    (festival_roi/models.py). An event is an immutable value; every derived
    metric is a pure function of the four stored fields, recomputed on each
    access, so evaluating it twice gives the same value and changes nothing. */
module Models {

  /** One festival event. Money is exact `real` (the source uses floats);
      attendance is an unbounded integer and, as in the source, may be
      negative: no sign check is made anywhere in the core. */
  datatype FestivalEvent = FestivalEvent(name: string, cost: real, revenue: real, attendance: int)

  /** Return on investment, guarded against a zero cost. */
  function Roi(e: FestivalEvent): (r: real)
    ensures e.cost == 0.0 ==> r == 0.0
    ensures e.cost != 0.0 ==> r * e.cost == e.revenue - e.cost
  {
    if e.cost == 0.0 then 0.0 else (e.revenue - e.cost) / e.cost
  }

  /** Profit: what the revenue leaves after the cost. */
  function Profit(e: FestivalEvent): (r: real)
    ensures r + e.cost == e.revenue
  {
    e.revenue - e.cost
  }

  /** Cost per attendee, guarded against a zero attendance. */
  function CostPerAttendee(e: FestivalEvent): (r: real)
    ensures e.attendance == 0 ==> r == 0.0
    ensures e.attendance != 0 ==> r * (e.attendance as real) == e.cost
  {
    if e.attendance == 0 then 0.0 else e.cost / (e.attendance as real)
  }

  /** When the cost is non-zero, ROI is profit per unit of cost. */
  lemma RoiIsProfitPerCost(e: FestivalEvent)
    requires e.cost != 0.0
    ensures Roi(e) == Profit(e) / e.cost
    ensures Roi(e) * e.cost == Profit(e)
  {
  }

  /** Accessors of the stored fields, as first-class functions for sums. */
  function Cost(e: FestivalEvent): real { e.cost }

  function Revenue(e: FestivalEvent): real { e.revenue }

  function Attendance(e: FestivalEvent): int { e.attendance }
}
