/**
 * The analysis page's projection and cost table (app.py, lines 327-332):
 * the daily estimate scaled to a week, a month and a year, each priced at
 * a fixed 5 per unit.
 */
module Projection {
  import opened Estimator

  datatype Period = Daily | Weekly | Monthly | Yearly

  /** The table's rows, in order. */
  const Periods: seq<Period> := [Daily, Weekly, Monthly, Yearly]

  /** The fixed price per unit of consumption. */
  const UnitPrice: real := 5.0

  /** How many days a period spans. */
  function Days(p: Period): (d: nat)
  {
    match p
    case Daily => 1
    case Weekly => 7
    case Monthly => 30
    case Yearly => 365
  }

  /** The table as three parallel columns. */
  datatype CostTable = CostTable(period: seq<Period>, consumption: seq<real>, cost: seq<real>)

  /**
   * The projection of a daily figure: each row's consumption is the daily
   * figure times the period's days, and each row's cost is the unit price
   * times that consumption.
   */
  function ProjectionTable(daily: real): (t: CostTable)
    ensures t.period == Periods
    ensures |t.consumption| == |t.cost| == |Periods|
    ensures forall i :: 0 <= i < |Periods| ==> t.consumption[i] == Days(Periods[i]) as real * daily
    ensures forall i :: 0 <= i < |Periods| ==> t.cost[i] == UnitPrice * t.consumption[i]
  {
    CostTable(
      [Daily, Weekly, Monthly, Yearly],
      [daily, daily * 7.0, daily * 30.0, daily * 365.0],
      [daily * 5.0, daily * 7.0 * 5.0, daily * 30.0 * 5.0, daily * 365.0 * 5.0])
  }

  /** A larger daily figure never gives a smaller row, in consumption or in cost. */
  lemma ProjectionMonotone(d1: real, d2: real, i: nat)
    requires d1 <= d2 && i < |Periods|
    ensures ProjectionTable(d1).consumption[i] <= ProjectionTable(d2).consumption[i]
    ensures ProjectionTable(d1).cost[i] <= ProjectionTable(d2).cost[i]
  {
  }

  /** Projecting the sum of two daily loads gives the sum of their projections, row by row. */
  lemma ProjectionAdditive(d1: real, d2: real, i: nat)
    requires i < |Periods|
    ensures ProjectionTable(d1 + d2).consumption[i]
         == ProjectionTable(d1).consumption[i] + ProjectionTable(d2).consumption[i]
    ensures ProjectionTable(d1 + d2).cost[i] == ProjectionTable(d1).cost[i] + ProjectionTable(d2).cost[i]
  {
  }

  /** A daily load of 10 projects to 300 a month, costing 1500. */
  lemma MonthlyExample()
    ensures ProjectionTable(10.0).consumption[2] == 300.0
    ensures ProjectionTable(10.0).cost[2] == 1500.0
  {
  }

  /** For any estimate, the yearly cost lies between 4380 and 25185. */
  lemma YearlyCostBounds(t: Tier, a: Appliances)
    ensures 4380.0 <= ProjectionTable(DailyEnergy(t, a)).cost[3] <= 25185.0
  {
  }
}
