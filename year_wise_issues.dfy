/** The "issues closed in a year" line graph: one point per month of the
    month list constant (a parameter here, its entries not being part of this
    model), with the count of that month's record or zero. */
module YearWiseIssues {
  import opened Js
  import opened Entities

  /** An entry of the month list: the month's number and its name. */
  datatype MonthItem = MonthItem(value: int, name: string)

  datatype Point = Point(x: string, y: int)

  /** `month.label.substring(0, 3)`: the first three characters, or the whole
      name when it is shorter. */
  function Abbreviation(monthName: string): (r: string)
    ensures |r| == if |monthName| < 3 then |monthName| else 3
    ensures r <= monthName
  {
    if |monthName| < 3 then monthName else monthName[..3]
  }

  predicate IsMonth(d: MonthCount, month: int) {
    d.month == month
  }

  /** `find((data) => data.month === month)?.count || 0`. */
  function MonthTotal(records: seq<MonthCount>, month: int): (r: int)
    ensures (forall k :: 0 <= k < |records| ==> records[k].month != month) ==> r == 0
    ensures r != 0 ==> exists k :: 0 <= k < |records| && records[k].month == month && records[k].count == r
  {
    match Find(records, (d: MonthCount) => IsMonth(d, month))
    case None => 0
    case Some(d) => if Truthy(Num(d.count)) then d.count else 0
  }

  /** A month with a record gets the count of its first record. */
  lemma MonthTotalOfFirstRecord(records: seq<MonthCount>, month: int, j: nat)
    requires j < |records| && records[j].month == month
    requires forall k :: 0 <= k < j ==> records[k].month != month
    ensures MonthTotal(records, month) == records[j].count
  {
    var p := (d: MonthCount) => IsMonth(d, month);
    assert p(records[j]);
    var k := FindIndex(records, p).value;
    assert !(k < j) && !(k > j);
  }

  /** A month without a record gets zero. */
  lemma MonthTotalWithoutRecord(records: seq<MonthCount>, month: int)
    requires forall k :: 0 <= k < |records| ==> records[k].month != month
    ensures MonthTotal(records, month) == 0
  {
  }

  /** The series: one point per month, in the month list's order. */
  function MonthSeries(months: seq<MonthItem>, records: seq<MonthCount>): (r: seq<Point>)
    ensures |r| == |months|
    ensures forall i :: 0 <= i < |months| ==>
      r[i].x == Abbreviation(months[i].name) && r[i].y == MonthTotal(records, months[i].value)
  {
    seq(|months|, i requires 0 <= i < |months| =>
      Point(Abbreviation(months[i].name), MonthTotal(records, months[i].value)))
  }

  datatype YearWiseView = EmptyState | Graph(points: seq<Point>, yTicks: seq<int>)

  /** The graph is drawn only when there are records; its Y ticks are the
      records' counts in their order. */
  function YearWise(months: seq<MonthItem>, analytics: DefaultAnalytics): (r: YearWiseView)
    ensures r.Graph? <==> |analytics.issue_completed_month_wise| > 0
    ensures r.Graph? ==> r.points == MonthSeries(months, analytics.issue_completed_month_wise)
    ensures r.Graph? ==> |r.yTicks| == |analytics.issue_completed_month_wise|
    ensures r.Graph? ==> forall i :: 0 <= i < |r.yTicks| ==> r.yTicks[i] == analytics.issue_completed_month_wise[i].count
  {
    var records := analytics.issue_completed_month_wise;
    if |records| > 0 then
      Graph(MonthSeries(months, records), seq(|records|, i requires 0 <= i < |records| => records[i].count))
    else EmptyState
  }
}
