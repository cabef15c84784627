/** The custom-analytics table: a header row (the x-axis column, then one
    column per segment key or a single measure column) and one body row per
    bar-graph datum. The axis constants, the date keys, `renderMonthAndYear`
    and `addSpaceIfCamelCase` are not part of this model: the constants are
    parameters and the two helpers appear as constructors of `Text`. */
module AnalyticsTable {
  import opened Js
  import opened Entities

  datatype AssigneeDetail = AssigneeDetail(assignees__id: Option<string>, assignees__display_name: string)

  /** What a cell or heading shows. */
  datatype Text =
    | Raw(s: string)
    | NoAssignee                  // the translated "no assignee"
    | MonthAndYear(key: string)   // renderMonthAndYear(key)
    | SpacedCamelCase(s: string)  // addSpaceIfCamelCase(s)
    | AxisLabel(axisName: Option<string>)

  predicate IsAssignee(a: AssigneeDetail, assigneeId: string) {
    a.assignees__id == Some(assigneeId)
  }

  /** `renderAssigneeName`: the display name of the first matching assignee,
      "no assignee" when none matches or the name is empty. */
  function AssigneeName(details: seq<AssigneeDetail>, assigneeId: string): (r: Text)
    ensures r.Raw? || r.NoAssignee?
    ensures r.Raw? ==> r.s != ""
    ensures r.Raw? ==> exists k :: 0 <= k < |details| && IsAssignee(details[k], assigneeId) && details[k].assignees__display_name == r.s
    ensures (forall k :: 0 <= k < |details| ==> !IsAssignee(details[k], assigneeId)) ==> r == NoAssignee
  {
    match Find(details, (a: AssigneeDetail) => IsAssignee(a, assigneeId))
    case None => NoAssignee
    case Some(a) => if a.assignees__display_name != "" then Raw(a.assignees__display_name) else NoAssignee
  }

  /** The first matching assignee decides, even when a later one has a name. */
  lemma AssigneeNameOfFirstMatch(details: seq<AssigneeDetail>, assigneeId: string, k: nat)
    requires k < |details| && IsAssignee(details[k], assigneeId)
    requires forall j :: 0 <= j < k ==> !IsAssignee(details[j], assigneeId)
    ensures AssigneeName(details, assigneeId) ==
      if details[k].assignees__display_name == "" then NoAssignee else Raw(details[k].assignees__display_name)
  {
    var p := (a: AssigneeDetail) => IsAssignee(a, assigneeId);
    assert p(details[k]);
    var i := FindIndex(details, p).value;
    assert !(i < k) && !(i > k);
  }

  /** The label of the axis item whose value is `value`, if any. */
  function AxisItemLabel(items: seq<AxisItem>, value: string): (r: Option<string>)
    ensures r.None? <==> forall k :: 0 <= k < |items| ==> items[k].value != value
    ensures r.Some? ==> exists k :: 0 <= k < |items| && items[k].value == value && items[k].name == r.value &&
                          forall j :: 0 <= j < k ==> items[j].value != value
  {
    match Find(items, (v: AxisItem) => v.value == value)
    case None => None
    case Some(v) => Some(v.name)
  }

  /** A table is segmented when `params.segment` is truthy. */
  predicate Segmented(params: AnalyticsParams) {
    Present(params.segment)
  }

  /** The heading of one segment column. */
  function SegmentHeading(key: string, segment: string, details: seq<AssigneeDetail>, dateKeys: seq<string>): (r: Text)
    ensures segment == "assignees__id" ==> r == AssigneeName(details, key)
    ensures segment != "assignees__id" && segment in dateKeys ==> r == MonthAndYear(key)
    ensures segment != "assignees__id" && segment !in dateKeys ==> r == Raw(key)
  {
    if segment == "assignees__id" then AssigneeName(details, key)
    else if segment in dateKeys then MonthAndYear(key)
    else Raw(key)
  }

  function Header(xItems: seq<AxisItem>, yItems: seq<AxisItem>, params: AnalyticsParams, xAxisKeys: seq<string>,
                  details: seq<AssigneeDetail>, dateKeys: seq<string>): (r: seq<Text>)
    ensures |r| == 1 + (if Segmented(params) then |xAxisKeys| else 1)
    ensures r[0] == AxisLabel(AxisItemLabel(xItems, params.x_axis))
    ensures Segmented(params) ==> forall k :: 0 <= k < |xAxisKeys| ==>
      r[k + 1] == SegmentHeading(xAxisKeys[k], params.segment.value, details, dateKeys)
    ensures !Segmented(params) ==> r[1] == AxisLabel(AxisItemLabel(yItems, params.y_axis))
  {
    [AxisLabel(AxisItemLabel(xItems, params.x_axis))] +
    if Segmented(params) then
      seq(|xAxisKeys|, k requires 0 <= k < |xAxisKeys| => SegmentHeading(xAxisKeys[k], params.segment.value, details, dateKeys))
    else [AxisLabel(AxisItemLabel(yItems, params.y_axis))]
  }

  datatype DatumValue = DNum(n: int) | DStr(s: string)

  /** A bar-graph datum: its name and its other properties. */
  datatype Datum = Datum(name: string, values: map<string, DatumValue>)

  /** `item[key]`, undefined when the datum has no such property. */
  function Lookup(item: Datum, key: string): (r: Option<DatumValue>)
    ensures key == "name" ==> r == Some(DStr(item.name))
    ensures key != "name" ==> (r.Some? <==> key in item.values)
    ensures key != "name" && r.Some? ==> r.value == item.values[key]
  {
    if key == "name" then Some(DStr(item.name))
    else if key in item.values then Some(item.values[key])
    else None
  }

  datatype Cell = Value(v: DatumValue) | Blank

  datatype Row = Row(first: Text, cells: seq<Cell>)

  function RowOf(item: Datum, params: AnalyticsParams, xAxisKeys: seq<string>, yAxisKey: string,
                 details: seq<AssigneeDetail>): (r: Row)
    ensures params.x_axis == "assignees__id" ==> r.first == AssigneeName(details, item.name)
    ensures params.x_axis != "assignees__id" ==> r.first == SpacedCamelCase(item.name)
    ensures Segmented(params) ==> |r.cells| == |xAxisKeys| && forall k :: 0 <= k < |xAxisKeys| ==>
      r.cells[k] == Value(Lookup(item, xAxisKeys[k]).GetOr(DNum(0)))
    ensures !Segmented(params) ==> r.cells == [if Lookup(item, yAxisKey).Some? then Value(Lookup(item, yAxisKey).value) else Blank]
  {
    var first := if params.x_axis == "assignees__id" then AssigneeName(details, item.name) else SpacedCamelCase(item.name);
    var cells :=
      if Segmented(params) then
        seq(|xAxisKeys|, k requires 0 <= k < |xAxisKeys| => Value(Lookup(item, xAxisKeys[k]).GetOr(DNum(0))))
      else
        [match Lookup(item, yAxisKey) case Some(v) => Value(v) case None => Blank];
    Row(first, cells)
  }

  /** One body row per datum, in order. */
  function Rows(data: seq<Datum>, params: AnalyticsParams, xAxisKeys: seq<string>, yAxisKey: string,
                details: seq<AssigneeDetail>): (r: seq<Row>)
    ensures |r| == |data|
    ensures forall i :: 0 <= i < |data| ==> r[i] == RowOf(data[i], params, xAxisKeys, yAxisKey, details)
  {
    seq(|data|, i requires 0 <= i < |data| => RowOf(data[i], params, xAxisKeys, yAxisKey, details))
  }

  /** The table is rectangular: every row has one cell under each heading. */
  lemma TableIsRectangular(xItems: seq<AxisItem>, yItems: seq<AxisItem>, data: seq<Datum>, params: AnalyticsParams,
                           xAxisKeys: seq<string>, yAxisKey: string, details: seq<AssigneeDetail>, dateKeys: seq<string>)
    ensures forall i :: 0 <= i < |data| ==>
      1 + |Rows(data, params, xAxisKeys, yAxisKey, details)[i].cells| == |Header(xItems, yItems, params, xAxisKeys, details, dateKeys)|
  {
  }

  /** A segmented cell shows zero for a missing key. */
  lemma MissingSegmentShowsZero(item: Datum, params: AnalyticsParams, xAxisKeys: seq<string>, yAxisKey: string,
                                details: seq<AssigneeDetail>, k: nat)
    requires Segmented(params) && k < |xAxisKeys|
    requires xAxisKeys[k] != "name" && xAxisKeys[k] !in item.values
    ensures RowOf(item, params, xAxisKeys, yAxisKey, details).cells[k] == Value(DNum(0))
  {
  }
}
