/** The custom-analytics select bar: the form holding the project filter,
    the measure (y-axis), the dimension (x-axis) and the segment. Choosing an
    x-axis equal to the current segment first clears the segment; the segment
    selector never offers the current x-axis. Together they keep the segment
    apart from the x-axis. */
module SelectBar {
  import opened Js
  import opened Entities
  import SelectSegment

  /** The segment is unset or differs from the x-axis. */
  predicate Apart(p: AnalyticsParams) {
    p.segment.None? || p.segment.value != p.x_axis
  }

  /** The form's initial values on the analytics page. */
  const DefaultParams := AnalyticsParams("priority", "issue_count", None, None)

  lemma DefaultParamsApart()
    ensures Apart(DefaultParams)
  {
  }

  /** The x-axis handler: clear a segment equal to the chosen value, then set
      the x-axis. */
  function XAxisChosen(p: AnalyticsParams, value: string): (r: AnalyticsParams)
    ensures r.x_axis == value && r.y_axis == p.y_axis && r.project == p.project
    ensures p.segment == Some(value) ==> r.segment.None?
    ensures p.segment != Some(value) ==> r.segment == p.segment
  {
    var cleared := if p.segment == Some(value) then p.(segment := None) else p;
    cleared.(x_axis := value)
  }

  /** The segment the form holds after choosing an option. */
  function SegmentChosen(p: AnalyticsParams, choice: SelectSegment.SegmentOption): (r: AnalyticsParams)
    ensures r.x_axis == p.x_axis && r.y_axis == p.y_axis && r.project == p.project
    ensures choice.NoValue? ==> r.segment.None?
    ensures choice.Item? ==> r.segment == Some(choice.value)
  {
    p.(segment := if choice.NoValue? then None else Some(choice.value))
  }

  /** One user action on the select bar. */
  datatype Selection =
    | PickProject(project: Option<seq<string>>)
    | PickYAxis(yAxis: string)
    | PickXAxis(xAxis: string)
    | PickSegment(choice: SelectSegment.SegmentOption)

  function Step(p: AnalyticsParams, s: Selection): AnalyticsParams {
    match s
    case PickProject(project) => p.(project := project)
    case PickYAxis(y) => p.(y_axis := y)
    case PickXAxis(x) => XAxisChosen(p, x)
    case PickSegment(choice) => SegmentChosen(p, choice)
  }

  /** A selection the select bar can produce: a segment choice is one of the
      options offered for the current form values. */
  predicate Producible(p: AnalyticsParams, s: Selection, items: seq<AxisItem>, cycleId: QueryParam, moduleId: QueryParam) {
    s.PickSegment? ==> s.choice in SelectSegment.SegmentOptions(items, p, cycleId, moduleId)
  }

  /** Every single selection keeps the segment apart from the x-axis. */
  lemma StepKeepsApart(p: AnalyticsParams, s: Selection, items: seq<AxisItem>, cycleId: QueryParam, moduleId: QueryParam)
    requires Apart(p) && Producible(p, s, items, cycleId, moduleId)
    ensures Apart(Step(p, s))
  {
    if s.PickSegment? && s.choice.Item? {
      var options := SelectSegment.SegmentOptions(items, p, cycleId, moduleId);
      var k :| 0 <= k < |options| && options[k] == s.choice;
      assert k != 0;
    }
  }

  /** The form values after a sequence of selections. */
  function Run(p: AnalyticsParams, selections: seq<Selection>): AnalyticsParams
    decreases |selections|
  {
    if selections == [] then p else Run(Step(p, selections[0]), selections[1..])
  }

  /** Each selection in the sequence was offered when it was made. */
  predicate ProducibleRun(p: AnalyticsParams, selections: seq<Selection>, items: seq<AxisItem>, cycleId: QueryParam, moduleId: QueryParam)
    decreases |selections|
  {
    selections == [] ||
    (Producible(p, selections[0], items, cycleId, moduleId) &&
     ProducibleRun(Step(p, selections[0]), selections[1..], items, cycleId, moduleId))
  }

  /** After any sequence of selections from the initial values, the segment
      never equals the x-axis. */
  lemma {:induction false} RunKeepsApart(p: AnalyticsParams, selections: seq<Selection>, items: seq<AxisItem>,
                                         cycleId: QueryParam, moduleId: QueryParam)
    requires Apart(p) && ProducibleRun(p, selections, items, cycleId, moduleId)
    ensures Apart(Run(p, selections))
    decreases |selections|
  {
    if selections != [] {
      StepKeepsApart(p, selections[0], items, cycleId, moduleId);
      RunKeepsApart(Step(p, selections[0]), selections[1..], items, cycleId, moduleId);
    }
  }

  datatype Selector = ProjectSelector | YAxisSelector | XAxisSelector | SegmentSelector

  /** The selectors shown, in order: the project selector only outside a project. */
  function VisibleSelectors(isProjectLevel: bool): (r: seq<Selector>)
    ensures |r| == if isProjectLevel then 3 else 4
    ensures ProjectSelector in r <==> !isProjectLevel
    ensures r[|r| - 3..] == [YAxisSelector, XAxisSelector, SegmentSelector]
  {
    (if isProjectLevel then [] else [ProjectSelector]) + [YAxisSelector, XAxisSelector, SegmentSelector]
  }

  /** The form of the analytics page, as the select bar changes it. */
  class AnalyticsForm {
    var x_axis: string
    var y_axis: string
    var segment: Option<string>
    var project: Option<seq<string>>

    function Params(): AnalyticsParams
      reads this
    {
      AnalyticsParams(x_axis, y_axis, segment, project)
    }

    ghost predicate Valid()
      reads this
    {
      Apart(Params())
    }

    constructor ()
      ensures Params() == DefaultParams && Valid()
    {
      x_axis, y_axis, segment, project := "priority", "issue_count", None, None;
    }

    /** The x-axis selector's `onChange`: `setValue("segment", null)` when
        the segment equals the chosen value, then the x-axis. */
    method ChooseXAxis(value: string)
      requires Valid()
      modifies this
      ensures Valid()
      ensures Params() == Step(old(Params()), PickXAxis(value))
    {
      if segment == Some(value) {
        segment := None;
      }
      x_axis := value;
    }

    /** The segment selector's `onChange`, with one of the offered options. */
    method ChooseSegment(choice: SelectSegment.SegmentOption, items: seq<AxisItem>, cycleId: QueryParam, moduleId: QueryParam)
      requires Valid()
      requires choice in SelectSegment.SegmentOptions(items, Params(), cycleId, moduleId)
      modifies this
      ensures Valid()
      ensures Params() == Step(old(Params()), PickSegment(choice))
    {
      StepKeepsApart(Params(), PickSegment(choice), items, cycleId, moduleId);
      segment := if choice.NoValue? then None else Some(choice.value);
    }

    method ChooseYAxis(value: string)
      requires Valid()
      modifies this
      ensures Valid()
      ensures Params() == Step(old(Params()), PickYAxis(value))
    {
      y_axis := value;
    }

    method ChooseProject(value: Option<seq<string>>)
      requires Valid()
      modifies this
      ensures Valid()
      ensures Params() == Step(old(Params()), PickProject(value))
    {
      project := value;
    }
  }
}
