/** The segment ("group") selector of custom analytics: a "No value" option,
    then every item of the x-axis constant (a parameter here) except the
    current x-axis, and except the cycle or module dimension inside a cycle
    or module. The item `map` returns null for an excluded item, which is
    not rendered; that is a filter. */
module SelectSegment {
  import opened Js
  import opened Entities

  const CycleAxis := "issue_cycle__cycle__name"
  const ModuleAxis := "issue_module__module__name"

  datatype SegmentOption = NoValue | Item(value: string, name: string)

  predicate Excluded(item: AxisItem, xAxis: string, cycleId: QueryParam, moduleId: QueryParam) {
    || xAxis == item.value
    || (Present(cycleId) && item.value == CycleAxis)
    || (Present(moduleId) && item.value == ModuleAxis)
  }

  /** The items that get an option. */
  function Offered(items: seq<AxisItem>, xAxis: string, cycleId: QueryParam, moduleId: QueryParam): (r: seq<AxisItem>)
    ensures |r| <= |items|
    ensures forall k :: 0 <= k < |r| ==> r[k] in items && !Excluded(r[k], xAxis, cycleId, moduleId)
    ensures forall k :: 0 <= k < |items| && !Excluded(items[k], xAxis, cycleId, moduleId) ==> items[k] in r
  {
    Filter(items, (item: AxisItem) => !Excluded(item, xAxis, cycleId, moduleId))
  }

  function SegmentOptions(items: seq<AxisItem>, params: AnalyticsParams, cycleId: QueryParam, moduleId: QueryParam): (r: seq<SegmentOption>)
    ensures |r| > 0 && r[0] == NoValue
    ensures forall k :: 1 <= k < |r| ==> r[k].Item? && r[k].value != params.x_axis
    ensures Present(cycleId) ==> forall k :: 1 <= k < |r| ==> r[k].value != CycleAxis
    ensures Present(moduleId) ==> forall k :: 1 <= k < |r| ==> r[k].value != ModuleAxis
    ensures r[1..] == ItemOptions(Offered(items, params.x_axis, cycleId, moduleId))
  {
    var offered := Offered(items, params.x_axis, cycleId, moduleId);
    assert forall k :: 0 <= k < |offered| ==> !Excluded(offered[k], params.x_axis, cycleId, moduleId);
    [NoValue] + ItemOptions(offered)
  }

  function ItemOptions(items: seq<AxisItem>): (r: seq<SegmentOption>)
    ensures |r| == |items|
    ensures forall k :: 0 <= k < |items| ==> r[k] == Item(items[k].value, items[k].name)
  {
    seq(|items|, k requires 0 <= k < |items| => Item(items[k].value, items[k].name))
  }

  /** An item is offered exactly when it is not excluded. */
  lemma OfferedIffNotExcluded(items: seq<AxisItem>, xAxis: string, cycleId: QueryParam, moduleId: QueryParam, item: AxisItem)
    requires item in items
    ensures item in Offered(items, xAxis, cycleId, moduleId) <==> !Excluded(item, xAxis, cycleId, moduleId)
  {
    var p := (i: AxisItem) => !Excluded(i, xAxis, cycleId, moduleId);
    FilterMultiplicity(items, p, item);
  }

  /** Offered items keep the constant's order: offering distributes over
      concatenation. */
  lemma OfferedAppend(a: seq<AxisItem>, b: seq<AxisItem>, xAxis: string, cycleId: QueryParam, moduleId: QueryParam)
    ensures Offered(a + b, xAxis, cycleId, moduleId) == Offered(a, xAxis, cycleId, moduleId) + Offered(b, xAxis, cycleId, moduleId)
  {
    FilterAppend(a, b, (item: AxisItem) => !Excluded(item, xAxis, cycleId, moduleId));
  }

  /** With distinct items in the constant, each item that is not excluded
      is offered exactly once. */
  lemma OfferedOnce(items: seq<AxisItem>, xAxis: string, cycleId: QueryParam, moduleId: QueryParam, k: nat)
    requires forall i, j :: 0 <= i < j < |items| ==> items[i] != items[j]
    requires k < |items| && !Excluded(items[k], xAxis, cycleId, moduleId)
    ensures multiset(Offered(items, xAxis, cycleId, moduleId))[items[k]] == 1
  {
    FilterMultiplicity(items, (item: AxisItem) => !Excluded(item, xAxis, cycleId, moduleId), items[k]);
    DistinctOnce(items, k);
  }

  lemma {:induction false} DistinctOnce(items: seq<AxisItem>, k: nat)
    requires forall i, j :: 0 <= i < j < |items| ==> items[i] != items[j]
    requires k < |items|
    ensures multiset(items)[items[k]] == 1
  {
    assert items == items[..k] + [items[k]] + items[k + 1..];
    assert items[k] !in items[..k];
    assert items[k] !in items[k + 1..];
  }

  /** The label: that of the item whose value is `value`, or None for the
      "no value" placeholder. */
  function SegmentLabel(items: seq<AxisItem>, value: Option<string>): (r: Option<string>)
    ensures r.None? <==> forall k :: 0 <= k < |items| ==> Some(items[k].value) != value
    ensures r.Some? ==> exists k :: 0 <= k < |items| && Some(items[k].value) == value && items[k].name == r.value &&
                          forall j :: 0 <= j < k ==> Some(items[j].value) != value
  {
    match Find(items, (item: AxisItem) => Some(item.value) == value)
    case None => None
    case Some(item) => Some(item.name)
  }
}
