/** The records the core components receive from the backend, with only the
    fields the components read. */
module Entities {
  import opened Js

  /** The filters of a saved view (`query_data`): each property name with its
      list of values, or null, in property order (the order of `Object.keys`). */
  type QueryData = seq<(string, Option<seq<string>>)>

  datatype View = View(id: string, name: string, is_favorite: bool, query_data: QueryData)

  /** An issue as a JavaScript object, property name to value. A
      `Partial<IIssue>` has the same shape: the properties it holds. */
  type IssueObject = map<string, JsValue>

  datatype State = State(id: string, name: string, group: string, color: string)

  /** The states of a project keyed by state group, as the states service returns them. */
  type StateGroups = map<string, seq<State>>

  /** A project with the fields the automation settings read. */
  datatype Project = Project(id: string, close_in: int, archive_in: int, default_state: Option<string>)

  /** A `Partial<IProject>` over the automation fields: None means the
      property is absent; `default_state` may be present and null. */
  datatype ProjectPatch = ProjectPatch(close_in: Option<int>, archive_in: Option<int>, default_state: Option<Option<string>>)

  const EmptyPatch := ProjectPatch(None, None, None)

  /** The settings page's optimistic `{...project, ...formData}`: present
      properties of the patch override, absent ones keep the project's value. */
  function ApplyPatch(p: Project, patch: ProjectPatch): (r: Project)
    ensures r.id == p.id
    ensures patch.close_in.Some? ==> r.close_in == patch.close_in.value
    ensures patch.close_in.None? ==> r.close_in == p.close_in
    ensures patch.archive_in.Some? ==> r.archive_in == patch.archive_in.value
    ensures patch.archive_in.None? ==> r.archive_in == p.archive_in
    ensures patch.default_state.Some? ==> r.default_state == patch.default_state.value
    ensures patch.default_state.None? ==> r.default_state == p.default_state
  {
    Project(p.id,
            patch.close_in.GetOr(p.close_in),
            patch.archive_in.GetOr(p.archive_in),
            patch.default_state.GetOr(p.default_state))
  }

  /** The unit after a number of months in the automation selectors. */
  datatype MonthUnit = Month | Months

  /** One item of the analytics axis constants: its value and its display label
      (`label` in the source, a reserved word in Dafny). */
  datatype AxisItem = AxisItem(value: string, name: string)

  /** The analytics form: dimension, measure, segment and project filter. */
  datatype AnalyticsParams = AnalyticsParams(x_axis: string, y_axis: string, segment: Option<string>, project: Option<seq<string>>)

  /** Issues completed in one month of the year. */
  datatype MonthCount = MonthCount(month: int, count: int)

  datatype CreatorStat = CreatorStat(
    created_by__avatar: string, created_by__first_name: string, created_by__last_name: string,
    created_by__display_name: string, created_by__id: string, count: int)

  datatype CloserStat = CloserStat(
    assignees__avatar: string, assignees__first_name: string, assignees__last_name: string,
    assignees__display_name: string, assignees__id: string, count: int)

  /** The default (scope and demand) analytics of a workspace or project. */
  datatype DefaultAnalytics = DefaultAnalytics(
    issue_completed_month_wise: seq<MonthCount>,
    most_issue_created_user: Option<seq<CreatorStat>>,
    most_issue_closed_user: Option<seq<CloserStat>>)
}

/** The calls the components make to the backend services, and their toasts. */
module Services {
  import opened Js
  import opened Entities

  datatype ServiceCall =
    | AddViewToFavorites(workspaceSlug: string, projectId: string, viewId: string)
    | RemoveViewFromFavorites(workspaceSlug: string, rawProjectId: QueryParam, viewId: string)
    | PatchIssue(workspaceSlug: string, projectId: string, issueId: string, payload: IssueObject)

  datatype Toast = Toast(kind: string, title: string, message: string)
}

/** The shared fetch cache: the last value per fetch key, and the revalidation
    requests issued against it. Fetching itself is not part of this model. */
module Cache {
  import opened Js
  import opened Entities

  datatype FetchKey =
    | ViewsList(rawProjectId: QueryParam)
    | IssueDetails(issueId: string)
    | StatesList(projectId: string)
    | ProjectIssuesActivity(issueId: string)

  /** A cached value; `OtherValue` stands for values this model does not look
      into (the states list, the issue activity). */
  datatype CacheValue = ViewsValue(views: seq<View>) | IssueValue(issue: IssueObject) | OtherValue

  /** The value a key holds has the type its fetch returns. */
  predicate WellTyped(k: FetchKey, v: CacheValue) {
    match k
    case ViewsList(_) => v.ViewsValue?
    case IssueDetails(_) => v.IssueValue?
    case _ => v.OtherValue?
  }

  predicate WellTypedEntries(m: map<FetchKey, CacheValue>) {
    forall k :: k in m ==> WellTyped(k, m[k])
  }

  class FetchCache {
    var entries: map<FetchKey, CacheValue>
    /** Keys passed to `mutate(key)` with no data, in call order. */
    var revalidations: seq<FetchKey>

    ghost predicate Valid()
      reads this
    {
      WellTypedEntries(entries)
    }

    constructor (initial: map<FetchKey, CacheValue>)
      requires WellTypedEntries(initial)
      ensures Valid() && entries == initial && revalidations == []
    {
      entries := initial;
      revalidations := [];
    }

    /** `mutate(key, data, false)`: store a value without revalidating. */
    method Write(key: FetchKey, value: CacheValue)
      requires Valid() && WellTyped(key, value)
      modifies this
      ensures Valid()
      ensures entries == old(entries)[key := value]
      ensures revalidations == old(revalidations)
    {
      entries := entries[key := value];
    }

    /** `mutate(key)`: ask for the key to be fetched again; the stored value is kept. */
    method Revalidate(key: FetchKey)
      requires Valid()
      modifies this
      ensures Valid()
      ensures entries == old(entries)
      ensures revalidations == old(revalidations) + [key]
    {
      revalidations := revalidations + [key];
    }
  }
}
