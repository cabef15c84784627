/** The scope-and-demand page: the query parameters built from the router,
    the fetch of the default analytics, the two leaderboards and the choice
    between the error screen, the content and the loader. The fetch library
    is abstracted: a null key means no request, so no data and no error. */
module ScopeAndDemand {
  import opened Js
  import opened Entities

  /** The parameters of a project-level request (`module` being a reserved
      word, that key is `issueModule` here). */
  datatype ScopeParams = ScopeParams(project: Option<seq<string>>, cycle: Option<string>, issueModule: Option<string>)

  /** `projectId ? true : false`. */
  predicate IsProjectLevel(projectId: QueryParam) {
    Present(projectId)
  }

  /** A query parameter as `x ? x.toString() : null`. */
  function StringOrNull(q: QueryParam): (r: Option<string>)
    ensures r.Some? <==> Present(q)
    ensures r.Some? ==> r.value == q.value
  {
    if Present(q) then Some(q.value) else None
  }

  /** The request parameters: undefined outside a project; inside one, the
      project as a one-element list (the `null` alternative of the project
      list is never taken) and the cycle and module ids or null. */
  function ParamsOf(projectId: QueryParam, cycleId: QueryParam, moduleId: QueryParam): (r: Option<ScopeParams>)
    ensures r.Some? <==> IsProjectLevel(projectId)
    ensures r.Some? ==> r.value.project == Some([projectId.value])
    ensures r.Some? ==> r.value.cycle == StringOrNull(cycleId) && r.value.issueModule == StringOrNull(moduleId)
  {
    if IsProjectLevel(projectId) then
      Some(ScopeParams(if Present(projectId) then Some([projectId.value]) else None,
                       StringOrNull(cycleId), StringOrNull(moduleId)))
    else None
  }

  /** The fetch key of the default analytics (its string form is not part of
      this model). */
  datatype AnalyticsKey = AnalyticsKey(workspaceSlug: string, params: Option<ScopeParams>)

  /** No key, hence no request, without a workspace. */
  function FetchKeyOf(workspaceSlug: QueryParam, params: Option<ScopeParams>): (r: Option<AnalyticsKey>)
    ensures r.None? <==> !Present(workspaceSlug)
    ensures r.Some? ==> r.value.workspaceSlug == workspaceSlug.value && r.value.params == params
  {
    if Present(workspaceSlug) then Some(AnalyticsKey(workspaceSlug.value, params)) else None
  }

  /** What the fetch hook reports: a truthy error, and the data if any. */
  datatype FetchState = FetchState(error: bool, data: Option<DefaultAnalytics>)

  /** The hook's state for a key: with no key nothing is requested, so there
      is neither data nor error; otherwise it is the service's `response`. */
  function Fetched(key: Option<AnalyticsKey>, response: FetchState): (r: FetchState)
    ensures key.None? ==> !r.error && r.data.None?
    ensures key.Some? ==> r == response
  {
    if key.None? then FetchState(false, None) else response
  }

  /** A leaderboard entry. */
  datatype LeaderboardUser = LeaderboardUser(
    avatar: string, firstName: string, lastName: string, display_name: string, count: int, id: string)

  function CreatorUser(u: CreatorStat): LeaderboardUser {
    LeaderboardUser(u.created_by__avatar, u.created_by__first_name, u.created_by__last_name,
                    u.created_by__display_name, u.count, u.created_by__id)
  }

  function CloserUser(u: CloserStat): LeaderboardUser {
    LeaderboardUser(u.assignees__avatar, u.assignees__first_name, u.assignees__last_name,
                    u.assignees__display_name, u.count, u.assignees__id)
  }

  /** The "most issues created" board: `most_issue_created_user?.map(...)`. */
  function CreatorsBoard(users: Option<seq<CreatorStat>>): (r: Option<seq<LeaderboardUser>>)
    ensures r.None? <==> users.None?
    ensures r.Some? ==> |r.value| == |users.value|
    ensures r.Some? ==> forall i :: 0 <= i < |r.value| ==>
      r.value[i].count == users.value[i].count && r.value[i].id == users.value[i].created_by__id
    ensures r.Some? ==> forall i :: 0 <= i < |r.value| ==>
      r.value[i].display_name == users.value[i].created_by__display_name &&
      r.value[i].firstName == users.value[i].created_by__first_name &&
      r.value[i].lastName == users.value[i].created_by__last_name &&
      r.value[i].avatar == users.value[i].created_by__avatar
  {
    match users
    case None => None
    case Some(us) => Some(seq(|us|, i requires 0 <= i < |us| => CreatorUser(us[i])))
  }

  /** The "most issues closed" board: `most_issue_closed_user?.map(...)`. */
  function ClosersBoard(users: Option<seq<CloserStat>>): (r: Option<seq<LeaderboardUser>>)
    ensures r.None? <==> users.None?
    ensures r.Some? ==> |r.value| == |users.value|
    ensures r.Some? ==> forall i :: 0 <= i < |r.value| ==>
      r.value[i].count == users.value[i].count && r.value[i].id == users.value[i].assignees__id
    ensures r.Some? ==> forall i :: 0 <= i < |r.value| ==>
      r.value[i].display_name == users.value[i].assignees__display_name &&
      r.value[i].firstName == users.value[i].assignees__first_name &&
      r.value[i].lastName == users.value[i].assignees__last_name &&
      r.value[i].avatar == users.value[i].assignees__avatar
  {
    match users
    case None => None
    case Some(us) => Some(seq(|us|, i requires 0 <= i < |us| => CloserUser(us[i])))
  }

  /** The statistic a creators-board entry came from. */
  function CreatorStatOf(u: LeaderboardUser): CreatorStat {
    CreatorStat(u.avatar, u.firstName, u.lastName, u.display_name, u.id, u.count)
  }

  function CloserStatOf(u: LeaderboardUser): CloserStat {
    CloserStat(u.avatar, u.firstName, u.lastName, u.display_name, u.id, u.count)
  }

  /** The creators board loses nothing: mapping each entry back gives the
      statistics, in their order. */
  lemma CreatorsBoardLossless(users: seq<CreatorStat>)
    ensures var board := CreatorsBoard(Some(users)).value;
            seq(|board|, i requires 0 <= i < |board| => CreatorStatOf(board[i])) == users
  {
    var board := CreatorsBoard(Some(users)).value;
    var back := seq(|board|, i requires 0 <= i < |board| => CreatorStatOf(board[i]));
    assert forall i :: 0 <= i < |users| ==> back[i] == users[i];
  }

  lemma ClosersBoardLossless(users: seq<CloserStat>)
    ensures var board := ClosersBoard(Some(users)).value;
            seq(|board|, i requires 0 <= i < |board| => CloserStatOf(board[i])) == users
  {
    var board := ClosersBoard(Some(users)).value;
    var back := seq(|board|, i requires 0 <= i < |board| => CloserStatOf(board[i]));
    assert forall i :: 0 <= i < |users| ==> back[i] == users[i];
  }

  datatype Screen =
    | ErrorScreen   // the error message and the refresh button
    | Content(analytics: DefaultAnalytics, created: Option<seq<LeaderboardUser>>,
              closed: Option<seq<LeaderboardUser>>, boardSlug: string)
    | Loading

  /** The page: an error wins over data, and data over the loader. */
  function ScopeScreen(workspaceSlug: QueryParam, state: FetchState): (r: Screen)
    ensures r.ErrorScreen? <==> state.error
    ensures r.Content? <==> !state.error && state.data.Some?
    ensures r.Loading? <==> !state.error && state.data.None?
    ensures r.Content? ==> r.analytics == state.data.value
    ensures r.Content? ==> r.created == CreatorsBoard(state.data.value.most_issue_created_user)
    ensures r.Content? ==> r.closed == ClosersBoard(state.data.value.most_issue_closed_user)
    ensures r.Content? ==> r.boardSlug == workspaceSlug.GetOr("")
  {
    if state.error then ErrorScreen
    else match state.data
         case Some(d) =>
           Content(d, CreatorsBoard(d.most_issue_created_user), ClosersBoard(d.most_issue_closed_user),
                   workspaceSlug.GetOr(""))
         case None => Loading
  }

  /** The whole page for a router query and the service's answer. */
  function Page(workspaceSlug: QueryParam, projectId: QueryParam, cycleId: QueryParam, moduleId: QueryParam,
                response: FetchState): Screen
  {
    ScopeScreen(workspaceSlug, Fetched(FetchKeyOf(workspaceSlug, ParamsOf(projectId, cycleId, moduleId)), response))
  }

  /** Without a workspace nothing is fetched and the loader stays up,
      whatever the service would have answered. */
  lemma NoWorkspaceKeepsLoading(workspaceSlug: QueryParam, projectId: QueryParam, cycleId: QueryParam,
                                moduleId: QueryParam, response: FetchState)
    requires !Present(workspaceSlug)
    ensures Page(workspaceSlug, projectId, cycleId, moduleId, response) == Loading
  {
  }

  /** With a workspace the page shows exactly what the service answered,
      and the content's boards carry the workspace's slug. */
  lemma WorkspacePageFollowsResponse(workspaceSlug: QueryParam, projectId: QueryParam, cycleId: QueryParam,
                                     moduleId: QueryParam, response: FetchState)
    requires Present(workspaceSlug)
    ensures Page(workspaceSlug, projectId, cycleId, moduleId, response) == ScopeScreen(workspaceSlug, response)
    ensures Page(workspaceSlug, projectId, cycleId, moduleId, response).Content? ==>
      Page(workspaceSlug, projectId, cycleId, moduleId, response).boardSlug == workspaceSlug.value
  {
  }
}
