/** The command palette's "change state" list for one issue: picking a state
    patches the issue optimistically in the cache, sends the patch, and on
    success revalidates two keys. */
module ChangeIssueState {
  import opened Js
  import opened Entities
  import opened Services
  import opened Cache

  /** `{...prevData, ...formData}`: the properties of the patch override,
      all others keep their previous value. */
  function MergeIssue(prev: IssueObject, formData: IssueObject): (r: IssueObject)
    ensures r.Keys == prev.Keys + formData.Keys
    ensures forall f :: f in formData ==> r[f] == formData[f]
    ensures forall f :: f in prev && f !in formData ==> r[f] == prev[f]
  {
    prev + formData
  }

  /** The optimistic updater: it returns `prevData` unchanged when there is no
      cached issue, so an absent issue stays absent. */
  function OptimisticIssue(prev: Option<IssueObject>, formData: IssueObject): (r: Option<IssueObject>)
    ensures r.None? <==> prev.None?
    ensures prev.Some? ==> r.value == MergeIssue(prev.value, formData)
  {
    match prev
    case None => None
    case Some(issue) => Some(MergeIssue(issue, formData))
  }

  /** Merging the same patch twice is merging it once. */
  lemma MergeIdempotent(prev: IssueObject, formData: IssueObject)
    ensures MergeIssue(MergeIssue(prev, formData), formData) == MergeIssue(prev, formData)
  {
  }

  /** Two successive patches merge as their own merge: later properties win. */
  lemma MergeSuccessive(prev: IssueObject, first: IssueObject, second: IssueObject)
    ensures MergeIssue(MergeIssue(prev, first), second) == MergeIssue(prev, MergeIssue(first, second))
  {
  }

  /** `submitChanges` does nothing unless all three route parameters are present. */
  predicate CanSubmit(workspaceSlug: QueryParam, projectId: QueryParam, issueId: QueryParam) {
    Present(workspaceSlug) && Present(projectId) && Present(issueId)
  }

  /** The patch `handleIssueState` sends: only the `state` property. */
  function StatePatch(stateId: string): (r: IssueObject)
    ensures r.Keys == {"state"} && r["state"] == Str(stateId)
  {
    map["state" := Str(stateId)]
  }

  /** What one `submitChanges` call does to the cache, given the cache before
      (`entries`, `revalidations`) and after (`entries'`, `revalidations'`),
      the service call issued and whether the failure was logged. */
  ghost predicate Submitted(
    entries: map<FetchKey, CacheValue>, revalidations: seq<FetchKey>,
    entries': map<FetchKey, CacheValue>, revalidations': seq<FetchKey>,
    workspaceSlug: QueryParam, projectId: QueryParam, issueId: QueryParam,
    formData: IssueObject, patchSucceeds: bool, call: Option<ServiceCall>, logged: bool)
  {
    if !CanSubmit(workspaceSlug, projectId, issueId) then
      entries' == entries && revalidations' == revalidations && call == None && !logged
    else
      var key := IssueDetails(issueId.value);
      && (key !in entries ==> entries' == entries)
      && (key in entries && entries[key].IssueValue? ==>
            entries' == entries[key := IssueValue(MergeIssue(entries[key].issue, formData))])
      && call == Some(PatchIssue(workspaceSlug.value, projectId.value, issueId.value, formData))
      && revalidations' == revalidations +
           (if patchSucceeds then [StatesList(projectId.value), ProjectIssuesActivity(issueId.value)] else [])
      && logged == !patchSucceeds
  }

  /** Merge `formData` into the cached issue without revalidating, send it,
      and on success revalidate the states list (the key the component's
      bound `mutate` belongs to) and the issue's activity; on failure only log. */
  method SubmitChanges(cache: FetchCache, workspaceSlug: QueryParam, projectId: QueryParam, issueId: QueryParam,
                       formData: IssueObject, patchSucceeds: bool)
    returns (call: Option<ServiceCall>, logged: bool)
    requires cache.Valid()
    modifies cache
    ensures cache.Valid()
    ensures Submitted(old(cache.entries), old(cache.revalidations), cache.entries, cache.revalidations,
                      workspaceSlug, projectId, issueId, formData, patchSucceeds, call, logged)
  {
    if !CanSubmit(workspaceSlug, projectId, issueId) {
      return None, false;
    }
    var key := IssueDetails(issueId.value);
    if key in cache.entries {
      cache.Write(key, IssueValue(MergeIssue(cache.entries[key].issue, formData)));
    }
    call := Some(PatchIssue(workspaceSlug.value, projectId.value, issueId.value, formData));
    if patchSucceeds {
      cache.Revalidate(StatesList(projectId.value));
      cache.Revalidate(ProjectIssuesActivity(issueId.value));
      logged := false;
    } else {
      logged := true;
    }
  }

  /** Picking a state submits a patch of `state` alone and closes the palette. */
  method HandleIssueState(cache: FetchCache, workspaceSlug: QueryParam, projectId: QueryParam, issueId: QueryParam,
                          stateId: string, patchSucceeds: bool)
    returns (call: Option<ServiceCall>, logged: bool, paletteOpen: bool)
    requires cache.Valid()
    modifies cache
    ensures cache.Valid()
    ensures Submitted(old(cache.entries), old(cache.revalidations), cache.entries, cache.revalidations,
                      workspaceSlug, projectId, issueId, StatePatch(stateId), patchSucceeds, call, logged)
    ensures !paletteOpen
  {
    call, logged := SubmitChanges(cache, workspaceSlug, projectId, issueId, StatePatch(stateId), patchSucceeds);
    paletteOpen := false;
  }

  // The list of states.

  datatype StateItem = StateItem(stateId: string, name: string, isCurrent: bool)

  datatype PaletteBody = Spinner | NoStatesFound | StateItems(items: seq<StateItem>)

  /** A state is the issue's current one when its id is the issue's `state`. */
  predicate IsCurrentState(s: State, issue: IssueObject) {
    "state" in issue && issue["state"] == Str(s.id)
  }

  /** A spinner while the states are loading, a message when there are none,
      otherwise one item per state, in order, the current one checked. */
  function StatePalette(states: Option<seq<State>>, issue: IssueObject): (r: PaletteBody)
    ensures r.Spinner? <==> states.None?
    ensures r.NoStatesFound? <==> states == Some([])
    ensures r.StateItems? ==> |r.items| == |states.value| && forall i :: 0 <= i < |r.items| ==>
      r.items[i].stateId == states.value[i].id && r.items[i].name == states.value[i].name &&
      r.items[i].isCurrent == IsCurrentState(states.value[i], issue)
  {
    match states
    case None => Spinner
    case Some(s) =>
      if s == [] then NoStatesFound
      else StateItems(seq(|s|, i requires 0 <= i < |s| => StateItem(s[i].id, s[i].name, IsCurrentState(s[i], issue))))
  }

  predicate DistinctIds(states: seq<State>) {
    forall i, j :: 0 <= i < j < |states| ==> states[i].id != states[j].id
  }

  /** With distinct state ids, exactly the state whose id is the issue's
      `state` is checked. */
  lemma ExactlyCurrentChecked(states: seq<State>, issue: IssueObject, k: nat)
    requires DistinctIds(states)
    requires k < |states| && IsCurrentState(states[k], issue)
    ensures StatePalette(Some(states), issue).StateItems?
    ensures forall i :: 0 <= i < |states| ==> (StatePalette(Some(states), issue).items[i].isCurrent <==> i == k)
  {
    var items := StatePalette(Some(states), issue).items;
    assert forall i :: 0 <= i < |states| && i != k ==> states[i].id != states[k].id;
  }
}
