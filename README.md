# Project-management web client: component rules

This project is a Dafny model of the rules inside a few React components of a project-management web client. Those rules are:

- a saved view's favourite star and its filter count;
- the command palette's "change state" list for an issue;
- a project's auto-close and auto-archive automation settings;
- the analytics pages:
  - the yearly "issues closed" line graph;
  - the segment selector;
  - the select bar of custom analytics;
  - the custom-analytics table;
  - the scope-and-demand page (request parameters, leaderboards and the error/data/loader choice).

The model abstracts the components' surroundings as follows:

- The shared fetch cache (`mutate`) is a class `Cache.FetchCache`. Its fields are a key-to-value map and the list of revalidation requests. Its methods write a value without revalidating, or record a revalidation.
- Service calls are returned as values (`Services.ServiceCall`). Whether they succeed is a boolean parameter.
- Router query parameters are `Option<string>`. A parameter counts as present when it is JavaScript-truthy.
- The JavaScript semantics the code relies on are spelled out in module `Js`:
  - truthiness and `??` (the parse of `===` against `??` is written out in `AutoCloseAutomation.MatchesAsWritten`);
  - `Array.prototype.find` (the first match);
  - `Array.prototype.filter` (order and multiplicity).

Each component is a module. The form state of the select bar, which the component changes in ordered steps, is a class `SelectBar.AnalyticsForm`. Its methods are proved against the pure step function `SelectBar.Step`. The invariant, that the segment is never the x-axis, is proved for every sequence of offered selections.

## Model

| member | source | states |
|---|---|---|
| Js.Find | web/components/analytics/scope-and-demand/year-wise-issues.tsx:27-29 | `find` yields nothing exactly when no element satisfies the predicate, and otherwise the first element that does |
| Js.Filter | web/components/automation/auto-close-automation.tsx:43-44 | `filter` keeps exactly the elements satisfying the predicate, each from the input, and is never longer than the input |
| Js.FilterAppend | web/components/automation/auto-close-automation.tsx:43-44 | filtering a concatenation is the concatenation of the filtered parts, so order is kept |
| Js.FilterMultiplicity | web/components/analytics/select/segment.tsx:35-45 | an element kept by the filter occurs as often as in the input; a rejected one does not occur |
| Js.FilterAtLeastTwo | web/components/automation/auto-close-automation.tsx:56 | the filter has at least two elements exactly when two distinct positions of the input satisfy the predicate |
| Entities.ApplyPatch | web/components/automation/auto-close-automation.tsx:93-99 | the patches reach the settings page's `handleChange`, whose optimistic `{...project, ...formData}`: each present patch field overrides, each absent one keeps the project's value, the id is kept |
| Cache.FetchCache.constructor | web/components/views/single-view-item.tsx:38-46 | the cache starts with the given well-typed entries and no revalidations |
| Cache.FetchCache.Write | web/components/views/single-view-item.tsx:38-46 | `mutate(key, data, false)` replaces the value of that key only and issues no revalidation |
| Cache.FetchCache.Revalidate | web/components/command-palette/issue/change-issue-state.tsx:60-63 | `mutate(key)` keeps every stored value and appends the key to the revalidation requests |
| SingleViewItem.MarkFavorite | web/components/views/single-view-item.tsx:40-44 | the cache update keeps length, order, ids, names and filters; the matching view gets the flag and every other view is unchanged |
| SingleViewItem.MarkFavoriteIdempotent | web/components/views/single-view-item.tsx:43 | applying the favourite update twice equals applying it once |
| SingleViewItem.MarkFavoriteLastWins | web/components/views/single-view-item.tsx:38-72 | of an add followed by a remove, or the reverse, the later decides the flag |
| SingleViewItem.RemoveUndoesAdd | web/components/views/single-view-item.tsx:38-72 | removing after adding gives back a list in which the view was not a favourite |
| SingleViewItem.CachedViews | web/components/views/single-view-item.tsx:41-67 | `prevData ?? []`: a missing cached list is the empty list |
| SingleViewItem.CanAdd | web/components/views/single-view-item.tsx:36 | the add guard: workspace slug and project id truthy and a view given |
| SingleViewItem.CanRemove | web/components/views/single-view-item.tsx:62 | the remove guard: workspace slug truthy and a view given, the project id not checked |
| SingleViewItem.HandleAddToFavorites | web/components/views/single-view-item.tsx:35-59 | without workspace, project or view nothing happens; otherwise the project's list is updated without revalidation, the add call is issued, and a failure only raises the add toast, with no rollback |
| SingleViewItem.HandleRemoveFromFavorites | web/components/views/single-view-item.tsx:61-83 | only workspace and view are checked; the list under the raw project id is updated, the remove call is issued, and a failure only raises the remove toast |
| SingleViewItem.Contributions | web/components/views/single-view-item.tsx:98-103 | one contribution per `query_data` property, in order: the length of its list, or 0 for null |
| SingleViewItem.Reduce | web/components/views/single-view-item.tsx:104 | the left-fold sum never drops below its start, and equals it exactly when every contribution is 0 |
| SingleViewItem.FilterCount | web/components/views/single-view-item.tsx:98-104 | the filter count is never negative and is 0 exactly when every property is null or empty |
| SingleViewItem.FilterCountIsNumberOfValues | web/components/views/single-view-item.tsx:98-104 | the reduced count equals the number of filter values over all properties |
| SingleViewItem.FilterCountAdds | web/components/views/single-view-item.tsx:98-104 | the count adds up over properties: a null property adds 0, a list adds its length |
| ChangeIssueState.MergeIssue | web/components/command-palette/issue/change-issue-state.tsx:49-52 | `{...prevData, ...formData}` has the keys of both; patch properties override and all others keep their value |
| ChangeIssueState.OptimisticIssue | web/components/command-palette/issue/change-issue-state.tsx:47-53 | an absent cached issue stays absent; a present one becomes the merge |
| ChangeIssueState.MergeIdempotent | web/components/command-palette/issue/change-issue-state.tsx:49-52 | merging the same patch twice equals merging it once |
| ChangeIssueState.MergeSuccessive | web/components/command-palette/issue/change-issue-state.tsx:49-52 | two successive merges are one merge of the combined patch, the later properties winning |
| ChangeIssueState.StatePatch | web/components/command-palette/issue/change-issue-state.tsx:72 | the patch holds the `state` property alone, set to the chosen id |
| ChangeIssueState.CanSubmit | web/components/command-palette/issue/change-issue-state.tsx:43 | the submit guard: workspace slug, project id and issue id all truthy |
| ChangeIssueState.SubmitChanges | web/components/command-palette/issue/change-issue-state.tsx:41-69 | without workspace, project and issue nothing happens; otherwise the cached issue is merged without revalidation, the patch is sent, success revalidates the states list and the issue activity, and failure only logs |
| ChangeIssueState.HandleIssueState | web/components/command-palette/issue/change-issue-state.tsx:71-74 | picking a state submits the `state` patch as above and closes the palette |
| ChangeIssueState.StatePalette | web/components/command-palette/issue/change-issue-state.tsx:78-104 | a spinner exactly while the states are unloaded, the "no states" text exactly for an empty list, otherwise one item per state in order, checked when it is the issue's state |
| ChangeIssueState.IsCurrentState | web/components/command-palette/issue/change-issue-state.tsx:95 | a state is checked when the issue's `state` property is its id |
| ChangeIssueState.ExactlyCurrentChecked | web/components/command-palette/issue/change-issue-state.tsx:95 | with distinct ids, exactly the issue's current state carries the check mark |
| AutoCloseAutomation.OptionsOf | web/components/automation/auto-close-automation.tsx:43-54 | the number of options is the number of cancelled states |
| AutoCloseAutomation.CancelledOptions | web/components/automation/auto-close-automation.tsx:43-54 | the options are undefined exactly while the states are |
| AutoCloseAutomation.OptionsAppend | web/components/automation/auto-close-automation.tsx:43-54 | the options keep the order of the states: those of a concatenation are concatenated |
| AutoCloseAutomation.OptionsSingle | web/components/automation/auto-close-automation.tsx:44-47 | a single state yields its id-and-name option exactly when it is cancelled |
| AutoCloseAutomation.OptionsAreCancelledStates | web/components/automation/auto-close-automation.tsx:43-54 | every option is that of a cancelled state, and every cancelled state has its option |
| AutoCloseAutomation.SelectorEnabledIffTwoCancelled | web/components/automation/auto-close-automation.tsx:56 | the state selector is enabled exactly when at least two cancelled states exist |
| AutoCloseAutomation.MultipleOptions | web/components/automation/auto-close-automation.tsx:56 | `(options ?? []).length > 1`, unloaded states counting as no options; characterised by `AutoCloseAutomation.SelectorEnabledIffTwoCancelled` |
| AutoCloseAutomation.DefaultState | web/components/automation/auto-close-automation.tsx:58 | the default state is the id of the cancelled group's first state, and null without groups or without that group |
| AutoCloseAutomation.CloseEnabled | web/components/automation/auto-close-automation.tsx:94-104 | `projectDetails?.close_in !== 0`: the switch is on and the details shown, an unloaded project counting as on |
| AutoCloseAutomation.CloseToggle | web/components/automation/auto-close-automation.tsx:95-99 | turning on sends one month and the default state; turning off sends zero months and a null state; the archive setting is never sent |
| AutoCloseAutomation.CloseToggleFlips | web/components/automation/auto-close-automation.tsx:93-99 | applying the toggle flips the switch and leaves the archive setting alone |
| AutoCloseAutomation.CloseToggleTwice | web/components/automation/auto-close-automation.tsx:95-99 | toggling twice gives zero months and no state, or one month and the default state; only those settings round-trip |
| AutoCloseAutomation.CloseInPick | web/components/automation/auto-close-automation.tsx:117-119 | choosing a number of months sends `close_in` alone |
| AutoCloseAutomation.DefaultStatePick | web/components/automation/auto-close-automation.tsx:174-176 | choosing a state sends `default_state` alone |
| AutoCloseAutomation.CloseModalInitial | web/components/automation/auto-close-automation.tsx:65-68 | the custom-range modal starts from one month and the default state |
| AutoCloseAutomation.CloseInLabel | web/components/automation/auto-close-automation.tsx:113-116 | the label is the months value, with the singular unit exactly for one month |
| AutoCloseAutomation.DisplayedState | web/components/automation/auto-close-automation.tsx:145-147 | the selector shows the project's default state when it is truthy, otherwise the default cancelled state |
| AutoCloseAutomation.FallbackNeverApplies | web/components/automation/auto-close-automation.tsx:60-62 | as written, the `?? defaultState` never applies: the search only looks for the project's own default state |
| AutoCloseAutomation.SelectedOptionAsWritten | web/components/automation/auto-close-automation.tsx:60-62 | the search as written: nothing exactly when the states are unloaded or no state satisfies `(s.id === default_state) ?? defaultState`; otherwise a listed state that does |
| AutoCloseAutomation.MatchesAsWritten | web/components/automation/auto-close-automation.tsx:61 | the callback as JavaScript parses it: the truthiness of `(s.id === default_state) ?? defaultState`, whose left side is a boolean and never nullish; characterised by `AutoCloseAutomation.FallbackNeverApplies` |
| AutoCloseAutomation.SelectedOption | web/components/automation/auto-close-automation.tsx:60-62 | the intended search: nothing exactly when the states are unloaded or no state has the coalesced id (the project's default state, or the fallback when that is null); otherwise the first state with that id |
| AutoCloseAutomation.SelectedOptionDiffers | web/components/automation/auto-close-automation.tsx:60-62 | with a null project default state, the search as written finds nothing while the intended one finds the cancelled default |
| AutoCloseAutomation.CurrentDefaultState | web/components/automation/auto-close-automation.tsx:63 | `currentDefaultState`: nothing exactly when the states are unloaded or none has the default state's id; otherwise the first state with that id |
| AutoCloseAutomation.LabelUnaffectedByPrecedence | web/components/automation/auto-close-automation.tsx:148-172 | the selector's icon and text are the same under both readings of the search, because the label falls back to `currentDefaultState` |
| AutoCloseAutomation.LabelOf | web/components/automation/auto-close-automation.tsx:148-172 | the icon is the selected state's, else the current default's, else the generic one; the text is the selected state's non-empty name, else the current default's name, else the placeholder |
| AutoCloseAutomation.StateSelectLabel | web/components/automation/auto-close-automation.tsx:148-172 | the label built from the intended search and `currentDefaultState`; equal to the as-written label by `AutoCloseAutomation.LabelUnaffectedByPrecedence` |
| AutoArchiveAutomation.ArchiveToggle | web/components/automation/auto-archive-automation.tsx:44-50 | the switch sends one month when it is off and zero when it is on, and nothing else |
| AutoArchiveAutomation.ArchiveEnabled | web/components/automation/auto-archive-automation.tsx:45-55 | `projectDetails?.archive_in !== 0`: the switch is on and the months selector shown, an unloaded project counting as on |
| AutoArchiveAutomation.ArchiveToggleFlips | web/components/automation/auto-archive-automation.tsx:44-55 | applying the toggle flips the switch and the shown panel, and changes `archive_in` only |
| AutoArchiveAutomation.ArchiveToggleTwice | web/components/automation/auto-archive-automation.tsx:46-50 | toggling twice gives back zero from zero and one from any other value, so exactly 0 and 1 round-trip |
| AutoArchiveAutomation.ArchivePick | web/components/automation/auto-archive-automation.tsx:67-69 | choosing a number of months sends `archive_in` alone |
| AutoArchiveAutomation.ArchiveModalInitial | web/components/automation/auto-archive-automation.tsx:21 | the custom-range modal starts from one month |
| AutoArchiveAutomation.ArchiveInLabel | web/components/automation/auto-archive-automation.tsx:63-66 | the label is the months value, with the singular unit exactly for one month |
| YearWiseIssues.Abbreviation | web/components/analytics/scope-and-demand/year-wise-issues.tsx:25 | `substring(0, 3)`: a prefix of the month name of length min(3, length) |
| YearWiseIssues.MonthTotalOfFirstRecord | web/components/analytics/scope-and-demand/year-wise-issues.tsx:26-29 | a month with records gets the count of its first record |
| YearWiseIssues.MonthTotalWithoutRecord | web/components/analytics/scope-and-demand/year-wise-issues.tsx:26-29 | a month without a record gets 0 |
| YearWiseIssues.MonthTotal | web/components/analytics/scope-and-demand/year-wise-issues.tsx:26-29 | `find(...)?.count` with the zero fallback: 0 when the month has no record, and any non-zero total is the count of a record of that month |
| YearWiseIssues.MonthSeries | web/components/analytics/scope-and-demand/year-wise-issues.tsx:24-30 | one point per month-list entry, in order, with the abbreviated name and that month's total |
| YearWiseIssues.YearWise | web/components/analytics/scope-and-demand/year-wise-issues.tsx:18-60 | the graph is drawn exactly when there are records; its Y ticks are the records' counts in input order |
| SelectSegment.SegmentOptions | web/components/analytics/select/segment.tsx:34-45 | "No value" comes first; the current x-axis is never offered, nor the cycle item in a cycle, nor the module item in a module; the rest are the offered items in order |
| SelectSegment.Excluded | web/components/analytics/select/segment.tsx:36-38 | an item is excluded when it is the current x-axis, the cycle item inside a cycle, or the module item inside a module |
| SelectSegment.Offered | web/components/analytics/select/segment.tsx:35-45 | the offered items come from the constant, none is excluded, and every item that is not excluded is offered |
| SelectSegment.ItemOptions | web/components/analytics/select/segment.tsx:40-44 | one option per item, with the item's value and label |
| SelectSegment.OfferedIffNotExcluded | web/components/analytics/select/segment.tsx:35-45 | an item of the constant is offered exactly when none of the three exclusions applies |
| SelectSegment.OfferedAppend | web/components/analytics/select/segment.tsx:35-45 | offering distributes over concatenation, so the constant's order is kept |
| SelectSegment.OfferedOnce | web/components/analytics/select/segment.tsx:35-45 | with distinct items, each item that is not excluded is offered exactly once |
| SelectSegment.SegmentLabel | web/components/analytics/select/segment.tsx:25-27 | the label is that of the first item whose value matches, and "no value" exactly when none matches |
| SelectBar.DefaultParamsApart | web/components/analytics/custom-analytics/select-bar.tsx:61 | the analytics page's initial form values keep the segment apart from the x-axis |
| SelectBar.XAxisChosen | web/components/analytics/custom-analytics/select-bar.tsx:60-64 | the x-axis becomes the chosen value; a segment equal to it is cleared; any other segment, the measure and the project are kept |
| SelectBar.SegmentChosen | web/components/analytics/custom-analytics/select-bar.tsx:71-77 | the segment selector's `onChange`: "No value" clears the segment, an item sets it to the item's value, and the x-axis, measure and project are kept |
| SelectBar.Step | web/components/analytics/custom-analytics/select-bar.tsx:33-77 | the effect of one selection on the form values: project, measure, the x-axis handler, or the segment; kept apart by `SelectBar.StepKeepsApart` |
| SelectBar.StepKeepsApart | web/components/analytics/custom-analytics/select-bar.tsx:61 | every selection the bar can make keeps the segment apart from the x-axis |
| SelectBar.RunKeepsApart | web/components/analytics/custom-analytics/select-bar.tsx:61 | after any sequence of offered selections, the segment never equals the x-axis |
| SelectBar.VisibleSelectors | web/components/analytics/custom-analytics/select-bar.tsx:30-78 | the project selector is shown exactly outside a project, followed by the measure, dimension and segment selectors |
| SelectBar.AnalyticsForm.constructor | web/components/analytics/custom-analytics/select-bar.tsx:33-77 | the form the select bar edits starts, as on the analytics page, at priority, issue count, no segment and no project |
| SelectBar.AnalyticsForm.ChooseXAxis | web/components/analytics/custom-analytics/select-bar.tsx:60-64 | the x-axis handler clears a colliding segment, then sets the x-axis, keeping the invariant |
| SelectBar.AnalyticsForm.ChooseSegment | web/components/analytics/custom-analytics/select-bar.tsx:71-77 | choosing an offered segment option sets the segment, or clears it for "No value", keeping the invariant |
| SelectBar.AnalyticsForm.ChooseYAxis | web/components/analytics/custom-analytics/select-bar.tsx:44-50 | the measure selector sets the y-axis alone |
| SelectBar.AnalyticsForm.ChooseProject | web/components/analytics/custom-analytics/select-bar.tsx:33-39 | the project selector sets the project filter alone |
| AnalyticsTable.AssigneeName | web/components/analytics/custom-analytics/table.tsx:25-31 | a non-empty display name of an assignee with that id, and "no assignee" when there is none |
| AnalyticsTable.AssigneeNameOfFirstMatch | web/components/analytics/custom-analytics/table.tsx:25-31 | the first matching assignee decides: its name, or "no assignee" when that name is empty |
| AnalyticsTable.AxisItemLabel | web/components/analytics/custom-analytics/table.tsx:41 | the axis label is that of the first item with the value, and undefined exactly when none has it |
| AnalyticsTable.Segmented | web/components/analytics/custom-analytics/table.tsx:43-112 | the table is segmented exactly when `params.segment` is truthy: present and non-empty; it decides the column layout stated by `AnalyticsTable.Header` and `AnalyticsTable.RowOf` |
| AnalyticsTable.SegmentHeading | web/components/analytics/custom-analytics/table.tsx:65-69 | a segment heading is the assignee name, the month and year of a date key, or the key itself |
| AnalyticsTable.Header | web/components/analytics/custom-analytics/table.tsx:40-77 | the x-axis heading, then one heading per segment key when segmented, or the measure's heading |
| AnalyticsTable.Lookup | web/components/analytics/custom-analytics/table.tsx:118-122 | `item[key]`: the datum's name for `name`; for any other key, defined exactly when the datum has that property, and then that property's value |
| AnalyticsTable.RowOf | web/components/analytics/custom-analytics/table.tsx:86-123 | the first cell is the assignee name or the spaced name; each segment key's cell is `item[key] ?? 0`, or the single cell is `item[yAxisKey]` |
| AnalyticsTable.Rows | web/components/analytics/custom-analytics/table.tsx:81-125 | one row per datum, in order |
| AnalyticsTable.TableIsRectangular | web/components/analytics/custom-analytics/table.tsx:40-125 | every row has exactly one cell under each heading |
| AnalyticsTable.MissingSegmentShowsZero | web/components/analytics/custom-analytics/table.tsx:118 | a segmented cell for a key the datum lacks shows 0 |
| ScopeAndDemand.StringOrNull | web/components/analytics/scope-and-demand/scope-and-demand.tsx:32-33 | a parameter is passed on exactly when it is truthy, and unchanged |
| ScopeAndDemand.IsProjectLevel | web/components/analytics/scope-and-demand/scope-and-demand.tsx:27 | `projectId ? true : false`: a project-level page exactly when the project id is present and non-empty; `ScopeAndDemand.ParamsOf` builds parameters exactly in that case |
| ScopeAndDemand.ParamsOf | web/components/analytics/scope-and-demand/scope-and-demand.tsx:27-35 | the parameters are undefined exactly outside a project; inside, the project list is the project id and cycle and module are the ids or null |
| ScopeAndDemand.FetchKeyOf | web/components/analytics/scope-and-demand/scope-and-demand.tsx:42-45 | there is no fetch key, hence no request, exactly when the workspace is missing |
| ScopeAndDemand.Fetched | web/components/analytics/scope-and-demand/scope-and-demand.tsx:37-46 | with no key there is neither data nor error; with a key the fetch state is the service's answer |
| ScopeAndDemand.CreatorsBoard | web/components/analytics/scope-and-demand/scope-and-demand.tsx:57-64 | the created-issues board is undefined exactly when its list is, otherwise of the same length with every field and count copied in order |
| ScopeAndDemand.ClosersBoard | web/components/analytics/scope-and-demand/scope-and-demand.tsx:70-77 | the same for the closed-issues board and the assignee fields |
| ScopeAndDemand.CreatorsBoardLossless | web/components/analytics/scope-and-demand/scope-and-demand.tsx:57-64 | mapping the board's entries back gives the statistics in their order |
| ScopeAndDemand.ClosersBoardLossless | web/components/analytics/scope-and-demand/scope-and-demand.tsx:70-77 | mapping the board's entries back gives the statistics in their order |
| ScopeAndDemand.ScopeScreen | web/components/analytics/scope-and-demand/scope-and-demand.tsx:50-106 | an error wins over data and data over the loader; the content carries the analytics, both boards and the workspace slug or "" |
| ScopeAndDemand.Page | web/components/analytics/scope-and-demand/scope-and-demand.tsx:27-106 | the page for a router query and a service answer: parameters, fetch key, fetch state, then the screen; characterised by `ScopeAndDemand.NoWorkspaceKeepsLoading` and `ScopeAndDemand.WorkspacePageFollowsResponse` |
| ScopeAndDemand.NoWorkspaceKeepsLoading | web/components/analytics/scope-and-demand/scope-and-demand.tsx:42-94 | without a workspace the page stays on the loader, whatever the service would answer |
| ScopeAndDemand.WorkspacePageFollowsResponse | web/components/analytics/scope-and-demand/scope-and-demand.tsx:42-68 | with a workspace the page follows the service's answer, and the boards get the workspace's slug |

Two rows model code in page files:
- The project merge of `Entities.ApplyPatch` is `handleChange` in web/pages/[workspaceSlug]/projects/[projectId]/settings/automations.tsx, lines 56-60.
- The initial form values behind `SelectBar.DefaultParamsApart` and `SelectBar.AnalyticsForm.constructor` are at web/pages/[workspaceSlug]/analytics.tsx, lines 49-54.

## Left out

- The fetch library's internals are not modelled: cache storage, de-duplication and when a revalidation actually refetches. A revalidation is recorded as a request only.
- Every service call is network I/O. It is modelled as the call value returned and a success flag passed in.
- Rollback is not modelled. The components never undo an optimistic write: a failure only toasts or logs.
- The settings page's `handleChange` also updates the projects list, calls the project service and toasts on failure. Only its merge into the project (`Entities.ApplyPatch`) is modelled, because the automation components hand it their patches.
- Rendering is left out: markup, class names, icons, colours (`generateBarColor`), the priority icon and the line graph's drawing, tooltip and theme.
- The `renderMonthAndYear` and `addSpaceIfCamelCase` helpers and the translated texts are not part of this model. They appear as constructors of `AnalyticsTable.Text` and as placeholders (`None`).
- The contents of `getStatesList`, `MONTHS_LIST`, `PROJECT_AUTOMATION_MONTHS`, `ANALYTICS_X_AXIS_VALUES`, `ANALYTICS_Y_AXIS_VALUES` and `DATE_KEYS` are not part of this model. `getStatesList` is represented by its result, the list of states; `PROJECT_AUTOMATION_MONTHS` only lists the choices, and the pick functions accept any number of months; the others are parameters, so the properties about them hold for any value.
- The string form of the fetch keys (`VIEWS_LIST`, `ISSUE_DETAILS`, `DEFAULT_ANALYTICS`, …) is not modelled: keys are constructors of `Cache.FetchKey`.
- `SingleViewItem.HandleRemoveFromFavorites` writes under `ViewsList(None)` when the project id is absent. That assumes two things about the key builder `VIEWS_LIST(projectId as string)` (single-view-item.tsx:65): that it accepts undefined, and that distinct ids give distinct keys. The key builder is not part of this model.
- Strings are sequences of Unicode code points. JavaScript's `substring(0, 3)` in `YearWiseIssues.Abbreviation` counts UTF-16 code units, so the two differ on characters outside the Basic Multilingual Plane.
- Router query values are single strings or absent. The array case of a Next.js query value is not modelled.
- Numbers are unbounded integers. The components copy, compare or add small counts, which JavaScript numbers hold exactly, so floating point does not arise.
- `AutoCloseAutomation.DefaultState` requires the cancelled group, when present, to be non-empty. The component indexes `[0]` of that group without a check, and would fail on an empty group.
- AnalyticsTable.Lookup: a null property value is not modelled. A datum's properties other than `name` are numbers or strings, so in the model `item[key] ?? 0` falls back to 0 only for a missing key.
- `Services.PatchIssue` does not record the acting `user` that `patchIssue` is also given (web/components/command-palette/issue/change-issue-state.tsx, line 59). The model has no users; what the service does with it is outside this model.
- The authentication forms, the AI assistant modal, the join-project component and the navigation bars and sidebars are outside the modelled core. They consist of network calls, timers, key listeners and route strings.

## Findings

| source | as written | input that shows it | evidently intended | confidence | as-written member | corrected member |
|---|---|---|---|---|---|---|
| web/components/automation/auto-close-automation.tsx:60-62 | `s.id === projectDetails?.default_state ?? defaultState` parses as `(s.id === …) ?? defaultState`; a comparison is never nullish, so the fallback to `defaultState` is dead | a project with `default_state` null, states `[c1]` in the cancelled group, `defaultState` "c1": as written nothing is selected | `s.id === (projectDetails?.default_state ?? defaultState)`, selecting the default cancelled state | high (not executed); the label's fallback to `currentDefaultState` hides it (`AutoCloseAutomation.LabelUnaffectedByPrecedence`) | AutoCloseAutomation.SelectedOptionAsWritten (`AutoCloseAutomation.FallbackNeverApplies`, `AutoCloseAutomation.SelectedOptionDiffers`) | AutoCloseAutomation.SelectedOption |
