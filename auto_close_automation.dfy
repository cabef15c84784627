/** The "auto-close issues" setting of a project: a switch, the number of
    months of inactivity, and the cancelled state closed issues are moved to.
    The states arrive grouped by state group; the flat list `states` (the
    result of `getStatesList`, not part of this model) is a parameter. */
module AutoCloseAutomation {
  import opened Js
  import opened Entities

  predicate IsCancelled(s: State) {
    s.group == "cancelled"
  }

  /** One entry of the state selector: the state's id as value and its name
      as search text (the rendered content is not modelled). */
  datatype SelectOption = SelectOption(value: string, query: string)

  function OptionOf(s: State): SelectOption {
    SelectOption(s.id, s.name)
  }

  /** The options for a loaded list of states: `filter` on the cancelled
      group, then `map` to an option. */
  function OptionsOf(states: seq<State>): (r: seq<SelectOption>)
    ensures |r| == |Filter(states, IsCancelled)|
  {
    var cancelled := Filter(states, IsCancelled);
    seq(|cancelled|, i requires 0 <= i < |cancelled| => OptionOf(cancelled[i]))
  }

  /** `options`: undefined while the states are not loaded. */
  function CancelledOptions(states: Option<seq<State>>): (r: Option<seq<SelectOption>>)
    ensures r.None? <==> states.None?
    ensures r.Some? ==> r.value == OptionsOf(states.value)
  {
    match states
    case None => None
    case Some(s) => Some(OptionsOf(s))
  }

  /** The options keep the input's order: those of a concatenation are the
      concatenation of the options of each part ... */
  lemma OptionsAppend(a: seq<State>, b: seq<State>)
    ensures OptionsOf(a + b) == OptionsOf(a) + OptionsOf(b)
  {
    FilterAppend(a, b, IsCancelled);
  }

  /** ... and a single state yields its option exactly when it is cancelled. */
  lemma OptionsSingle(s: State)
    ensures OptionsOf([s]) == if IsCancelled(s) then [OptionOf(s)] else []
  {
    assert Filter([s], IsCancelled) == (if IsCancelled(s) then [s] else []) + Filter([], IsCancelled);
  }

  /** Every option is that of a cancelled state, and every cancelled state has its option. */
  lemma OptionsAreCancelledStates(states: seq<State>)
    ensures forall i :: 0 <= i < |OptionsOf(states)| ==>
      exists j :: 0 <= j < |states| && IsCancelled(states[j]) && OptionsOf(states)[i] == OptionOf(states[j])
    ensures forall j :: 0 <= j < |states| && IsCancelled(states[j]) ==> OptionOf(states[j]) in OptionsOf(states)
  {
    var cancelled := Filter(states, IsCancelled);
    forall i | 0 <= i < |OptionsOf(states)|
      ensures exists j :: 0 <= j < |states| && IsCancelled(states[j]) && OptionsOf(states)[i] == OptionOf(states[j])
    {
      assert cancelled[i] in states && IsCancelled(cancelled[i]);
      var j :| 0 <= j < |states| && states[j] == cancelled[i];
      assert OptionsOf(states)[i] == OptionOf(states[j]);
    }
    assert forall i :: 0 <= i < |OptionsOf(states)| ==>
      exists j :: 0 <= j < |states| && IsCancelled(states[j]) && OptionsOf(states)[i] == OptionOf(states[j]);
    forall j | 0 <= j < |states| && IsCancelled(states[j])
      ensures OptionOf(states[j]) in OptionsOf(states)
    {
      var i :| 0 <= i < |cancelled| && cancelled[i] == states[j];
      assert OptionsOf(states)[i] == OptionOf(states[j]);
    }
  }

  /** `multipleOptions`: more than one option, a missing list counting as empty. */
  predicate MultipleOptions(states: Option<seq<State>>) {
    |CancelledOptions(states).GetOr([])| > 1
  }

  /** The state selector is enabled exactly when two cancelled states exist. */
  lemma SelectorEnabledIffTwoCancelled(states: Option<seq<State>>)
    ensures MultipleOptions(states) <==>
      states.Some? && exists i, j :: 0 <= i < j < |states.value| && IsCancelled(states.value[i]) && IsCancelled(states.value[j])
  {
    if states.Some? {
      FilterAtLeastTwo(states.value, IsCancelled);
    }
  }

  /** The component dereferences the first cancelled state whenever the group
      is present, so a present group must be non-empty. */
  predicate CancelledGroupIndexable(groups: Option<StateGroups>) {
    groups.Some? && "cancelled" in groups.value ==> |groups.value["cancelled"]| > 0
  }

  /** `defaultState`: the id of the first state of the cancelled group, or null. */
  function DefaultState(groups: Option<StateGroups>): (r: Option<string>)
    requires CancelledGroupIndexable(groups)
    ensures r.Some? <==> groups.Some? && "cancelled" in groups.value
    ensures r.Some? ==> r.value == groups.value["cancelled"][0].id
  {
    if groups.Some? && "cancelled" in groups.value then Some(groups.value["cancelled"][0].id) else None
  }

  /** `projectDetails?.close_in !== 0`: the switch reads "on" and the
      details are shown (an unloaded project counts as on). */
  predicate CloseEnabled(project: Option<Project>) {
    project.None? || project.value.close_in != 0
  }

  /** The switch's payload: turning on sends one month and the default
      cancelled state, turning off sends zero months and no state. */
  function CloseToggle(project: Option<Project>, defaultState: Option<string>): (patch: ProjectPatch)
    ensures patch.archive_in.None?
    ensures !CloseEnabled(project) ==> patch.close_in == Some(1) && patch.default_state == Some(defaultState)
    ensures CloseEnabled(project) ==> patch.close_in == Some(0) && patch.default_state == Some(None)
  {
    if project.Some? && project.value.close_in == 0 then
      EmptyPatch.(close_in := Some(1), default_state := Some(defaultState))
    else
      EmptyPatch.(close_in := Some(0), default_state := Some(None))
  }

  /** Applying the toggle flips the switch and leaves the archive setting alone. */
  lemma CloseToggleFlips(p: Project, defaultState: Option<string>)
    ensures CloseEnabled(Some(ApplyPatch(p, CloseToggle(Some(p), defaultState)))) == !CloseEnabled(Some(p))
    ensures ApplyPatch(p, CloseToggle(Some(p), defaultState)).archive_in == p.archive_in
  {
  }

  /** Toggling twice gives back zero months, or one month and the default
      state, whatever the months were: only those two settings round-trip. */
  lemma CloseToggleTwice(p: Project, defaultState: Option<string>)
    ensures var p1 := ApplyPatch(p, CloseToggle(Some(p), defaultState));
            var p2 := ApplyPatch(p1, CloseToggle(Some(p1), defaultState));
            && p2.close_in == (if p.close_in == 0 then 0 else 1)
            && p2.default_state == (if p.close_in == 0 then None else defaultState)
            && (p2 == p <==> (p.close_in == 0 && p.default_state.None?) || (p.close_in == 1 && p.default_state == defaultState))
  {
  }

  /** Choosing a number of months sends `close_in` alone. */
  function CloseInPick(months: int): (patch: ProjectPatch)
    ensures patch.close_in == Some(months) && patch.archive_in.None? && patch.default_state.None?
  {
    EmptyPatch.(close_in := Some(months))
  }

  /** Choosing a state sends `default_state` alone. */
  function DefaultStatePick(stateId: string): (patch: ProjectPatch)
    ensures patch.default_state == Some(Some(stateId)) && patch.close_in.None? && patch.archive_in.None?
  {
    EmptyPatch.(default_state := Some(Some(stateId)))
  }

  /** The custom-range modal starts from one month and the default state. */
  function CloseModalInitial(defaultState: Option<string>): (patch: ProjectPatch)
    ensures patch.close_in == Some(1) && patch.default_state == Some(defaultState) && patch.archive_in.None?
  {
    EmptyPatch.(close_in := Some(1), default_state := Some(defaultState))
  }

  /** The months selector's label: the number (undefined before the project
      loads) and the unit, singular exactly for one month. */
  function CloseInLabel(project: Option<Project>): (r: (Option<int>, MonthUnit))
    ensures r.0 == (if project.Some? then Some(project.value.close_in) else None)
    ensures r.1 == Month <==> project.Some? && project.value.close_in == 1
  {
    match project
    case None => (None, Months)
    case Some(p) => (Some(p.close_in), if p.close_in == 1 then Month else Months)
  }

  /** The state selector's value: the project's default state when it is
      set and non-empty, otherwise the default cancelled state. */
  function DisplayedState(project: Option<Project>, defaultState: Option<string>): (r: Option<string>)
    ensures project.Some? && Present(project.value.default_state) ==> r == project.value.default_state
    ensures !(project.Some? && Present(project.value.default_state)) ==> r == defaultState
  {
    if project.Some? && Present(project.value.default_state) then project.value.default_state else defaultState
  }

  // The state selector's label.

  /** `projectDetails?.default_state` as a JavaScript value. */
  function DefaultStateField(project: Option<Project>): JsValue {
    match project
    case None => Undefined
    case Some(p) => Nullable(p.default_state)
  }

  /** The search predicate as written, `s.id === projectDetails?.default_state ?? defaultState`,
      which parses as `(s.id === projectDetails?.default_state) ?? defaultState`. */
  predicate MatchesAsWritten(s: State, project: Option<Project>, defaultState: Option<string>) {
    Truthy(Coalesce(Bool(Str(s.id) == DefaultStateField(project)), Nullable(defaultState)))
  }

  /** `selectedOption` as written. */
  function SelectedOptionAsWritten(states: Option<seq<State>>, project: Option<Project>, defaultState: Option<string>): (r: Option<State>)
    ensures r.None? <==> states.None? || forall i :: 0 <= i < |states.value| ==> !MatchesAsWritten(states.value[i], project, defaultState)
    ensures r.Some? ==> states.Some? && r.value in states.value && MatchesAsWritten(r.value, project, defaultState)
  {
    match states
    case None => None
    case Some(s) => Find(s, (x: State) => MatchesAsWritten(x, project, defaultState))
  }

  /** A comparison is never nullish, so the fallback never applies: the
      search as written looks for the project's own default state only. */
  lemma FallbackNeverApplies(states: seq<State>, project: Option<Project>, defaultState: Option<string>)
    ensures SelectedOptionAsWritten(Some(states), project, defaultState) ==
            Find(states, (x: State) => Str(x.id) == DefaultStateField(project))
  {
    FindCongruent(states, (x: State) => MatchesAsWritten(x, project, defaultState), (x: State) => Str(x.id) == DefaultStateField(project));
  }

  /** The search as evidently intended: `s.id === (projectDetails?.default_state ?? defaultState)`. */
  function SelectedOption(states: Option<seq<State>>, project: Option<Project>, defaultState: Option<string>): (r: Option<State>)
    ensures r.None? <==> states.None? || forall i :: 0 <= i < |states.value| ==>
      Str(states.value[i].id) != Coalesce(DefaultStateField(project), Nullable(defaultState))
    ensures r.Some? ==> Str(r.value.id) == Coalesce(DefaultStateField(project), Nullable(defaultState))
    ensures r.Some? ==> states.Some?
    ensures r.Some? ==> exists k :: 0 <= k < |states.value| && r.value == states.value[k] &&
                          forall j :: 0 <= j < k ==> Str(states.value[j].id) != Coalesce(DefaultStateField(project), Nullable(defaultState))
  {
    match states
    case None => None
    case Some(s) => Find(s, (x: State) => Str(x.id) == Coalesce(DefaultStateField(project), Nullable(defaultState)))
  }

  /** An input on which the two readings differ: a project whose default
      state is null, with a cancelled default state at hand. */
  lemma SelectedOptionDiffers()
    ensures var c := State("c1", "Cancelled", "cancelled", "#000000");
            var p := Project("p1", 1, 0, None);
            && SelectedOptionAsWritten(Some([c]), Some(p), Some("c1")) == None
            && SelectedOption(Some([c]), Some(p), Some("c1")) == Some(c)
  {
  }

  /** `currentDefaultState`: the state that `defaultState` names. */
  function CurrentDefaultState(states: Option<seq<State>>, defaultState: Option<string>): (r: Option<State>)
    ensures r.None? <==> states.None? || forall i :: 0 <= i < |states.value| ==> Some(states.value[i].id) != defaultState
    ensures r.Some? ==> Some(r.value.id) == defaultState
    ensures r.Some? ==> states.Some?
    ensures r.Some? ==> exists k :: 0 <= k < |states.value| && r.value == states.value[k] &&
                          forall j :: 0 <= j < k ==> Some(states.value[j].id) != defaultState
  {
    match states
    case None => None
    case Some(s) => Find(s, (x: State) => Str(x.id) == Nullable(defaultState))
  }

  /** The label: the icon of a state (None: the generic icon) and a text
      (None: the translated "state" placeholder). */
  datatype StateLabel = StateLabel(icon: Option<State>, text: Option<string>)

  function LabelOf(selected: Option<State>, current: Option<State>): StateLabel {
    StateLabel(
      if selected.Some? then selected else current,
      if selected.Some? && selected.value.name != "" then Some(selected.value.name)
      else if current.Some? then Some(current.value.name) else None)
  }

  /** The selector's label, built from the intended search. */
  function StateSelectLabel(states: Option<seq<State>>, project: Option<Project>, defaultState: Option<string>): StateLabel {
    LabelOf(SelectedOption(states, project, defaultState), CurrentDefaultState(states, defaultState))
  }

  /** The label falls back to `currentDefaultState`, so the precedence slip
      does not show: the label is the same under both readings. */
  lemma LabelUnaffectedByPrecedence(states: Option<seq<State>>, project: Option<Project>, defaultState: Option<string>)
    ensures LabelOf(SelectedOptionAsWritten(states, project, defaultState), CurrentDefaultState(states, defaultState)) ==
            StateSelectLabel(states, project, defaultState)
  {
    if states.Some? {
      var s := states.value;
      FallbackNeverApplies(s, project, defaultState);
      var field := DefaultStateField(project);
      if Nullish(field) {
        FindCongruent(s, (x: State) => Str(x.id) == field, (x: State) => false);
        FindCongruent(s, (x: State) => Str(x.id) == Coalesce(field, Nullable(defaultState)), (x: State) => Str(x.id) == Nullable(defaultState));
      } else {
        FindCongruent(s, (x: State) => Str(x.id) == Coalesce(field, Nullable(defaultState)), (x: State) => Str(x.id) == field);
      }
    }
  }
}
