/** The "auto-archive closed issues" setting of a project: a switch and the
    number of months after which closed issues are archived. */
module AutoArchiveAutomation {
  import opened Js
  import opened Entities

  /** `projectDetails?.archive_in !== 0`: the switch reads "on" and the
      months selector is shown (an unloaded project counts as on). */
  predicate ArchiveEnabled(project: Option<Project>) {
    project.None? || project.value.archive_in != 0
  }

  /** The switch's payload: one month when it was off, zero otherwise. */
  function ArchiveToggle(project: Option<Project>): (patch: ProjectPatch)
    ensures patch.close_in.None? && patch.default_state.None?
    ensures patch.archive_in == Some(if ArchiveEnabled(project) then 0 else 1)
  {
    if project.Some? && project.value.archive_in == 0 then EmptyPatch.(archive_in := Some(1))
    else EmptyPatch.(archive_in := Some(0))
  }

  /** Applying the toggle flips the switch and touches nothing else. */
  lemma ArchiveToggleFlips(p: Project)
    ensures var p1 := ApplyPatch(p, ArchiveToggle(Some(p)));
            && ArchiveEnabled(Some(p1)) == !ArchiveEnabled(Some(p))
            && p1 == p.(archive_in := p1.archive_in)
  {
  }

  /** Toggling twice gives zero back from zero and one month from any other
      value, so exactly the settings 0 and 1 round-trip. */
  lemma ArchiveToggleTwice(p: Project)
    ensures var p1 := ApplyPatch(p, ArchiveToggle(Some(p)));
            var p2 := ApplyPatch(p1, ArchiveToggle(Some(p1)));
            && p2.archive_in == (if p.archive_in == 0 then 0 else 1)
            && (p2 == p <==> p.archive_in == 0 || p.archive_in == 1)
  {
  }

  /** Choosing a number of months sends `archive_in` alone. */
  function ArchivePick(months: int): (patch: ProjectPatch)
    ensures patch.archive_in == Some(months) && patch.close_in.None? && patch.default_state.None?
  {
    EmptyPatch.(archive_in := Some(months))
  }

  /** The custom-range modal starts from one month. */
  function ArchiveModalInitial(): (patch: ProjectPatch)
    ensures patch.archive_in == Some(1) && patch.close_in.None? && patch.default_state.None?
  {
    EmptyPatch.(archive_in := Some(1))
  }

  /** The months selector's label: the number (undefined before the project
      loads) and the unit, singular exactly for one month. */
  function ArchiveInLabel(project: Option<Project>): (r: (Option<int>, MonthUnit))
    ensures r.0 == (if project.Some? then Some(project.value.archive_in) else None)
    ensures r.1 == Month <==> project.Some? && project.value.archive_in == 1
  {
    match project
    case None => (None, Months)
    case Some(p) => (Some(p.archive_in), if p.archive_in == 1 then Month else Months)
  }
}
