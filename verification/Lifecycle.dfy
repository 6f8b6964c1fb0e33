/** The two lifecycle state machines, and the audit events that name their transitions. */
module Lifecycle {
  import opened Options

  datatype ProjectStatus = Draft | Active | Paused | Archived

  datatype ScraperStatus = Draft | Active | Disabled | Archived

  function ProjectTransitions(status: ProjectStatus): set<ProjectStatus> {
    match status
    case Draft => {ProjectStatus.Active, ProjectStatus.Archived}
    case Active => {ProjectStatus.Paused, ProjectStatus.Archived}
    case Paused => {ProjectStatus.Active, ProjectStatus.Archived}
    case Archived => {}
  }

  function ScraperTransitions(status: ScraperStatus): set<ScraperStatus> {
    match status
    case Draft => {ScraperStatus.Active, ScraperStatus.Archived}
    case Active => {ScraperStatus.Disabled, ScraperStatus.Archived}
    case Disabled => {ScraperStatus.Active, ScraperStatus.Archived}
    case Archived => {}
  }

  /** The shape of the two graphs: a status moves to any other but DRAFT, only DRAFT cannot be suspended
      directly, and nothing leaves ARCHIVED. */
  lemma TransitionGraphs(p: ProjectStatus, q: ProjectStatus, s: ScraperStatus, t: ScraperStatus)
    ensures q in ProjectTransitions(p) <==> p != q && !p.Archived? && !q.Draft? && !(p.Draft? && q.Paused?)
    ensures t in ScraperTransitions(s) <==> s != t && !s.Archived? && !t.Draft? && !(s.Draft? && t.Disabled?)
  {
  }

  datatype Action =
    | OrganizationCreated
    | ProjectCreated | ProjectUpdated | ProjectActivated | ProjectPaused | ProjectArchived
    | ScraperCreated | ScraperUpdated | ScraperConfigurationChanged
    | ScraperEnabled | ScraperDisabled | ScraperArchived
    | TargetCreated | TargetUpdated | TargetDeleted

  function ProjectEventFor(status: ProjectStatus): Action {
    match status
    case Active => ProjectActivated
    case Paused => ProjectPaused
    case Archived => ProjectArchived
    case Draft => ProjectUpdated
  }

  function ScraperEventFor(status: ScraperStatus): Action {
    match status
    case Active => ScraperEnabled
    case Disabled => ScraperDisabled
    case Archived => ScraperArchived
    case Draft => ScraperUpdated
  }
}
