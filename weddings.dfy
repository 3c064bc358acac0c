/**
 * The projects view: a fetch that narrows by branch and reconciles the store's answer with a
 * built-in sample list, the currency chosen for a budget, and the status filter.
 */
module WeddingsView {
  import opened Options
  import opened Seqs
  import opened Types
  import opened Filters
  import opened Remote

  function Rambouillet(): Project {
    Project("demo-1", "Amélie & Thomas", Mariage, "12 Juin 2024", InProgress, "Château de Rambouillet",
      15000, France, "Prestige", [], High, None)
  }

  function StudioDouala(): Project {
    Project("demo-2", "Marc-Aurèle Tchakounté", Studio, "18 Mai 2024", Planning, "Studio Douala",
      2500000, Cameroun, "VIP", [], Medium, None)
  }

  /** `MOCK_PROJECTS`, the offline list. */
  function MockProjects(): seq<Project> {
    [Rambouillet(), StudioDouala()]
  }

  /**
   * A row as the store returns it: the client's name may come under `client_name` or
   * `clientName` (either may be absent or empty), and the joined `tasks` may be absent.
   */
  datatype ProjectRow = ProjectRow(
    id: string, client_name: Option<string>, clientName: Option<string>, kind: ProjectType,
    date: string, status: ProjectStatus, location: string, budget: int, branch: Branch,
    formula: string, tasks: Option<seq<Task>>, urgency: Urgency, analytics: Option<ProjectAnalytics>)

  /** The select of the fetch: every project column and its tasks, narrowed unless Global. */
  function ProjectsQuery(sel: Branch): (q: Query)
    ensures q.table == "projects" && q.columns == "*, tasks (*)"
    ensures q.branchEq.Some? <==> sel != Global
    ensures q.branchEq.Some? ==> q.branchEq.value == sel
  {
    BranchQuery("projects", "*, tasks (*)", sel)
  }

  /**
   * The mapping of one row: `clientName` from `client_name` when that is truthy, else from
   * `clientName` (the empty string when both are absent); `tasks` defaults to the empty list;
   * every other field is copied.
   */
  function MapRow(row: ProjectRow): (p: Project)
    ensures Truthy(row.client_name) ==> p.clientName == row.client_name.value
    ensures !Truthy(row.client_name) && row.clientName.Some? ==> p.clientName == row.clientName.value
    ensures row.tasks.None? ==> p.tasks == []
    ensures row.tasks.Some? ==> p.tasks == row.tasks.value
    ensures p.id == row.id && p.kind == row.kind && p.date == row.date && p.status == row.status
    ensures p.location == row.location && p.budget == row.budget && p.branch == row.branch
    ensures p.formula == row.formula && p.urgency == row.urgency && p.analytics == row.analytics
  {
    var name := if Truthy(row.client_name) then row.client_name.value else row.clientName.GetOr("");
    Project(row.id, name, row.kind, row.date, row.status, row.location, row.budget, row.branch,
      row.formula, row.tasks.GetOr([]), row.urgency, row.analytics)
  }

  /** `data.map(...)`: one project per row, in the rows' order. */
  function MapRows(rows: seq<ProjectRow>): (r: seq<Project>)
    ensures |r| == |rows|
    ensures forall i :: 0 <= i < |rows| ==> r[i] == MapRow(rows[i])
  {
    Map(rows, MapRow)
  }

  /** The offline list narrowed by branch. */
  function Fallback(sel: Branch): seq<Project> {
    ByBranch(MockProjects(), ProjectBranch, sel)
  }

  /**
   * What `projects` holds once a fetch has settled: the mapped rows on a success with at least
   * one row, the narrowed offline list on an empty or null success and on any failure.
   */
  function ProjectsAfter(sel: Branch, outcome: FetchOutcome<ProjectRow>): seq<Project> {
    match outcome
    case Failed(_) => Fallback(sel)
    case Ok(data) => if data.Some? && |data.value| > 0 then MapRows(data.value) else Fallback(sel)
  }

  /** A success with rows shows exactly those rows, mapped one for one in their order. */
  lemma NonEmptySuccessShowsRows(sel: Branch, rows: seq<ProjectRow>)
    requires |rows| > 0
    ensures |ProjectsAfter(sel, Ok(Some(rows)))| == |rows|
    ensures forall i :: 0 <= i < |rows| ==> ProjectsAfter(sel, Ok(Some(rows)))[i] == MapRow(rows[i])
  {
  }

  /** An empty success, a null success and a failure all show the same narrowed offline list. */
  lemma NoRowsFallsBack(sel: Branch, message: string)
    ensures ProjectsAfter(sel, Failed(message)) == Fallback(sel)
    ensures ProjectsAfter(sel, Ok(Some([]))) == Fallback(sel)
    ensures ProjectsAfter(sel, Ok(None)) == Fallback(sel)
  {
  }

  /**
   * The list is never mixed: either every project comes from the offline list, or there is a
   * row for each project and nothing else.
   */
  lemma NeverMixed(sel: Branch, outcome: FetchOutcome<ProjectRow>)
    ensures (forall i :: 0 <= i < |ProjectsAfter(sel, outcome)| ==> ProjectsAfter(sel, outcome)[i] in MockProjects())
         || (outcome.Ok? && outcome.data.Some? && ProjectsAfter(sel, outcome) == MapRows(outcome.data.value))
  {
  }

  /**
   * Whichever way the fetch goes, with a store that honours the branch predicate of the query
   * every project shown belongs to the selected branch (or any branch under Global).
   */
  lemma ShownProjectsInBranch(sel: Branch, outcome: FetchOutcome<ProjectRow>)
    requires outcome.Ok? && outcome.data.Some? ==>
             Honours(ProjectsQuery(sel), (row: ProjectRow) => row.branch, outcome.data.value)
    ensures forall i :: 0 <= i < |ProjectsAfter(sel, outcome)| ==>
              InBranch(ProjectsAfter(sel, outcome)[i].branch, sel)
  {
  }

  /** The offline list gives Rambouillet for France, Douala for Cameroun and both for Global. */
  lemma SampleFallback()
    ensures Fallback(Global) == MockProjects()
    ensures Fallback(France) == [Rambouillet()]
    ensures Fallback(Cameroun) == [StudioDouala()]
  {
    ByBranchGlobal(MockProjects(), ProjectBranch);
    assert MockProjects()[1..][1..] == [];
  }

  /** The currencies a budget is shown in. */
  datatype Currency = XAF | EUR

  /**
   * The arguments of `Intl.NumberFormat` and the amount given to `format`: a locale, a currency
   * and the maximum fraction digits, None meaning the currency's own default.
   */
  datatype MoneyDisplay = MoneyDisplay(locale: string, currency: Currency, maxFractionDigits: Option<nat>, amount: int)

  /** `formatCurrency`: XAF without decimals for Cameroun, EUR otherwise; the amount is unscaled. */
  function FormatCurrency(amount: int, projectBranch: Branch): (r: MoneyDisplay)
    ensures r.amount == amount
    ensures r.currency == XAF <==> projectBranch == Cameroun
    ensures r.currency == XAF ==> r.locale == "fr-CM" && r.maxFractionDigits == Some(0)
    ensures r.currency == EUR ==> r.locale == "fr-FR" && r.maxFractionDigits.None?
  {
    if projectBranch == Cameroun then MoneyDisplay("fr-CM", XAF, Some(0), amount)
    else MoneyDisplay("fr-FR", EUR, None, amount)
  }

  /**
   * `formatCurrency(project.budget || 0, project.branch)`: the project's own budget, in the
   * currency of the project's branch.
   */
  function BudgetShown(p: Project): (r: MoneyDisplay)
    ensures r.amount == p.budget
    ensures r.currency == XAF <==> p.branch == Cameroun
  {
    FormatCurrency(p.budget, p.branch)
  }

  /** The sample Douala budget shows as 2 500 000 XAF without decimals, Rambouillet's in euros. */
  lemma SampleBudgets()
    ensures BudgetShown(StudioDouala()) == MoneyDisplay("fr-CM", XAF, Some(0), 2500000)
    ensures BudgetShown(Rambouillet()) == MoneyDisplay("fr-FR", EUR, None, 15000)
  {
  }

  /** `activeFilter`: 'All' or one project status. */
  datatype StatusFilter = AllStatuses | OnlyStatus(status: ProjectStatus)

  /** The four filter buttons, in the order shown. */
  function FilterButtons(): seq<StatusFilter> {
    [AllStatuses, OnlyStatus(Planning), OnlyStatus(InProgress), OnlyStatus(Completed)]
  }

  /** There are four distinct buttons, All first; Confirmed and Delivered have none. */
  lemma FilterButtonsDistinct()
    ensures |FilterButtons()| == 4 && FilterButtons()[0] == AllStatuses
    ensures forall i, j :: 0 <= i < j < |FilterButtons()| ==> FilterButtons()[i] != FilterButtons()[j]
    ensures OnlyStatus(Confirmed) !in FilterButtons() && OnlyStatus(Delivered) !in FilterButtons()
  {
  }

  /** `filteredProjects`. */
  function FilteredProjects(ps: seq<Project>, f: StatusFilter): seq<Project> {
    if f.AllStatuses? then ps else Filter(ps, (p: Project) => p.status == f.status)
  }

  /** 'All' is the identity. */
  lemma AllFilterIsIdentity(ps: seq<Project>)
    ensures FilteredProjects(ps, AllStatuses) == ps
  {
  }

  /**
   * Any other filter keeps exactly the projects with that status, in order, each as often as in
   * the list.
   */
  lemma StatusFilterKeepsStatus(ps: seq<Project>, s: ProjectStatus)
    ensures forall i :: 0 <= i < |FilteredProjects(ps, OnlyStatus(s))| ==> FilteredProjects(ps, OnlyStatus(s))[i].status == s
    ensures forall i :: 0 <= i < |ps| && ps[i].status == s ==> ps[i] in FilteredProjects(ps, OnlyStatus(s))
    ensures IsSubseq(FilteredProjects(ps, OnlyStatus(s)), ps)
    ensures forall p :: multiset(FilteredProjects(ps, OnlyStatus(s)))[p] == if p.status == s then multiset(ps)[p] else 0
  {
    FilterIsSubseq(ps, (p: Project) => p.status == s);
    FilterMultiset(ps, (p: Project) => p.status == s);
  }

  /** The state of the projects view. */
  class ProjectsView {
    var projects: seq<Project>
    var loading: bool
    var activeFilter: StatusFilter

    /** The first render: no projects yet, loading, every status. */
    constructor()
      ensures projects == [] && loading && activeFilter == AllStatuses
    {
      projects := [];
      loading := true;
      activeFilter := AllStatuses;
    }

    /** `fetchProjects` up to the await: sets `loading` and builds the query. */
    method StartFetch(sel: Branch) returns (q: Query)
      modifies this`loading
      ensures loading
      ensures q == ProjectsQuery(sel)
    {
      loading := true;
      q := Query("projects", "*, tasks (*)", None);
      if sel != Global {
        q := q.(branchEq := Some(sel));
      }
    }

    /**
     * `fetchProjects` after the await: the success branch, the fallbacks and the `finally` that
     * clears `loading`. A failure leaves no error in the state; it is only logged.
     */
    method FinishFetch(sel: Branch, outcome: FetchOutcome<ProjectRow>)
      modifies this`projects, this`loading
      ensures projects == ProjectsAfter(sel, outcome)
      ensures !loading
    {
      match outcome {
        case Failed(_) =>
          projects := Fallback(sel);
        case Ok(data) =>
          if data.Some? && |data.value| > 0 {
            projects := MapRows(data.value);
          } else {
            projects := Fallback(sel);
          }
      }
      loading := false;
    }

    /** A click on a filter button. */
    method SetFilter(f: StatusFilter)
      modifies this`activeFilter
      ensures activeFilter == f
    {
      activeFilter := f;
    }

    /** The projects listed under the active filter. */
    function Visible(): seq<Project>
      reads this
    {
      FilteredProjects(projects, activeFilter)
    }
  }
}
