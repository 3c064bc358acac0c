/**
 * The dashboard's entities. Each string-literal union of the source becomes a datatype of nullary
 * constructors; where two unions share a literal, the constructors carry a prefix. Optional
 * properties (`x?: T`) are `Option<T>`; everything else is required. Numbers are `int`, except
 * the staff efficiency rating, which the sample data gives with one decimal and is a `real`.
 */
module Types {
  import opened Options

  /** The branch selector; the same type tags stored records. */
  datatype Branch = Global | France | Cameroun

  function BranchName(b: Branch): string {
    match b
    case Global => "Global"
    case France => "France"
    case Cameroun => "Cameroun"
  }

  /** Reads back a branch name, the inverse of BranchName: unknown names give None. */
  function BranchNamed(s: string): (r: Option<Branch>)
    ensures r.Some? ==> BranchName(r.value) == s
  {
    if s == "Global" then Some(Global)
    else if s == "France" then Some(France)
    else if s == "Cameroun" then Some(Cameroun)
    else None
  }

  /** Every branch, once each: the three options of the branch selector. */
  function Branches(): (r: seq<Branch>)
    ensures |r| == 3
    ensures forall i, j :: 0 <= i < j < |r| ==> r[i] != r[j]
  {
    [Global, France, Cameroun]
  }

  /** No Branch is missing from Branches. */
  lemma BranchListed(b: Branch)
    ensures b in Branches()
  {
    match b
      case Global => assert Branches()[0] == Global;
      case France => assert Branches()[1] == France;
      case Cameroun => assert Branches()[2] == Cameroun;
  }

  lemma BranchNameRoundTrip(b: Branch)
    ensures BranchNamed(BranchName(b)) == Some(b)
  {
  }

  datatype ViewType =
    | DashboardTab | WeddingsTab | StudioTab | PersonnelTab
    | PerformanceTab | MarketingTab | CrmTab | SettingsTab

  function ViewName(v: ViewType): string {
    match v
    case DashboardTab => "dashboard"
    case WeddingsTab => "weddings"
    case StudioTab => "studio"
    case PersonnelTab => "personnel"
    case PerformanceTab => "performance"
    case MarketingTab => "marketing"
    case CrmTab => "crm"
    case SettingsTab => "settings"
  }

  datatype Theme = Light | Dark

  function ThemeName(t: Theme): string {
    match t
    case Light => "light"
    case Dark => "dark"
  }

  function ThemeNamed(s: string): (r: Option<Theme>)
    ensures r.Some? ==> ThemeName(r.value) == s
  {
    if s == "light" then Some(Light) else if s == "dark" then Some(Dark) else None
  }

  lemma ThemeNameRoundTrip(t: Theme)
    ensures ThemeNamed(ThemeName(t)) == Some(t)
  {
  }

  datatype NotificationKind = InfoNote | SuccessNote | WarningNote | ErrorNote

  datatype AppNotification = AppNotification(
    id: string, title: string, message: string, kind: NotificationKind,
    timestamp: string, read: bool)

  datatype ProjectType = Mariage | Studio | Corporate | Event

  datatype ProjectStatus = Planning | Confirmed | InProgress | Completed | Delivered

  /** The five project statuses, once each. */
  function ProjectStatuses(): (r: seq<ProjectStatus>)
    ensures |r| == 5
    ensures forall i, j :: 0 <= i < j < |r| ==> r[i] != r[j]
  {
    [Planning, Confirmed, InProgress, Completed, Delivered]
  }

  /** No ProjectStatus is missing from ProjectStatuses. */
  lemma ProjectStatusListed(s: ProjectStatus)
    ensures s in ProjectStatuses()
  {
    match s
      case Planning => assert ProjectStatuses()[0] == Planning;
      case Confirmed => assert ProjectStatuses()[1] == Confirmed;
      case InProgress => assert ProjectStatuses()[2] == InProgress;
      case Completed => assert ProjectStatuses()[3] == Completed;
      case Delivered => assert ProjectStatuses()[4] == Delivered;
  }

  datatype TaskStatus = TaskPending | TaskInProgress | TaskCompleted

  /** The three task statuses, once each. */
  function TaskStatuses(): (r: seq<TaskStatus>)
    ensures |r| == 3
    ensures forall i, j :: 0 <= i < j < |r| ==> r[i] != r[j]
  {
    [TaskPending, TaskInProgress, TaskCompleted]
  }

  /** No TaskStatus is missing from TaskStatuses. */
  lemma TaskStatusListed(s: TaskStatus)
    ensures s in TaskStatuses()
  {
    match s
      case TaskPending => assert TaskStatuses()[0] == TaskPending;
      case TaskInProgress => assert TaskStatuses()[1] == TaskInProgress;
      case TaskCompleted => assert TaskStatuses()[2] == TaskCompleted;
  }

  datatype StaffStatus = Actif | EnMission | EnPause

  datatype EquipmentCategory = Camera | Objectif | Drone | Eclairage | Audio | Accessoire

  datatype EquipmentStatus = Available | InUse | Maintenance | Broken

  /** The four equipment statuses, once each. */
  function EquipmentStatuses(): (r: seq<EquipmentStatus>)
    ensures |r| == 4
    ensures forall i, j :: 0 <= i < j < |r| ==> r[i] != r[j]
  {
    [Available, InUse, Maintenance, Broken]
  }

  /** No EquipmentStatus is missing from EquipmentStatuses. */
  lemma EquipmentStatusListed(s: EquipmentStatus)
    ensures s in EquipmentStatuses()
  {
    match s
      case Available => assert EquipmentStatuses()[0] == Available;
      case InUse => assert EquipmentStatuses()[1] == InUse;
      case Maintenance => assert EquipmentStatuses()[2] == Maintenance;
      case Broken => assert EquipmentStatuses()[3] == Broken;
  }

  datatype ProjectAnalytics = ProjectAnalytics(
    firstPassSuccess: bool, deliveryTimeDays: int, clientRating: int, revisionCount: int)

  datatype Equipment = Equipment(
    id: string, name: string, category: EquipmentCategory, status: EquipmentStatus,
    serialNumber: string, branch: Branch,
    assignedTo: Option<string>, currentProject: Option<string>, lastMaintenance: Option<string>)

  datatype Skill = Skill(name: string, level: int)

  datatype Task = Task(
    id: string, name: string, status: TaskStatus,
    deadline: Option<string>, assignedTo: Option<string>)

  datatype Urgency = Low | Medium | High

  /** A project: `budget` and `tasks` are required, `tasks` may be empty. */
  datatype Project = Project(
    id: string, clientName: string, kind: ProjectType, date: string, status: ProjectStatus,
    location: string, budget: int, branch: Branch, formula: string, tasks: seq<Task>,
    urgency: Urgency, analytics: Option<ProjectAnalytics>)

  datatype Department =
    | MontageVideo | RetouchePhoto | Photographie | Cadrage | Graphisme | MarketingDept | MakeUp

  datatype Availability = StaffAvailable | StaffBusy | StaffOnLeave

  datatype MonthScore = MonthScore(month: string, score: int)

  datatype Staff = Staff(
    id: string, name: string, role: string, department: Department, status: StaffStatus,
    branch: Branch, availability: Availability, performanceScore: int, efficiency: real,
    projectsCompleted: int, email: string, phone: string, skills: seq<Skill>,
    workload: seq<int>, evolutionData: seq<MonthScore>, deliveryDelay: Option<int>)

  datatype InteractionType = Email | Call | Meeting | Portal

  datatype Interaction = Interaction(id: string, kind: InteractionType, date: string, summary: string)

  datatype GalleryLink = GalleryLink(id: string, linkLabel: string, url: string, isPrivate: bool)

  datatype CustomerStatus = Lead | Active | Past

  datatype CustomerCategory = WeddingCategory | StudioCategory | VipCategory

  datatype Customer = Customer(
    id: string, name: string, email: string, phone: string, branch: Branch,
    status: CustomerStatus, category: CustomerCategory, totalRevenue: int,
    projects: seq<string>, interactions: seq<Interaction>, galleries: seq<GalleryLink>,
    portalAccessCode: string)

  datatype SessionType = Portrait | Fashion | Engagement | Product | Maternite | Famille

  datatype SessionStatus = SessionScheduled | SessionCompleted | SessionCancelled

  datatype StudioSession = StudioSession(
    id: string, clientName: string, branch: Branch, kind: SessionType, date: string,
    duration: string, photographer: string, status: SessionStatus)

  datatype StudioClient = StudioClient(
    id: string, name: string, branch: Branch, email: string, phone: string,
    lastSession: string, totalSpent: int)

  datatype ExpenseCategory =
    | EquipementCost | ConsommablesCost | LocationCost | MarketingCost | MaintenanceCost | LoyerChargesCost

  datatype CostType = Fixe | Variable

  datatype StudioExpense = StudioExpense(
    id: string, branch: Branch, category: ExpenseCategory, kind: CostType, amount: int,
    date: string, description: string)

  datatype SocialPlatform = Instagram | TikTok | Facebook | LinkedIn

  datatype ContentStatus = Draft | Scheduled | Published

  datatype PostType = VideoReel | PhotoPost | Carousel | Story

  /** Marketing records carry no branch. */
  datatype ContentPost = ContentPost(
    id: string, platform: SocialPlatform, title: string, date: string, status: ContentStatus,
    kind: PostType, content: string)

  datatype TemplateCategory = Promotion | Tips | BehindTheScenes

  datatype MarketingTemplate = MarketingTemplate(
    id: string, title: string, category: TemplateCategory, body: string)

  datatype CampaignRoi = CampaignRoi(month: string, adSpend: int, revenue: int, leads: int)
}
