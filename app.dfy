/**
 * The application shell: the active view, the branch selector, the theme and the notification
 * list; the theme and branch are restored from storage at start and written back on change.
 */
module AppShell {
  import opened Options
  import opened Types
  import opened Storage

  const ThemeKey := "theme-preference"
  const BranchKey := "selected-branch"

  function InitialNotifications(): seq<AppNotification> {
    [ AppNotification("1", "Retard Critique", "Le teaser de \"Amélie & Thomas\" a 3 jours de retard.", ErrorNote, "14:30", false),
      AppNotification("2", "Matériel Prêt", "La Red Komodo est revenue de maintenance.", SuccessNote, "Hier", true),
      AppNotification("3", "Nouveau Lead", "Demande de devis (Cameroun) pour un shooting.", InfoNote, "2h ago", false) ]
  }

  /** `prev === 'dark' ? 'light' : 'dark'`. */
  function Toggled(t: Theme): (r: Theme)
    ensures r != t
  {
    if t == Dark then Light else Dark
  }

  /** Toggling twice is the identity. */
  lemma ToggleTwice(t: Theme)
    ensures Toggled(Toggled(t)) == t
  {
  }

  /** The stored theme, when a (truthy) value is stored under its key. */
  function StoredTheme(items: map<string, string>): Option<Theme> {
    var v := Lookup(items, ThemeKey);
    if Truthy(v) then ThemeNamed(v.value) else None
  }

  /** The stored branch, when a (truthy) value is stored under its key. */
  function StoredBranch(items: map<string, string>): Option<Branch> {
    var v := Lookup(items, BranchKey);
    if Truthy(v) then BranchNamed(v.value) else None
  }

  /** Whatever is stored under the two keys is a theme name and a branch name. */
  predicate WellFormedStore(items: map<string, string>) {
    (Truthy(Lookup(items, ThemeKey)) ==> StoredTheme(items).Some?) &&
    (Truthy(Lookup(items, BranchKey)) ==> StoredBranch(items).Some?)
  }

  /** The storage holds exactly the given theme and branch under their keys. */
  predicate InSync(items: map<string, string>, t: Theme, b: Branch) {
    Lookup(items, ThemeKey) == Some(ThemeName(t)) && Lookup(items, BranchKey) == Some(BranchName(b))
  }

  /**
   * A value written by the shell is the one the next start restores, and the shell's writes
   * keep the storage well formed; an empty storage is well formed too.
   */
  lemma WrittenValuesAreRestored(items: map<string, string>, t: Theme, b: Branch)
    requires WellFormedStore(items)
    ensures StoredTheme(items[ThemeKey := ThemeName(t)]) == Some(t)
    ensures StoredBranch(items[BranchKey := BranchName(b)]) == Some(b)
    ensures WellFormedStore(items[ThemeKey := ThemeName(t)])
    ensures WellFormedStore(items[BranchKey := BranchName(b)])
    ensures WellFormedStore(map[])
  {
    ThemeNameRoundTrip(t);
    BranchNameRoundTrip(b);
    assert ThemeKey != BranchKey;
  }

  /** In-sync storage restores exactly the theme and branch it holds. */
  lemma InSyncRestores(items: map<string, string>, t: Theme, b: Branch)
    requires InSync(items, t, b)
    ensures StoredTheme(items) == Some(t) && StoredBranch(items) == Some(b)
  {
    ThemeNameRoundTrip(t);
    BranchNameRoundTrip(b);
  }

  /** What `renderView` renders: a view and the branch it receives (settings receives none). */
  datatype Screen =
    | DashboardScreen(branch: Branch) | WeddingsScreen(branch: Branch) | StudioScreen(branch: Branch)
    | PersonnelScreen(branch: Branch) | PerformanceScreen(branch: Branch)
    | MarketingScreen(branch: Branch) | CrmScreen(branch: Branch) | SettingsScreen

  /** The `switch` of `renderView` on the view's name, with the dashboard as its default. */
  function Dispatch(name: string, b: Branch): Screen {
    if name == "dashboard" then DashboardScreen(b)
    else if name == "weddings" then WeddingsScreen(b)
    else if name == "studio" then StudioScreen(b)
    else if name == "personnel" then PersonnelScreen(b)
    else if name == "performance" then PerformanceScreen(b)
    else if name == "marketing" then MarketingScreen(b)
    else if name == "crm" then CrmScreen(b)
    else if name == "settings" then SettingsScreen
    else DashboardScreen(b)
  }

  function RenderView(v: ViewType, b: Branch): Screen {
    Dispatch(ViewName(v), b)
  }

  /** Every view but settings receives the current branch, and each view renders its own screen. */
  lemma RenderViewPassesBranch(v: ViewType, b: Branch)
    ensures RenderView(v, b).SettingsScreen? <==> v == SettingsTab
    ensures v != SettingsTab ==> RenderView(v, b).branch == b
    ensures RenderView(v, b).DashboardScreen? <==> v == DashboardTab
    ensures RenderView(v, b).WeddingsScreen? <==> v == WeddingsTab
    ensures RenderView(v, b).StudioScreen? <==> v == StudioTab
    ensures RenderView(v, b).PersonnelScreen? <==> v == PersonnelTab
    ensures RenderView(v, b).PerformanceScreen? <==> v == PerformanceTab
    ensures RenderView(v, b).MarketingScreen? <==> v == MarketingTab
    ensures RenderView(v, b).CrmScreen? <==> v == CrmTab
  {
  }

  /** A name that is no view falls back to the dashboard with the current branch. */
  lemma UnknownViewFallsBack(name: string, b: Branch)
    requires forall v: ViewType :: ViewName(v) != name
    ensures Dispatch(name, b) == DashboardScreen(b)
  {
    assert ViewName(DashboardTab) != name && ViewName(WeddingsTab) != name;
    assert ViewName(StudioTab) != name && ViewName(PersonnelTab) != name;
    assert ViewName(PerformanceTab) != name && ViewName(MarketingTab) != name;
    assert ViewName(CrmTab) != name && ViewName(SettingsTab) != name;
  }

  /** The label at the head of the page. */
  function HeaderLabel(b: Branch): string {
    if b == Global then "Vue Consolidée" else "Succursale " + BranchName(b)
  }

  /** Each branch has its own label, and only Global is labelled as the consolidated view. */
  lemma HeaderLabelsDistinct(a: Branch, b: Branch)
    ensures HeaderLabel(a) == HeaderLabel(b) <==> a == b
    ensures HeaderLabel(a) == "Vue Consolidée" <==> a == Global
  {
    assert |HeaderLabel(Global)| == 14 && |HeaderLabel(France)| == 17 && |HeaderLabel(Cameroun)| == 19;
  }

  /** `notifications.some(n => !n.read)`. */
  predicate HasUnread(ns: seq<AppNotification>) {
    exists i :: 0 <= i < |ns| && !ns[i].read
  }

  function UnreadCount(ns: seq<AppNotification>): nat
    decreases |ns|
  {
    if |ns| == 0 then 0 else (if ns[0].read then 0 else 1) + UnreadCount(ns[1..])
  }

  /** The badge shows exactly when the unread count is positive. */
  lemma {:induction false} UnreadIndicator(ns: seq<AppNotification>)
    ensures HasUnread(ns) <==> UnreadCount(ns) > 0
    decreases |ns|
  {
    if |ns| > 0 {
      UnreadIndicator(ns[1..]);
      if HasUnread(ns[1..]) {
        var i :| 0 <= i < |ns[1..]| && !ns[1..][i].read;
        assert !ns[i + 1].read;
      }
      if HasUnread(ns) && ns[0].read {
        var i :| 0 <= i < |ns| && !ns[i].read;
        assert !ns[1..][i - 1].read;
      }
    }
  }

  /** The initial list has two unread notifications, so the badge shows at start. */
  lemma InitialUnread()
    ensures UnreadCount(InitialNotifications()) == 2
    ensures HasUnread(InitialNotifications())
  {
    var ns := InitialNotifications();
    assert ns[1..][1..][1..] == [];
    UnreadIndicator(ns);
  }

  class Shell {
    var activeView: ViewType
    var selectedBranch: Branch
    var theme: Theme
    var notifications: seq<AppNotification>

    /** The first render: dashboard, Global, light theme, the three sample notifications. */
    constructor()
      ensures activeView == DashboardTab && selectedBranch == Global && theme == Light
      ensures notifications == InitialNotifications()
    {
      activeView := DashboardTab;
      selectedBranch := Global;
      theme := Light;
      notifications := InitialNotifications();
    }

    /**
     * The mount effects in order: the restore effect reads both keys, the persistence effects
     * of the first render write the initial values, and after the restored values are applied
     * the effects of whichever value changed write it again.
     */
    method Mount(store: LocalStorage)
      requires WellFormedStore(store.items)
      modifies this`theme, this`selectedBranch, store
      ensures theme == StoredTheme(old(store.items)).GetOr(old(theme))
      ensures selectedBranch == StoredBranch(old(store.items)).GetOr(old(selectedBranch))
      ensures store.items == old(store.items)[ThemeKey := ThemeName(theme)][BranchKey := BranchName(selectedBranch)]
      ensures InSync(store.items, theme, selectedBranch)
    {
      var saved := store.GetItem(ThemeKey);
      var savedBranch := store.GetItem(BranchKey);
      store.SetItem(ThemeKey, ThemeName(theme));
      store.SetItem(BranchKey, BranchName(selectedBranch));
      var first, firstBranch := theme, selectedBranch;
      if Truthy(saved) {
        theme := ThemeNamed(saved.value).value;
      }
      if Truthy(savedBranch) {
        selectedBranch := BranchNamed(savedBranch.value).value;
      }
      if theme != first {
        store.SetItem(ThemeKey, ThemeName(theme));
      }
      if selectedBranch != firstBranch {
        store.SetItem(BranchKey, BranchName(selectedBranch));
      }
      assert ThemeKey != BranchKey;
    }

    /** The theme button: the theme flips and its effect stores the new one. */
    method ToggleTheme(store: LocalStorage)
      modifies this`theme, store
      ensures theme == Toggled(old(theme))
      ensures store.items == old(store.items)[ThemeKey := ThemeName(theme)]
      ensures InSync(old(store.items), old(theme), selectedBranch) ==> InSync(store.items, theme, selectedBranch)
    {
      theme := Toggled(theme);
      store.SetItem(ThemeKey, ThemeName(theme));
      assert ThemeKey != BranchKey;
    }

    /** A choice in the branch selector; the effect writes only when the branch changes. */
    method SelectBranch(b: Branch, store: LocalStorage)
      modifies this`selectedBranch, store
      ensures selectedBranch == b
      ensures b != old(selectedBranch) ==> store.items == old(store.items)[BranchKey := BranchName(b)]
      ensures b == old(selectedBranch) ==> store.items == old(store.items)
      ensures InSync(old(store.items), theme, old(selectedBranch)) ==> InSync(store.items, theme, b)
    {
      var previous := selectedBranch;
      selectedBranch := b;
      if b != previous {
        store.SetItem(BranchKey, BranchName(b));
      }
      assert ThemeKey != BranchKey;
    }

    /** A click in the navigation or on the settings button. */
    method ShowView(v: ViewType)
      modifies this`activeView
      ensures activeView == v
    {
      activeView := v;
    }

    function CurrentScreen(): Screen
      reads this
    {
      RenderView(activeView, selectedBranch)
    }

    function Header(): string
      reads this
    {
      HeaderLabel(selectedBranch)
    }

    predicate UnreadBadge()
      reads this
    {
      HasUnread(notifications)
    }
  }

  /** The navigation items, in order; settings is reached by its own button. */
  function NavItems(): (r: seq<ViewType>)
    ensures |r| == 7 && r[0] == DashboardTab
    ensures forall v: ViewType :: v in r <==> v != SettingsTab
    ensures forall i, j :: 0 <= i < j < |r| ==> r[i] != r[j]
  {
    var r := [DashboardTab, WeddingsTab, StudioTab, PersonnelTab, CrmTab, PerformanceTab, MarketingTab];
    assert forall v: ViewType :: v != SettingsTab ==> v in r by {
      forall v: ViewType | v != SettingsTab
        ensures v in r
      {
        assert v.DashboardTab? || v.WeddingsTab? || v.StudioTab? || v.PersonnelTab?
            || v.CrmTab? || v.PerformanceTab? || v.MarketingTab?;
      }
    }
    r
  }
}
